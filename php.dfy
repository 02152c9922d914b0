/**
 * The PHP values the plugin moves around: scalars and arrays (ordered maps from
 * integer or string keys), plus the few language rules the model depends on:
 * reading a missing key, `isset`, truthiness, `$a[] = v`, the cast of string keys,
 * and PHP 8's loose `==` between an integer and a string.
 */
module Php {
  import opened Wrappers
  import opened OrderedMaps

  datatype Key = IntKey(i: int) | StrKey(s: string)

  /** A value as `json_decode(..., true)` and the option arrays produce it (floats are not modelled). */
  datatype Value =
    | Null
    | Bool(b: bool)
    | Int(n: int)
    | Str(s: string)
    | Arr(entries: seq<(Key, Value)>)

  type Array = OrderedMap<Key, Value>

  /** `$m[k]` as an rvalue: a missing key reads as null. */
  function Read(m: Array, k: Key): Value {
    Get(m, k).GetOr(Null)
  }

  /** `isset($m[k])`: present and not null. */
  predicate IsSet(m: Array, k: Key) {
    Read(m, k) != Null
  }

  /** PHP's conversion to bool. */
  predicate Truthy(v: Value) {
    match v
    case Null => false
    case Bool(b) => b
    case Int(n) => n != 0
    case Str(s) => s != "" && s != "0"
    case Arr(es) => es != []
  }

  /** The key `$m[] = v` assigns: one past the largest integer key, and never below 0. */
  function NextIndex(m: Array): (n: int)
    ensures n >= 0
    ensures forall i :: 0 <= i < |m| && m[i].0.IntKey? ==> m[i].0.i < n
  {
    if m == [] then 0
    else
      var prev := NextIndex(m[..|m| - 1]);
      var last := m[|m| - 1].0;
      if last.IntKey? && last.i + 1 > prev then last.i + 1 else prev
  }

  /** `$m[] = v`. */
  function Push(m: Array, v: Value): (r: Array)
    ensures |r| == |m| + 1 && r[..|m|] == m && r[|m|].1 == v
    ensures Keys(r) == Keys(m) + [r[|m|].0]
    ensures DistinctKeys(m) ==> DistinctKeys(r)
  {
    KeysAppend(m, (IntKey(NextIndex(m)), v));
    m + [(IntKey(NextIndex(m)), v)]
  }

  /** An array literal with string keys, `array('a' => x, 'b' => y)`. */
  function Lit(fields: seq<(string, Value)>): (r: Array)
    ensures |r| == |fields|
  {
    if fields == [] then [] else [(StrKey(fields[0].0), fields[0].1)] + Lit(fields[1..])
  }

  /** Reading a literal's field gives the value of its first field of that name. */
  lemma {:induction false} ReadLit(fields: seq<(string, Value)>, i: int)
    requires 0 <= i < |fields|
    requires forall j :: 0 <= j < i ==> fields[j].0 != fields[i].0
    ensures Read(Lit(fields), StrKey(fields[i].0)) == fields[i].1
  {
    if i > 0 {
      ReadLit(fields[1..], i - 1);
    }
  }

  /** The keys of a literal are its field names, in order. */
  lemma {:induction false} LitKeys(fields: seq<(string, Value)>)
    ensures Keys(Lit(fields)) == seq(|fields|, j requires 0 <= j < |fields| => StrKey(fields[j].0))
  {
    if fields != [] {
      LitKeys(fields[1..]);
    }
  }

  /** A list literal, `array(x, y, z)`, keyed 0, 1, 2, ... */
  function List(vs: seq<Value>): (r: Array)
    ensures |r| == |vs|
    ensures forall i :: 0 <= i < |vs| ==> r[i] == (IntKey(i), vs[i])
  {
    seq(|vs|, i requires 0 <= i < |vs| => (IntKey(i), vs[i]))
  }

  /** Appending to a list continues its numbering. */
  lemma PushList(vs: seq<Value>, v: Value)
    ensures Push(List(vs), v) == List(vs + [v])
  {
    NextIndexList(vs);
  }

  lemma {:induction false} NextIndexList(vs: seq<Value>)
    ensures NextIndex(List(vs)) == |vs|
  {
    if vs != [] {
      assert List(vs)[..|vs| - 1] == List(vs[..|vs| - 1]);
      NextIndexList(vs[..|vs| - 1]);
    }
  }

  // ---- Decimal integers in strings ----

  predicate IsDigit(c: char) {
    '0' <= c <= '9'
  }

  function DigitChar(d: int): (c: char)
    requires 0 <= d < 10
    ensures IsDigit(c)
  {
    ('0' as int + d) as char
  }

  function DigitValue(c: char): int
    requires IsDigit(c)
  {
    c as int - '0' as int
  }

  predicate AllDigits(s: string) {
    forall i :: 0 <= i < |s| ==> IsDigit(s[i])
  }

  /** The digits of n, most significant first, without leading zeros. */
  function NatString(n: nat): (s: string)
    ensures |s| > 0
  {
    if n < 10 then [DigitChar(n)] else NatString(n / 10) + [DigitChar(n % 10)]
  }

  /** `(string)$n` for an integer. */
  function DecimalString(n: int): string {
    if n < 0 then "-" + NatString(-n) else NatString(n)
  }

  function DigitsValue(s: string): nat
    requires AllDigits(s)
  {
    if s == [] then 0 else DigitsValue(s[..|s| - 1]) * 10 + DigitValue(s[|s| - 1])
  }

  /** A sign (optional) followed by at least one decimal digit: PHP's integer numeric strings without surrounding whitespace. */
  predicate IsIntegerString(s: string) {
    if |s| > 0 && (s[0] == '-' || s[0] == '+') then |s| > 1 && AllDigits(s[1..])
    else |s| > 0 && AllDigits(s)
  }

  function ParseInt(s: string): int
    requires IsIntegerString(s)
  {
    if s[0] == '-' then -(DigitsValue(s[1..]) as int)
    else if s[0] == '+' then DigitsValue(s[1..])
    else DigitsValue(s)
  }

  lemma {:induction false} NatStringRoundTrip(n: nat)
    ensures AllDigits(NatString(n)) && NatString(n)[0] != '-' && NatString(n)[0] != '+'
    ensures DigitsValue(NatString(n)) == n
  {
    var s := NatString(n);
    if n >= 10 {
      NatStringRoundTrip(n / 10);
      var p := NatString(n / 10);
      assert s == p + [DigitChar(n % 10)];
      assert s[..|s| - 1] == p;
    }
  }

  /** Rendering an integer and reading it back gives the integer. */
  lemma DecimalStringRoundTrip(n: int)
    ensures IsIntegerString(DecimalString(n))
    ensures ParseInt(DecimalString(n)) == n
  {
    if n < 0 {
      NatStringRoundTrip(-n);
      assert DecimalString(n)[1..] == NatString(-n);
    } else {
      NatStringRoundTrip(n);
    }
  }

  /**
   * The key PHP stores for a string key: a string in canonical decimal form
   * ("7", "-3", not "07" or "+3") becomes an integer key.
   */
  function ArrayKey(s: string): Key {
    if IsIntegerString(s) && DecimalString(ParseInt(s)) == s then IntKey(ParseInt(s)) else StrKey(s)
  }

  lemma ArrayKeyInjective(a: string, b: string)
    ensures ArrayKey(a) == ArrayKey(b) ==> a == b
  {
  }

  /** The whitespace PHP allows around a numeric string: space, \t, \n, \r, \v and \f. */
  predicate IsWhitespace(c: char) {
    c == ' ' || c == '\t' || c == '\n' || c == '\r' || c as int == 11 || c as int == 12
  }

  predicate AllWhitespace(s: string) {
    forall i :: 0 <= i < |s| ==> IsWhitespace(s[i])
  }

  /** s without its leading whitespace. */
  function TrimStart(s: string): (r: string)
    ensures |r| <= |s|
  {
    if s != [] && IsWhitespace(s[0]) then TrimStart(s[1..]) else s
  }

  /** s without its trailing whitespace. */
  function TrimEnd(s: string): (r: string)
    ensures |r| <= |s|
  {
    if s != [] && IsWhitespace(s[|s| - 1]) then TrimEnd(s[..|s| - 1]) else s
  }

  function Trim(s: string): string {
    TrimEnd(TrimStart(s))
  }

  /**
   * PHP 8's `$n == $s` for an integer n and a string s: a string that is an integer
   * numeric string once its surrounding whitespace is dropped is compared by value,
   * any other string is compared with n's decimal rendering.
   */
  predicate LooseEquals(n: int, s: string) {
    var t := Trim(s);
    if IsIntegerString(t) then n == ParseInt(t) else DecimalString(n) == s
  }

  /** A rendered integer has no surrounding whitespace. */
  lemma DecimalStringTrimmed(n: int)
    ensures Trim(DecimalString(n)) == DecimalString(n)
  {
    var s := DecimalString(n);
    DecimalStringRoundTrip(n);
    NatStringRoundTrip(if n < 0 then -n else n);
    assert !IsWhitespace(s[0]);
    assert TrimStart(s) == s;
    assert !IsWhitespace(s[|s| - 1]) by {
      if n < 0 {
        assert s[|s| - 1] == NatString(-n)[|NatString(-n)| - 1];
      }
    }
  }

  lemma {:induction false} TrimStartPadded(w: string, t: string)
    requires AllWhitespace(w)
    ensures TrimStart(w + t) == TrimStart(t)
  {
    if w == [] {
      assert w + t == t;
    } else {
      assert (w + t)[0] == w[0];
      assert (w + t)[1..] == w[1..] + t;
      TrimStartPadded(w[1..], t);
    }
  }

  lemma {:induction false} TrimEndPadded(t: string, w: string)
    requires AllWhitespace(w)
    ensures TrimEnd(t + w) == TrimEnd(t)
  {
    if w == [] {
      assert t + w == t;
    } else {
      assert (t + w)[|t + w| - 1] == w[|w| - 1];
      assert (t + w)[..|t + w| - 1] == t + w[..|w| - 1];
      TrimEndPadded(t, w[..|w| - 1]);
    }
  }

  /** A string loosely equals at most one integer. */
  lemma LooseEqualsUnique(a: int, b: int, s: string)
    requires LooseEquals(a, s) && LooseEquals(b, s)
    ensures a == b
  {
    DecimalStringRoundTrip(a);
    DecimalStringRoundTrip(b);
  }

  /** An integer loosely equals its own rendering and never the empty string. */
  lemma LooseEqualsRendering(n: int)
    ensures LooseEquals(n, DecimalString(n))
    ensures !LooseEquals(n, "")
  {
    DecimalStringRoundTrip(n);
    DecimalStringTrimmed(n);
  }

  /** An integer also loosely equals its rendering with whitespace on either side, as in `7 == " 7\n"`. */
  lemma LooseEqualsPadded(n: int, before: string, after: string)
    requires AllWhitespace(before) && AllWhitespace(after)
    ensures LooseEquals(n, before + DecimalString(n) + after)
  {
    var d := DecimalString(n);
    TrimStartPadded(before, d + after);
    assert before + d + after == before + (d + after);
    DecimalStringTrimmed(n);
    assert TrimStart(d + after) == d + after by {
      assert (d + after)[0] == d[0];
    }
    TrimEndPadded(d, after);
    DecimalStringRoundTrip(n);
  }
}
