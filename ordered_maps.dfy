/**
 * Ordered maps the way PHP arrays keep them: a sequence of key/value entries in
 * insertion order. Assigning to an existing key overwrites the value in place;
 * assigning to a new key appends; unsetting a key drops its entry and keeps the
 * order of the rest.
 */
module OrderedMaps {
  import opened Wrappers

  type OrderedMap<K, V> = seq<(K, V)>

  function Keys<K, V>(m: OrderedMap<K, V>): (ks: seq<K>)
    ensures |ks| == |m|
  {
    if m == [] then [] else [m[0].0] + Keys(m[1..])
  }

  lemma {:induction false} KeysAt<K, V>(m: OrderedMap<K, V>, i: int)
    requires 0 <= i < |m|
    ensures Keys(m)[i] == m[i].0
  {
    if i > 0 {
      KeysAt(m[1..], i - 1);
    }
  }

  lemma KeysAppend<K, V>(m: OrderedMap<K, V>, e: (K, V))
    ensures Keys(m + [e]) == Keys(m) + [e.0]
  {
    if m != [] {
      assert (m + [e])[1..] == m[1..] + [e];
      KeysAppend(m[1..], e);
    }
  }

  /** No key occurs twice: every PHP array satisfies this. */
  predicate DistinctKeys<K(==), V>(m: OrderedMap<K, V>) {
    forall i, j :: 0 <= i < j < |m| ==> m[i].0 != m[j].0
  }

  /** The value stored under k, if any (the first entry with that key). */
  function Get<K(==,!new), V>(m: OrderedMap<K, V>, k: K): (r: Option<V>)
    ensures r.Some? <==> k in Keys(m)
    ensures r.Some? ==> (k, r.value) in m
  {
    if m == [] then None
    else if m[0].0 == k then Some(m[0].1)
    else Get(m[1..], k)
  }

  lemma {:induction false} GetAt<K(!new), V>(m: OrderedMap<K, V>, i: int)
    requires DistinctKeys(m) && 0 <= i < |m|
    ensures Get(m, m[i].0) == Some(m[i].1)
  {
    if i > 0 {
      assert m[0].0 != m[i].0;
      GetAt(m[1..], i - 1);
    }
  }

  lemma {:induction false} InKeys<K(!new), V>(m: OrderedMap<K, V>, k: K)
    ensures k in Keys(m) <==> exists i :: 0 <= i < |m| && m[i].0 == k
  {
    if m != [] {
      InKeys(m[1..], k);
      if k in Keys(m[1..]) {
        var i :| 0 <= i < |m[1..]| && m[1..][i].0 == k;
        assert m[i + 1].0 == k;
      }
      forall i | 0 <= i < |m| && m[i].0 == k && i > 0
        ensures k in Keys(m[1..])
      {
        assert m[1..][i - 1].0 == k;
      }
    }
  }

  /** `$m[k] = v`: overwrite in place when k is present, append otherwise. */
  function Set<K(==,!new), V>(m: OrderedMap<K, V>, k: K, v: V): OrderedMap<K, V> {
    if m == [] then [(k, v)]
    else if m[0].0 == k then
      assert ([(k, v)] + m[1..])[1..] == m[1..];
      [(k, v)] + m[1..]
    else
      var rest := Set(m[1..], k, v);
      assert ([m[0]] + rest)[1..] == rest;
      [m[0]] + rest
  }

  /** After `$m[k] = v`, k reads v and every other key reads what it read before. */
  lemma {:induction false} SetGet<K(!new), V>(m: OrderedMap<K, V>, k: K, v: V)
    ensures Get(Set(m, k, v), k) == Some(v)
    ensures forall k' :: k' != k ==> Get(Set(m, k, v), k') == Get(m, k')
  {
    if m != [] && m[0].0 != k {
      SetGet(m[1..], k, v);
    }
  }

  /** `$m[k] = v` keeps the keys and their order, adding k at the end when it is new. */
  lemma {:induction false} SetKeys<K(!new), V>(m: OrderedMap<K, V>, k: K, v: V)
    ensures Keys(Set(m, k, v)) == if k in Keys(m) then Keys(m) else Keys(m) + [k]
  {
    if m != [] {
      var r := Set(m, k, v);
      assert Keys(m) == [m[0].0] + Keys(m[1..]);
      assert r[1..] == if m[0].0 == k then m[1..] else Set(m[1..], k, v);
      assert Keys(r) == [r[0].0] + Keys(r[1..]);
      if m[0].0 != k {
        SetKeys(m[1..], k, v);
        if k !in Keys(m[1..]) {
          assert [m[0].0] + (Keys(m[1..]) + [k]) == ([m[0].0] + Keys(m[1..])) + [k];
        }
      }
    }
  }

  /** Each entry of `$m[k] = v` is the written one or the entry of m at the same place. */
  lemma {:induction false} SetAt<K(!new), V>(m: OrderedMap<K, V>, k: K, v: V, i: int)
    requires 0 <= i < |Set(m, k, v)|
    ensures Set(m, k, v)[i] == (k, v) || (i < |m| && Set(m, k, v)[i] == m[i])
  {
    if m != [] && m[0].0 != k && i > 0 {
      SetAt(m[1..], k, v, i - 1);
    }
  }

  /** `$m[k] = v` keeps every entry whose key it does not write. */
  lemma {:induction false} SetOtherEntry<K(!new), V>(m: OrderedMap<K, V>, k: K, v: V, e: (K, V))
    requires e in Set(m, k, v) && e.0 != k
    ensures e in m
  {
    if m != [] && m[0].0 != k {
      if e != m[0] {
        assert e in Set(m[1..], k, v);
        SetOtherEntry(m[1..], k, v, e);
      }
    }
  }

  /** Writing a key the map does not have appends it. */
  lemma {:induction false} SetFresh<K(!new), V>(m: OrderedMap<K, V>, k: K, v: V)
    requires k !in Keys(m)
    ensures Set(m, k, v) == m + [(k, v)]
  {
    if m != [] {
      assert Keys(m) == [m[0].0] + Keys(m[1..]);
      SetFresh(m[1..], k, v);
      assert m + [(k, v)] == [m[0]] + (m[1..] + [(k, v)]);
    }
  }

  lemma {:induction false} SetTwice<K(!new), V>(m: OrderedMap<K, V>, k: K, v: V, w: V)
    ensures Set(Set(m, k, v), k, w) == Set(m, k, w)
  {
    if m != [] && m[0].0 != k {
      SetTwice(m[1..], k, v, w);
    }
  }

  /** `unset($m[k])`: drop the entry of k; a missing key is no error. */
  function Unset<K(==,!new), V>(m: OrderedMap<K, V>, k: K): (r: OrderedMap<K, V>)
    ensures Get(r, k) == None
    ensures forall k' :: k' != k ==> Get(r, k') == Get(m, k')
    ensures |r| <= |m|
  {
    if m == [] then []
    else if m[0].0 == k then Unset(m[1..], k)
    else [m[0]] + Unset(m[1..], k)
  }

  lemma {:induction false} SetKeepsDistinct<K(!new), V>(m: OrderedMap<K, V>, k: K, v: V)
    requires DistinctKeys(m)
    ensures DistinctKeys(Set(m, k, v))
  {
    var r := Set(m, k, v);
    SetKeys(m, k, v);
    forall i, j | 0 <= i < j < |r| ensures r[i].0 != r[j].0 {
      KeysAt(r, i);
      KeysAt(r, j);
      if k in Keys(m) {
        KeysAt(m, i);
        KeysAt(m, j);
      } else {
        KeysAt(m, i);
        if j < |m| {
          KeysAt(m, j);
        } else {
          InKeys(m, k);
        }
      }
    }
  }

  /** r keeps some of the elements of s, in their order. */
  predicate IsSubsequence<T(==)>(r: seq<T>, s: seq<T>)
    decreases |s|
  {
    if r == [] then true
    else if s == [] then false
    else if r[0] == s[0] then IsSubsequence(r[1..], s[1..])
    else IsSubsequence(r, s[1..])
  }
}
