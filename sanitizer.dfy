/**
 * The plugin's recursive sanitizer for decoded tier data: every non-array leaf,
 * at any depth, goes through `sanitize_text_field` (the parameter `clean`), and
 * keys, order and nesting stay as they were.
 */
module Sanitizer {
  import opened OrderedMaps
  import opened Php

  /** The sanitized form of one element: arrays recursively, any other value through clean. */
  function SanitizedElement(v: Value, clean: Value -> string): Value
    decreases v, 1
  {
    if v.Arr? then Sanitized(v, clean) else Str(clean(v))
  }

  /** What `sanitize` returns: arrays get every element sanitized; a non-array input is returned as it is (its `foreach` does nothing). */
  function Sanitized(data: Value, clean: Value -> string): Value
    decreases data, 0
  {
    match data
    case Arr(es) => Arr(seq(|es|, i requires 0 <= i < |es| => (es[i].0, SanitizedElement(es[i].1, clean))))
    case _ => data
  }

  /** The nesting of a value: keys and arrays kept, every leaf replaced by null. */
  function Skeleton(v: Value): Value {
    match v
    case Arr(es) => Arr(seq(|es|, i requires 0 <= i < |es| => (es[i].0, Skeleton(es[i].1))))
    case _ => Null
  }

  /** `sanitize` walks the array in place and recurses into array elements. */
  method Sanitize(data: Value, clean: Value -> string) returns (r: Value)
    ensures r == Sanitized(data, clean)
    decreases data
  {
    if !data.Arr? {
      return data;
    }
    var es := data.entries;
    var i := 0;
    while i < |es|
      invariant 0 <= i <= |es| == |data.entries|
      invariant forall j :: 0 <= j < i ==> es[j] == (data.entries[j].0, SanitizedElement(data.entries[j].1, clean))
      invariant forall j :: i <= j < |es| ==> es[j] == data.entries[j]
    {
      var (key, value) := es[i];
      assert data.entries[i] in data.entries;
      if value.Arr? {
        var inner := Sanitize(value, clean);
        es := es[i := (key, inner)];
      } else {
        es := es[i := (key, Str(clean(value)))];
      }
      i := i + 1;
    }
    r := Arr(es);
  }

  /** Sanitizing keeps every key, every array and the order of entries, at every level. */
  lemma {:induction false} SanitizedKeepsShape(data: Value, clean: Value -> string)
    ensures Skeleton(Sanitized(data, clean)) == Skeleton(data)
    decreases data
  {
    if data.Arr? {
      var es := data.entries;
      var r := Sanitized(data, clean).entries;
      forall i | 0 <= i < |es|
        ensures r[i].0 == es[i].0 && Skeleton(r[i].1) == Skeleton(es[i].1)
      {
        assert es[i] in es;
        assert r[i] == (es[i].0, SanitizedElement(es[i].1, clean));
        if es[i].1.Arr? {
          SanitizedKeepsShape(es[i].1, clean);
        }
      }
    }
  }

  /**
   * r is v with every non-array value below the top replaced by its clean string:
   * same keys in the same order at every level, arrays where v has arrays.
   */
  ghost predicate CleanedFrom(r: Value, v: Value, clean: Value -> string)
    decreases v, 0
  {
    match v
    case Arr(es) =>
      r.Arr? && |r.entries| == |es|
      && forall i :: 0 <= i < |es| ==> r.entries[i].0 == es[i].0 && CleanedElementFrom(r.entries[i].1, es[i].1, clean)
    case _ => r == v
  }

  ghost predicate CleanedElementFrom(r: Value, v: Value, clean: Value -> string)
    decreases v, 1
  {
    if v.Arr? then CleanedFrom(r, v, clean) else r == Str(clean(v))
  }

  /** Each leaf of the result is sanitize_text_field of the leaf at the same place in the input. */
  lemma {:induction false} SanitizedCleansEachLeaf(data: Value, clean: Value -> string)
    ensures CleanedFrom(Sanitized(data, clean), data, clean)
    decreases data
  {
    if data.Arr? {
      var es := data.entries;
      var r := Sanitized(data, clean).entries;
      forall i | 0 <= i < |es|
        ensures r[i].0 == es[i].0 && CleanedElementFrom(r[i].1, es[i].1, clean)
      {
        assert es[i] in es;
        assert r[i] == (es[i].0, SanitizedElement(es[i].1, clean));
        if es[i].1.Arr? {
          SanitizedCleansEachLeaf(es[i].1, clean);
        }
      }
    }
  }

  /** sanitize_text_field is idempotent: cleaning a cleaned string changes nothing. */
  ghost predicate CleanIsIdempotent(clean: Value -> string) {
    forall v :: clean(Str(clean(v))) == clean(v)
  }

  /** With an idempotent sanitize_text_field, sanitizing twice is sanitizing once. */
  lemma {:induction false} SanitizedIdempotent(data: Value, clean: Value -> string)
    requires CleanIsIdempotent(clean)
    ensures Sanitized(Sanitized(data, clean), clean) == Sanitized(data, clean)
    decreases data
  {
    if data.Arr? {
      var es := data.entries;
      var once := Sanitized(data, clean).entries;
      var twice := Sanitized(Sanitized(data, clean), clean).entries;
      assert |twice| == |once| == |es|;
      forall i | 0 <= i < |es|
        ensures twice[i] == once[i]
      {
        assert es[i] in es;
        assert once[i] == (es[i].0, SanitizedElement(es[i].1, clean));
        assert twice[i] == (once[i].0, SanitizedElement(once[i].1, clean));
        if es[i].1.Arr? {
          SanitizedIdempotent(es[i].1, clean);
        }
      }
    }
  }
}
