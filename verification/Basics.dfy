/** Small value types shared by every module. */
module Basics {

  datatype Option<+T> = None | Some(value: T)

  /** A point in time, or Python's `float("inf")`. */
  datatype Time = At(t: real) | Never

  predicate TimeLess(a: Time, b: Time) {
    a.At? && (b.Never? || a.t < b.t)
  }

  /** A mark with this expiry has lapsed at `now`. */
  predicate Expired(expiry: Time, now: real) {
    expiry.At? && expiry.t <= now
  }

  function MaxReal(a: real, b: real): real {
    if a >= b then a else b
  }

  function Max(a: int, b: int): int {
    if a >= b then a else b
  }

  function Min(a: int, b: int): int {
    if a <= b then a else b
  }

  ghost predicate Distinct<T>(s: seq<T>) {
    forall i, j :: 0 <= i < j < |s| ==> s[i] != s[j]
  }

  function Elems<T>(s: seq<T>): set<T> {
    set x | x in s
  }

  lemma {:induction false} ElemsSnoc<T>(s: seq<T>)
    requires s != []
    ensures Elems(s) == Elems(s[..|s| - 1]) + {s[|s| - 1]}
    ensures forall x :: x in s <==> x in s[..|s| - 1] || x == s[|s| - 1]
  {
    assert s == s[..|s| - 1] + [s[|s| - 1]];
  }

  lemma {:induction false} DistinctCardinality<T>(s: seq<T>)
    requires Distinct(s)
    ensures |Elems(s)| == |s|
  {
    if s != [] {
      DistinctCardinality(s[..|s| - 1]);
      ElemsSnoc(s);
    }
  }

  lemma {:induction false} SubsetCardinality<T>(a: set<T>, b: set<T>)
    requires a <= b
    ensures |a| <= |b|
    ensures |b - a| == |b| - |a|
  {
    assert b == a + (b - a);
  }
}
