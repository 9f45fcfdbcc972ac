/**
 Keeping the top `cap` elements of a finite set under a strict total order.
 Both eviction strategies are instances; nothing here knows what the order is.
 */
module Ranking {
  import opened Basics

  ghost predicate StrictTotal<T>(s: set<T>, lt: (T, T) -> bool) {
    && (forall x :: x in s ==> !lt(x, x))
    && (forall x, y :: x in s && y in s && x != y ==> lt(x, y) || lt(y, x))
    && (forall x, y, z :: x in s && y in s && z in s && lt(x, y) && lt(y, z) ==> lt(x, z))
  }

  ghost predicate SameOrder<T>(s: set<T>, lt: (T, T) -> bool, lt': (T, T) -> bool) {
    forall x, y :: x in s && y in s ==> (lt(x, y) <==> lt'(x, y))
  }

  ghost function Above<T>(s: set<T>, lt: (T, T) -> bool, x: T): set<T> {
    set y | y in s && lt(x, y)
  }

  /** The elements with fewer than `cap` elements above them. */
  ghost function Survivors<T>(s: set<T>, lt: (T, T) -> bool, cap: nat): set<T> {
    set x | x in s && |Above(s, lt, x)| < cap
  }

  ghost predicate IsLeast<T>(s: set<T>, lt: (T, T) -> bool, m: T) {
    m in s && forall y :: y in s && y != m ==> lt(m, y)
  }

  /** Evicting the least element of an overfull set does not change who survives. */
  lemma {:induction false} DropLeast<T>(s: set<T>, lt: (T, T) -> bool, lt': (T, T) -> bool, cap: nat, m: T)
    requires StrictTotal(s, lt) && IsLeast(s, lt, m) && cap < |s|
    requires SameOrder(s - {m}, lt, lt')
    ensures Survivors(s - {m}, lt', cap) == Survivors(s, lt, cap)
  {
    assert Above(s, lt, m) == s - {m};
    forall x | x in s && x != m
      ensures Above(s - {m}, lt', x) == Above(s, lt, x)
    {
      assert lt(m, x);
    }
  }

  lemma {:induction false} AllFit<T>(s: set<T>, lt: (T, T) -> bool, cap: nat)
    requires StrictTotal(s, lt) && |s| <= cap
    ensures Survivors(s, lt, cap) == s
  {
    forall x | x in s ensures |Above(s, lt, x)| < cap {
      SubsetCardinality(Above(s, lt, x), s - {x});
    }
  }

  /** A kept element is above every dropped one. */
  lemma {:induction false} KeptAboveDropped<T>(s: set<T>, lt: (T, T) -> bool, cap: nat, dropped: T, kept: T)
    requires StrictTotal(s, lt)
    requires dropped in s - Survivors(s, lt, cap) && kept in Survivors(s, lt, cap)
    ensures lt(dropped, kept)
  {
    if lt(kept, dropped) {
      SubsetCardinality(Above(s, lt, dropped), Above(s, lt, kept));
    }
  }

  /** The inclusion step: the larger set holds few enough extra elements. */
  lemma {:induction false} SurvivorsInclusion<T>(small: set<T>, large: set<T>, lt: (T, T) -> bool, lt': (T, T) -> bool,
                              cap: nat, cap': nat)
    requires small <= large && SameOrder(small, lt, lt')
    requires |large - small| <= cap' - cap
    ensures Survivors(small, lt, cap) <= Survivors(large, lt', cap')
  {
    forall x | x in Survivors(small, lt, cap)
      ensures x in Survivors(large, lt', cap')
    {
      var below, extra := Above(small, lt, x), large - small;
      SubsetCardinality(Above(large, lt', x), below + extra);
      assert |below + extra| == |below| + |extra| - |below * extra|;
    }
  }
}
