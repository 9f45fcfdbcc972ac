/**
 Recency lists: the key order of a Python OrderedDict that is used as an LRU
 (oldest first).  The node cache, the router index, the gap index and the
 last-seen table are all such lists; everything the bounded tables owe to the
 unbounded history follows from one fact, that a bounded table is a suffix of
 the unbounded recency list.
 */
module Lru {
  import opened Basics

  /** Position of the first `x` in `s`, or |s| when there is none. */
  function IndexOf<T(==)>(s: seq<T>, x: T): (i: nat)
    ensures i <= |s|
    ensures i < |s| <==> x in s
    ensures i < |s| ==> s[i] == x
    ensures forall j :: 0 <= j < i ==> s[j] != x
  {
    if s == [] then 0 else if s[0] == x then 0 else 1 + IndexOf(s[1..], x)
  }

  /** `pop(x, None)` on the key order. */
  function Without<T(==)>(s: seq<T>, x: T): seq<T> {
    var i := IndexOf(s, x);
    if i < |s| then s[..i] + s[i + 1..] else s
  }

  /** Move `x` to the most-recently-used end, inserting it if it is new. */
  function Touch<T(==)>(s: seq<T>, x: T): seq<T> {
    Without(s, x) + [x]
  }

  function TouchAll<T(==)>(s: seq<T>, xs: seq<T>): seq<T> {
    if xs == [] then s
    else Touch(TouchAll(s, xs[..|xs| - 1]), xs[|xs| - 1])
  }

  /** The `n` most recent entries: what `popitem(last=False)` down to `n` leaves. */
  function LastN<T>(s: seq<T>, n: nat): seq<T> {
    if |s| <= n then s else s[|s| - n..]
  }

  /** Every key ever touched, in order of its last touch: an unbounded table. */
  function Recency<T(==)>(xs: seq<T>): seq<T> {
    TouchAll([], xs)
  }

  ghost predicate Suffix<T>(a: seq<T>, b: seq<T>) {
    |a| <= |b| && a == b[|b| - |a|..]
  }

  lemma {:induction false} WithoutFacts<T>(s: seq<T>, x: T)
    requires Distinct(s)
    ensures Distinct(Without(s, x))
    ensures forall y :: y in Without(s, x) <==> y in s && y != x
    ensures |Without(s, x)| == if x in s then |s| - 1 else |s|
  {
    var r, i := Without(s, x), IndexOf(s, x);
    if i < |s| {
      forall y | y in s && y != x ensures y in r {
        var k :| 0 <= k < |s| && s[k] == y;
        assert y == if k < i then r[k] else r[k - 1];
      }
    }
  }

  /** Removing a key keeps the relative order of the others. */
  lemma {:induction false} WithoutOrder<T>(s: seq<T>, x: T, a: T, b: T)
    requires Distinct(s) && a in s && b in s && a != x && b != x
    ensures IndexOf(Without(s, x), a) < IndexOf(Without(s, x), b) <==> IndexOf(s, a) < IndexOf(s, b)
  {
    WithoutIndex(s, x, a);
    WithoutIndex(s, x, b);
  }

  lemma {:induction false} WithoutIndex<T>(s: seq<T>, x: T, a: T)
    requires Distinct(s) && a in s && a != x
    ensures IndexOf(Without(s, x), a) ==
            if IndexOf(s, a) < IndexOf(s, x) then IndexOf(s, a) else IndexOf(s, a) - 1
  {
    WithoutFacts(s, x);
    hide IndexOf, Distinct;
    var r, i, k := Without(s, x), IndexOf(s, x), IndexOf(s, a);
    if x in s {
      assert k != i;
      DropIndex(s, i, k);
    }
    IndexIs(r, a, if k < i then k else k - 1);
  }

  lemma DropIndex<T>(s: seq<T>, i: nat, k: nat)
    requires i < |s| && k < |s| && k != i
    ensures var p := if k < i then k else k - 1;
            p < |s[..i] + s[i + 1..]| && (s[..i] + s[i + 1..])[p] == s[k]
  {
  }

  lemma IndexIs<T>(s: seq<T>, x: T, p: nat)
    requires Distinct(s) && p < |s| && s[p] == x
    ensures IndexOf(s, x) == p
  {
  }

  lemma TouchNew<T>(s: seq<T>, x: T)
    requires x !in s
    ensures Touch(s, x) == s + [x]
  {
  }

  lemma {:induction false} TouchFacts<T>(s: seq<T>, x: T)
    requires Distinct(s)
    ensures Distinct(Touch(s, x))
    ensures Elems(Touch(s, x)) == Elems(s) + {x}
    ensures |s| <= |Touch(s, x)|
  {
    WithoutFacts(s, x);
  }

  lemma {:induction false} TouchAllFacts<T>(s: seq<T>, xs: seq<T>)
    requires Distinct(s)
    ensures Distinct(TouchAll(s, xs))
    ensures Elems(TouchAll(s, xs)) == Elems(s) + Elems(xs)
    ensures |s| <= |TouchAll(s, xs)|
  {
    assert xs == [] ==> Elems(s) + Elems(xs) == Elems(s);
    hide Touch, Distinct, Elems;
    if xs != [] {
      TouchAllFacts(s, xs[..|xs| - 1]);
      TouchFacts(TouchAll(s, xs[..|xs| - 1]), xs[|xs| - 1]);
      ElemsSnoc(xs);
    }
  }

  lemma {:induction false} TouchAllAppend<T>(s: seq<T>, xs: seq<T>, ys: seq<T>)
    ensures TouchAll(s, xs + ys) == TouchAll(TouchAll(s, xs), ys)
  {
    hide Touch;
    if ys == [] {
      assert xs + ys == xs;
    } else {
      TouchAllAppend(s, xs, ys[..|ys| - 1]);
      assert (xs + ys)[..|xs + ys| - 1] == xs + ys[..|ys| - 1];
    }
  }

  lemma {:induction false} IndexOfAppend<T>(p: seq<T>, a: seq<T>, x: T)
    ensures IndexOf(p + a, x) == if x in p then IndexOf(p, x) else |p| + IndexOf(a, x)
  {
    var i, k := IndexOf(p + a, x), if x in p then IndexOf(p, x) else |p| + IndexOf(a, x);
    if k < |p + a| {
      assert (p + a)[k] == x;
    }
  }

  /** Dropping one position of a concatenation drops it on the side it lies on. */
  lemma DropInAppend<T>(p: seq<T>, a: seq<T>, i: nat)
    requires i < |p + a|
    ensures i < |p| ==> (p + a)[..i] + (p + a)[i + 1..] == (p[..i] + p[i + 1..]) + a
    ensures i >= |p| ==> (p + a)[..i] + (p + a)[i + 1..] == p + (a[..i - |p|] + a[i - |p| + 1..])
  {
  }

  lemma {:induction false} WithoutAppend<T>(p: seq<T>, a: seq<T>, x: T)
    ensures Without(p + a, x) == if x in p then Without(p, x) + a else p + Without(a, x)
  {
    IndexOfAppend(p, a, x);
    if IndexOf(p + a, x) < |p + a| {
      DropInAppend(p, a, IndexOf(p + a, x));
    }
  }

  lemma {:induction false} TouchSuffix<T>(a: seq<T>, b: seq<T>, x: T)
    requires Distinct(b) && Suffix(a, b)
    ensures Suffix(Touch(a, x), Touch(b, x))
  {
    hide Without, IndexOf;
    var p := b[..|b| - |a|];
    assert b == p + a;
    WithoutAppend(p, a, x);
    if x in p {
      DisjointHalves(p, a, x);
      assert Touch(b, x) == Without(p, x) + Touch(a, x);
    } else {
      assert Touch(b, x) == p + Touch(a, x);
    }
  }

  lemma {:induction false} DisjointHalves<T>(p: seq<T>, a: seq<T>, x: T)
    requires Distinct(p + a) && x in p
    ensures x !in a && Without(a, x) == a
  {
    var k :| 0 <= k < |p| && p[k] == x;
    assert (p + a)[k] == x;
    assert forall j :: 0 <= j < |a| ==> a[j] == (p + a)[|p| + j];
  }

  lemma {:induction false} TouchAllSuffix<T>(a: seq<T>, b: seq<T>, xs: seq<T>)
    requires Distinct(b) && Suffix(a, b)
    ensures Suffix(TouchAll(a, xs), TouchAll(b, xs))
  {
    if xs != [] {
      var front := xs[..|xs| - 1];
      TouchAllSuffix(a, b, front);
      TouchAllFacts(b, front);
      TouchSuffix(TouchAll(a, front), TouchAll(b, front), xs[|xs| - 1]);
    }
  }

  lemma {:induction false} SuffixFacts<T>(a: seq<T>, b: seq<T>)
    requires Suffix(a, b)
    ensures Elems(a) <= Elems(b)
    ensures Distinct(b) ==> Distinct(a)
  {
    assert forall k :: 0 <= k < |a| ==> a[k] == b[|b| - |a| + k];
  }

  lemma LastNSuffix<T>(a: seq<T>, b: seq<T>, m: nat, n: nat)
    requires Suffix(a, b) && m <= n
    ensures Suffix(LastN(a, m), LastN(b, n))
  {
  }

  lemma SameLastN<T>(a: seq<T>, b: seq<T>, n: nat)
    requires Suffix(a, b) && (a == b || n <= |a|)
    ensures LastN(a, n) == LastN(b, n)
  {
  }

  /** One batch on a table trimmed to `cap` is one batch on the unbounded list, trimmed. */
  lemma {:induction false} TrimmedBatch<T>(u: seq<T>, xs: seq<T>, cap: nat)
    requires Distinct(u)
    ensures LastN(TouchAll(LastN(u, cap), xs), cap) == LastN(TouchAll(u, xs), cap)
  {
    hide TouchAll;
    var b := LastN(u, cap);
    SuffixFacts(b, u);
    TouchAllSuffix(b, u, xs);
    TouchAllFacts(b, xs);
    TouchAllFacts(u, xs);
    SameLastN(TouchAll(b, xs), TouchAll(u, xs), cap);
  }

  /** A table that gets one key at a time and is trimmed after each: session and gap tables. */
  function BoundedKeys<T(==)>(xs: seq<T>, cap: nat): seq<T> {
    if xs == [] then [] else LastN(Touch(BoundedKeys(xs[..|xs| - 1], cap), xs[|xs| - 1]), cap)
  }

  lemma {:induction false} BoundedKeysAreRecent<T>(xs: seq<T>, cap: nat)
    ensures BoundedKeys(xs, cap) == LastN(Recency(xs), cap)
    ensures Distinct(BoundedKeys(xs, cap))
  {
    if xs != [] {
      var front, x := xs[..|xs| - 1], xs[|xs| - 1];
      BoundedKeysAreRecent(front, cap);
      TouchAllFacts([], front);
      TrimmedBatch(Recency(front), [x], cap);
      TouchOne(Recency(front), x);
      TouchOne(LastN(Recency(front), cap), x);
    }
    RecentDistinct(xs, cap);
  }

  lemma {:induction false} TouchOne<T>(s: seq<T>, x: T)
    ensures TouchAll(s, [x]) == Touch(s, x)
  {
    assert [x][..0] == [];
    assert TouchAll(s, [x][..0]) == s;
  }

  lemma {:induction false} RecentDistinct<T>(xs: seq<T>, cap: nat)
    ensures Distinct(LastN(Recency(xs), cap))
  {
    TouchAllFacts([], xs);
    SuffixFacts(LastN(Recency(xs), cap), Recency(xs));
  }

  /**
   What was touched last stays: after touching `xs`, every key of `xs` is among
   the `cap` most recent as soon as `xs` has at most `cap` distinct keys.
   */
  lemma {:induction false} RecentlyTouchedStays<T>(u: seq<T>, xs: seq<T>, cap: nat)
    requires Distinct(u) && |Elems(xs)| <= cap
    ensures Elems(xs) <= Elems(LastN(TouchAll(u, xs), cap))
  {
    var own := TouchAll([], xs);
    assert Suffix([], u);
    TouchAllSuffix([], u, xs);
    TouchAllFacts([], xs);
    DistinctCardinality(own);
    assert Elems(own) == Elems(xs);
    LastNSuffix(own, TouchAll(u, xs), cap, cap);
    SuffixFacts(own, LastN(TouchAll(u, xs), cap));
  }

  // -------------------------------------------------------- recency, read off the history

  /** What was touched after the last `x`; everything if there is none. */
  function After<T(==)>(xs: seq<T>, x: T): seq<T> {
    if xs == [] || xs[|xs| - 1] == x then [] else After(xs[..|xs| - 1], x) + [xs[|xs| - 1]]
  }

  lemma {:induction false} AfterSnoc<T>(xs: seq<T>, y: T, x: T)
    ensures Elems(After(xs + [y], x)) == if y == x then {} else Elems(After(xs, x)) + {y}
    ensures x in xs + [y] <==> x == y || x in xs
  {
    assert (xs + [y])[..|xs|] == xs;
    if y != x {
      hide After;
      ElemsSnoc(After(xs, x) + [y]);
      assert (After(xs, x) + [y])[..|After(xs, x)|] == After(xs, x);
    }
  }

  lemma {:induction false} AfterSplits<T>(xs: seq<T>, x: T)
    requires x in xs
    ensures x !in After(xs, x) && |After(xs, x)| < |xs|
    ensures xs == xs[..|xs| - |After(xs, x)| - 1] + [x] + After(xs, x)
  {
    var n := |xs| - 1;
    ElemsSnoc(xs);
    if xs[n] != x {
      AfterSplits(xs[..n], x);
      var k := |xs[..n]| - |After(xs[..n], x)| - 1;
      assert xs[..n][..k] == xs[..k];
    }
  }

  lemma {:induction false} AfterIs<T>(p: seq<T>, x: T, s: seq<T>)
    requires x !in s
    ensures After(p + [x] + s, x) == s
  {
    var xs := p + [x] + s;
    if s == [] {
      assert xs[|xs| - 1] == x;
    } else {
      AfterIs(p, x, s[..|s| - 1]);
      assert xs[..|xs| - 1] == p + [x] + s[..|s| - 1];
      assert xs[|xs| - 1] == s[|s| - 1] && s[|s| - 1] in s;
    }
  }

  lemma {:induction false} TouchBehind<T>(x: T, s: seq<T>, y: T)
    requires y != x
    ensures Touch([x] + s, y) == [x] + Touch(s, y)
  {
    WithoutAppend([x], s, y);
    hide Without;
    assert y !in [x];
  }

  lemma {:induction false} TouchAllBehind<T>(x: T, s: seq<T>)
    requires x !in s
    ensures TouchAll([x], s) == [x] + TouchAll([], s)
  {
    if s == [] {
      assert [x] + TouchAll([], s) == [x];
    } else {
      var front, last := s[..|s| - 1], s[|s| - 1];
      TouchAllBehind(x, front);
      TouchBehind(x, TouchAll([], front), last);
      hide Touch;
    }
  }

  lemma {:induction false} InLastN<T>(r: seq<T>, pos: nat, cap: nat)
    requires Distinct(r) && pos < |r|
    ensures r[pos] in LastN(r, cap) <==> |r| - pos <= cap
  {
    if |r| > cap {
      var kept := LastN(r, cap);
      if pos >= |r| - cap {
        assert kept[pos - (|r| - cap)] == r[pos];
      } else {
        assert forall k :: 0 <= k < |kept| ==> kept[k] == r[|r| - cap + k];
      }
    }
  }

  /** A key is among the `cap` most recent exactly if fewer than `cap` distinct keys were touched since. */
  lemma {:induction false} RecentIffFewSince<T>(xs: seq<T>, x: T, cap: nat)
    ensures x in LastN(Recency(xs), cap) <==> x in xs && |Elems(After(xs, x))| < cap
  {
    hide TouchAll, Touch, LastN;
    TouchAllFacts([], xs);
    SuffixFacts(LastN(Recency(xs), cap), Recency(xs)) by {
      LastNIsSuffix(Recency(xs), cap);
    }
    assert Elems<T>([]) + Elems(xs) == Elems(xs);
    if x in xs {
      RecentPosition(xs, x);
      InLastN(Recency(xs), |Recency(xs)| - 1 - |Elems(After(xs, x))|, cap);
    } else {
      assert x !in Elems(LastN(Recency(xs), cap));
    }
  }

  lemma LastNIsSuffix<T>(r: seq<T>, cap: nat)
    ensures Suffix(LastN(r, cap), r)
  {
  }

  /** The unbounded list ends with the last `x` followed by what was touched after it. */
  lemma {:induction false} RecencyEnds<T>(p: seq<T>, x: T, s: seq<T>)
    requires x !in s
    ensures Suffix([x] + Recency(s), Recency(p + [x] + s))
  {
    TouchAllFacts([], p);
    TouchFacts(Recency(p), x);
    hide TouchAll, Touch, Without, Distinct, Elems;
    TouchAllAppend([], p + [x], s);
    TouchAllAppend([], p, [x]);
    TouchOne(Recency(p), x);
    LastOf(Recency(p), x);
    TouchAllSuffix([x], Touch(Recency(p), x), s);
    TouchAllBehind(x, s);
  }

  lemma {:induction false} RecentPosition<T>(xs: seq<T>, x: T)
    requires x in xs
    ensures |Elems(After(xs, x))| < |Recency(xs)|
    ensures Distinct(Recency(xs)) && Recency(xs)[|Recency(xs)| - 1 - |Elems(After(xs, x))|] == x
  {
    hide After, TouchAll, Distinct, Elems, Suffix;
    AfterSplits(xs, x);
    var s := After(xs, x);
    RecencySize(s);
    RecencySize(xs);
    RecencyEnds(xs[..|xs| - |s| - 1], x, s);
    EndsAt(Recency(xs), x, Recency(s));
  }

  lemma {:induction false} RecencySize<T>(s: seq<T>)
    ensures Distinct(Recency(s)) && Elems(Recency(s)) == Elems(s) && |Recency(s)| == |Elems(s)|
  {
    TouchAllFacts([], s);
    NothingAdded(s);
    hide TouchAll, Distinct, Elems;
    DistinctCardinality(Recency(s));
  }

  lemma {:induction false} EndsAt<T>(r: seq<T>, x: T, tail: seq<T>)
    requires Suffix([x] + tail, r)
    ensures |tail| < |r| && r[|r| - 1 - |tail|] == x
  {
    assert r[|r| - 1 - |tail|..][0] == ([x] + tail)[0];
  }

  lemma LastOf<T>(s: seq<T>, x: T)
    ensures Suffix([x], Touch(s, x))
  {
  }

  lemma NothingAdded<T>(s: seq<T>)
    ensures Elems<T>([]) + Elems(s) == Elems(s)
  {
  }
}
