/**
 A simulated inference node: a single-server queue and a block cache with two
 side tables for retention directives.  `strategy` selects between the directive
 node and the lookahead node, which differ in victim selection only.
 */
module Nodes {
  import opened Basics
  import opened Lru
  import opened Eviction
  import opened EvictionLaws
  import opened Shedding

  /** The combined directive table: one mark per key of both side tables. */
  function Marks(priority: map<Block, int>, expiry: map<Block, Time>): map<Block, Mark> {
    map b | b in priority && b in expiry :: Mark(priority[b], expiry[b])
  }

  lemma MarksStamp(priority: map<Block, int>, expiry: map<Block, Time>, b: Block, mark: Mark)
    ensures Marks(priority[b := mark.priority], expiry[b := mark.expiry]) == Marks(priority, expiry)[b := mark]
  {
  }

  lemma MarksClear(priority: map<Block, int>, expiry: map<Block, Time>, b: Block)
    ensures Marks(priority - {b}, expiry - {b}) == Marks(priority, expiry) - {b}
  {
  }

  lemma {:induction false} RemovalFacts(e: Evictor, c: Cache, v: Block)
    requires Distinct(c.order) && c.order != [] && v == Victim(e, c)
    ensures Distinct(Without(c.order, v)) && |Without(c.order, v)| == |c.order| - 1
    ensures forall x :: x in Without(c.order, v) <==> x in c.order && x != v
    ensures Eviction.EvictOne(e, c) ==
            Cache(Without(c.order, v), c.marks - {v}, c.pinned + if Sacrifices(e, c, v) then 1 else 0)
  {
    WithoutFacts(c.order, v);
  }

  class Node {
    const nodeId: nat
    const capacity: nat
    const strategy: Strategy
    var busyUntil: real
    var cache: seq<Block>
    var priority: map<Block, int>
    var expiry: map<Block, Time>
    var pinnedEvictions: nat
    var atIndex: nat

    /** Distinct resident blocks; the two side tables share their keys and never outlive a block. */
    ghost predicate Sound()
      reads this
    {
      Distinct(cache) && priority.Keys == expiry.Keys && priority.Keys <= Elems(cache)
    }

    ghost predicate Valid()
      reads this
    {
      Sound() && |cache| <= capacity
    }

    function View(): Cache
      reads this
    {
      Cache(cache, Marks(priority, expiry), pinnedEvictions)
    }

    lemma ViewIsCoherent()
      requires Sound()
      ensures Coherent(View()) && View().marks.Keys == priority.Keys
    {
    }

    constructor (nodeId: nat, capacity: nat, strategy: Strategy)
      ensures this.nodeId == nodeId && this.capacity == capacity && this.strategy == strategy
      ensures Valid() && View() == EMPTY && busyUntil == 0.0
    {
      this.nodeId, this.capacity, this.strategy := nodeId, capacity, strategy;
      busyUntil := 0.0;
      cache, priority, expiry, pinnedEvictions, atIndex := [], map[], map[], 0, 0;
    }

    method Admit(now: real, service: real, blocks: seq<Block>, retainUntil: real, at: nat, prio: Option<int>)
      requires Valid()
      modifies this
      ensures Valid()
      ensures busyUntil == MaxReal(now, old(busyUntil)) + service
      ensures var a := Admission(now, service, blocks, retainUntil, at, prio);
              && View() == Eviction.Admit(old(View()), strategy, capacity, a)
              && KeepsTop(old(View()), View(), strategy, capacity, a)
    {
      hide KeepsTop, Coherent, Marks, InsertAll, EvictLoop, Directive, Distinct, Elems;
      ghost var c := View();
      ViewIsCoherent();
      atIndex := at;
      var start := MaxReal(now, busyUntil);
      busyUntil := start + service;
      InsertBatch(blocks, Directive(now, retainUntil, prio));
      EvictToFit(now);
      AdmitKeepsTop(c, strategy, capacity, Admission(now, service, blocks, retainUntil, at, prio));
    }

    /** The insertion loop: each block moves to the fresh end and has its mark stamped or cleared. */
    method InsertBatch(blocks: seq<Block>, mark: Option<Mark>)
      requires Sound()
      modifies this`cache, this`priority, this`expiry
      ensures Sound()
      ensures View() == InsertAll(old(View()), blocks, mark)
    {
      hide Marks, Distinct;
      for i := 0 to |blocks|
        invariant Sound()
        invariant View() == InsertAll(old(View()), blocks[..i], mark)
      {
        assert blocks[..i + 1][..i] == blocks[..i];
        InsertBlock(blocks[i], mark);
      }
      assert blocks[..|blocks|] == blocks;
    }

    /** The eviction loop: one victim at a time until the cache fits. */
    method EvictToFit(now: real)
      requires Sound()
      modifies this`cache, this`priority, this`expiry, this`pinnedEvictions
      ensures Valid()
      ensures View() == EvictLoop(Evictor(strategy, now, atIndex), old(View()), capacity)
    {
      hide Marks, Distinct;
      ghost var e, t := Evictor(strategy, now, atIndex), View();
      while |cache| > capacity
        invariant Sound()
        invariant EvictLoop(e, View(), capacity) == EvictLoop(e, t, capacity)
        decreases |cache|
      {
        EvictOne(now);
      }
    }

    /** One iteration of the insertion loop: move to the fresh end, stamp or clear the mark. */
    method InsertBlock(b: Block, mark: Option<Mark>)
      requires Sound()
      modifies this`cache, this`priority, this`expiry
      ensures Sound()
      ensures View() == Insert(old(View()), b, mark)
    {
      WithoutFacts(cache, b);
      cache := Without(cache, b);
      cache := cache + [b];
      if mark.None? {
        priority := priority - {b};
        expiry := expiry - {b};
        MarksClear(old(priority), old(expiry), b);
      } else {
        priority := priority[b := mark.value.priority];
        expiry := expiry[b := mark.value.expiry];
        MarksStamp(old(priority), old(expiry), b, mark.value);
      }
      assert forall x :: x in cache <==> x == b || x in old(cache);
    }

    method EvictOne(now: real)
      requires Sound()
      modifies this`cache, this`priority, this`expiry, this`pinnedEvictions
      ensures Sound()
      ensures old(cache) == [] ==> View() == old(View())
      ensures old(cache) != [] ==> View() == Eviction.EvictOne(Evictor(strategy, now, atIndex), old(View()))
      ensures old(cache) != [] ==> |cache| == |old(cache)| - 1
    {
      hide Victim, RankOf, Sacrifices, Eviction.EvictOne, Without, Distinct;
      ghost var c := View();
      var victim := PickVictim(now);
      if victim.None? {
        return;
      }
      RemovalFacts(Evictor(strategy, now, atIndex), c, victim.value);
      Remove(victim.value);
    }

    /** Take a block out of the cache and of both side tables. */
    method Remove(b: Block)
      requires Sound() && Distinct(Without(cache, b))
      requires forall x :: x in Without(cache, b) <==> x in cache && x != b
      modifies this`cache, this`priority, this`expiry
      ensures Sound()
      ensures View() == Cache(Without(old(cache), b), old(View()).marks - {b}, pinnedEvictions)
    {
      hide Without, Distinct, Marks;
      MarksClear(priority, expiry, b);
      assert forall x :: x in priority ==> x in cache;
      cache := Without(cache, b);
      priority := priority - {b};
      expiry := expiry - {b};
      assert forall x :: x in priority ==> x in cache;
    }

    /**
     Victim selection: both strategies return the least block of the one eviction order, which is
     the block that gives way to every other by its side-table entries and its age, or by its next use.
     */
    method PickVictim(now: real) returns (victim: Option<Block>)
      requires Sound()
      modifies this`pinnedEvictions
      ensures victim.None? <==> cache == []
      ensures cache != [] ==> victim == Some(Victim(Evictor(strategy, now, atIndex), old(View())))
      ensures pinnedEvictions == old(pinnedEvictions) +
              if cache != [] && Sacrifices(Evictor(strategy, now, atIndex), old(View()), victim.value) then 1 else 0
      ensures cache != [] && strategy.Directives? ==> Sheds(now, victim.value)
      ensures cache != [] && strategy.Directives? ==>
                (pinnedEvictions > old(pinnedEvictions) <==> Leased(SideMark(priority, expiry, victim.value), now))
      ensures cache != [] && strategy.Lookahead? ==> LeavesLast(strategy.futureUses, victim.value)
    {
      hide UsedLast, GoesNext, Leased, RankOf, VictimIndex, Distinct, Elems;
      if strategy.Lookahead? {
        if cache != [] {
          VictimIsUsedLast(Evictor(strategy, now, atIndex), View());
        }
        victim := PickByNextUse(now);
      } else {
        victim := PickByDirective(now);
      }
    }

    /** Victim `b` stands where the side tables and the ages say that it goes next. */
    ghost predicate Sheds(now: real, b: Block)
      reads this
    {
      exists v :: 0 <= v < |cache| && cache[v] == b && GoesNext(cache, priority, expiry, now, v)
    }

    /** Victim `b` is the oldest block never used again or, if there is none, the one used again last. */
    ghost predicate LeavesLast(futureUses: map<Block, seq<nat>>, b: Block)
      reads this
    {
      exists v :: 0 <= v < |cache| && cache[v] == b && UsedLast(futureUses, atIndex, cache, v)
    }

    method PickByDirective(now: real) returns (victim: Option<Block>)
      requires Sound() && strategy.Directives?
      modifies this`pinnedEvictions
      ensures victim.None? <==> cache == []
      ensures cache != [] ==> victim == Some(Victim(Evictor(strategy, now, atIndex), old(View())))
      ensures pinnedEvictions == old(pinnedEvictions) +
              if cache != [] && Sacrifices(Evictor(strategy, now, atIndex), old(View()), victim.value) then 1 else 0
      ensures cache != [] ==> Sheds(now, victim.value)
      ensures cache != [] ==>
                (pinnedEvictions > old(pinnedEvictions) <==> Leased(SideMark(priority, expiry, victim.value), now))
    {
      hide Sacrifices, RankOf, Best, VictimIndex, Distinct, Elems, GoesNext, Leased;
      ghost var e, c := Evictor(strategy, now, atIndex), View();
      if cache != [] {
        VictimGoesNext(e, c, priority, expiry);
      }
      if |priority| == 0 {
        if cache == [] {
          return None;
        }
        NoMarksMeansOldest(e, c);
        return Some(cache[0]);
      }
      var evictFirst, unmarked, marked := ScanBuckets(now);
      ScanDecides(e, c);
      if evictFirst.Some? {
        return evictFirst;
      }
      if unmarked.Some? {
        return unmarked;
      }
      if marked.Some? {
        pinnedEvictions := pinnedEvictions + 1;
      }
      return marked;
    }

    /** The oldest-first scan: the first block of each bucket of least rank in it. */
    method ScanBuckets(now: real)
      returns (evictFirst: Option<Block>, unmarked: Option<Block>, marked: Option<Block>)
      requires Sound() && strategy.Directives?
      ensures var e, c := Evictor(strategy, now, atIndex), View();
              && evictFirst == AtPosition(cache, Best(e, c, |cache|, 0))
              && unmarked == AtPosition(cache, Best(e, c, |cache|, 1))
              && marked == AtPosition(cache, Best(e, c, |cache|, 2))
    {
      hide RankOf, Marks, Distinct, Elems;
      ghost var e, c := Evictor(strategy, now, atIndex), View();
      evictFirst, unmarked, marked := None, None, None;
      var markedKey: Option<(int, Time)> := None;
      for i := 0 to |cache|
        invariant evictFirst == AtPosition(cache, Best(e, c, i, 0))
        invariant unmarked == AtPosition(cache, Best(e, c, i, 1))
        invariant marked == AtPosition(cache, Best(e, c, i, 2))
        invariant markedKey == BestKey(e, c, i)
      {
        var h := cache[i];
        ScanStep(e, c, i, priority, expiry);
        if h !in priority || Expired(expiry[h], now) {
          if unmarked.None? {
            unmarked := Some(h);
          }
        } else if priority[h] < 0 {
          if evictFirst.None? {
            evictFirst := Some(h);
          }
        } else {
          var key := (priority[h], expiry[h]);
          if markedKey.None? || KeyLess(key, markedKey.value) {
            markedKey, marked := Some(key), Some(h);
          }
        }
      }
    }

    method PickByNextUse(now: real) returns (victim: Option<Block>)
      requires Sound() && strategy.Lookahead?
      ensures victim.None? <==> cache == []
      ensures cache != [] ==> victim == Some(Victim(Evictor(strategy, now, atIndex), View()))
    {
      ghost var e, c := Evictor(strategy, now, atIndex), View();
      victim := None;
      var victimNext: int := -1;
      for i := 0 to |cache|
        invariant Best(e, c, i, 0) < 0
        invariant victim == AtPosition(cache, Best(e, c, i, 1))
        invariant victimNext == if Best(e, c, i, 1) < 0 then -1 else 0 - RankAt(e, c, Best(e, c, i, 1)).level
        invariant victimNext >= -1
      {
        var h := cache[i];
        var next := NextUse(strategy.futureUses, h, atIndex);
        if next.None? {
          NeverUsedDecides(e, c, i);
          return Some(h);
        }
        if next.value > victimNext {
          victimNext, victim := next.value, Some(h);
        }
      }
      if victim.Some? {
        BucketDecides(e, c, 1);
      } else {
        NoBucketMeansEmpty(e, c);
      }
    }
  }

  /** The three cases of the scan, read off the two side tables. */
  lemma {:induction false} DirectiveRank(e: Evictor, c: Cache, i: nat, priority: map<Block, int>,
                                         expiry: map<Block, Time>)
    requires e.strategy.Directives? && i < |c.order|
    requires c.marks == Marks(priority, expiry) && priority.Keys == expiry.Keys
    ensures var h := c.order[i];
            RankAt(e, c, i) ==
            if h !in priority || Expired(expiry[h], e.now) then Rank(1, 0, Never)
            else if priority[h] < 0 then Rank(0, 0, Never)
            else Rank(2, priority[h], expiry[h])
  {
    assert c.order[i] in c.marks <==> c.order[i] in priority;
  }

  /** What one more position does to the three buckets of the scan. */
  lemma {:induction false} ScanStep(e: Evictor, c: Cache, i: nat, priority: map<Block, int>, expiry: map<Block, Time>)
    requires e.strategy.Directives? && i < |c.order|
    requires c.marks == Marks(priority, expiry) && priority.Keys == expiry.Keys
    ensures var h, p, q, m := c.order[i], Best(e, c, i, 0), Best(e, c, i, 1), Best(e, c, i, 2);
            if h !in priority || Expired(expiry[h], e.now) then
              Best(e, c, i + 1, 0) == p && Best(e, c, i + 1, 1) == (if q < 0 then i else q) && Best(e, c, i + 1, 2) == m
            else if priority[h] < 0 then
              Best(e, c, i + 1, 0) == (if p < 0 then i else p) && Best(e, c, i + 1, 1) == q && Best(e, c, i + 1, 2) == m
            else
              && Best(e, c, i + 1, 0) == p && Best(e, c, i + 1, 1) == q
              && Best(e, c, i + 1, 2) == (if m < 0
                 || KeyLess((priority[h], expiry[h]), BestKey(e, c, i).value) then i else m)
              && RankAt(e, c, i).level == priority[h] && RankAt(e, c, i).expiry == expiry[h]
  {
    DirectiveRank(e, c, i, priority, expiry);
    FlatBuckets(e, c, i, 0);
    FlatBuckets(e, c, i, 1);
  }

  /** Only live marks are ranked within their bucket. */
  lemma FlatBuckets(e: Evictor, c: Cache, n: nat, bucket: nat)
    requires e.strategy.Directives? && n <= |c.order| && bucket < 2
    ensures var p := Best(e, c, n, bucket); p >= 0 ==> RankAt(e, c, p) == Rank(bucket, 0, Never)
  {
  }

  /** Comparison of the `(priority, expiry)` tuples of live marks. */
  predicate KeyLess(a: (int, Time), b: (int, Time)) {
    a.0 < b.0 || (a.0 == b.0 && TimeLess(a.1, b.1))
  }

  ghost function AtPosition(order: seq<Block>, p: int): Option<Block>
    requires p < |order|
  {
    if p < 0 then None else Some(order[p])
  }

  /** Among the first `n` positions of a bucket the first one of least rank; -1 if there is none. */
  ghost function Best(e: Evictor, c: Cache, n: nat, bucket: nat): (p: int)
    requires n <= |c.order|
    ensures -1 <= p < n
    ensures p >= 0 ==> RankAt(e, c, p).bucket == bucket
  {
    if n == 0 then -1
    else
      var p, r := Best(e, c, n - 1, bucket), RankAt(e, c, n - 1);
      if r.bucket == bucket && (p < 0 || RankLess(r, RankAt(e, c, p))) then n - 1 else p
  }

  ghost function BestKey(e: Evictor, c: Cache, n: nat): Option<(int, Time)>
    requires n <= |c.order|
  {
    var p := Best(e, c, n, 2);
    if p < 0 then None else Some((RankAt(e, c, p).level, RankAt(e, c, p).expiry))
  }

  lemma {:induction false} BestFacts(e: Evictor, c: Cache, n: nat, bucket: nat, k: nat)
    requires k < n <= |c.order| && RankAt(e, c, k).bucket == bucket
    ensures Best(e, c, n, bucket) >= 0
    ensures !RankLess(RankAt(e, c, k), RankAt(e, c, Best(e, c, n, bucket)))
    ensures k < Best(e, c, n, bucket) ==> RankLess(RankAt(e, c, Best(e, c, n, bucket)), RankAt(e, c, k))
  {
    if k < n - 1 {
      BestFacts(e, c, n - 1, bucket, k);
    }
  }

  /** The lowest non-empty bucket holds the victim. */
  lemma {:induction false} BucketDecides(e: Evictor, c: Cache, bucket: nat)
    requires Best(e, c, |c.order|, bucket) >= 0
    requires forall b :: 0 <= b < bucket ==> Best(e, c, |c.order|, b) < 0
    ensures VictimIndex(e, c.order, c.marks) == Best(e, c, |c.order|, bucket)
  {
    var n, p := |c.order|, Best(e, c, |c.order|, bucket);
    forall k | 0 <= k < n
      ensures !RankLess(RankAt(e, c, k), RankAt(e, c, p))
      ensures k < p ==> RankLess(RankAt(e, c, p), RankAt(e, c, k))
    {
      BestFacts(e, c, n, RankAt(e, c, k).bucket, k);
    }
    VictimIndexUnique(e, c, p);
  }

  lemma {:induction false} NoMarksMeansOldest(e: Evictor, c: Cache)
    requires e.strategy.Directives? && c.marks == map[] && c.order != []
    ensures VictimIndex(e, c.order, c.marks) == 0
    ensures !Sacrifices(e, c, c.order[0])
  {
    VictimIndexUnique(e, c, 0);
  }

  lemma {:induction false} NeverUsedDecides(e: Evictor, c: Cache, p: nat)
    requires e.strategy.Lookahead? && p < |c.order|
    requires RankAt(e, c, p).bucket == 0 && Best(e, c, p, 0) < 0
    ensures VictimIndex(e, c.order, c.marks) == p
  {
    forall k | 0 <= k < p ensures RankLess(RankAt(e, c, p), RankAt(e, c, k)) {
      if RankAt(e, c, k).bucket == 0 {
        BestFacts(e, c, p, 0, k);
      }
    }
    VictimIndexUnique(e, c, p);
  }

  lemma {:induction false} NoBucketMeansEmpty(e: Evictor, c: Cache)
    requires forall b :: 0 <= b <= 2 ==> Best(e, c, |c.order|, b) < 0
    ensures c.order == []
  {
    if c.order != [] {
      BestFacts(e, c, |c.order|, RankAt(e, c, 0).bucket, 0);
    }
  }

  /** The first non-empty bucket of the scan is the victim, and only bucket 2 costs a lease. */
  lemma {:induction false} ScanDecides(e: Evictor, c: Cache)
    requires e.strategy.Directives?
    ensures var n := |c.order|;
            var p, q, m := Best(e, c, n, 0), Best(e, c, n, 1), Best(e, c, n, 2);
            && (c.order == [] ==> p < 0 && q < 0 && m < 0)
            && (c.order != [] ==>
                  && VictimIndex(e, c.order, c.marks) == (if p >= 0 then p else if q >= 0 then q else m)
                  && (Sacrifices(e, c, Victim(e, c)) <==> p < 0 && q < 0))
  {
    var n := |c.order|;
    if Best(e, c, n, 0) >= 0 {
      BucketDecides(e, c, 0);
    } else if Best(e, c, n, 1) >= 0 {
      BucketDecides(e, c, 1);
    } else if Best(e, c, n, 2) >= 0 {
      BucketDecides(e, c, 2);
    } else {
      NoBucketMeansEmpty(e, c);
    }
  }
}
