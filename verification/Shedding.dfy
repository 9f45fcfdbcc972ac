/**
 Which of two blocks gives way, read off the marks they are under: evict-first before
 unmarked or lapsed before leased, and among leases the lower priority, then the sooner
 expiry, then the older block.
 */
module Shedding {
  import opened Basics
  import opened Lru
  import opened Ranking
  import opened Eviction
  import opened EvictionLaws
  import Leases

  ghost function MarkIn(marks: map<Block, Mark>, b: Block): Option<Mark> {
    if b in marks then Some(marks[b]) else None
  }

  /** The same, off the priority and the expiry table of a node. */
  ghost function SideMark(priority: map<Block, int>, expiry: map<Block, Time>, b: Block): Option<Mark> {
    if b in priority && b in expiry then Some(Mark(priority[b], expiry[b])) else None
  }

  ghost predicate InForce(m: Option<Mark>, now: real) {
    m.Some? && (m.value.expiry.Never? || now < m.value.expiry.t)
  }

  ghost predicate EvictFirst(m: Option<Mark>, now: real) {
    InForce(m, now) && m.value.priority < 0
  }

  ghost predicate Leased(m: Option<Mark>, now: real) {
    InForce(m, now) && m.value.priority >= 0
  }

  ghost predicate Sooner(s: Time, t: Time) {
    s.At? && (t.Never? || s.t < t.t)
  }

  /** A block under `m` goes before a block under `m'`. */
  ghost predicate Yields(m: Option<Mark>, m': Option<Mark>, now: real) {
    || (EvictFirst(m, now) && !EvictFirst(m', now))
    || (!InForce(m, now) && Leased(m', now))
    || (Leased(m, now) && Leased(m', now) &&
        (m.value.priority < m'.value.priority ||
         (m.value.priority == m'.value.priority && Sooner(m.value.expiry, m'.value.expiry))))
  }

  /** Every other block of `order` stays longer than the one at `v`: by its mark, or by being newer. */
  ghost predicate GoesNext(order: seq<Block>, priority: map<Block, int>, expiry: map<Block, Time>, now: real, v: nat)
    requires v < |order|
  {
    forall i :: 0 <= i < |order| && i != v ==>
      var m, m' := SideMark(priority, expiry, order[v]), SideMark(priority, expiry, order[i]);
      Yields(m, m', now) || (!Yields(m', m, now) && v < i)
  }

  lemma {:induction false} RankIsYielding(e: Evictor, marks: map<Block, Mark>, x: Block, y: Block)
    requires e.strategy.Directives?
    ensures RankLess(RankOf(e, marks, x), RankOf(e, marks, y)) <==>
            Yields(MarkIn(marks, x), MarkIn(marks, y), e.now)
    ensures RankOf(e, marks, x).bucket == 2 <==> Leased(MarkIn(marks, x), e.now)
  {
  }

  /** The victim of the directive order is the block that gives way to every other. */
  lemma {:induction false} VictimGoesNext(e: Evictor, c: Cache, priority: map<Block, int>, expiry: map<Block, Time>)
    requires e.strategy.Directives? && c.order != []
    requires forall b :: MarkIn(c.marks, b) == SideMark(priority, expiry, b)
    ensures GoesNext(c.order, priority, expiry, e.now, VictimIndex(e, c.order, c.marks))
    ensures Sacrifices(e, c, Victim(e, c)) <==> Leased(SideMark(priority, expiry, Victim(e, c)), e.now)
  {
    var order, marks := c.order, c.marks;
    var v := VictimIndex(e, order, marks);
    hide RankOf, RankLess, Yields, SideMark, Leased;
    RankIsYielding(e, marks, order[v], order[v]);
    forall i | 0 <= i < |order| && i != v
      ensures var m, m' := SideMark(priority, expiry, order[v]), SideMark(priority, expiry, order[i]);
              Yields(m, m', e.now) || (!Yields(m', m, e.now) && v < i)
    {
      RankIsYielding(e, marks, order[v], order[i]);
      RankIsYielding(e, marks, order[i], order[v]);
    }
  }

  /** The block at `v` is the oldest one never used again or, if there is none, the one used again last. */
  ghost predicate UsedLast(futureUses: map<Block, seq<nat>>, atIndex: nat, order: seq<Block>, v: nat)
    requires v < |order|
  {
    forall i :: 0 <= i < |order| && i != v ==>
      var n, n' := NextUse(futureUses, order[v], atIndex), NextUse(futureUses, order[i], atIndex);
      if n.None? then n'.Some? || v < i
      else n'.Some? && (n'.value < n.value || (n'.value == n.value && v < i))
  }

  lemma {:induction false} VictimIsUsedLast(e: Evictor, c: Cache)
    requires e.strategy.Lookahead? && c.order != []
    ensures UsedLast(e.strategy.futureUses, e.atIndex, c.order, VictimIndex(e, c.order, c.marks))
  {
  }

  // ------------------------------------------------------------------------ runs

  /** What block `b` is under when the eviction loop of `a` starts. */
  ghost function MarkAfter(c: Cache, a: Admission, b: Block): Option<Mark> {
    if b in a.blocks then Directive(a.now, a.retainUntil, a.priority) else MarkIn(c.marks, b)
  }

  /** Block `x` was used less recently than block `y` when the eviction loop of `a` starts. */
  ghost predicate Older(c: Cache, a: Admission, x: Block, y: Block) {
    x in c.order && x !in a.blocks &&
    (y in a.blocks || (y in c.order && IndexOf(c.order, x) < IndexOf(c.order, y)))
  }

  lemma {:induction false} TouchAllKeepsOlder(s: seq<Block>, bs: seq<Block>, x: Block, y: Block)
    requires Distinct(s) && x in s && x !in bs
    requires y in bs || (y in s && IndexOf(s, x) < IndexOf(s, y))
    ensures IndexOf(TouchAll(s, bs), x) < IndexOf(TouchAll(s, bs), y)
  {
    if bs != [] {
      var front, last := bs[..|bs| - 1], bs[|bs| - 1];
      TouchAllFacts(s, front);
      ElemsSnoc(bs);
      var t := TouchAll(s, front);
      assert x in Elems(t) && (y in front || y in s ==> y in Elems(t));
      if y != last || y in front || (y in s && IndexOf(s, x) < IndexOf(s, y)) {
        TouchAllKeepsOlder(s, front, x, y);
      }
      TouchFacts(t, last);
      assert x in Elems(Touch(t, last)) && y in Elems(Touch(t, last));
      TouchKeepsOrder(t, last, x, y);
    }
  }

  /**
   Of two blocks in reach of an admission, the one that gives way by its mark, or by its
   age when neither mark decides, never outlives the other.
   */
  lemma {:induction false} WeakerGoesFirst(c: Cache, cap: nat, a: Admission, x: Block, y: Block)
    requires Coherent(c) && (x in c.order || x in a.blocks) && (y in c.order || y in a.blocks)
    requires || Yields(MarkAfter(c, a, x), MarkAfter(c, a, y), a.now)
             || (!Yields(MarkAfter(c, a, y), MarkAfter(c, a, x), a.now) && Older(c, a, x, y))
    requires x in Admit(c, Directives, cap, a).order
    ensures y in Admit(c, Directives, cap, a).order
  {
    hide Admit, Survivors, Line, Before, Yields, Directive;
    var e, t, c' := EvictorAt(Directives, a), Inserted(c, a), Admit(c, Directives, cap, a);
    AdmitKeepsTop(c, Directives, cap, a);
    WeakerIsBefore(c, a, x, y);
    LineIsStrictTotal(e, t);
    var all := Elems(t.order);
    assert x in Elems(c'.order) && x in all && y in all;
    if y !in Elems(c'.order) {
      KeptAboveDropped(all, Line(e, t), cap, y, x);
    }
  }

  lemma {:induction false} WeakerIsBefore(c: Cache, a: Admission, x: Block, y: Block)
    requires Coherent(c)
    requires || Yields(MarkAfter(c, a, x), MarkAfter(c, a, y), a.now)
             || (!Yields(MarkAfter(c, a, y), MarkAfter(c, a, x), a.now) && Older(c, a, x, y))
    ensures Line(EvictorAt(Directives, a), Inserted(c, a))(x, y)
    ensures !Line(EvictorAt(Directives, a), Inserted(c, a))(y, x)
  {
    var e, t := EvictorAt(Directives, a), Inserted(c, a);
    InsertAllMarks(c, a.blocks, Directive(a.now, a.retainUntil, a.priority));
    InsertAllFacts(c, a.blocks, Directive(a.now, a.retainUntil, a.priority));
    assert MarkIn(t.marks, x) == MarkAfter(c, a, x) && MarkIn(t.marks, y) == MarkAfter(c, a, y);
    RankIsYielding(e, t.marks, x, y);
    RankIsYielding(e, t.marks, y, x);
    RankTrichotomy(RankOf(e, t.marks, x), RankOf(e, t.marks, y));
    if Older(c, a, x, y) {
      TouchAllKeepsOlder(c.order, a.blocks, x, y);
    }
    hide RankOf, RankLess, Yields, InsertAll, Directive;
  }

  /** Over whole runs: whatever was admitted before, each admission sheds in the order of the marks. */
  lemma {:induction false} RunsShedInOrder(cap: nat, ops: seq<Admission>, k: nat, x: Block, y: Block)
    requires k < |ops|
    requires var c, a := Leases.Prefix(cap, ops, k), ops[k];
             && (x in c.order || x in a.blocks) && (y in c.order || y in a.blocks)
             && (|| Yields(MarkAfter(c, a, x), MarkAfter(c, a, y), a.now)
                 || (!Yields(MarkAfter(c, a, y), MarkAfter(c, a, x), a.now) && Older(c, a, x, y)))
    requires x in Leases.Prefix(cap, ops, k + 1).order
    ensures y in Leases.Prefix(cap, ops, k + 1).order
  {
    hide Admit, Run, Yields, MarkAfter, Older;
    Leases.PrefixStep(cap, ops, k);
    WeakerGoesFirst(Leases.Prefix(cap, ops, k), cap, ops[k], x, y);
  }

  /**
   Two blocks leased by earlier admissions at equal priority, the first one sooner to
   expire: the step that drops the second one has no room for the first one either.
   */
  lemma {:induction false} SoonerLeaseGoesFirst(cap: nat, ops: seq<Admission>, i: nat, j: nat, k: nat,
                                                x: Block, s: real, y: Block, expiry: Time, priority: int)
    requires i <= k && j <= k < |ops| && s > ops[k].now
    requires Leases.LeaseRuns(ops, i, k + 1, x, Mark(priority, At(s)))
    requires Leases.LeaseRuns(ops, j, k + 1, y, Mark(priority, expiry))
    requires expiry.Never? || s < expiry.t
    requires i < k ==> Leases.HeldWith(Leases.Prefix(cap, ops, k), x, Mark(priority, At(s)))
    requires j < k ==> Leases.HeldWith(Leases.Prefix(cap, ops, k), y, Mark(priority, expiry))
    requires y !in Leases.Prefix(cap, ops, k + 1).order
    ensures x !in Leases.Prefix(cap, ops, k + 1).order
  {
    hide Run, Directive;
    var c, a := Leases.Prefix(cap, ops, k), ops[k];
    assert Yields(MarkAfter(c, a, x), MarkAfter(c, a, y), a.now);
    if x in Leases.Prefix(cap, ops, k + 1).order {
      RunsShedInOrder(cap, ops, k, x, y);
    }
  }
}
