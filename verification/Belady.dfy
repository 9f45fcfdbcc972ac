/**
 The lookahead node on one request stream: its next-use table is exact, and its
 evictions collect at least as many block hits as any other eviction schedule of
 the same capacity.
 */
module Belady {
  import opened Basics
  import opened Ranking
  import opened Eviction
  import opened EvictionLaws
  import opened Lru
  import Blocks

  type Stream = seq<seq<Block>>

  // ------------------------------------------------------------- next-use table

  /** `uses` lists, in ascending order, exactly the requests among the first `n` that contain `b`. */
  ghost predicate ListsUses(reqs: Stream, n: nat, b: Block, uses: seq<nat>)
    requires n <= |reqs|
  {
    Ascending(uses) && forall i: nat :: i in uses <==> i < n && b in reqs[i]
  }

  ghost predicate IsUseTable(reqs: Stream, n: nat, table: map<Block, seq<nat>>)
    requires n <= |reqs|
  {
    forall b :: if b in table then ListsUses(reqs, n, b, table[b]) else ListsUses(reqs, n, b, [])
  }

  /** Uses recorded once the first `k` blocks of request `idx` are in. */
  ghost predicate RowSoFar(reqs: Stream, idx: nat, k: nat, uses: map<Block, seq<nat>>)
    requires idx < |reqs| && k <= |reqs[idx]|
  {
    forall b ::
      ListsUses(reqs, if b in reqs[idx][..k] then idx + 1 else idx, b, if b in uses then uses[b] else [])
  }

  method BuildFutureUses(reqs: Stream) returns (uses: map<Block, seq<nat>>)
    ensures IsUseTable(reqs, |reqs|, uses)
  {
    uses := map[];
    for idx := 0 to |reqs|
      invariant IsUseTable(reqs, idx, uses)
    {
      for k := 0 to |reqs[idx]|
        invariant RowSoFar(reqs, idx, k, uses)
      {
        RowStep(reqs, idx, k, uses);
        var bh := reqs[idx][k];
        uses := uses[bh := (if bh in uses then uses[bh] else []) + [idx]];
      }
      RowDone(reqs, idx, uses);
    }
  }

  lemma {:induction false} RowStep(reqs: Stream, idx: nat, k: nat, uses: map<Block, seq<nat>>)
    requires idx < |reqs| && k < |reqs[idx]| && RowSoFar(reqs, idx, k, uses)
    ensures var bh := reqs[idx][k];
            RowSoFar(reqs, idx, k + 1, uses[bh := (if bh in uses then uses[bh] else []) + [idx]])
  {
    hide ListsUses;
    var bh := reqs[idx][k];
    assert reqs[idx][..k + 1] == reqs[idx][..k] + [bh];
    AppendUse(reqs, idx, bh, if bh in uses then uses[bh] else [], bh in reqs[idx][..k]);
  }

  lemma {:induction false} RowDone(reqs: Stream, idx: nat, uses: map<Block, seq<nat>>)
    requires idx < |reqs| && RowSoFar(reqs, idx, |reqs[idx]|, uses)
    ensures IsUseTable(reqs, idx + 1, uses)
  {
    hide ListsUses;
    assert reqs[idx][..|reqs[idx]|] == reqs[idx];
    forall b
      ensures ListsUses(reqs, idx + 1, b, if b in uses then uses[b] else [])
    {
      if b !in reqs[idx] {
        UnusedHere(reqs, idx, b, if b in uses then uses[b] else []);
      }
    }
  }

  lemma {:induction false} AppendUse(reqs: Stream, idx: nat, b: Block, uses: seq<nat>, again: bool)
    requires idx < |reqs| && b in reqs[idx]
    requires ListsUses(reqs, if again then idx + 1 else idx, b, uses)
    ensures ListsUses(reqs, idx + 1, b, uses + [idx])
  {
    assert forall k :: 0 <= k < |uses| ==> uses[k] in uses;
  }

  lemma UnusedHere(reqs: Stream, idx: nat, b: Block, uses: seq<nat>)
    requires idx < |reqs| && b !in reqs[idx] && ListsUses(reqs, idx, b, uses)
    ensures ListsUses(reqs, idx + 1, b, uses)
  {
  }

  /** Some request in `from..to` uses `b`. */
  ghost predicate UsedWithin(reqs: Stream, b: Block, from: nat, to: nat) {
    exists i: nat :: from <= i < to && i < |reqs| && b in reqs[i]
  }

  /** The lookup answers the first request after `at` that uses `b`. */
  lemma {:induction false} NextUseIsExact(reqs: Stream, table: map<Block, seq<nat>>, b: Block, at: nat)
    requires IsUseTable(reqs, |reqs|, table)
    ensures match NextUse(table, b, at)
            case None => forall i :: at < i < |reqs| ==> b !in reqs[i]
            case Some(n) => at < n < |reqs| && b in reqs[n] && forall i :: at < i < n ==> b !in reqs[i]
  {
    if b in table {
      var uses := table[b];
      assert ListsUses(reqs, |reqs|, b, uses);
      BisectRightSplits(uses, at, 0, |uses|);
      forall i: nat | at < i < |reqs| && b in reqs[i]
        ensures exists k :: BisectRight(uses, at, 0, |uses|) <= k < |uses| && uses[k] == i
      {
        assert i in uses;
        var k :| 0 <= k < |uses| && uses[k] == i;
      }
      if BisectRight(uses, at, 0, |uses|) < |uses| {
        assert uses[BisectRight(uses, at, 0, |uses|)] in uses;
      }
    } else {
      assert ListsUses(reqs, |reqs|, b, []);
      forall i: nat | at < i < |reqs| ensures b !in reqs[i] {
        assert i !in [];
      }
    }
  }

  // ----------------------------------------------------------------- schedules

  /** What some eviction schedule of capacity `cap` may hold before each request and at the end. */
  ghost predicate IsSchedule(reqs: Stream, cap: nat, held: seq<set<Block>>) {
    && |held| == |reqs| + 1 && held[0] == {}
    && forall k :: 0 <= k < |reqs| ==> MayFollow(held[k], Elems(reqs[k]), held[k + 1], cap)
  }

  /** After serving `batch` a cache may keep any `cap` of its blocks and the batch's. */
  ghost predicate MayFollow(s: set<Block>, batch: set<Block>, s': set<Block>, cap: nat) {
    s' <= s + batch && |s'| <= cap
  }

  /** Distinct requested blocks found resident, over the first `k` requests. */
  ghost function Hits(reqs: Stream, held: seq<set<Block>>, k: nat): nat
    requires k <= |reqs| && k <= |held|
    decreases k
  {
    if k == 0 then 0 else Hits(reqs, held, k - 1) + |held[k - 1] * Elems(reqs[k - 1])|
  }

  ghost predicate Serves(ops: seq<Admission>, reqs: Stream) {
    |ops| == |reqs| && forall k :: 0 <= k < |ops| ==> ops[k].blocks == reqs[k] && ops[k].atIndex == k
  }

  /** The blocks a node holds before each admission and at the end. */
  ghost function HeldBy(strategy: Strategy, cap: nat, ops: seq<Admission>): (held: seq<set<Block>>)
    ensures |held| == |ops| + 1
  {
    seq(|ops| + 1, k requires 0 <= k <= |ops| => Elems(Run(strategy, cap, ops, k).order))
  }

  lemma {:induction false} HeldStep(strategy: Strategy, cap: nat, ops: seq<Admission>, k: nat)
    requires k < |ops|
    ensures var held, c := HeldBy(strategy, cap, ops), Run(strategy, cap, ops, k);
            Coherent(c) && held[k] == Elems(c.order) && held[k + 1] == Elems(Admit(c, strategy, cap, ops[k]).order)
  {
    hide Admit, Coherent;
    RunFacts(strategy, cap, ops, k);
  }

  lemma {:induction false} AdmitMayFollow(strategy: Strategy, cap: nat, c: Cache, a: Admission)
    requires Coherent(c)
    ensures MayFollow(Elems(c.order), Elems(a.blocks), Elems(Admit(c, strategy, cap, a).order), cap)
  {
    AdmitKeepsTop(c, strategy, cap, a);
    DistinctCardinality(Admit(c, strategy, cap, a).order);
  }

  /** Every node run is a schedule, whatever its strategy and directives. */
  lemma {:induction false} RunIsSchedule(strategy: Strategy, cap: nat, ops: seq<Admission>, reqs: Stream)
    requires Serves(ops, reqs)
    ensures IsSchedule(reqs, cap, HeldBy(strategy, cap, ops))
  {
    var held := HeldBy(strategy, cap, ops);
    assert held[0] == {};
    hide MayFollow, Run, Admit, HeldBy;
    forall k | 0 <= k < |reqs| ensures MayFollow(held[k], Elems(reqs[k]), held[k + 1], cap) {
      HeldStep(strategy, cap, ops, k);
      AdmitMayFollow(strategy, cap, Run(strategy, cap, ops, k), ops[k]);
    }
  }

  // ---------------------------------------------------------- exchange argument

  /** The blocks of `s` that are used again in `from..to`. */
  ghost function Soon(reqs: Stream, s: set<Block>, from: nat, to: nat): set<Block> {
    set b | b in s && UsedWithin(reqs, b, from, to)
  }

  /** Serving request `k` trades its resident blocks for the batch's own next uses, the same in every cache. */
  lemma {:induction false} SoonAfterServing(reqs: Stream, s: set<Block>, k: nat, to: nat)
    requires k < |reqs| && k < to
    ensures var batch := Elems(reqs[k]);
            |Soon(reqs, s + batch, k + 1, to)| == |Soon(reqs, s, k, to)| - |s * batch| + |Soon(reqs, batch, k + 1, to)|
  {
    var batch := Elems(reqs[k]);
    var rest := Soon(reqs, s - batch, k + 1, to);
    forall b | b in s && b !in batch
      ensures UsedWithin(reqs, b, k, to) <==> UsedWithin(reqs, b, k + 1, to)
    {
    }
    forall b | b in s * batch ensures UsedWithin(reqs, b, k, to) {
      assert b in reqs[k];
    }
    assert Soon(reqs, s, k, to) == rest + s * batch;
    assert Soon(reqs, s + batch, k + 1, to) == rest + Soon(reqs, batch, k + 1, to);
  }

  /** How far ahead of `d` cache `c` must be at every horizon, given its lead in hits. */
  ghost predicate Ahead(reqs: Stream, c: set<Block>, d: set<Block>, from: nat, lead: int) {
    forall to: nat :: to >= from ==> |Soon(reqs, d, from, to)| - |Soon(reqs, c, from, to)| <= lead
  }

  /** An eviction that only gives up soon-used blocks when nothing else is left. */
  ghost predicate EvictsFurthest(reqs: Stream, full: set<Block>, kept: set<Block>, from: nat, cap: nat) {
    kept <= full && (kept == full || |kept| == cap) &&
    forall y, z, to: nat :: y in full - kept && z in kept && UsedWithin(reqs, y, from, to) ==>
      UsedWithin(reqs, z, from, to)
  }

  lemma {:induction false} FurthestStep(reqs: Stream, full: set<Block>, kept: set<Block>, other: set<Block>,
                                        other': set<Block>,
                     from: nat, to: nat, cap: nat)
    requires EvictsFurthest(reqs, full, kept, from, cap)
    requires other' <= other && |other'| <= cap
    ensures |Soon(reqs, other', from, to)| - |Soon(reqs, kept, from, to)| <=
            Max(0, |Soon(reqs, other, from, to)| - |Soon(reqs, full, from, to)|)
  {
    hide UsedWithin;
    SoonShrinks(reqs, other', other, from, to);
    if y :| y in full - kept && UsedWithin(reqs, y, from, to) {
      AllKeptAreSoon(reqs, full, kept, from, to, cap, y);
    } else {
      assert Soon(reqs, kept, from, to) == Soon(reqs, full, from, to);
    }
  }

  lemma {:induction false} SoonShrinks(reqs: Stream, small: set<Block>, large: set<Block>, from: nat, to: nat)
    requires small <= large
    ensures |Soon(reqs, small, from, to)| <= |small| && |Soon(reqs, small, from, to)| <= |Soon(reqs, large, from, to)|
  {
    hide UsedWithin;
    SubsetCardinality(Soon(reqs, small, from, to), Soon(reqs, large, from, to));
    SubsetCardinality(Soon(reqs, small, from, to), small);
  }

  /** If a block that is used in time had to go, the cache is full of such blocks. */
  lemma {:induction false} AllKeptAreSoon(reqs: Stream, full: set<Block>, kept: set<Block>, from: nat, to: nat,
                                          cap: nat,
                                          y: Block)
    requires EvictsFurthest(reqs, full, kept, from, cap) && y in full - kept && UsedWithin(reqs, y, from, to)
    ensures Soon(reqs, kept, from, to) == kept && |kept| == cap
  {
    hide UsedWithin;
    forall z | z in kept ensures UsedWithin(reqs, z, from, to) {
    }
  }

  lemma {:induction false} AheadStep(reqs: Stream, k: nat, cap: nat, c: set<Block>, c': set<Block>, d: set<Block>,
                                     d': set<Block>, lead: int)
    requires k < |reqs| && Ahead(reqs, c, d, k, lead)
    requires EvictsFurthest(reqs, c + Elems(reqs[k]), c', k + 1, cap)
    requires MayFollow(d, Elems(reqs[k]), d', cap)
    ensures Ahead(reqs, c', d', k + 1, lead + |c * Elems(reqs[k])| - |d * Elems(reqs[k])|)
  {
    var batch := Elems(reqs[k]);
    var lead' := lead + |c * batch| - |d * batch|;
    assert lead' >= 0 by {
      assert |Soon(reqs, d, k, k + 1)| - |Soon(reqs, c, k, k + 1)| <= lead;
      ServedNow(reqs, c, k);
      ServedNow(reqs, d, k);
    }
    var next := k + 1;
    forall to: nat | to >= next
      ensures |Soon(reqs, d', next, to)| - |Soon(reqs, c', next, to)| <= lead'
    {
      SoonAfterServing(reqs, c, k, to);
      SoonAfterServing(reqs, d, k, to);
      FurthestStep(reqs, c + batch, c', d + batch, d', next, to, cap);
    }
  }

  lemma {:induction false} ServedNow(reqs: Stream, s: set<Block>, k: nat)
    requires k < |reqs|
    ensures Soon(reqs, s, k, k + 1) == s * Elems(reqs[k])
  {
    forall b | b in s * Elems(reqs[k]) ensures UsedWithin(reqs, b, k, k + 1) {
      assert b in reqs[k];
    }
  }

  /** The lookahead node's eviction is furthest-first in the sense above. */
  lemma {:induction false} LookaheadEvictsFurthest(reqs: Stream, table: map<Block, seq<nat>>, cap: nat, c: Cache,
                                                   a: Admission)
    requires IsUseTable(reqs, |reqs|, table) && Coherent(c)
    ensures EvictsFurthest(reqs, Elems(c.order) + Elems(a.blocks),
                           Elems(Admit(c, Lookahead(table), cap, a).order), a.atIndex + 1, cap)
  {
    hide Admit, Inserted, IsUseTable, Coherent, Before;
    AdmitKeepsTop(c, Lookahead(table), cap, a);
    SurvivorsAreFurthest(reqs, table, EvictorAt(Lookahead(table), a), Inserted(c, a),
                         Admit(c, Lookahead(table), cap, a), cap);
  }

  lemma {:induction false} SurvivorsAreFurthest(reqs: Stream, table: map<Block, seq<nat>>, e: Evictor, t: Cache,
                                                c': Cache, cap: nat)
    requires IsUseTable(reqs, |reqs|, table) && e.strategy == Lookahead(table)
    requires Coherent(t) && Coherent(c') && |c'.order| == Min(|t.order|, cap)
    requires Elems(c'.order) == Survivors(Elems(t.order), Line(e, t), cap)
    ensures EvictsFurthest(reqs, Elems(t.order), Elems(c'.order), e.atIndex + 1, cap)
  {
    var full, kept, next := Elems(t.order), Elems(c'.order), e.atIndex + 1;
    LineIsStrictTotal(e, t);
    DistinctCardinality(t.order);
    DistinctCardinality(c'.order);
    if |t.order| <= cap {
      AllFit(full, Line(e, t), cap);
    }
    hide StrictTotal, IsUseTable, Before, Survivors;
    forall y, z, to: nat | y in full - kept && z in kept && UsedWithin(reqs, y, next, to)
      ensures UsedWithin(reqs, z, next, to)
    {
      KeptAboveDropped(full, Line(e, t), cap, y, z);
      SoonerIsRankedHigher(reqs, table, e, t, y, z, to);
    }
  }

  lemma {:induction false} SoonerIsRankedHigher(reqs: Stream, table: map<Block, seq<nat>>, e: Evictor, c: Cache,
                                                y: Block, z: Block, to: nat)
    requires IsUseTable(reqs, |reqs|, table) && e.strategy == Lookahead(table)
    requires Before(e, c, y, z) && UsedWithin(reqs, y, e.atIndex + 1, to)
    ensures UsedWithin(reqs, z, e.atIndex + 1, to)
  {
    NextUseIsExact(reqs, table, y, e.atIndex);
    NextUseIsExact(reqs, table, z, e.atIndex);
    var i: nat :| e.atIndex + 1 <= i < to && i < |reqs| && y in reqs[i];
    assert NextUse(table, y, e.atIndex).Some?;
  }

  lemma {:induction false} LookaheadStep(ops: seq<Admission>, reqs: Stream, table: map<Block, seq<nat>>, cap: nat,
                                         k: nat,
                      d: set<Block>, d': set<Block>, lead: int)
    requires Serves(ops, reqs) && IsUseTable(reqs, |reqs|, table) && k < |reqs|
    requires MayFollow(d, Elems(reqs[k]), d', cap)
    requires Ahead(reqs, HeldBy(Lookahead(table), cap, ops)[k], d, k, lead)
    ensures var ours := HeldBy(Lookahead(table), cap, ops);
            Ahead(reqs, ours[k + 1], d', k + 1, lead + |ours[k] * Elems(reqs[k])| - |d * Elems(reqs[k])|)
  {
    var ours := HeldBy(Lookahead(table), cap, ops);
    hide HeldBy, EvictsFurthest, MayFollow, Run, Admit, IsUseTable, Ahead;
    HeldStep(Lookahead(table), cap, ops, k);
    LookaheadEvictsFurthest(reqs, table, cap, Run(Lookahead(table), cap, ops, k), ops[k]);
    AheadStep(reqs, k, cap, ours[k], ours[k + 1], d, d', lead);
  }

  /** The potential invariant of the exchange argument after `k` requests. */
  ghost predicate AheadAt(reqs: Stream, ours: seq<set<Block>>, held: seq<set<Block>>, k: nat)
    requires k <= |reqs| && k < |ours| && k < |held|
  {
    Ahead(reqs, ours[k], held[k], k, Hits(reqs, ours, k) - Hits(reqs, held, k))
  }

  lemma StartsEmpty(strategy: Strategy, cap: nat, ops: seq<Admission>)
    ensures HeldBy(strategy, cap, ops)[0] == {}
  {
  }

  lemma AheadAtStart(reqs: Stream, ours: seq<set<Block>>, held: seq<set<Block>>)
    requires ours != [] && held != [] && ours[0] == {} == held[0]
    ensures AheadAt(reqs, ours, held, 0)
  {
  }

  lemma {:induction false} AheadAtNext(ops: seq<Admission>, reqs: Stream, table: map<Block, seq<nat>>, cap: nat,
                    held: seq<set<Block>>, k: nat)
    requires Serves(ops, reqs) && IsUseTable(reqs, |reqs|, table) && IsSchedule(reqs, cap, held) && k < |reqs|
    requires AheadAt(reqs, HeldBy(Lookahead(table), cap, ops), held, k)
    ensures AheadAt(reqs, HeldBy(Lookahead(table), cap, ops), held, k + 1)
  {
    var ours := HeldBy(Lookahead(table), cap, ops);
    hide HeldBy, MayFollow, IsUseTable, Ahead, Elems;
    LookaheadStep(ops, reqs, table, cap, k, held[k], held[k + 1], Hits(reqs, ours, k) - Hits(reqs, held, k));
  }

  lemma {:induction false} LookaheadStaysAhead(ops: seq<Admission>, reqs: Stream, table: map<Block, seq<nat>>, cap: nat,
                                               held: seq<set<Block>>, k: nat)
    requires Serves(ops, reqs) && IsUseTable(reqs, |reqs|, table) && IsSchedule(reqs, cap, held) && k <= |reqs|
    ensures AheadAt(reqs, HeldBy(Lookahead(table), cap, ops), held, k)
  {
    hide AheadAt, HeldBy, IsUseTable, MayFollow, Elems;
    if k == 0 {
      StartsEmpty(Lookahead(table), cap, ops);
      AheadAtStart(reqs, HeldBy(Lookahead(table), cap, ops), held);
    } else {
      LookaheadStaysAhead(ops, reqs, table, cap, held, k - 1);
      AheadAtNext(ops, reqs, table, cap, held, k - 1);
    }
  }

  /**
   Belady's theorem for the lookahead node: no eviction schedule of the same
   capacity, clairvoyant or not, finds more requested blocks resident.
   */
  lemma {:induction false} LookaheadIsOptimal(ops: seq<Admission>, reqs: Stream, table: map<Block, seq<nat>>,
                                              cap: nat, held: seq<set<Block>>)
    requires Serves(ops, reqs) && IsUseTable(reqs, |reqs|, table) && IsSchedule(reqs, cap, held)
    ensures Hits(reqs, held, |reqs|) <= Hits(reqs, HeldBy(Lookahead(table), cap, ops), |reqs|)
  {
    hide HeldBy, IsUseTable, Hits;
    var n, ours := |reqs|, HeldBy(Lookahead(table), cap, ops);
    LookaheadStaysAhead(ops, reqs, table, cap, held, n);
    assert |Soon(reqs, held[n], n, n)| - |Soon(reqs, ours[n], n, n)| <= Hits(reqs, ours, n) - Hits(reqs, held, n);
    assert Soon(reqs, held[n], n, n) == {} == Soon(reqs, ours[n], n, n);
  }

  /** In particular it is never behind a directive node with the same requests, whatever leases that one has. */
  lemma {:induction false} LookaheadBeatsDirectives(ops: seq<Admission>, ops': seq<Admission>, reqs: Stream,
                                                    table: map<Block, seq<nat>>, cap: nat)
    requires Serves(ops, reqs) && Serves(ops', reqs) && IsUseTable(reqs, |reqs|, table)
    ensures Hits(reqs, HeldBy(Directives, cap, ops'), |reqs|) <= Hits(reqs, HeldBy(Lookahead(table), cap, ops), |reqs|)
  {
    RunIsSchedule(Directives, cap, ops', reqs);
    LookaheadIsOptimal(ops, reqs, table, cap, HeldBy(Directives, cap, ops'));
  }

  // ---------------------------------------------------------- contiguous prefixes

  /** Blocks of contiguous matched prefixes over the first `k` requests. */
  function PrefixReuse(reqs: Stream, held: seq<set<Block>>, k: nat): nat
    requires k <= |reqs| && k <= |held|
  {
    if k == 0 then 0 else PrefixReuse(reqs, held, k - 1) + Blocks.Matched(reqs[k - 1], held[k - 1])
  }

  /** Of two blocks with the same next use the older one goes, though it is the head of the prefix. */
  lemma {:induction false} HeadGoesFirst(table: map<Block, seq<nat>>, c: Cache, e: Evictor)
    requires e.strategy == Lookahead(table) && c.order == [1, 2]
    requires NextUse(table, 1, e.atIndex) == NextUse(table, 2, e.atIndex)
    ensures EvictLoop(e, c, 1).order == [2]
  {
    hide NextUse;
    assert RankAt(e, c, 0) == RankAt(e, c, 1);
    VictimIndexUnique(e, c, 0);
    assert Without([1, 2], 1) == [2];
    hide Victim, VictimIndex, Sacrifices;
    assert EvictOne(e, c).order == [2];
  }

  /**
   Contiguous reuse is not what lookahead eviction maximises: when the same two blocks
   are requested twice and one of them fits, it keeps the second and reuses nothing,
   where keeping the first reuses it.
   */
  lemma {:induction false} PrefixReuseIsNotMaximised(ops: seq<Admission>, table: map<Block, seq<nat>>)
    requires Serves(ops, [[1, 2], [1, 2]]) && IsUseTable([[1, 2], [1, 2]], 2, table)
    ensures var reqs, held := [[1, 2], [1, 2]], [{}, {1}, {1}];
            && IsSchedule(reqs, 1, held)
            && PrefixReuse(reqs, held, 2) == 1 && PrefixReuse(reqs, HeldBy(Lookahead(table), 1, ops), 2) == 0
  {
    HeldAfterFirst(ops, table);
    PairReuse(HeldBy(Lookahead(table), 1, ops));
    PairReuse([{}, {1}, {1}]);
    hide HeldBy, IsUseTable, PrefixReuse;
    KeepsHead();
  }

  lemma KeepsHead()
    ensures IsSchedule([[1, 2], [1, 2]], 1, [{}, {1}, {1}])
  {
  }

  lemma {:induction false} HeldAfterFirst(ops: seq<Admission>, table: map<Block, seq<nat>>)
    requires Serves(ops, [[1, 2], [1, 2]]) && IsUseTable([[1, 2], [1, 2]], 2, table)
    ensures var ours := HeldBy(Lookahead(table), 1, ops); |ours| == 3 && ours[0] == {} && ours[1] == {2}
  {
    FirstKept(table, ops[0]);
    hide IsUseTable, Admit;
    assert Run(Lookahead(table), 1, ops, 0) == EMPTY;
    assert Run(Lookahead(table), 1, ops, 1) == Admit(EMPTY, Lookahead(table), 1, ops[0]);
  }

  lemma {:induction false} FirstKept(table: map<Block, seq<nat>>, a: Admission)
    requires IsUseTable([[1, 2], [1, 2]], 2, table) && a.blocks == [1, 2] && a.atIndex == 0
    ensures Admit(EMPTY, Lookahead(table), 1, a).order == [2]
  {
    SameNextUse(table);
    FirstPair(a);
    hide NextUse, IsUseTable, EvictLoop, Inserted;
    HeadGoesFirst(table, Inserted(EMPTY, a), EvictorAt(Lookahead(table), a));
  }

  lemma {:induction false} SameNextUse(table: map<Block, seq<nat>>)
    requires IsUseTable([[1, 2], [1, 2]], 2, table)
    ensures NextUse(table, 1, 0) == NextUse(table, 2, 0)
  {
    var reqs := [[1, 2], [1, 2]];
    NextUseIsExact(reqs, table, 1, 0);
    NextUseIsExact(reqs, table, 2, 0);
    hide NextUse, IsUseTable;
  }

  lemma {:induction false} PairReuse(held: seq<set<Block>>)
    requires |held| == 3 && held[0] == {}
    ensures held[1] == {2} ==> PrefixReuse([[1, 2], [1, 2]], held, 2) == 0
    ensures held[1] == {1} ==> PrefixReuse([[1, 2], [1, 2]], held, 2) == 1
  {
    var reqs := [[1, 2], [1, 2]];
    assert PrefixReuse(reqs, held, 1) == Blocks.Matched([1, 2], {});
    assert Blocks.Matched([1, 2], {1}) == 1;
  }

  lemma {:induction false} FirstPair(a: Admission)
    requires a.blocks == [1, 2]
    ensures Inserted(EMPTY, a).order == [1, 2]
  {
    InsertAllFacts(EMPTY, [1, 2], Directive(a.now, a.retainUntil, a.priority));
    hide InsertAll;
    assert [1, 2][..1] == [1] && [1][..0] == [];
    assert TouchAll([], [1]) == [1];
    assert TouchAll([], [1, 2]) == [1, 2];
  }
}
