/** Numeric retention priorities. */
module Priority {
  import opened Basics

  const EVICT_FIRST := -1
  const HIGH := 50
  const PINNED := 100

  function Clamp(priority: int): int {
    Max(EVICT_FIRST, Min(PINNED, priority))
  }
}

/**
 The cache of one node as a value, and what `admit` does to it: insert a batch
 as most recently used, stamp or clear its directive, then evict one victim at a
 time until the cache fits.  Both eviction strategies are one strict total order
 on the resident blocks: by rank, ties broken by recency.
 */
module Eviction {
  import opened Basics
  import opened Lru
  import opened Ranking
  import Priority

  type Block = int

  /** A retention directive as stored on a block. */
  datatype Mark = Mark(priority: int, expiry: Time)

  /** `order` is oldest first; `marks` has no entry for an unmarked block. */
  datatype Cache = Cache(order: seq<Block>, marks: map<Block, Mark>, pinned: nat)

  const EMPTY := Cache([], map[], 0)

  datatype Strategy = Directives | Lookahead(futureUses: map<Block, seq<nat>>)

  /** Everything besides the cache that a victim choice may look at. */
  datatype Evictor = Evictor(strategy: Strategy, now: real, atIndex: nat)

  datatype Admission = Admission(now: real, service: real, blocks: seq<Block>,
                                 retainUntil: real, atIndex: nat, priority: Option<int>)

  ghost predicate Coherent(c: Cache) {
    Distinct(c.order) && c.marks.Keys <= Elems(c.order)
  }

  // ---------------------------------------------------------------- directives

  function Directive(now: real, retainUntil: real, priority: Option<int>): Option<Mark> {
    match priority
    case None => if retainUntil > now then Some(Mark(Priority.HIGH, At(retainUntil))) else None
    case Some(p) => Some(Mark(Priority.Clamp(p), if retainUntil > now then At(retainUntil) else Never))
  }

  // --------------------------------------------------------------- victim order

  ghost predicate Ascending(uses: seq<nat>) {
    forall i, j :: 0 <= i < j < |uses| ==> uses[i] <= uses[j]
  }

  /** Python's `bisect_right` on the slice from `lo` to `hi`. */
  function BisectRight(uses: seq<nat>, x: nat, lo: nat, hi: nat): (pos: nat)
    requires lo <= hi <= |uses|
    ensures lo <= pos <= hi
    decreases hi - lo
  {
    if lo == hi then lo
    else
      var mid := (lo + hi) / 2;
      if x < uses[mid] then BisectRight(uses, x, lo, mid) else BisectRight(uses, x, mid + 1, hi)
  }

  lemma {:induction false} BisectRightSplits(uses: seq<nat>, x: nat, lo: nat, hi: nat)
    requires Ascending(uses) && lo <= hi <= |uses|
    requires forall i :: 0 <= i < lo ==> uses[i] <= x
    requires forall i :: hi <= i < |uses| ==> x < uses[i]
    ensures forall i :: 0 <= i < BisectRight(uses, x, lo, hi) ==> uses[i] <= x
    ensures forall i :: BisectRight(uses, x, lo, hi) <= i < |uses| ==> x < uses[i]
    decreases hi - lo
  {
    if lo < hi {
      var mid := (lo + hi) / 2;
      if x < uses[mid] {
        BisectRightSplits(uses, x, lo, mid);
      } else {
        BisectRightSplits(uses, x, mid + 1, hi);
      }
    }
  }

  /** Index of the first request after `atIndex` that uses `b`; None stands for never. */
  function NextUse(futureUses: map<Block, seq<nat>>, b: Block, atIndex: nat): Option<nat> {
    if b !in futureUses then None
    else
      var uses := futureUses[b];
      var pos := BisectRight(uses, atIndex, 0, |uses|);
      if pos >= |uses| then None else Some(uses[pos])
  }

  /**
   Eviction rank, lowest evicted first.  Directives: evict-first in bucket 0,
   unmarked or lapsed in bucket 1, live marks in bucket 2 by priority, then expiry.
   Lookahead: never used again in bucket 0, else the furthest use first.
   */
  datatype Rank = Rank(bucket: nat, level: int, expiry: Time)

  predicate RankLess(a: Rank, b: Rank) {
    a.bucket < b.bucket ||
    (a.bucket == b.bucket &&
     (a.level < b.level || (a.level == b.level && TimeLess(a.expiry, b.expiry))))
  }

  function RankOf(e: Evictor, marks: map<Block, Mark>, b: Block): Rank {
    match e.strategy
    case Directives =>
      if b !in marks || Expired(marks[b].expiry, e.now) then Rank(1, 0, Never)
      else if marks[b].priority < 0 then Rank(0, 0, Never)
      else Rank(2, marks[b].priority, marks[b].expiry)
    case Lookahead(futureUses) =>
      match NextUse(futureUses, b, e.atIndex)
      case None => Rank(0, 0, Never)
      case Some(n) => Rank(1, 0 - n, Never)
  }

  /** `x` is evicted before `y`. */
  predicate Before(e: Evictor, c: Cache, x: Block, y: Block) {
    var rx, ry := RankOf(e, c.marks, x), RankOf(e, c.marks, y);
    RankLess(rx, ry) || (rx == ry && IndexOf(c.order, x) < IndexOf(c.order, y))
  }

  ghost function Line(e: Evictor, c: Cache): (Block, Block) -> bool {
    (x, y) => Before(e, c, x, y)
  }

  lemma {:induction false} LineIsStrictTotal(e: Evictor, c: Cache)
    requires Distinct(c.order)
    ensures StrictTotal(Elems(c.order), Line(e, c))
  {
    forall x, y | x in c.order && y in c.order && x != y
      ensures IndexOf(c.order, x) != IndexOf(c.order, y)
    {
      assert c.order[IndexOf(c.order, x)] == x;
    }
  }

  /** First position of least rank. */
  function VictimIndex(e: Evictor, order: seq<Block>, marks: map<Block, Mark>): (v: nat)
    requires order != []
    ensures v < |order|
    ensures forall i :: 0 <= i < |order| ==> !RankLess(RankOf(e, marks, order[i]), RankOf(e, marks, order[v]))
    ensures forall i :: 0 <= i < v ==> RankLess(RankOf(e, marks, order[v]), RankOf(e, marks, order[i]))
  {
    if |order| == 1 then 0
    else
      var last := |order| - 1;
      var v := VictimIndex(e, order[..last], marks);
      if RankLess(RankOf(e, marks, order[last]), RankOf(e, marks, order[v])) then last else v
  }

  function Victim(e: Evictor, c: Cache): Block
    requires c.order != []
  {
    c.order[VictimIndex(e, c.order, c.marks)]
  }

  lemma {:induction false} VictimIsLeast(e: Evictor, c: Cache)
    requires Distinct(c.order) && c.order != []
    ensures IsLeast(Elems(c.order), Line(e, c), Victim(e, c))
  {
    var v := VictimIndex(e, c.order, c.marks);
    assert IndexOf(c.order, c.order[v]) == v;
    forall y | y in c.order && y != c.order[v]
      ensures Before(e, c, c.order[v], y)
    {
      var i := IndexOf(c.order, y);
      assert !RankLess(RankOf(e, c.marks, c.order[i]), RankOf(e, c.marks, c.order[v]));
      RankTrichotomy(RankOf(e, c.marks, c.order[v]), RankOf(e, c.marks, y));
      if i < v {
        assert RankLess(RankOf(e, c.marks, c.order[v]), RankOf(e, c.marks, c.order[i]));
      }
    }
  }

  lemma RankTrichotomy(a: Rank, b: Rank)
    ensures RankLess(a, b) || RankLess(b, a) || a == b
  {
  }

  function RankAt(e: Evictor, c: Cache, k: nat): Rank
    requires k < |c.order|
  {
    RankOf(e, c.marks, c.order[k])
  }

  /** Any position that is first among those of least rank is the victim's position. */
  lemma {:induction false} VictimIndexUnique(e: Evictor, c: Cache, v: nat)
    requires v < |c.order|
    requires forall i :: 0 <= i < |c.order| ==> !RankLess(RankAt(e, c, i), RankAt(e, c, v))
    requires forall i :: 0 <= i < v ==> RankLess(RankAt(e, c, v), RankAt(e, c, i))
    ensures VictimIndex(e, c.order, c.marks) == v
  {
    var w := VictimIndex(e, c.order, c.marks);
    assert !RankLess(RankAt(e, c, w), RankAt(e, c, v));
    assert !RankLess(RankOf(e, c.marks, c.order[v]), RankOf(e, c.marks, c.order[w]));
  }

  // ------------------------------------------------------------------ admission

  predicate Sacrifices(e: Evictor, c: Cache, b: Block) {
    e.strategy.Directives? && RankOf(e, c.marks, b).bucket == 2
  }

  function EvictOne(e: Evictor, c: Cache): Cache
    requires c.order != []
  {
    var v := Victim(e, c);
    Cache(Without(c.order, v), c.marks - {v}, if Sacrifices(e, c, v) then c.pinned + 1 else c.pinned)
  }

  function EvictLoop(e: Evictor, c: Cache, cap: nat): Cache
    decreases |c.order|
  {
    if |c.order| <= cap then c else EvictLoop(e, EvictOne(e, c), cap)
  }

  function Insert(c: Cache, b: Block, mark: Option<Mark>): Cache {
    Cache(Touch(c.order, b), if mark.None? then c.marks - {b} else c.marks[b := mark.value], c.pinned)
  }

  function InsertAll(c: Cache, bs: seq<Block>, mark: Option<Mark>): Cache {
    if bs == [] then c
    else Insert(InsertAll(c, bs[..|bs| - 1], mark), bs[|bs| - 1], mark)
  }

  /** The cache just before the eviction loop of an admission. */
  function Inserted(c: Cache, a: Admission): Cache {
    InsertAll(c, a.blocks, Directive(a.now, a.retainUntil, a.priority))
  }

  function EvictorAt(strategy: Strategy, a: Admission): Evictor {
    Evictor(strategy, a.now, a.atIndex)
  }

  function Admit(c: Cache, strategy: Strategy, cap: nat, a: Admission): Cache {
    EvictLoop(EvictorAt(strategy, a), Inserted(c, a), cap)
  }

  /** The cache of a node that was created empty and has admitted the first `k` of `ops`. */
  function Run(strategy: Strategy, cap: nat, ops: seq<Admission>, k: nat): Cache
    requires k <= |ops|
    decreases k
  {
    if k == 0 then EMPTY else Admit(Run(strategy, cap, ops, k - 1), strategy, cap, ops[k - 1])
  }
}
