/** What the directive node promises the router about its leases, over whole runs. */
module Leases {
  import opened Basics
  import opened Lru
  import opened Eviction
  import opened EvictionLaws

  /** Resident blocks under a live mark of priority at least 0. */
  ghost function Live(e: Evictor, c: Cache): set<Block> {
    set b | b in c.order && Sacrifices(e, c, b)
  }

  lemma {:induction false} LiveOrExpendable(e: Evictor, c: Cache)
    requires Coherent(c)
    ensures |c.order| == |Live(e, c)| + |Expendable(e, c)|
  {
    DistinctCardinality(c.order);
    assert Elems(c.order) == Live(e, c) + Expendable(e, c);
  }

  lemma {:induction false} PinnedNeverFalls(e: Evictor, c: Cache, cap: nat)
    ensures EvictLoop(e, c, cap).pinned >= c.pinned
    decreases |c.order|
  {
    if |c.order| > cap {
      assert |EvictOne(e, c).order| < |c.order|;
      PinnedNeverFalls(e, EvictOne(e, c), cap);
    }
  }

  /** An eviction loop that reports no pressure keeps every live block with its mark. */
  lemma {:induction false} NoPressureKeepsLive(e: Evictor, c: Cache, cap: nat, b: Block)
    requires Coherent(c) && b in Live(e, c)
    requires EvictLoop(e, c, cap).pinned == c.pinned
    ensures b in EvictLoop(e, c, cap).order && b in EvictLoop(e, c, cap).marks
    ensures EvictLoop(e, c, cap).marks[b] == c.marks[b]
    decreases |c.order|
  {
    if |c.order| > cap {
      var c' := EvictOne(e, c);
      EvictOneFacts(e, c);
      PinnedNeverFalls(e, c', cap);
      WithoutFacts(c.order, Victim(e, c));
      SacrificesAgree(e, c', c, b);
      NoPressureKeepsLive(e, c', cap, b);
    }
  }

  /** Block `b` is under `mark` once the batch of `a` is in: stamped by it, or left alone by it. */
  ghost predicate UnderMark(c: Cache, a: Admission, b: Block, mark: Mark) {
    if b in a.blocks then Directive(a.now, a.retainUntil, a.priority) == Some(mark) else HeldWith(c, b, mark)
  }

  lemma {:induction false} AdmitKeepsLease(c: Cache, cap: nat, a: Admission, b: Block, mark: Mark)
    requires Coherent(c) && UnderMark(c, a, b, mark)
    requires mark.priority >= 0 && !Expired(mark.expiry, a.now)
    ensures Admit(c, Directives, cap, a).pinned >= c.pinned
    ensures Admit(c, Directives, cap, a).pinned == c.pinned ==>
              HeldWith(Admit(c, Directives, cap, a), b, mark)
  {
    var e, t := EvictorAt(Directives, a), Inserted(c, a);
    InsertAllFacts(c, a.blocks, Directive(a.now, a.retainUntil, a.priority));
    InsertAllMarks(c, a.blocks, Directive(a.now, a.retainUntil, a.priority));
    assert b in Elems(t.order);
    assert b in Live(e, t);
    PinnedNeverFalls(e, t, cap);
    if EvictLoop(e, t, cap).pinned == t.pinned {
      NoPressureKeepsLive(e, t, cap, b);
    }
  }

  /** `admit` number `i` leases `b` with `mark`, and nothing before `j` re-admits it or lets it lapse. */
  ghost predicate LeaseRuns(ops: seq<Admission>, i: nat, j: nat, b: Block, mark: Mark) {
    && i < j <= |ops|
    && b in ops[i].blocks
    && Directive(ops[i].now, ops[i].retainUntil, ops[i].priority) == Some(mark)
    && mark.priority >= 0
    && (forall k :: i < k < j ==> b !in ops[k].blocks)
    && (forall k :: i <= k < j ==> !Expired(mark.expiry, ops[k].now))
  }

  ghost function Prefix(cap: nat, ops: seq<Admission>, k: nat): Cache
    requires k <= |ops|
  {
    Run(Directives, cap, ops, k)
  }

  lemma {:induction false} PrefixStep(cap: nat, ops: seq<Admission>, k: nat)
    requires k < |ops|
    ensures Prefix(cap, ops, k + 1) == Admit(Prefix(cap, ops, k), Directives, cap, ops[k])
    ensures Coherent(Prefix(cap, ops, k))
    ensures Prefix(cap, ops, k).pinned <= Prefix(cap, ops, k + 1).pinned
  {
    RunFacts(Directives, cap, ops, k);
    AdmitKeepsTop(Prefix(cap, ops, k), Directives, cap, ops[k]);
  }

  lemma {:induction false} PinnedIsMonotone(cap: nat, ops: seq<Admission>, i: nat, j: nat)
    requires i <= j <= |ops|
    ensures Prefix(cap, ops, i).pinned <= Prefix(cap, ops, j).pinned
    decreases j - i
  {
    hide Admit, Coherent, Run;
    if i < j {
      PinnedIsMonotone(cap, ops, i, j - 1);
      PrefixStep(cap, ops, j - 1);
    }
  }

  ghost predicate HeldWith(c: Cache, b: Block, mark: Mark) {
    b in c.order && b in c.marks && c.marks[b] == mark
  }

  lemma {:induction false} LeaseStep(cap: nat, ops: seq<Admission>, i: nat, k: nat, b: Block, mark: Mark)
    requires LeaseRuns(ops, i, k + 1, b, mark)
    requires i < k ==> HeldWith(Prefix(cap, ops, k), b, mark)
    ensures Prefix(cap, ops, k).pinned <= Prefix(cap, ops, k + 1).pinned
    ensures Prefix(cap, ops, k + 1).pinned == Prefix(cap, ops, k).pinned ==> HeldWith(Prefix(cap, ops, k + 1), b, mark)
  {
    PrefixStep(cap, ops, k);
    assert UnderMark(Prefix(cap, ops, k), ops[k], b, mark);
    AdmitKeepsLease(Prefix(cap, ops, k), cap, ops[k], b, mark);
  }

  /**
   Lease safety: as long as the pressure counter stands still, a leased block is
   resident with its mark until it lapses or is admitted again.
   */
  lemma {:induction false} LeaseIsHonoured(cap: nat, ops: seq<Admission>, i: nat, j: nat, b: Block, mark: Mark)
    requires LeaseRuns(ops, i, j, b, mark)
    requires Prefix(cap, ops, j).pinned == Prefix(cap, ops, i).pinned
    ensures HeldWith(Prefix(cap, ops, j), b, mark)
    decreases j
  {
    hide Run, Prefix;
    PinnedIsMonotone(cap, ops, i, j - 1);
    PinnedIsMonotone(cap, ops, j - 1, j);
    if i < j - 1 {
      LeaseIsHonoured(cap, ops, i, j - 1, b, mark);
    }
    LeaseStep(cap, ops, i, j - 1, b, mark);
  }

  /** The same, read forwards: a lease that is broken in step `k` is counted in step `k`. */
  lemma {:induction false} BrokenLeaseIsCounted(cap: nat, ops: seq<Admission>, i: nat, k: nat, b: Block, mark: Mark)
    requires LeaseRuns(ops, i, k + 1, b, mark)
    requires i < k ==> HeldWith(Prefix(cap, ops, k), b, mark)
    requires b !in Prefix(cap, ops, k + 1).order
    ensures Prefix(cap, ops, k + 1).pinned > Prefix(cap, ops, k).pinned
  {
    LeaseStep(cap, ops, i, k, b, mark);
  }

  /** Live blocks the k-th admission has to fit into the cache. */
  ghost function LiveAt(cap: nat, ops: seq<Admission>, k: nat): set<Block>
    requires k < |ops|
  {
    Live(EvictorAt(Directives, ops[k]), Inserted(Prefix(cap, ops, k), ops[k]))
  }

  ghost function Overcommitment(cap: nat, ops: seq<Admission>, k: nat): nat
    requires k <= |ops|
    decreases k
  {
    if k == 0 then 0 else Overcommitment(cap, ops, k - 1) + Max(0, |LiveAt(cap, ops, k - 1)| - cap)
  }

  /** The counter is exactly how far the live leases overcommitted the cache, summed over the run. */
  lemma {:induction false} PressureIsOvercommitment(cap: nat, ops: seq<Admission>, k: nat)
    requires k <= |ops|
    ensures Prefix(cap, ops, k).pinned == Overcommitment(cap, ops, k)
  {
    hide Admit, EvictLoop, Inserted, Live, Expendable, Coherent;
    if k > 0 {
      PressureIsOvercommitment(cap, ops, k - 1);
      PrefixStep(cap, ops, k - 1);
      var e, t := EvictorAt(Directives, ops[k - 1]), Inserted(Prefix(cap, ops, k - 1), ops[k - 1]);
      AdmitKeepsTop(Prefix(cap, ops, k - 1), Directives, cap, ops[k - 1]);
      LiveOrExpendable(e, t);
    }
  }

  lemma {:induction false} NoOvercommitment(cap: nat, ops: seq<Admission>, k: nat)
    requires k <= |ops|
    requires forall i :: 0 <= i < |ops| ==> |LiveAt(cap, ops, i)| <= cap
    ensures Overcommitment(cap, ops, k) == 0
  {
    hide LiveAt;
    if k > 0 {
      NoOvercommitment(cap, ops, k - 1);
    }
  }

  /** Leases that always fit are all honoured until they lapse or are re-admitted. */
  lemma {:induction false} FittingLeasesAreHonoured(cap: nat, ops: seq<Admission>, i: nat, j: nat, b: Block, mark: Mark)
    requires LeaseRuns(ops, i, j, b, mark)
    requires forall k :: 0 <= k < |ops| ==> |LiveAt(cap, ops, k)| <= cap
    ensures Prefix(cap, ops, |ops|).pinned == 0
    ensures HeldWith(Prefix(cap, ops, j), b, mark)
  {
    PressureIsOvercommitment(cap, ops, |ops|);
    PressureIsOvercommitment(cap, ops, i);
    PressureIsOvercommitment(cap, ops, j);
    NoOvercommitment(cap, ops, |ops|);
    NoOvercommitment(cap, ops, i);
    NoOvercommitment(cap, ops, j);
    LeaseIsHonoured(cap, ops, i, j, b, mark);
  }
}
