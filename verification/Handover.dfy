/** What one request does to the cluster, and how long the directive on its placement lasts there. */
module Handover {
  import opened Basics
  import opened Cost
  import opened Engine
  import opened Eviction
  import opened EvictionLaws
  import opened Leases
  import opened Shedding
  import NodeHistory

  /** The mark that a placement asks for: literally its own priority and expiry. */
  ghost function Asked(place: Placement, now: real): Option<Mark> {
    var until := place.retainUntil;
    match place.priority
    case None => if until > now then Some(Mark(50, At(until))) else None
    case Some(p) =>
      Some(Mark(if p < -1 then -1 else if p > 100 then 100 else p, if until > now then At(until) else Never))
  }

  /** Seconds a node is busy with `missing` blocks to compute and `genTokens` to decode. */
  ghost function ServiceSeconds(p: Params, missing: nat, genTokens: nat): real {
    missing as real * (p.blockSize as real * p.prefillPerToken) + p.prefillFixed + genTokens as real * p.interToken
  }

  /** Blocks copied to the chosen node. */
  ghost function Copied(q: Query, place: Placement): (m: nat)
    requires HasNodes(q) && place.nodeId < |q.nodes|
    ensures Have(q, place.nodeId) + m <= |q.blocks|
  {
    var have, hot := Have(q, place.nodeId), Have(q, Hot(q));
    if place.transfer && have < hot then hot - have else 0
  }

  lemma {:induction false} CopiedFits(q: Query, place: Placement)
    requires HasNodes(q) && place.nodeId < |q.nodes|
    ensures Moved(q, Choice(place.nodeId, place.transfer)) == Copied(q, place)
  {
  }

  /**
   The node that serves request `k`: its queue grows by what is left to compute and by the
   decoding, it holds as much as fits of its old blocks and the request's, the request's blocks
   under exactly the mark asked for and every other one under the mark it had.
   */
  ghost predicate Served(c: Cluster, q: Query, place: Placement, genTokens: nat, n: NodeView, n': NodeView)
    requires HasNodes(q) && place.nodeId < |q.nodes|
  {
    var missing := |q.blocks| - Have(q, place.nodeId) - Copied(q, place);
    && n'.busyUntil == (if q.now >= n.busyUntil then q.now else n.busyUntil)
                       + ServiceSeconds(q.params, missing, genTokens)
    && Distinct(n'.cache.order)
    && |n'.cache.order| == Min(|Elems(n.cache.order) + Elems(q.blocks)|, c.cacheBlocks)
    && forall b :: b in n'.cache.order ==>
         && (b in q.blocks || b in n.cache.order)
         && MarkIn(n'.cache.marks, b) == if b in q.blocks then Asked(place, q.now) else MarkIn(n.cache.marks, b)
  }

  /** What the policy answers for request `k` of a run. */
  ghost function Decided<S(!new)>(c: Cluster, policy: Policy<S>, s0: S, reqs: seq<TurnRequest>, k: nat): (p: Placement)
    requires Routes(policy) && c.numNodes > 0 && k < |reqs|
    ensures p.nodeId < c.numNodes
  {
    var before := Simulate(c, policy, s0, reqs, k);
    policy(before.policy, reqs[k].view, Query(reqs[k].view.blocks, before.nodes, reqs[k].arrival, c.params)).0
  }

  /** One step of any run: the chosen node serves the request and no other node changes. */
  lemma {:induction false} StepServes<S(!new)>(c: Cluster, policy: Policy<S>, s0: S, reqs: seq<TurnRequest>, k: nat,
                                               i: nat)
    requires Routes(policy) && c.numNodes > 0 && k < |reqs| && i < c.numNodes
    ensures var before, after := Simulate(c, policy, s0, reqs, k), Simulate(c, policy, s0, reqs, k + 1);
            var q := Query(reqs[k].view.blocks, before.nodes, reqs[k].arrival, c.params);
            var place := Decided(c, policy, s0, reqs, k);
            && after.policy == policy(before.policy, reqs[k].view, q).1
            && if place.nodeId == i
               then Served(c, q, place, reqs[k].genTokens, before.nodes[i], after.nodes[i])
               else after.nodes[i] == before.nodes[i]
  {
    var before := Simulate(c, policy, s0, reqs, k);
    var q := Query(reqs[k].view.blocks, before.nodes, reqs[k].arrival, c.params);
    var place := policy(before.policy, reqs[k].view, q).0;
    StepNodes(c, policy, s0, reqs, k);
    CoherentRun(c, policy, s0, reqs, k, i);
    hide Simulate, AdmitNode, Served, Routes, AdmissionFor, Coherent;
    if place.nodeId == i {
      AdmissionServes(c, q, place, reqs[k], k);
    }
  }

  lemma {:induction false} StepNodes<S(!new)>(c: Cluster, policy: Policy<S>, s0: S, reqs: seq<TurnRequest>, k: nat)
    requires Routes(policy) && c.numNodes > 0 && k < |reqs|
    ensures var before, after := Simulate(c, policy, s0, reqs, k), Simulate(c, policy, s0, reqs, k + 1);
            var q := Query(reqs[k].view.blocks, before.nodes, reqs[k].arrival, c.params);
            var place := policy(before.policy, reqs[k].view, q).0;
            && after.policy == policy(before.policy, reqs[k].view, q).1
            && after.nodes == before.nodes[place.nodeId :=
                 AdmitNode(c, before.nodes[place.nodeId], AdmissionFor(q, reqs[k], place, k))]
  {
    hide AdmitNode, AdmissionFor, RecordOutcome, RecordGap, OutcomeOf, Learning.Observe, CostLaws.Coupled;
    var before := Simulate(c, policy, s0, reqs, k);
    assert Simulate(c, policy, s0, reqs, k + 1) == Serve(c, policy, before, k, reqs[k]);
  }

  lemma {:induction false} CoherentRun<S(!new)>(c: Cluster, policy: Policy<S>, s0: S, reqs: seq<TurnRequest>, k: nat,
                                                i: nat)
    requires Routes(policy) && c.numNodes > 0 && k <= |reqs| && i < c.numNodes
    ensures Coherent(Simulate(c, policy, s0, reqs, k).nodes[i].cache)
  {
    hide Simulate, NodeHistory.RoutedTo, Routes, Coherent, Run;
    NodeHistory.NodesAreRuns(c, policy, s0, reqs, k, i);
    var ops := NodeHistory.RoutedTo(c, policy, s0, reqs, k, i);
    RunFacts(c.strategy, c.cacheBlocks, ops, |ops|);
  }

  lemma {:induction false} AdmissionServes(c: Cluster, q: Query, place: Placement, req: TurnRequest, k: nat)
    requires HasNodes(q) && place.nodeId < |q.nodes| && Coherent(q.nodes[place.nodeId].cache)
    ensures var n := q.nodes[place.nodeId];
            Served(c, q, place, req.genTokens, n, AdmitNode(c, n, AdmissionFor(q, req, place, k)))
  {
    hide Admit, Have, Hot, Coherent, ServiceSeconds, AdmissionFor, Copied, Directive, Asked, MarkIn;
    var n, a := q.nodes[place.nodeId], AdmissionFor(q, req, place, k);
    ServiceInFull(q, place, req, k);
    AdmittedMarks(n.cache, c.strategy, c.cacheBlocks, a);
    AskedIsDirective(place, q.now);
  }

  lemma AskedIsDirective(place: Placement, now: real)
    ensures Directive(now, place.retainUntil, place.priority) == Asked(place, now)
  {
  }

  lemma {:induction false} ServiceInFull(q: Query, place: Placement, req: TurnRequest, k: nat)
    requires HasNodes(q) && place.nodeId < |q.nodes|
    ensures var a, missing := AdmissionFor(q, req, place, k), |q.blocks| - Have(q, place.nodeId) - Copied(q, place);
            && a.now == q.now && a.blocks == q.blocks
            && a.retainUntil == place.retainUntil && a.priority == place.priority
            && a.service == ServiceSeconds(q.params, missing, req.genTokens)
  {
    hide Have, Hot, Copied, PrefillTime, DecodeTime, ServiceSeconds;
    CopiedFits(q, place);
    ServiceIs(q.params, |q.blocks| - Have(q, place.nodeId) - Copied(q, place), req.genTokens);
  }

  lemma ServiceIs(p: Params, missing: nat, genTokens: nat)
    ensures PrefillTime(p, missing) + DecodeTime(p, genTokens) == ServiceSeconds(p, missing, genTokens)
  {
  }

  lemma {:induction false} AdmittedMarks(c: Cache, strategy: Strategy, cap: nat, a: Admission)
    requires Coherent(c)
    ensures var c' := Admit(c, strategy, cap, a);
            && Distinct(c'.order) && |c'.order| == Min(|Elems(c.order) + Elems(a.blocks)|, cap)
            && forall b :: b in c'.order ==>
                 && (b in a.blocks || b in c.order)
                 && MarkIn(c'.marks, b) == MarkAfter(c, a, b)
  {
    var t, c' := Inserted(c, a), Admit(c, strategy, cap, a);
    AdmitKeepsTop(c, strategy, cap, a);
    InsertAllMarks(c, a.blocks, Directive(a.now, a.retainUntil, a.priority));
    DistinctCardinality(t.order);
    AgreesSubset(c', t);
    hide Admit, InsertAll, Directive, Line, Expendable;
    forall b | b in c'.order
      ensures (b in a.blocks || b in c.order) && MarkIn(c'.marks, b) == MarkAfter(c, a, b)
    {
      assert b in Elems(t.order);
    }
  }

  // ------------------------------------------------------------------ leases in runs

  /** Node `i` serves request `t`. */
  ghost predicate ServedBy<S(!new)>(c: Cluster, policy: Policy<S>, s0: S, reqs: seq<TurnRequest>, t: nat, i: nat)
    requires Routes(policy) && c.numNodes > 0
  {
    t < |reqs| && Decided(c, policy, s0, reqs, t).nodeId == i
  }

  /** Request `k` leases `b` under `mark`, and no later one on that node before `j` has `b` or finds the mark lapsed. */
  ghost predicate Leasing<S(!new)>(c: Cluster, policy: Policy<S>, s0: S, reqs: seq<TurnRequest>, k: nat, j: nat,
                                   b: Block, mark: Mark)
    requires Routes(policy) && c.numNodes > 0
  {
    && k < j <= |reqs| && b in reqs[k].view.blocks && mark.priority >= 0
    && Asked(Decided(c, policy, s0, reqs, k), reqs[k].arrival) == Some(mark)
    && forall t :: k <= t < j && ServedBy(c, policy, s0, reqs, t, Decided(c, policy, s0, reqs, k).nodeId) ==>
         && (t > k ==> b !in reqs[t].view.blocks)
         && (mark.expiry.Never? || reqs[t].arrival < mark.expiry.t)
  }

  ghost function CacheAt<S(!new)>(c: Cluster, policy: Policy<S>, s0: S, reqs: seq<TurnRequest>, k: nat, i: nat): Cache
    requires Routes(policy) && c.numNodes > 0 && k <= |reqs| && i < c.numNodes
  {
    Simulate(c, policy, s0, reqs, k).nodes[i].cache
  }

  /** The cache after a batch is admitted under mark `m`. */
  ghost predicate Admits(c: Cluster, blocks: seq<Block>, now: real, m: Option<Mark>, before: Cache, after: Cache) {
    exists a: Admission ::
      && a.now == now && a.blocks == blocks && Directive(now, a.retainUntil, a.priority) == m
      && after == Admit(before, c.strategy, c.cacheBlocks, a)
  }

  lemma {:induction false} CacheStep<S(!new)>(c: Cluster, policy: Policy<S>, s0: S, reqs: seq<TurnRequest>, k: nat,
                                              i: nat)
    requires Routes(policy) && c.numNodes > 0 && k < |reqs| && i < c.numNodes
    ensures Coherent(CacheAt(c, policy, s0, reqs, k, i))
    ensures CacheAt(c, policy, s0, reqs, k, i).pinned <= CacheAt(c, policy, s0, reqs, k + 1, i).pinned
    ensures if ServedBy(c, policy, s0, reqs, k, i)
            then Admits(c, reqs[k].view.blocks, reqs[k].arrival,
                        Asked(Decided(c, policy, s0, reqs, k), reqs[k].arrival),
                        CacheAt(c, policy, s0, reqs, k, i), CacheAt(c, policy, s0, reqs, k + 1, i))
            else CacheAt(c, policy, s0, reqs, k + 1, i) == CacheAt(c, policy, s0, reqs, k, i)
  {
    var before := Simulate(c, policy, s0, reqs, k);
    var q := Query(reqs[k].view.blocks, before.nodes, reqs[k].arrival, c.params);
    var place := Decided(c, policy, s0, reqs, k);
    StepNodes(c, policy, s0, reqs, k);
    CoherentRun(c, policy, s0, reqs, k, i);
    hide Simulate, Routes, Coherent, Admit, ServiceSeconds, ServiceTime, Directive, Asked;
    if place.nodeId == i {
      var a := AdmissionFor(q, reqs[k], place, k);
      AdmitKeepsTop(before.nodes[i].cache, c.strategy, c.cacheBlocks, a);
      AskedIsDirective(place, q.now);
    }
  }

  lemma {:induction false} PressureRises<S(!new)>(c: Cluster, policy: Policy<S>, s0: S, reqs: seq<TurnRequest>, k: nat,
                                                  j: nat, i: nat)
    requires Routes(policy) && c.numNodes > 0 && k <= j <= |reqs| && i < c.numNodes
    ensures CacheAt(c, policy, s0, reqs, k, i).pinned <= CacheAt(c, policy, s0, reqs, j, i).pinned
    decreases j
  {
    hide Routes, CacheAt, ServedBy, Coherent, Admits, Decided, Asked;
    if k < j {
      PressureRises(c, policy, s0, reqs, k, j - 1, i);
      CacheStep(c, policy, s0, reqs, j - 1, i);
    }
  }

  /**
   Leases over whole runs of any policy: what a placement leases stays on its node under the
   mark it asked for until the lease lapses or the block is admitted there again, as long as
   the node reports no further pressure.
   */
  lemma {:induction false} LeaseLasts<S(!new)>(c: Cluster, policy: Policy<S>, s0: S, reqs: seq<TurnRequest>, k: nat,
                                               j: nat, b: Block, mark: Mark)
    requires Routes(policy) && c.numNodes > 0 && c.strategy == Directives
    requires Leasing(c, policy, s0, reqs, k, j, b, mark)
    requires var i := Decided(c, policy, s0, reqs, k).nodeId;
             CacheAt(c, policy, s0, reqs, j, i).pinned == CacheAt(c, policy, s0, reqs, k, i).pinned
    ensures HeldWith(CacheAt(c, policy, s0, reqs, j, Decided(c, policy, s0, reqs, k).nodeId), b, mark)
    decreases j
  {
    hide CacheAt, HeldWith, Decided, Asked, Coherent, Routes, Admits, Leasing, ServedBy;
    LeasingFacts(c, policy, s0, reqs, k, j, b, mark);
    var i := Decided(c, policy, s0, reqs, k).nodeId;
    PressureRises(c, policy, s0, reqs, k, j - 1, i);
    CacheStep(c, policy, s0, reqs, j - 1, i);
    if k < j - 1 {
      LeaseLasts(c, policy, s0, reqs, k, j - 1, b, mark);
    }
    LeaseStep(c, policy, s0, reqs, k, j - 1, b, mark);
  }

  lemma {:induction false} LeasingFacts<S(!new)>(c: Cluster, policy: Policy<S>, s0: S, reqs: seq<TurnRequest>, k: nat,
                                                 j: nat, b: Block, mark: Mark)
    requires Routes(policy) && c.numNodes > 0 && Leasing(c, policy, s0, reqs, k, j, b, mark)
    ensures k < j <= |reqs| && mark.priority >= 0
    ensures k < j - 1 ==> Leasing(c, policy, s0, reqs, k, j - 1, b, mark)
    ensures ServedBy(c, policy, s0, reqs, j - 1, Decided(c, policy, s0, reqs, k).nodeId) ==>
              && (mark.expiry.Never? || reqs[j - 1].arrival < mark.expiry.t)
              && if b in reqs[j - 1].view.blocks
                 then Asked(Decided(c, policy, s0, reqs, j - 1), reqs[j - 1].arrival) == Some(mark)
                 else k < j - 1
    ensures k == j - 1 ==> ServedBy(c, policy, s0, reqs, k, Decided(c, policy, s0, reqs, k).nodeId)
  {
    hide Decided, Asked, Routes;
  }

  lemma {:induction false} LeaseStep<S(!new)>(c: Cluster, policy: Policy<S>, s0: S, reqs: seq<TurnRequest>, k: nat,
                                              t: nat, b: Block, mark: Mark)
    requires Routes(policy) && c.numNodes > 0 && c.strategy == Directives
    requires Leasing(c, policy, s0, reqs, k, t + 1, b, mark)
    requires var i := Decided(c, policy, s0, reqs, k).nodeId;
             && (k < t ==> HeldWith(CacheAt(c, policy, s0, reqs, t, i), b, mark))
             && CacheAt(c, policy, s0, reqs, t + 1, i).pinned == CacheAt(c, policy, s0, reqs, t, i).pinned
    ensures HeldWith(CacheAt(c, policy, s0, reqs, t + 1, Decided(c, policy, s0, reqs, k).nodeId), b, mark)
  {
    hide CacheAt, HeldWith, Decided, Asked, Coherent, Routes, Admits, Leasing, ServedBy;
    LeasingFacts(c, policy, s0, reqs, k, t + 1, b, mark);
    var i := Decided(c, policy, s0, reqs, k).nodeId;
    CacheStep(c, policy, s0, reqs, t, i);
    var before, after := CacheAt(c, policy, s0, reqs, t, i), CacheAt(c, policy, s0, reqs, t + 1, i);
    if ServedBy(c, policy, s0, reqs, t, i) {
      AdmitsKeepsLease(c, reqs[t].view.blocks, reqs[t].arrival, Asked(Decided(c, policy, s0, reqs, t), reqs[t].arrival),
                       before, after, b, mark);
    }
  }

  lemma {:induction false} AdmitsKeepsLease(c: Cluster, blocks: seq<Block>, now: real, m: Option<Mark>, before: Cache,
                                            after: Cache, b: Block, mark: Mark)
    requires c.strategy == Directives && Coherent(before) && Admits(c, blocks, now, m, before, after)
    requires if b in blocks then m == Some(mark) else HeldWith(before, b, mark)
    requires mark.priority >= 0 && (mark.expiry.Never? || now < mark.expiry.t) && after.pinned == before.pinned
    ensures HeldWith(after, b, mark)
  {
    hide HeldWith, Coherent, Directive, Admit;
    var a: Admission :| && a.now == now && a.blocks == blocks && Directive(now, a.retainUntil, a.priority) == m
                        && after == Admit(before, c.strategy, c.cacheBlocks, a);
    assert UnderMark(before, a, b, mark);
    AdmitKeepsLease(before, c.cacheBlocks, a, b, mark);
  }

  /** What block `b` is under when the node of request `k` makes room: the mark asked for, or the one it had. */
  ghost function UnderAt<S(!new)>(c: Cluster, policy: Policy<S>, s0: S, reqs: seq<TurnRequest>, k: nat,
                                  b: Block): Option<Mark>
    requires Routes(policy) && c.numNodes > 0 && k < |reqs|
  {
    var place := Decided(c, policy, s0, reqs, k);
    if b in reqs[k].view.blocks then Asked(place, reqs[k].arrival)
    else MarkIn(CacheAt(c, policy, s0, reqs, k, place.nodeId).marks, b)
  }

  /** In every step of every run, of two blocks in reach the one whose mark gives way never outlives the other. */
  lemma {:induction false} StepSheds<S(!new)>(c: Cluster, policy: Policy<S>, s0: S, reqs: seq<TurnRequest>, k: nat,
                                              x: Block, y: Block)
    requires Routes(policy) && c.numNodes > 0 && k < |reqs| && c.strategy == Directives
    requires var before, blocks := CacheAt(c, policy, s0, reqs, k, Decided(c, policy, s0, reqs, k).nodeId).order,
                 reqs[k].view.blocks;
             (x in before || x in blocks) && (y in before || y in blocks)
    requires Yields(UnderAt(c, policy, s0, reqs, k, x), UnderAt(c, policy, s0, reqs, k, y), reqs[k].arrival)
    requires x in CacheAt(c, policy, s0, reqs, k + 1, Decided(c, policy, s0, reqs, k).nodeId).order
    ensures y in CacheAt(c, policy, s0, reqs, k + 1, Decided(c, policy, s0, reqs, k).nodeId).order
  {
    hide CacheAt, Decided, Asked, Coherent, Routes, Yields, Admit, Directive;
    var i := Decided(c, policy, s0, reqs, k).nodeId;
    CacheStep(c, policy, s0, reqs, k, i);
    var before, after := CacheAt(c, policy, s0, reqs, k, i), CacheAt(c, policy, s0, reqs, k + 1, i);
    assert ServedBy(c, policy, s0, reqs, k, i);
    var a: Admission :| && a.now == reqs[k].arrival && a.blocks == reqs[k].view.blocks
                        && Directive(a.now, a.retainUntil, a.priority) ==
                           Asked(Decided(c, policy, s0, reqs, k), reqs[k].arrival)
                        && after == Admit(before, c.strategy, c.cacheBlocks, a);
    WeakerGoesFirst(before, c.cacheBlocks, a, x, y);
  }
}
