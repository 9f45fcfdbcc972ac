/** On a single node the lookahead run bounds every other run of the same stream. */
module SingleNode {
  import opened Basics
  import opened Cost
  import opened Engine
  import opened EngineLaws
  import opened NodeHistory
  import opened Eviction
  import opened Belady
  import Blocks
  import CostLaws

  function BlockStream(reqs: seq<TurnRequest>): (stream: Stream)
    ensures |stream| == |reqs|
    ensures forall k :: 0 <= k < |reqs| ==> stream[k] == reqs[k].view.blocks
  {
    seq(|reqs|, k requires 0 <= k < |reqs| => reqs[k].view.blocks)
  }

  /** Everything the single node admits. */
  function AllOps<S(!new)>(c: Cluster, policy: Policy<S>, s0: S, reqs: seq<TurnRequest>, k: nat): seq<Admission>
    requires Routes(policy) && c.numNodes == 1 && k <= |reqs|
  {
    RoutedTo(c, policy, s0, reqs, k, 0)
  }

  ghost predicate ServesUpTo(ops: seq<Admission>, reqs: seq<TurnRequest>, k: nat)
    requires k <= |reqs|
  {
    |ops| == k && forall j :: 0 <= j < k ==> ops[j].blocks == reqs[j].view.blocks && ops[j].atIndex == j
  }

  lemma AdmitsOwnBlocks<S(!new)>(c: Cluster, policy: Policy<S>, sim: Sim<S>, req: TurnRequest, k: nat)
    requires Routes(policy) && |sim.nodes| == 1
    ensures var s := StepAt(c, policy, sim, req);
            && s.placement.nodeId == 0 && s.choice.node == 0
            && AdmissionFor(s.query, req, s.placement, k).blocks == req.view.blocks
            && AdmissionFor(s.query, req, s.placement, k).atIndex == k
  {
  }

  lemma {:induction false} AllOpsStep<S(!new)>(c: Cluster, policy: Policy<S>, s0: S, reqs: seq<TurnRequest>, k: nat)
    returns (a: Admission)
    requires Routes(policy) && c.numNodes == 1 && k < |reqs|
    ensures AllOps(c, policy, s0, reqs, k + 1) == AllOps(c, policy, s0, reqs, k) + [a]
    ensures a.blocks == reqs[k].view.blocks && a.atIndex == k
  {
    AdmitsOwnBlocks(c, policy, Simulate(c, policy, s0, reqs, k), reqs[k], k);
    hide Simulate, StepAt, AdmissionFor;
    var s := StepOf(c, policy, s0, reqs, k);
    a := AdmissionFor(s.query, reqs[k], s.placement, k);
  }

  lemma ServesSnoc(ops: seq<Admission>, a: Admission, reqs: seq<TurnRequest>, k: nat)
    requires k < |reqs| && ServesUpTo(ops, reqs, k) && a.blocks == reqs[k].view.blocks && a.atIndex == k
    ensures ServesUpTo(ops + [a], reqs, k + 1)
  {
  }

  lemma ServesNothing<S(!new)>(c: Cluster, policy: Policy<S>, s0: S, reqs: seq<TurnRequest>)
    requires Routes(policy) && c.numNodes == 1
    ensures ServesUpTo(AllOps(c, policy, s0, reqs, 0), reqs, 0)
  {
  }

  /** The single node serves the whole stream, in order and under the stream's own indices. */
  lemma {:induction false} ServesAll<S(!new)>(c: Cluster, policy: Policy<S>, s0: S, reqs: seq<TurnRequest>, k: nat)
    requires Routes(policy) && c.numNodes == 1 && k <= |reqs|
    ensures ServesUpTo(AllOps(c, policy, s0, reqs, k), reqs, k)
  {
    hide AllOps, ServesUpTo, Routes;
    if k == 0 {
      ServesNothing(c, policy, s0, reqs);
    } else {
      ServesAll(c, policy, s0, reqs, k - 1);
      var a := AllOpsStep(c, policy, s0, reqs, k - 1);
      ServesSnoc(AllOps(c, policy, s0, reqs, k - 1), a, reqs, k - 1);
    }
  }

  lemma {:induction false} OpsPrefix<S(!new)>(c: Cluster, policy: Policy<S>, s0: S, reqs: seq<TurnRequest>, k: nat,
                                              n: nat)
    requires Routes(policy) && c.numNodes == 1 && k <= n <= |reqs|
    ensures AllOps(c, policy, s0, reqs, k) <= AllOps(c, policy, s0, reqs, n)
    decreases n
  {
    hide AllOps, Routes;
    if k < n {
      OpsPrefix(c, policy, s0, reqs, k, n - 1);
      var a := AllOpsStep(c, policy, s0, reqs, n - 1);
    }
  }

  lemma {:induction false} SamePrefixRun(strategy: Strategy, cap: nat, ops: seq<Admission>, n: nat, k: nat)
    requires k <= n <= |ops|
    ensures Run(strategy, cap, ops[..n], k) == Run(strategy, cap, ops, k)
  {
    hide Admit;
    if k > 0 {
      SamePrefixRun(strategy, cap, ops, n, k - 1);
    }
  }

  /** The blocks resident when request `k` arrives, as the schedule of the whole run has them. */
  lemma {:induction false} HeldInRun<S(!new)>(c: Cluster, policy: Policy<S>, s0: S, reqs: seq<TurnRequest>, k: nat)
    requires Routes(policy) && c.numNodes == 1 && k < |reqs|
    ensures |AllOps(c, policy, s0, reqs, |reqs|)| == |reqs|
    ensures Elems(Simulate(c, policy, s0, reqs, k).nodes[0].cache.order) ==
            HeldBy(c.strategy, c.cacheBlocks, AllOps(c, policy, s0, reqs, |reqs|))[k]
  {
    hide Simulate, RoutedTo, Run, Routes;
    var ops := AllOps(c, policy, s0, reqs, |reqs|);
    ServesAll(c, policy, s0, reqs, |reqs|);
    ServesAll(c, policy, s0, reqs, k);
    OpsPrefix(c, policy, s0, reqs, k, |reqs|);
    NodesAreRuns(c, policy, s0, reqs, k, 0);
    assert AllOps(c, policy, s0, reqs, k) == ops[..k];
    SamePrefixRun(c.strategy, c.cacheBlocks, ops, k, k);
  }

  /** Requested blocks found resident over a whole single-node run. */
  ghost function RunHits<S(!new)>(c: Cluster, policy: Policy<S>, s0: S, reqs: seq<TurnRequest>, k: nat): nat
    requires Routes(policy) && c.numNodes == 1 && k <= |reqs|
    decreases k
  {
    if k == 0 then 0
    else
      RunHits(c, policy, s0, reqs, k - 1)
        + |Elems(Simulate(c, policy, s0, reqs, k - 1).nodes[0].cache.order) * Elems(reqs[k - 1].view.blocks)|
  }

  lemma {:induction false} RunHitsAreHits<S(!new)>(c: Cluster, policy: Policy<S>, s0: S, reqs: seq<TurnRequest>, k: nat)
    requires Routes(policy) && c.numNodes == 1 && k <= |reqs|
    ensures |AllOps(c, policy, s0, reqs, |reqs|)| == |reqs|
    ensures RunHits(c, policy, s0, reqs, k) ==
            Hits(BlockStream(reqs), HeldBy(c.strategy, c.cacheBlocks, AllOps(c, policy, s0, reqs, |reqs|)), k)
  {
    hide AllOps, HeldBy, Routes, Hits, RunHits, Simulate, Elems, BlockStream;
    AllOpsLength(c, policy, s0, reqs);
    if k == 0 {
      NoHits(c, policy, s0, reqs, HeldBy(c.strategy, c.cacheBlocks, AllOps(c, policy, s0, reqs, |reqs|)));
    } else {
      RunHitsAreHits(c, policy, s0, reqs, k - 1);
      HitsStep(c, policy, s0, reqs, k - 1);
      RunHitsStep(c, policy, s0, reqs, k - 1);
    }
  }

  lemma {:induction false} AllOpsLength<S(!new)>(c: Cluster, policy: Policy<S>, s0: S, reqs: seq<TurnRequest>)
    requires Routes(policy) && c.numNodes == 1
    ensures |AllOps(c, policy, s0, reqs, |reqs|)| == |reqs|
  {
    hide AllOps, Routes;
    ServesAll(c, policy, s0, reqs, |reqs|);
  }

  lemma NoHits<S(!new)>(c: Cluster, policy: Policy<S>, s0: S, reqs: seq<TurnRequest>, held: seq<set<Block>>)
    requires Routes(policy) && c.numNodes == 1
    ensures RunHits(c, policy, s0, reqs, 0) == Hits(BlockStream(reqs), held, 0)
  {
  }

  lemma {:induction false} RunHitsStep<S(!new)>(c: Cluster, policy: Policy<S>, s0: S, reqs: seq<TurnRequest>, k: nat)
    requires Routes(policy) && c.numNodes == 1 && k < |reqs|
    ensures RunHits(c, policy, s0, reqs, k + 1) == RunHits(c, policy, s0, reqs, k)
            + |Elems(Simulate(c, policy, s0, reqs, k).nodes[0].cache.order) * Elems(reqs[k].view.blocks)|
  {
    hide Simulate, Elems;
  }

  lemma {:induction false} HitsStep<S(!new)>(c: Cluster, policy: Policy<S>, s0: S, reqs: seq<TurnRequest>, k: nat)
    requires Routes(policy) && c.numNodes == 1 && k < |reqs|
    ensures |AllOps(c, policy, s0, reqs, |reqs|)| == |reqs|
    ensures var held := HeldBy(c.strategy, c.cacheBlocks, AllOps(c, policy, s0, reqs, |reqs|));
            Hits(BlockStream(reqs), held, k + 1) - Hits(BlockStream(reqs), held, k) ==
            |Elems(Simulate(c, policy, s0, reqs, k).nodes[0].cache.order) * Elems(reqs[k].view.blocks)|
  {
    hide Simulate, AllOps, HeldBy, Elems, Routes;
    HeldInRun(c, policy, s0, reqs, k);
  }

  /**
   With lookahead eviction a single node finds at least as many requested blocks
   resident as with directives, whatever policies drive the two runs.
   */
  lemma {:induction false} LookaheadRunIsBest<S(!new), T(!new)>(c: Cluster, policy: Policy<S>, s0: S,
        policy': Policy<T>, t0: T,
                                             reqs: seq<TurnRequest>, table: map<Block, seq<nat>>)
    requires Routes(policy) && Routes(policy') && c.numNodes == 1 && c.strategy == Directives
    requires IsUseTable(BlockStream(reqs), |reqs|, table)
    ensures RunHits(c, policy, s0, reqs, |reqs|) <=
            RunHits(c.(strategy := Lookahead(table)), policy', t0, reqs, |reqs|)
  {
    hide RunHits, HeldBy, Hits, IsUseTable, AllOps, Routes, Serves;
    var d, stream := c.(strategy := Lookahead(table)), BlockStream(reqs);
    StreamServed(d, policy', t0, reqs);
    StreamServed(c, policy, s0, reqs);
    RunHitsAreHits(c, policy, s0, reqs, |reqs|);
    RunHitsAreHits(d, policy', t0, reqs, |reqs|);
    LookaheadBeatsDirectives(AllOps(d, policy', t0, reqs, |reqs|), AllOps(c, policy, s0, reqs, |reqs|),
                             stream, table, c.cacheBlocks);
  }

  lemma {:induction false} StreamServed<S(!new)>(c: Cluster, policy: Policy<S>, s0: S, reqs: seq<TurnRequest>)
    requires Routes(policy) && c.numNodes == 1
    ensures Serves(AllOps(c, policy, s0, reqs, |reqs|), BlockStream(reqs))
  {
    hide AllOps, Routes;
    ServesAll(c, policy, s0, reqs, |reqs|);
  }

  /** The contiguous reuse the engine reports never exceeds the hits of the same run. */
  lemma {:induction false} ReuseWithinHits<S(!new)>(c: Cluster, policy: Policy<S>, s0: S, reqs: seq<TurnRequest>,
                                                    k: nat)
    requires Routes(policy) && c.numNodes == 1 && k <= |reqs|
    requires forall j :: 0 <= j < |reqs| ==> Distinct(reqs[j].view.blocks)
    ensures Simulate(c, policy, s0, reqs, k).result.reused <= RunHits(c, policy, s0, reqs, k)
  {
    hide Serve, Routes, Distinct;
    if k > 0 {
      ReuseWithinHits(c, policy, s0, reqs, k - 1);
      ReuseStep(c, policy, Simulate(c, policy, s0, reqs, k - 1), k - 1, reqs[k - 1]);
    } else {
      NoReuseYet(c, policy, s0, reqs);
    }
  }

  lemma NoReuseYet<S(!new)>(c: Cluster, policy: Policy<S>, s0: S, reqs: seq<TurnRequest>)
    requires Routes(policy) && c.numNodes == 1
    ensures Simulate(c, policy, s0, reqs, 0).result.reused == 0
  {
  }

  lemma {:induction false} ReuseStep<S(!new)>(c: Cluster, policy: Policy<S>, sim: Sim<S>, k: nat, req: TurnRequest)
    requires Routes(policy) && |sim.nodes| == 1 && Distinct(req.view.blocks)
    ensures Serve(c, policy, sim, k, req).result.reused <=
            sim.result.reused + |Elems(sim.nodes[0].cache.order) * Elems(req.view.blocks)|
  {
    hide Serve, StepAt, RecordOutcome, RecordGap;
    var s := StepAt(c, policy, sim, req);
    var o := OutcomeOf(s.query, s.choice, req.genTokens, CostLaws.Coupled(s.query));
    ServeRecords(c, policy, sim, k, req);
    RecordedFields(sim.result, req.view.lastToolName, s.gap, req.kind, o);
    AdmitsOwnBlocks(c, policy, sim, req, k);
    ServeAdmits(c, policy, sim, k, req);
    OnlyNodeIsHot(s.query, s.choice);
    Blocks.MatchedWithinHits(req.view.blocks, Elems(sim.nodes[0].cache.order));
  }

  lemma OnlyNodeIsHot(q: Query, c: Choice)
    requires HasNodes(q) && |q.nodes| == 1 && c.node == 0
    ensures Resident(q, c) == Local(q.blocks, q.nodes[0])
  {
  }

  /** So the lookahead run's hits bound the reuse any single-node run with the same capacity reports. */
  lemma {:induction false} LookaheadBoundsReuse<S(!new), T(!new)>(c: Cluster, policy: Policy<S>, s0: S,
        policy': Policy<T>, t0: T,
                                               reqs: seq<TurnRequest>, table: map<Block, seq<nat>>)
    requires Routes(policy) && Routes(policy') && c.numNodes == 1 && c.strategy == Directives
    requires IsUseTable(BlockStream(reqs), |reqs|, table)
    requires forall j :: 0 <= j < |reqs| ==> Distinct(reqs[j].view.blocks)
    ensures Simulate(c, policy, s0, reqs, |reqs|).result.reused <=
            RunHits(c.(strategy := Lookahead(table)), policy', t0, reqs, |reqs|)
  {
    hide Simulate, RunHits, IsUseTable, Routes, Distinct;
    ReuseWithinHits(c, policy, s0, reqs, |reqs|);
    LookaheadRunIsBest(c, policy, s0, policy', t0, reqs, table);
  }
}
