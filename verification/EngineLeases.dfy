/** Leases on whole engine runs: what the reported pressure counter says about every node. */
module EngineLeases {
  import opened Cost
  import opened Engine
  import opened Eviction
  import opened Leases
  import opened NodeHistory

  /** The overcommitment of the first `n` nodes, each over the admissions routed to it. */
  ghost function ClusterOvercommitment<S(!new)>(c: Cluster, policy: Policy<S>, s0: S, reqs: seq<TurnRequest>, k: nat,
                                                n: nat): nat
    requires Routes(policy) && c.numNodes > 0 && k <= |reqs|
    decreases n
  {
    if n == 0 then 0
    else
      var ops := RoutedTo(c, policy, s0, reqs, k, n - 1);
      ClusterOvercommitment(c, policy, s0, reqs, k, n - 1) + Overcommitment(c.cacheBlocks, ops, |ops|)
  }

  lemma {:induction false} NodePressure<S(!new)>(c: Cluster, policy: Policy<S>, s0: S, reqs: seq<TurnRequest>, k: nat,
                                                 i: nat)
    requires Routes(policy) && c.numNodes > 0 && k <= |reqs| && i < c.numNodes && c.strategy == Directives
    ensures var ops := RoutedTo(c, policy, s0, reqs, k, i);
            && Simulate(c, policy, s0, reqs, k).nodes[i].cache == Prefix(c.cacheBlocks, ops, |ops|)
            && Simulate(c, policy, s0, reqs, k).nodes[i].cache.pinned == Overcommitment(c.cacheBlocks, ops, |ops|)
  {
    hide Simulate, RoutedTo, Routes, Run, Overcommitment;
    var ops := RoutedTo(c, policy, s0, reqs, k, i);
    NodesAreRuns(c, policy, s0, reqs, k, i);
    PressureIsOvercommitment(c.cacheBlocks, ops, |ops|);
  }

  /** The reported total is how far live leases overcommitted the caches, over all nodes and admissions. */
  lemma {:induction false} ReportedPressureIsOvercommitment<S(!new)>(c: Cluster, policy: Policy<S>, s0: S,
        reqs: seq<TurnRequest>, k: nat)
    requires Routes(policy) && c.numNodes > 0 && k <= |reqs| && c.strategy == Directives
    ensures SumPinned(Simulate(c, policy, s0, reqs, k).nodes) ==
            ClusterOvercommitment(c, policy, s0, reqs, k, c.numNodes)
  {
    hide Simulate, SumPinned, ClusterOvercommitment, Routes;
    var nodes := Simulate(c, policy, s0, reqs, k).nodes;
    assert nodes[..c.numNodes] == nodes;
    PressureUpTo(c, policy, s0, reqs, k, c.numNodes);
  }

  lemma {:induction false} PressureUpTo<S(!new)>(c: Cluster, policy: Policy<S>, s0: S, reqs: seq<TurnRequest>, k: nat,
                                                 n: nat)
    requires Routes(policy) && c.numNodes > 0 && k <= |reqs| && c.strategy == Directives && n <= c.numNodes
    ensures SumPinned(Simulate(c, policy, s0, reqs, k).nodes[..n]) == ClusterOvercommitment(c, policy, s0, reqs, k, n)
  {
    hide Simulate, RoutedTo, Routes, Overcommitment, Prefix;
    if n > 0 {
      var nodes := Simulate(c, policy, s0, reqs, k).nodes;
      assert nodes[..n][..n - 1] == nodes[..n - 1];
      PressureUpTo(c, policy, s0, reqs, k, n - 1);
      NodePressure(c, policy, s0, reqs, k, n - 1);
    }
  }

  lemma {:induction false} NoneIfSumIsZero(nodes: seq<NodeView>, i: nat)
    requires i < |nodes| && SumPinned(nodes) == 0
    ensures nodes[i].cache.pinned == 0
  {
    if i < |nodes| - 1 {
      NoneIfSumIsZero(nodes[..|nodes| - 1], i);
    }
  }

  /**
   A run that has reported no pressure so far has honoured every lease so far: on every
   node, a leased block that was neither admitted again nor let lapse is still held
   under its mark.
   */
  lemma {:induction false} QuietRunHonoursLeases<S(!new)>(c: Cluster, policy: Policy<S>, s0: S,
                                                          reqs: seq<TurnRequest>, k: nat, node: nat,
                                       i: nat, b: Block, mark: Mark)
    requires Routes(policy) && c.numNodes > 0 && k <= |reqs| && node < c.numNodes && c.strategy == Directives
    requires SumPinned(Simulate(c, policy, s0, reqs, k).nodes) == 0
    requires var ops := RoutedTo(c, policy, s0, reqs, k, node); LeaseRuns(ops, i, |ops|, b, mark)
    ensures HeldWith(Simulate(c, policy, s0, reqs, k).nodes[node].cache, b, mark)
  {
    hide Simulate, RoutedTo, Routes, Prefix, LeaseRuns, HeldWith;
    var ops := RoutedTo(c, policy, s0, reqs, k, node);
    NodePressure(c, policy, s0, reqs, k, node);
    NoneIfSumIsZero(Simulate(c, policy, s0, reqs, k).nodes, node);
    RunningLeaseStarted(ops, i, |ops|, b, mark);
    PinnedIsMonotone(c.cacheBlocks, ops, i, |ops|);
    LeaseIsHonoured(c.cacheBlocks, ops, i, |ops|, b, mark);
  }

  lemma RunningLeaseStarted(ops: seq<Admission>, i: nat, j: nat, b: Block, mark: Mark)
    requires LeaseRuns(ops, i, j, b, mark)
    ensures i < j <= |ops|
  {
  }
}
