/** What the weighted router decides over a run, from what it routed before and nothing else about the caches. */
module RouterHistory {
  import opened Basics
  import opened Lru
  import opened Cost
  import opened Policies
  import opened Router
  import opened RouterChoices
  import opened RouterRuns
  import opened Engine
  import opened Handover

  ghost function WeightedDecision(c: Cluster, s: Scoring, precise: bool, capacity: nat, reqs: seq<TurnRequest>,
                                  k: nat): (p: Placement)
    requires c.numNodes > 0 && k < |reqs|
    ensures p.nodeId < c.numNodes
  {
    WeightedRoutes(s, precise, capacity);
    Decided(c, WeightedPolicy(s, precise, capacity), NoBeliefs(c), reqs, k)
  }

  /** All blocks of the first `k` requests that were routed to node `i`, in order. */
  ghost function RoutedBlocks(c: Cluster, s: Scoring, precise: bool, capacity: nat, reqs: seq<TurnRequest>, k: nat,
                              i: nat): seq<int>
    requires c.numNodes > 0 && k <= |reqs|
    decreases k
  {
    if k == 0 then []
    else
      RoutedBlocks(c, s, precise, capacity, reqs, k - 1, i)
        + if WeightedDecision(c, s, precise, capacity, reqs, k - 1).nodeId == i then reqs[k - 1].view.blocks else []
  }

  /** What the router goes by: the caches, or the blocks routed to each node most recently. */
  ghost function Basis(c: Cluster, s: Scoring, precise: bool, capacity: nat, reqs: seq<TurnRequest>, k: nat,
                          i: nat): seq<int>
    requires c.numNodes > 0 && k <= |reqs| && i < c.numNodes
  {
    if precise then WeightedRun(c, s, precise, capacity, reqs, k).nodes[i].cache.order
    else LastN(Recency(RoutedBlocks(c, s, precise, capacity, reqs, k, i)), capacity)
  }

  /** The policy on a cluster of nodes: the winner by what is believed, without transfer and without directive. */
  lemma {:induction false} PolicyDecides(s: Scoring, precise: bool, capacity: nat, beliefs: Beliefs, v: RequestView,
                                         q: Query)
    requires HasNodes(q) && |beliefs| == |q.nodes|
    ensures var (p, beliefs') := WeightedPolicy(s, precise, capacity)(beliefs, v, q);
            && p.nodeId == Winner(q, s, if precise then TrueBeliefs(q.nodes) else beliefs)
            && !p.transfer && p.retainUntil == 0.0 && p.priority == None
            && beliefs' == if precise then beliefs
                           else beliefs[p.nodeId := LastN(TouchAll(beliefs[p.nodeId], q.blocks), capacity)]
  {
    hide Winner, Ttft, RegimeOf;
  }

  lemma {:induction false} StepDecides(c: Cluster, s: Scoring, precise: bool, capacity: nat, reqs: seq<TurnRequest>,
                                       k: nat)
    requires c.numNodes > 0 && k < |reqs| && |WeightedRun(c, s, precise, capacity, reqs, k).policy| == c.numNodes
    ensures var sim, p := WeightedRun(c, s, precise, capacity, reqs, k),
            WeightedDecision(c, s, precise, capacity, reqs, k);
            var q := Query(reqs[k].view.blocks, sim.nodes, reqs[k].arrival, c.params);
            && p.nodeId == Winner(q, s, if precise then TrueBeliefs(q.nodes) else sim.policy)
            && !p.transfer && p.retainUntil == 0.0 && p.priority == None
            && WeightedRun(c, s, precise, capacity, reqs, k + 1).policy ==
               if precise then sim.policy
               else sim.policy[p.nodeId := LastN(TouchAll(sim.policy[p.nodeId], q.blocks), capacity)]
  {
    WeightedRoutes(s, precise, capacity);
    hide WeightedPolicy, Winner, Simulate, Served, Routes;
    var sim := WeightedRun(c, s, precise, capacity, reqs, k);
    var q := Query(reqs[k].view.blocks, sim.nodes, reqs[k].arrival, c.params);
    StepServes(c, WeightedPolicy(s, precise, capacity), NoBeliefs(c), reqs, k, 0);
    PolicyDecides(s, precise, capacity, sim.policy, reqs[k].view, q);
  }

  /** The approximate router's belief about a node is the list of blocks routed to it most recently. */
  lemma {:induction false} BeliefIsHistory(c: Cluster, s: Scoring, precise: bool, capacity: nat,
                                           reqs: seq<TurnRequest>, k: nat)
    requires c.numNodes > 0 && k <= |reqs|
    ensures var beliefs := WeightedRun(c, s, precise, capacity, reqs, k).policy;
            && |beliefs| == c.numNodes
            && (!precise ==> forall i :: 0 <= i < c.numNodes ==>
                               beliefs[i] == Basis(c, s, precise, capacity, reqs, k, i))
  {
    hide WeightedDecision, TouchAll, LastN, WeightedRun;
    if k == 0 {
      FirstBeliefs(c, s, precise, capacity, reqs);
    } else {
      BeliefIsHistory(c, s, precise, capacity, reqs, k - 1);
      StepDecides(c, s, precise, capacity, reqs, k - 1);
      forall i | !precise && 0 <= i < c.numNodes
        ensures WeightedRun(c, s, precise, capacity, reqs, k).policy[i] ==
                Basis(c, s, precise, capacity, reqs, k, i)
      {
        RoutedOnce(RoutedBlocks(c, s, precise, capacity, reqs, k - 1, i), reqs[k - 1].view.blocks, capacity);
      }
    }
  }

  lemma {:induction false} FirstBeliefs(c: Cluster, s: Scoring, precise: bool, capacity: nat, reqs: seq<TurnRequest>)
    requires c.numNodes > 0
    ensures WeightedRun(c, s, precise, capacity, reqs, 0).policy == NoBeliefs(c)
    ensures LastN(Recency<int>([]), capacity) == []
  {
    WeightedRoutes(s, precise, capacity);
  }

  lemma {:induction false} RoutedOnce(h: seq<int>, blocks: seq<int>, cap: nat)
    ensures LastN(TouchAll(LastN(Recency(h), cap), blocks), cap) == LastN(Recency(h + blocks), cap)
    ensures h + [] == h
  {
    TouchAllFacts([], h);
    TouchAllAppend([], h, blocks);
    TrimmedBatch(Recency(h), blocks, cap);
  }

  /**
   Every decision of every run: among the candidates by coarse queue no node has a better balance of
   share against strain than the chosen one, or an equal one and a lower id, where the share is
   read off the true caches by the precise router and off its own routing by the approximate one.
   */
  lemma {:induction false} RunTradeOff(c: Cluster, s: Scoring, precise: bool, capacity: nat, reqs: seq<TurnRequest>,
                                       k: nat, a: nat, b: nat, i: nat)
    requires c.numNodes > 0 && k < |reqs|
    requires var q := Query(reqs[k].view.blocks, WeightedRun(c, s, precise, capacity, reqs, k).nodes, reqs[k].arrival,
                 c.params);
             && Candidate(q, s.saturationDepth, a) && Candidate(q, s.saturationDepth, b)
             && Candidate(q, s.saturationDepth, i)
             && forall j :: Candidate(q, s.saturationDepth, j) ==> Coarse(q, a) <= Coarse(q, j) <= Coarse(q, b)
    ensures var q := Query(reqs[k].view.blocks, WeightedRun(c, s, precise, capacity, reqs, k).nodes, reqs[k].arrival,
                c.params);
            var p := WeightedDecision(c, s, precise, capacity, reqs, k);
            var lo, hi := Coarse(q, a), Coarse(q, b);
            var mine := Balance(s, Share(q.blocks, Basis(c, s, precise, capacity, reqs, k, p.nodeId)),
                                Strain(Coarse(q, p.nodeId), lo, hi));
            var other := Balance(s, Share(q.blocks, Basis(c, s, precise, capacity, reqs, k, i)),
                                 Strain(Coarse(q, i), lo, hi));
            && Candidate(q, s.saturationDepth, p.nodeId) && !p.transfer && p.priority == None
            && (mine > other || (mine == other && p.nodeId <= i))
  {
    hide WeightedRun, WeightedDecision, RoutedBlocks, Balance, Strain, Share, Coarse, Winner, LastN, TouchAll;
    var sim := WeightedRun(c, s, precise, capacity, reqs, k);
    var q := Query(reqs[k].view.blocks, sim.nodes, reqs[k].arrival, c.params);
    BeliefIsHistory(c, s, precise, capacity, reqs, k);
    StepDecides(c, s, precise, capacity, reqs, k);
    hide Candidate;
    TradeOff(q, s, if precise then TrueBeliefs(q.nodes) else sim.policy, a, b, i);
  }
}
