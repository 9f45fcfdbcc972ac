/** The engine on node objects updated in place: it computes exactly the value-level run. */
module Simulator {
  import opened Basics
  import opened Cost
  import opened Policies
  import opened Learning
  import opened Engine
  import opened Nodes
  import opened PythonTables
  import CostLaws
  import Eviction
  import EvictionLaws
  import Belady
  import SingleNode

  /** What the cluster looks like to a router right now. */
  function Views(nodes: seq<Node>): (views: seq<NodeView>)
    reads nodes
    ensures |views| == |nodes|
    ensures forall i :: 0 <= i < |nodes| ==> views[i] == NodeView(nodes[i].busyUntil, nodes[i].View())
  {
    seq(|nodes|, i requires 0 <= i < |nodes| reads nodes => NodeView(nodes[i].busyUntil, nodes[i].View()))
  }

  /**
   The "force every node idle" probe: overwrite every queue tail, ask the oracle
   again, put every queue tail back.
   */
  method IsCoupled(nodes: seq<Node>, blocks: seq<int>, now: real, params: Params,
                   loaded: Choice) returns (coupled: bool)
    requires nodes != [] && Distinct(nodes)
    modifies nodes
    ensures Views(nodes) == old(Views(nodes))
    ensures forall n :: n in nodes ==>
              n.cache == old(n.cache) && n.priority == old(n.priority) && n.expiry == old(n.expiry)
    ensures coupled == (loaded != BestChoice(CostLaws.Drained(Query(blocks, old(Views(nodes)), now, params)), true))
  {
    ghost var before := Views(nodes);
    var saved := seq(|nodes|, i requires 0 <= i < |nodes| reads nodes => nodes[i].busyUntil);
    SetTails(nodes, seq(|nodes|, _ => now));
    var idle := BestChoice(Query(blocks, Views(nodes), now, params), true);
    assert Views(nodes) == CostLaws.Drained(Query(blocks, before, now, params)).nodes;
    SetTails(nodes, saved);
    assert Views(nodes) == before;
    coupled := loaded != idle;
  }

  method SetTails(nodes: seq<Node>, tails: seq<real>)
    requires Distinct(nodes) && |tails| == |nodes|
    modifies nodes
    ensures forall i :: 0 <= i < |nodes| ==> nodes[i].busyUntil == tails[i] && nodes[i].View() == old(nodes[i].View())
    ensures forall n :: n in nodes ==>
              n.cache == old(n.cache) && n.priority == old(n.priority) && n.expiry == old(n.expiry)
  {
    for i := 0 to |nodes|
      invariant forall j :: 0 <= j < i ==> nodes[j].busyUntil == tails[j]
      invariant forall n :: n in nodes ==> n.cache == old(n.cache) && n.priority == old(n.priority)
                                           && n.expiry == old(n.expiry) && n.pinnedEvictions == old(n.pinnedEvictions)
    {
      nodes[i].busyUntil := tails[i];
    }
  }

  /** The node objects of cluster `c`, in id order. */
  ghost predicate Ready(c: Cluster, nodes: seq<Node>)
    reads nodes
  {
    && |nodes| == c.numNodes && Distinct(nodes)
    && forall i :: 0 <= i < |nodes| ==>
         nodes[i].Valid() && nodes[i].nodeId == i && nodes[i].capacity == c.cacheBlocks
           && nodes[i].strategy == c.strategy
  }

  method CreateNodes(c: Cluster) returns (nodes: seq<Node>)
    ensures Ready(c, nodes) && Views(nodes) == InitialNodes(c)
    ensures fresh(nodes)
  {
    nodes := [];
    for i := 0 to c.numNodes
      invariant Ready(c.(numNodes := i), nodes)
      invariant fresh(nodes)
      invariant forall j :: 0 <= j < i ==> nodes[j].busyUntil == 0.0 && nodes[j].View() == Eviction.EMPTY
    {
      var n := new Node(i, c.cacheBlocks, c.strategy);
      nodes := nodes + [n];
    }
  }

  method AdmitAt(c: Cluster, nodes: seq<Node>, i: nat, a: Eviction.Admission)
    requires Ready(c, nodes) && i < |nodes|
    modifies nodes[i]
    ensures Ready(c, nodes)
    ensures Views(nodes) == old(Views(nodes))[i := AdmitNode(c, old(Views(nodes))[i], a)]
  {
    hide Eviction.Admit, EvictionLaws.KeepsTop;
    nodes[i].Admit(a.now, a.service, a.blocks, a.retainUntil, a.atIndex, a.priority);
  }

  /** One iteration of the engine's loop. */
  method ServeOne<S(!new)>(c: Cluster, policy: Policy<S>, nodes: seq<Node>, lastSeen: LastSeen<int>, state: S,
                           result: SimResult, idx: nat, req: TurnRequest) returns (state': S, result': SimResult)
    requires Routes(policy) && Ready(c, nodes) && nodes != [] && lastSeen.Sound()
    modifies nodes, lastSeen
    ensures Ready(c, nodes) && lastSeen.Sound()
    ensures Sim(Views(nodes), state', lastSeen.View(), result') ==
            Serve(c, policy, Sim(old(Views(nodes)), state, old(lastSeen.View()), result), idx, req)
  {
    hide BestChoice, OutcomeOf, RecordOutcome, RecordGap, AdmitNode, AdmissionFor, Observe, Views, Ready, Routes;
    ghost var sim := Sim(Views(nodes), state, lastSeen.View(), result);
    var gap := lastSeen.ObserveGap(req.view.conversationId, req.view.lastToolName.Some?, req.arrival, TRACKER_CAPACITY);
    var r := RecordGap(result, req.view.lastToolName, gap);
    ghost var seen := lastSeen.View();
    var q := QueryFor(c, Views(nodes), req);
    assert q.nodes == sim.nodes;
    var oracle := BestChoice(q, true);
    var coupled := ProbeCoupled(c, nodes, q, oracle);
    var place, next := Ask(policy, state, req.view, q);
    var choice := Choice(place.nodeId, place.transfer);
    r := RecordOutcome(r, req.kind, OutcomeOf(q, choice, req.genTokens, coupled));
    AdmitAt(c, nodes, place.nodeId, AdmissionFor(q, req, place, idx));
    state', result' := next, r;
  }

  method Ask<S(!new)>(policy: Policy<S>, state: S, view: RequestView, q: Query) returns (place: Placement, next: S)
    requires Routes(policy) && HasNodes(q)
    ensures (place, next) == policy(state, view, q) && place.nodeId < |q.nodes|
  {
    var answer := policy(state, view, q);
    place, next := answer.0, answer.1;
  }

  /** The probe keeps the cluster as it is and answers the coupling question. */
  method ProbeCoupled(c: Cluster, nodes: seq<Node>, q: Query, oracle: Choice) returns (coupled: bool)
    requires Ready(c, nodes) && HasNodes(q) && q.nodes == Views(nodes) && oracle == BestChoice(q, true)
    modifies nodes
    ensures Ready(c, nodes) && Views(nodes) == old(Views(nodes))
    ensures coupled == CostLaws.Coupled(q)
  {
    hide BestChoice;
    coupled := IsCoupled(nodes, q.blocks, q.now, q.params, oracle);
    assert q == Query(q.blocks, old(Views(nodes)), q.now, q.params);
  }

  /** The whole run: node objects, tables and metrics updated request by request. */
  method RunSimulation<S(!new)>(reqs: seq<TurnRequest>, policy: Policy<S>, s0: S, numNodes: nat, cacheBlocks: nat,
                                params: Params, belady: bool) returns (result: SimResult)
    requires Routes(policy) && numNodes > 0
    ensures !belady ==> result == Report(Cluster(numNodes, cacheBlocks, params, Eviction.Directives), policy, s0, reqs)
    ensures belady ==>
              exists table :: Belady.IsUseTable(SingleNode.BlockStream(reqs), |reqs|, table) &&
                              result == Report(Cluster(numNodes, cacheBlocks, params, Eviction.Lookahead(table)),
                                policy, s0, reqs)
  {
    hide Report, Belady.IsUseTable;
    var strategy := Eviction.Directives;
    if belady {
      var table := Belady.BuildFutureUses(SingleNode.BlockStream(reqs));
      strategy := Eviction.Lookahead(table);
    }
    result := Replay(Cluster(numNodes, cacheBlocks, params, strategy), policy, s0, reqs);
  }

  method Replay<S(!new)>(c: Cluster, policy: Policy<S>, s0: S, reqs: seq<TurnRequest>) returns (result: SimResult)
    requires Routes(policy) && c.numNodes > 0
    ensures result == Report(c, policy, s0, reqs)
  {
    var nodes := CreateNodes(c);
    var lastSeen := new LastSeen<int>();
    var state := s0;
    result := NO_RESULT;
    hide Serve, Routes, Views, Ready, LastSeen<int>.Sound;
    for idx := 0 to |reqs|
      invariant Ready(c, nodes) && |nodes| == c.numNodes && lastSeen.Sound()
      invariant fresh(lastSeen) && fresh(nodes)
      invariant Sim(Views(nodes), state, lastSeen.View(), result) == Simulate(c, policy, s0, reqs, idx)
    {
      state, result := ServeOne(c, policy, nodes, lastSeen, state, result, idx, reqs[idx]);
    }
    var pinned := CountPinned(nodes);
    result := result.(pinned := pinned);
  }

  method CountPinned(nodes: seq<Node>) returns (pinned: nat)
    ensures pinned == SumPinned(Views(nodes))
  {
    pinned := 0;
    for i := 0 to |nodes|
      invariant pinned == SumPinned(Views(nodes)[..i])
    {
      assert Views(nodes)[..i + 1][..i] == Views(nodes)[..i];
      pinned := pinned + nodes[i].pinnedEvictions;
    }
    assert Views(nodes)[..|nodes|] == Views(nodes);
  }
}
