/**
 The discrete-event engine as a state machine over values: serve one request after
 another, price the policy's choice on the true state, admit, record.
 */
module Engine {
  import opened Basics
  import opened Reals
  import opened BoundedMap
  import opened Cost
  import opened Policies
  import opened Learning
  import Eviction
  import CostLaws

  datatype TurnRequest = TurnRequest(arrival: real, genTokens: nat, kind: string, view: RequestView)

  datatype KindStats = KindStats(count: nat, ttfts: seq<real>, regrets: seq<real>, reused: nat, total: nat)

  datatype SimResult = SimResult(ttfts: seq<real>, e2e: seq<real>, successes: nat, regimes: map<Regime, nat>,
                                 regrets: seq<real>, coupled: nat, reused: nat, total: nat, pinned: nat,
                                 byKind: map<string, KindStats>, gapByTool: map<string, seq<real>>)

  const NO_RESULT := SimResult([], [], 0, map[], [], 0, 0, 0, 0, map[], map[])
  const NO_KIND := KindStats(0, [], [], 0, 0)

  const TRACKER_CAPACITY: nat := 8192

  /** A policy maps its state, the request as it may see it and the cluster to a placement and a new state. */
  type Policy<!S> = (S, RequestView, Query) -> (Placement, S)

  datatype Cluster = Cluster(numNodes: nat, cacheBlocks: nat, params: Params, strategy: Eviction.Strategy)

  datatype Sim<S> = Sim(nodes: seq<NodeView>, policy: S, seen: Table<int, real>, result: SimResult)

  /** Every placement names one of the nodes. */
  ghost predicate Routes<S(!new)>(policy: Policy<S>) {
    forall s, v, q :: HasNodes(q) ==> policy(s, v, q).0.nodeId < |q.nodes|
  }

  function GetOr<K, V>(m: map<K, V>, k: K, default: V): V {
    if k in m then m[k] else default
  }

  function InitialNodes(c: Cluster): (nodes: seq<NodeView>)
    ensures |nodes| == c.numNodes
    ensures forall i :: 0 <= i < c.numNodes ==> nodes[i] == NodeView(0.0, Eviction.EMPTY)
  {
    seq(c.numNodes, _ => NodeView(0.0, Eviction.EMPTY))
  }

  /** The queue and the cache of a node after it admits `a`. */
  function AdmitNode(c: Cluster, n: NodeView, a: Eviction.Admission): NodeView {
    NodeView(MaxReal(a.now, n.busyUntil) + a.service, Eviction.Admit(n.cache, c.strategy, c.cacheBlocks, a))
  }

  function QueryFor(c: Cluster, nodes: seq<NodeView>, req: TurnRequest): Query {
    Query(req.view.blocks, nodes, req.arrival, c.params)
  }

  function DecodeTime(p: Params, tokens: nat): real {
    Mul(tokens as real, p.interToken)
  }

  function ServiceTime(q: Query, choice: Choice, genTokens: nat): real
    requires HasNodes(q) && choice.node < |q.nodes|
  {
    PrefillTime(q.params, |q.blocks| - Resident(q, choice)) + DecodeTime(q.params, genTokens)
  }

  function AdmissionFor(q: Query, req: TurnRequest, place: Placement, idx: nat): Eviction.Admission
    requires HasNodes(q) && place.nodeId < |q.nodes|
  {
    Eviction.Admission(q.now, ServiceTime(q, Choice(place.nodeId, place.transfer), req.genTokens), q.blocks,
                       place.retainUntil, idx, place.priority)
  }

  /** What serving one request contributes to the metrics. */
  datatype Outcome = Outcome(ttft: real, e2e: real, regime: Regime, regret: real, coupled: bool, reused: nat,
    total: nat)

  function OutcomeOf(q: Query, choice: Choice, genTokens: nat, coupled: bool): (o: Outcome)
    requires HasNodes(q) && choice.node < |q.nodes|
    ensures o.reused <= o.total
  {
    var realized := Predict(q, choice);
    Outcome(realized.ttft, realized.ttft + DecodeTime(q.params, genTokens), realized.regime,
            MaxReal(0.0, realized.ttft - BestPlacement(q).ttft), coupled, Resident(q, choice), |q.blocks|)
  }

  function RecordKind(stats: KindStats, o: Outcome): KindStats {
    KindStats(stats.count + 1, stats.ttfts + [o.ttft], stats.regrets + [o.regret], stats.reused
              + o.reused, stats.total + o.total)
  }

  function RecordOutcome(r: SimResult, kind: string, o: Outcome): SimResult {
    r.(ttfts := r.ttfts + [o.ttft], e2e := r.e2e + [o.e2e], successes := r.successes + 1,
       regimes := r.regimes[o.regime := GetOr(r.regimes, o.regime, 0) + 1],
       regrets := r.regrets + [o.regret], coupled := r.coupled + (if o.coupled then 1 else 0),
       reused := r.reused + o.reused, total := r.total + o.total,
       byKind := r.byKind[kind := RecordKind(GetOr(r.byKind, kind, NO_KIND), o)])
  }

  /** Note an observed re-arrival gap of a tool. */
  function RecordGap(r: SimResult, tool: Option<string>, gap: Option<real>): SimResult {
    if gap.Some? && tool.Some? then
      r.(gapByTool := r.gapByTool[tool.value := GetOr(r.gapByTool, tool.value, []) + [gap.value]])
    else r
  }

  function Serve<S(!new)>(c: Cluster, policy: Policy<S>, sim: Sim<S>, idx: nat, req: TurnRequest): (sim': Sim<S>)
    requires Routes(policy) && sim.nodes != []
    ensures |sim'.nodes| == |sim.nodes|
  {
    var q := QueryFor(c, sim.nodes, req);
    var (gap, seen) := Observe(sim.seen, req.view.conversationId, req.view.lastToolName.Some?, req.arrival,
      TRACKER_CAPACITY);
    var (place, policy') := policy(sim.policy, req.view, q);
    var choice := Choice(place.nodeId, place.transfer);
    var outcome := OutcomeOf(q, choice, req.genTokens, CostLaws.Coupled(q));
    Sim(sim.nodes[place.nodeId := AdmitNode(c, sim.nodes[place.nodeId], AdmissionFor(q, req, place, idx))],
        policy', seen,
        RecordOutcome(RecordGap(sim.result, req.view.lastToolName, gap), req.kind, outcome))
  }

  /** The state after the first `k` requests. */
  function Simulate<S(!new)>(c: Cluster, policy: Policy<S>, s0: S, reqs: seq<TurnRequest>, k: nat): (sim: Sim<S>)
    requires Routes(policy) && c.numNodes > 0 && k <= |reqs|
    ensures |sim.nodes| == c.numNodes
    decreases k
  {
    if k == 0 then Sim(InitialNodes(c), s0, Empty(), NO_RESULT)
    else Serve(c, policy, Simulate(c, policy, s0, reqs, k - 1), k - 1, reqs[k - 1])
  }

  function SumPinned(nodes: seq<NodeView>): nat {
    if nodes == [] then 0 else SumPinned(nodes[..|nodes| - 1]) + nodes[|nodes| - 1].cache.pinned
  }

  /** What a whole run reports: its metrics and the pressure of all nodes. */
  function Report<S(!new)>(c: Cluster, policy: Policy<S>, s0: S, reqs: seq<TurnRequest>): SimResult
    requires Routes(policy) && c.numNodes > 0
  {
    var sim := Simulate(c, policy, s0, reqs, |reqs|);
    sim.result.(pinned := SumPinned(sim.nodes))
  }
}
