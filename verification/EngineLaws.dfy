/** Accounting and regret over whole runs of the engine, for every stream and policy. */
module EngineLaws {
  import opened Basics
  import opened Cost
  import opened CostLaws
  import opened Policies
  import opened RegretLaws
  import opened Engine
  import Learning

  // ------------------------------------------------------------------- accounting

  ghost function SumKinds(m: map<string, KindStats>, f: KindStats -> nat): nat {
    if m == map[] then 0
    else
      var k :| k in m;
      f(m[k]) + SumKinds(m - {k}, f)
  }

  lemma {:induction false} SumRemove(m: map<string, KindStats>, f: KindStats -> nat, k: string)
    requires k in m
    ensures SumKinds(m, f) == f(m[k]) + SumKinds(m - {k}, f)
  {
    var j :| j in m && SumKinds(m, f) == f(m[j]) + SumKinds(m - {j}, f);
    if j != k {
      SumRemove(m - {j}, f, k);
      SumRemove(m - {k}, f, j);
      assert m - {j} - {k} == m - {k} - {j};
    }
  }

  lemma {:induction false} SumUpdate(m: map<string, KindStats>, f: KindStats -> nat, k: string, v: KindStats)
    ensures SumKinds(m[k := v], f) == SumKinds(m, f) - (if k in m then f(m[k]) else 0) + f(v)
  {
    SumRemove(m[k := v], f, k);
    assert m[k := v] - {k} == m - {k};
    if k in m {
      SumRemove(m, f, k);
    } else {
      assert m - {k} == m;
    }
  }

  ghost function Counts(): KindStats -> nat {
    (s: KindStats) => s.count
  }

  ghost function Reuses(): KindStats -> nat {
    (s: KindStats) => s.reused
  }

  ghost function Totals(): KindStats -> nat {
    (s: KindStats) => s.total
  }

  function RegimeTotal(regimes: map<Regime, nat>): nat {
    GetOr(regimes, WaitForHot, 0) + GetOr(regimes, Transfer, 0) + GetOr(regimes, Recompute, 0)
  }

  /** Every per-class slice of a result adds up to its aggregates over `n` requests. */
  ghost predicate AddsUp(r: SimResult, n: nat) {
    && r.successes == |r.ttfts| == |r.e2e| == |r.regrets| == n
    && RegimeTotal(r.regimes) == n
    && r.coupled <= n && r.reused <= r.total
    && SumKinds(r.byKind, Counts()) == n
    && SumKinds(r.byKind, Reuses()) == r.reused
    && SumKinds(r.byKind, Totals()) == r.total
  }

  lemma {:induction false} RecordAddsUp(r: SimResult, n: nat, kind: string, o: Outcome)
    requires AddsUp(r, n) && o.reused <= o.total
    ensures AddsUp(RecordOutcome(r, kind, o), n + 1)
  {
    KindRecorded(r.byKind, kind, o);
    hide SumKinds, Counts, Reuses, Totals, RecordKind;
    OneMoreRegime(r.regimes, o.regime);
  }

  lemma {:induction false} KindRecorded(m: map<string, KindStats>, kind: string, o: Outcome)
    ensures var m' := m[kind := RecordKind(GetOr(m, kind, NO_KIND), o)];
            && SumKinds(m', Counts()) == SumKinds(m, Counts()) + 1
            && SumKinds(m', Reuses()) == SumKinds(m, Reuses()) + o.reused
            && SumKinds(m', Totals()) == SumKinds(m, Totals()) + o.total
  {
    var stats := RecordKind(GetOr(m, kind, NO_KIND), o);
    SumUpdate(m, Counts(), kind, stats);
    SumUpdate(m, Reuses(), kind, stats);
    SumUpdate(m, Totals(), kind, stats);
    hide SumKinds;
  }

  lemma OneMoreRegime(regimes: map<Regime, nat>, regime: Regime)
    ensures RegimeTotal(regimes[regime := GetOr(regimes, regime, 0) + 1]) == RegimeTotal(regimes) + 1
  {
  }

  lemma {:induction false} RunAddsUp<S(!new)>(c: Cluster, policy: Policy<S>, s0: S, reqs: seq<TurnRequest>, k: nat)
    requires Routes(policy) && c.numNodes > 0 && k <= |reqs|
    ensures AddsUp(Simulate(c, policy, s0, reqs, k).result, k)
  {
    hide AddsUp, Routes, Serve;
    if k == 0 {
      EmptyAddsUp(c, policy, s0, reqs);
    } else {
      RunAddsUp(c, policy, s0, reqs, k - 1);
      ServeAddsUp(c, policy, Simulate(c, policy, s0, reqs, k - 1), k - 1, reqs[k - 1]);
    }
  }

  lemma EmptyAddsUp<S(!new)>(c: Cluster, policy: Policy<S>, s0: S, reqs: seq<TurnRequest>)
    requires Routes(policy) && c.numNodes > 0
    ensures AddsUp(Simulate(c, policy, s0, reqs, 0).result, 0)
  {
  }

  lemma {:induction false} ServeAddsUp<S(!new)>(c: Cluster, policy: Policy<S>, sim: Sim<S>, k: nat, req: TurnRequest)
    requires Routes(policy) && sim.nodes != [] && AddsUp(sim.result, k)
    ensures AddsUp(Serve(c, policy, sim, k, req).result, k + 1)
  {
    var s := StepAt(c, policy, sim, req);
    var r := RecordGap(sim.result, req.view.lastToolName, s.gap);
    assert AddsUp(r, k);
    hide AddsUp, Serve, StepAt, Coupled, OutcomeOf;
    ServeRecords(c, policy, sim, k, req);
    RecordAddsUp(r, k, req.kind, OutcomeOf(s.query, s.choice, req.genTokens, Coupled(s.query)));
  }

  /** The result of serving, in terms of the step taken. */
  lemma {:induction false} ServeRecords<S(!new)>(c: Cluster, policy: Policy<S>, sim: Sim<S>, k: nat, req: TurnRequest)
    requires Routes(policy) && sim.nodes != []
    ensures var s := StepAt(c, policy, sim, req);
            Serve(c, policy, sim, k, req).result ==
            RecordOutcome(RecordGap(sim.result, req.view.lastToolName, s.gap), req.kind,
                          OutcomeOf(s.query, s.choice, req.genTokens, Coupled(s.query)))
  {
    hide RecordOutcome, RecordGap, OutcomeOf, Coupled, AdmitNode, AdmissionFor;
  }

  // ------------------------------------------------------------------ single steps

  datatype Step = Step(query: Query, placement: Placement, choice: Choice, gap: Option<real>)

  /** What serving `req` in state `sim` looks at and decides. */
  function StepAt<S(!new)>(c: Cluster, policy: Policy<S>, sim: Sim<S>, req: TurnRequest): (s: Step)
    requires Routes(policy) && sim.nodes != []
    ensures HasNodes(s.query) && s.choice.node < |s.query.nodes| && s.query.params == c.params
  {
    var q := QueryFor(c, sim.nodes, req);
    var place := policy(sim.policy, req.view, q).0;
    Step(q, place, Choice(place.nodeId, place.transfer),
         Learning.Observe(sim.seen, req.view.conversationId, req.view.lastToolName.Some?, req.arrival,
           TRACKER_CAPACITY).0)
  }

  function StepOf<S(!new)>(c: Cluster, policy: Policy<S>, s0: S, reqs: seq<TurnRequest>, k: nat): (s: Step)
    requires Routes(policy) && c.numNodes > 0 && k < |reqs|
    ensures HasNodes(s.query) && s.choice.node < |s.query.nodes| && s.query.params == c.params
  {
    StepAt(c, policy, Simulate(c, policy, s0, reqs, k), reqs[k])
  }

  lemma {:induction false} ServeAppendsRegret<S(!new)>(c: Cluster, policy: Policy<S>, sim: Sim<S>, k: nat,
                                                       req: TurnRequest)
    requires Routes(policy) && sim.nodes != []
    ensures var s := StepAt(c, policy, sim, req);
            Serve(c, policy, sim, k, req).result.regrets == sim.result.regrets + [Regret(s.query, s.choice)]
    ensures var s := StepAt(c, policy, sim, req);
            Serve(c, policy, sim, k, req).result.coupled == sim.result.coupled + if Coupled(s.query) then 1 else 0
  {
    hide Serve, StepAt, Coupled, OutcomeOf, Regret, RecordOutcome, RecordGap, Routes;
    var s := StepAt(c, policy, sim, req);
    ServeRecords(c, policy, sim, k, req);
    RecordedFields(sim.result, req.view.lastToolName, s.gap, req.kind,
                   OutcomeOf(s.query, s.choice, req.genTokens, Coupled(s.query)));
    OutcomeRegret(s.query, s.choice, req.genTokens, Coupled(s.query));
  }

  lemma RecordedFields(r: SimResult, tool: Option<string>, gap: Option<real>, kind: string, o: Outcome)
    ensures var r' := RecordOutcome(RecordGap(r, tool, gap), kind, o);
            && r'.regrets == r.regrets + [o.regret] && r'.ttfts == r.ttfts + [o.ttft] && r'.e2e == r.e2e + [o.e2e]
            && r'.coupled == r.coupled + (if o.coupled then 1 else 0) && r'.reused == r.reused + o.reused
  {
  }

  lemma {:induction false} OutcomeRegret(q: Query, choice: Choice, genTokens: nat, coupled: bool)
    requires HasNodes(q) && choice.node < |q.nodes|
    ensures OutcomeOf(q, choice, genTokens, coupled).regret == Regret(q, choice)
    ensures OutcomeOf(q, choice, genTokens, coupled).coupled == coupled
  {
    RegretIsNonNegative(q, choice);
    hide BestPlacement, Ttft;
  }

  lemma {:induction false} RegretsGrow<S(!new)>(c: Cluster, policy: Policy<S>, s0: S, reqs: seq<TurnRequest>, k: nat)
    requires Routes(policy) && c.numNodes > 0 && k < |reqs|
    ensures var r, r', s := Simulate(c, policy, s0, reqs, k).result, Simulate(c, policy, s0, reqs, k + 1).result,
                            StepOf(c, policy, s0, reqs, k);
            && |r.regrets| == k && r'.regrets == r.regrets + [Regret(s.query, s.choice)]
            && r'.coupled == r.coupled + if Coupled(s.query) then 1 else 0
  {
    hide Serve, Regret, Coupled, StepAt;
    RunAddsUp(c, policy, s0, reqs, k);
    ServeAppendsRegret(c, policy, Simulate(c, policy, s0, reqs, k), k, reqs[k]);
  }

  /** The recorded regret of request `k` is the true gap to the oracle: the clamp at zero never acts. */
  lemma {:induction false} RegretIsRecorded<S(!new)>(c: Cluster, policy: Policy<S>, s0: S, reqs: seq<TurnRequest>,
                                                     k: nat, n: nat)
    requires Routes(policy) && c.numNodes > 0 && k < n <= |reqs|
    ensures |Simulate(c, policy, s0, reqs, n).result.regrets| == n
    ensures var s := StepOf(c, policy, s0, reqs, k);
            Simulate(c, policy, s0, reqs, n).result.regrets[k] == Regret(s.query, s.choice) >= 0.0
  {
    hide Simulate, Regret, Routes, StepOf, BestChoice, Hot, Coupled;
    RegretsGrow(c, policy, s0, reqs, n - 1);
    var s, before := StepOf(c, policy, s0, reqs, k), Simulate(c, policy, s0, reqs, n - 1).result.regrets;
    if k < n - 1 {
      RegretIsRecorded(c, policy, s0, reqs, k, n - 1);
      assert Simulate(c, policy, s0, reqs, n).result.regrets[k] == before[k];
    } else {
      RegretIsNonNegative(s.query, s.choice);
    }
  }

  // ------------------------------------------------------------ policies over runs

  const NOWHERE := Placement(0, false, Recompute, 0.0, 0.0, None)

  /** A policy without state that decides on a choice. */
  function Stateless(choose: (RequestView, Query) -> Choice): Policy<()> {
    (s: (), v: RequestView, q: Query) =>
      (if choose(v, q).node < |q.nodes| && q.nodes != [] then Predict(q, choose(v, q)) else NOWHERE, s)
  }

  function OracleChoice(v: RequestView, q: Query): Choice {
    if q.nodes == [] then Choice(0, false) else BestChoice(q, true)
  }

  function AffinityChoice(v: RequestView, q: Query): Choice {
    if q.nodes == [] then Choice(0, false) else Choice(Hot(q), false)
  }

  function CoarseChoice(v: RequestView, q: Query): Choice {
    if q.nodes == [] then Choice(0, false) else TransferAwareChoice(q)
  }

  function ClassChoice(v: RequestView, q: Query): Choice {
    if q.nodes == [] then Choice(0, false) else ClassAwareChoice(Classify(v), q)
  }

  lemma {:induction false} StatelessRoutes(choose: (RequestView, Query) -> Choice)
    ensures Routes(Stateless(choose))
  {
    forall s, v, q | HasNodes(q) ensures Stateless(choose)(s, v, q).0.nodeId < |q.nodes| {
      if choose(v, q).node < |q.nodes| {
        assert Stateless(choose)(s, v, q).0 == Predict(q, choose(v, q));
      } else {
        assert Stateless(choose)(s, v, q).0 == NOWHERE;
      }
    }
  }

  /** A stateless policy's step is its choice, on every run. */
  lemma {:induction false} StatelessStep(c: Cluster, choose: (RequestView, Query) -> Choice, reqs: seq<TurnRequest>,
                                         k: nat)
    requires Routes(Stateless(choose)) && c.numNodes > 0 && k < |reqs|
    ensures var s := StepOf(c, Stateless(choose), (), reqs, k);
            choose(reqs[k].view, s.query).node < |s.query.nodes| ==> s.choice == choose(reqs[k].view, s.query)
  {
    hide Simulate, RegimeOf, Ttft;
  }

  /** Oracle routing has regret exactly zero at every request of every run. */
  lemma {:induction false} OracleRunHasNoRegret(c: Cluster, reqs: seq<TurnRequest>, k: nat)
    requires c.numNodes > 0 && k < |reqs|
    ensures Routes(Stateless(OracleChoice))
    ensures var r := Simulate(c, Stateless(OracleChoice), (), reqs, |reqs|).result;
            k < |r.regrets| && r.regrets[k] == 0.0
  {
    hide Simulate, StepOf, Regret;
    StatelessRoutes(OracleChoice);
    RegretIsRecorded(c, Stateless(OracleChoice), (), reqs, k, |reqs|);
    StatelessStep(c, OracleChoice, reqs, k);
    var q := StepOf(c, Stateless(OracleChoice), (), reqs, k).query;
    RegretIsNonNegative(q, BestChoice(q, true));
  }

  /** Coarse transfer-aware routing loses at most one nominal service time on any request of any run. */
  lemma {:induction false} CoarseRunRegret(c: Cluster, reqs: seq<TurnRequest>, k: nat)
    requires c.numNodes > 0 && k < |reqs|
    ensures Routes(Stateless(CoarseChoice))
    ensures var r := Simulate(c, Stateless(CoarseChoice), (), reqs, |reqs|).result;
            k < |r.regrets| && 0.0 <= r.regrets[k] <= NominalService(c.params)
  {
    hide Simulate, StepOf, Regret;
    StatelessRoutes(CoarseChoice);
    RegretIsRecorded(c, Stateless(CoarseChoice), (), reqs, k, |reqs|);
    StatelessStep(c, CoarseChoice, reqs, k);
    TransferAwareRegret(StepOf(c, Stateless(CoarseChoice), (), reqs, k).query);
  }

  /** The per-class bounds hold on every request of every class-aware run. */
  lemma {:induction false} ClassRunRegret(c: Cluster, reqs: seq<TurnRequest>, k: nat)
    requires c.numNodes > 0 && k < |reqs|
    ensures Routes(Stateless(ClassChoice))
    ensures var r, q := Simulate(c, Stateless(ClassChoice), (), reqs, |reqs|).result,
            StepOf(c, Stateless(ClassChoice), (), reqs, k).query;
            k < |r.regrets| && 0.0 <= r.regrets[k] <= WorstRegret(Classify(reqs[k].view), q)
  {
    hide Simulate, StepOf, Regret, WorstRegret, Classify;
    StatelessRoutes(ClassChoice);
    RegretIsRecorded(c, Stateless(ClassChoice), (), reqs, k, |reqs|);
    StatelessStep(c, ClassChoice, reqs, k);
    ClassAwareRegret(Classify(reqs[k].view), StepOf(c, Stateless(ClassChoice), (), reqs, k).query);
  }

  function Positives(xs: seq<real>): nat {
    if xs == [] then 0 else Positives(xs[..|xs| - 1]) + if xs[|xs| - 1] > 0.0 then 1 else 0
  }

  lemma {:induction false} PositivesSnoc(xs: seq<real>, x: real)
    ensures Positives(xs + [x]) == Positives(xs) + if x > 0.0 then 1 else 0
  {
    assert (xs + [x])[..|xs|] == xs;
  }

  /** Under pure affinity every request that loses time to the oracle is counted as coupled. */
  lemma {:induction false} AffinityLossesAreCoupled(c: Cluster, reqs: seq<TurnRequest>, k: nat)
    requires c.numNodes > 0 && k <= |reqs|
    ensures Routes(Stateless(AffinityChoice))
    ensures var r := Simulate(c, Stateless(AffinityChoice), (), reqs, k).result; Positives(r.regrets) <= r.coupled
  {
    StatelessRoutes(AffinityChoice);
    hide Positives, Serve, Stateless, Routes;
    if k == 0 {
      NothingPositive();
    } else {
      AffinityLossesAreCoupled(c, reqs, k - 1);
      AffinityStep(c, reqs, k - 1);
    }
  }

  lemma NothingPositive()
    ensures Positives([]) == 0
  {
  }

  lemma {:induction false} AffinityStep(c: Cluster, reqs: seq<TurnRequest>, k: nat)
    requires Routes(Stateless(AffinityChoice)) && c.numNodes > 0 && k < |reqs|
    requires var r := Simulate(c, Stateless(AffinityChoice), (), reqs, k).result; Positives(r.regrets) <= r.coupled
    ensures var r := Simulate(c, Stateless(AffinityChoice), (), reqs, k + 1).result; Positives(r.regrets) <= r.coupled
  {
    hide Positives, Simulate, StepOf, Coupled, Regret;
    var s := StepOf(c, Stateless(AffinityChoice), (), reqs, k);
    RegretsGrow(c, Stateless(AffinityChoice), (), reqs, k);
    PositivesSnoc(Simulate(c, Stateless(AffinityChoice), (), reqs, k).result.regrets, Regret(s.query, s.choice));
    StatelessStep(c, AffinityChoice, reqs, k);
    LossMeansCoupled(s.query);
  }

  lemma {:induction false} LossMeansCoupled(q: Query)
    requires HasNodes(q)
    ensures Regret(q, Choice(Hot(q), false)) > 0.0 ==> Coupled(q)
  {
    hide Coupled, BestPlacement, Ttft, Hot;
    if Regret(q, Choice(Hot(q), false)) > 0.0 {
      AffinityRegretMeansCoupled(q);
    }
  }
}
