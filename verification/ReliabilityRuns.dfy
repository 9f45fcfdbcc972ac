/** The learning router on whole engine runs: what it has learned, where it routes, what it leases. */
module ReliabilityRuns {
  import opened Basics
  import opened Cost
  import opened Policies
  import opened RegretLaws
  import opened GapStats
  import opened Learning
  import opened LearningHistory
  import opened Retention
  import opened RetentionLaws
  import opened Reliability
  import opened Engine
  import opened EngineLaws
  import CostLaws
  import Priority

  type Learned = Retention.Learner<int, string>

  /** The router with its learner as policy state; estimates of a sane learner are never negative. */
  function LearningPolicy(cfg: Config, sqrt: real -> real): Policy<Learned> {
    (l: Learned, v: RequestView, q: Query) =>
      if q.nodes == [] then (NOWHERE, l)
      else
        var l' := Learn(l, TurnOf(v, q.now), cfg);
        var place, p := ClassAwarePlacement(Classify(v), q), PredictGap(l'.index, map[], DEFAULT_PRIOR, v.lastToolName);
        (if p.variance >= 0.0 then Directed(Classify(v), place, p, q.now, cfg, sqrt) else place, l')
  }

  lemma {:induction false} LearningRoutes(cfg: Config, sqrt: real -> real)
    ensures Routes(LearningPolicy(cfg, sqrt))
  {
    hide Learn, ClassAwareChoice, Retains, Window, ApproxScore, PredictGap, Ttft, RegimeOf, FollowsDocument;
  }

  function Turns(reqs: seq<TurnRequest>): (turns: seq<Turn<int, string>>)
    ensures |turns| == |reqs|
    ensures forall i :: 0 <= i < |reqs| ==> turns[i] == TurnOf(reqs[i].view, reqs[i].arrival)
  {
    seq(|reqs|, i requires 0 <= i < |reqs| => TurnOf(reqs[i].view, reqs[i].arrival))
  }

  function LearningRun(c: Cluster, cfg: Config, sqrt: real -> real, reqs: seq<TurnRequest>, k: nat): (sim: Sim<Learned>)
    requires c.numNodes > 0 && k <= |reqs|
    ensures |sim.nodes| == c.numNodes
  {
    LearningRoutes(cfg, sqrt);
    Simulate(c, LearningPolicy(cfg, sqrt), NewLearner(), reqs, k)
  }

  lemma {:induction false} LearningServe(c: Cluster, cfg: Config, sqrt: real -> real, sim: Sim<Learned>, k: nat,
                                         req: TurnRequest)
    requires sim.nodes != []
    ensures Routes(LearningPolicy(cfg, sqrt))
    ensures Serve(c, LearningPolicy(cfg, sqrt), sim, k, req).policy ==
            Learn(sim.policy, TurnOf(req.view, req.arrival), cfg)
  {
    LearningRoutes(cfg, sqrt);
    hide Learn, ClassAwarePlacement, Directed, PredictGap, AdmitNode, AdmissionFor, OutcomeOf, RecordOutcome,
         RecordGap, CostLaws.Coupled, Routes;
  }

  /** Routing does not touch what is learned: the policy state is the fold of all requests. */
  lemma {:induction false} RunLearnsAll(c: Cluster, cfg: Config, sqrt: real -> real, reqs: seq<TurnRequest>, k: nat)
    requires c.numNodes > 0 && k <= |reqs|
    ensures LearningRun(c, cfg, sqrt, reqs, k).policy == LearnAll(Turns(reqs), cfg, k)
  {
    hide Learn, Serve, LearningPolicy, Routes;
    if k > 0 {
      RunLearnsAll(c, cfg, sqrt, reqs, k - 1);
      LearningServe(c, cfg, sqrt, LearningRun(c, cfg, sqrt, reqs, k - 1), k - 1, reqs[k - 1]);
    }
  }

  // ------------------------------------------------------------------ observed gaps

  /** The gaps among `samples` that belong to `tool`, in order. */
  function GapsOf(samples: seq<Sample<string>>, tool: string): seq<real> {
    if samples == [] then []
    else
      var x := samples[|samples| - 1];
      GapsOf(samples[..|samples| - 1], tool) + if x.tool == tool then [x.gap] else []
  }

  ghost predicate GapsMatch(r: SimResult, samples: seq<Sample<string>>) {
    forall tool :: GetOr(r.gapByTool, tool, []) == GapsOf(samples, tool)
  }

  /** What the engine reports per tool, after any policy's run, is the history's own list of re-arrival gaps. */
  lemma {:induction false} ReportedGapsAreExact<S(!new)>(c: Cluster, policy: Policy<S>, s0: S, reqs: seq<TurnRequest>,
                                                         k: nat)
    requires Routes(policy) && c.numNodes > 0 && k <= |reqs|
    ensures Simulate(c, policy, s0, reqs, k).seen == SeenTable(Sightings(Turns(reqs)), 8192, k)
    ensures GapsMatch(Simulate(c, policy, s0, reqs, k).result, Samples(Turns(reqs), Retention.DEFAULTS, k))
    ensures Retention.DEFAULTS.trackerCapacity == 8192
  {
    hide Serve, Routes, GapsMatch, Samples, SeenTable, Turns, Sightings;
    if k == 0 {
      NoGapsYet(c, policy, s0, reqs);
    } else {
      ReportedGapsAreExact(c, policy, s0, reqs, k - 1);
      ServeNotesGap(c, policy, Simulate(c, policy, s0, reqs, k - 1), reqs, k - 1);
    }
  }

  lemma NoGapsYet<S(!new)>(c: Cluster, policy: Policy<S>, s0: S, reqs: seq<TurnRequest>)
    requires Routes(policy) && c.numNodes > 0
    ensures Simulate(c, policy, s0, reqs, 0).seen == SeenTable(Sightings(Turns(reqs)), TRACKER_CAPACITY, 0)
    ensures GapsMatch(Simulate(c, policy, s0, reqs, 0).result, Samples(Turns(reqs), Retention.DEFAULTS, 0))
  {
  }

  lemma {:induction false} ServeNotesGap<S(!new)>(c: Cluster, policy: Policy<S>, sim: Sim<S>, reqs: seq<TurnRequest>,
                                                  k: nat)
    requires Routes(policy) && sim.nodes != [] && k < |reqs|
    requires sim.seen == SeenTable(Sightings(Turns(reqs)), TRACKER_CAPACITY, k)
    requires GapsMatch(sim.result, Samples(Turns(reqs), Retention.DEFAULTS, k))
    ensures var sim' := Serve(c, policy, sim, k, reqs[k]);
            && sim'.seen == SeenTable(Sightings(Turns(reqs)), TRACKER_CAPACITY, k + 1)
            && GapsMatch(sim'.result, Samples(Turns(reqs), Retention.DEFAULTS, k + 1))
  {
    var turns, s := Turns(reqs), Sightings(Turns(reqs));
    ObserveIsExact(s, TRACKER_CAPACITY, k);
    SeenTableStep(s, TRACKER_CAPACITY, k);
    SamplesStep(turns, Retention.DEFAULTS, k);
    ServeRecords(c, policy, sim, k, reqs[k]);
    ServeSees(c, policy, sim, k, reqs[k]);
    hide Serve, Observe, ExactGap, Samples, SeenTable, Sightings, GapsMatch, OutcomeOf, RecordOutcome, CostLaws.Coupled;
    var step := StepAt(c, policy, sim, reqs[k]);
    NoteGap(sim.result, Samples(turns, Retention.DEFAULTS, k), reqs[k].view.lastToolName, step.gap, reqs[k].kind,
            OutcomeOf(step.query, step.choice, reqs[k].genTokens, CostLaws.Coupled(step.query)));
  }

  lemma {:induction false} ServeSees<S(!new)>(c: Cluster, policy: Policy<S>, sim: Sim<S>, k: nat, req: TurnRequest)
    requires Routes(policy) && sim.nodes != []
    ensures var seen := Observe(sim.seen, req.view.conversationId, req.view.lastToolName.Some?, req.arrival,
            TRACKER_CAPACITY);
            StepAt(c, policy, sim, req).gap == seen.0 && Serve(c, policy, sim, k, req).seen == seen.1
  {
    hide Observe, RecordOutcome, RecordGap, OutcomeOf, CostLaws.Coupled, AdmitNode, AdmissionFor;
  }

  lemma {:induction false} NoteGap(r: SimResult, samples: seq<Sample<string>>, tool: Option<string>,
                                   gap: Option<real>, kind: string, o: Outcome)
    requires GapsMatch(r, samples) && (gap.Some? ==> tool.Some?)
    ensures GapsMatch(RecordOutcome(RecordGap(r, tool, gap), kind, o),
                      samples + if gap.Some? then [Sample(tool.value, gap.value)] else [])
  {
    assert samples + [] == samples;
    if gap.Some? {
      var x := Sample(tool.value, gap.value);
      var r' := RecordOutcome(RecordGap(r, tool, gap), kind, o);
      forall t ensures GetOr(r'.gapByTool, t, []) == GapsOf(samples + [x], t) {
        GapsSnoc(samples, x, t);
        assert GetOr(r.gapByTool, t, []) == GapsOf(samples, t);
      }
    }
  }

  lemma {:induction false} GapsSnoc(samples: seq<Sample<string>>, x: Sample<string>, tool: string)
    ensures GapsOf(samples + [x], tool) == GapsOf(samples, tool) + if x.tool == tool then [x.gap] else []
  {
    assert (samples + [x])[..|samples|] == samples;
  }

  // ------------------------------------------------------------------ single requests

  function LearningStep(c: Cluster, cfg: Config, sqrt: real -> real, reqs: seq<TurnRequest>, k: nat): (s: Step)
    requires c.numNodes > 0 && k < |reqs|
    ensures HasNodes(s.query) && s.choice.node < |s.query.nodes| && s.query.params == c.params
  {
    LearningRoutes(cfg, sqrt);
    StepOf(c, LearningPolicy(cfg, sqrt), NewLearner(), reqs, k)
  }

  /** The gap predicted for request `k`, once it has been learned from. */
  function Predicted(reqs: seq<TurnRequest>, cfg: Config, k: nat): Prior
    requires k < |reqs|
  {
    PredictGap(LearnAll(Turns(reqs), cfg, k + 1).index, map[], DEFAULT_PRIOR, reqs[k].view.lastToolName)
  }

  /** What the router returns for request `k`: the class-aware placement under the learned directive. */
  lemma {:induction false} LearningDecides(c: Cluster, cfg: Config, sqrt: real -> real, reqs: seq<TurnRequest>, k: nat)
    requires c.numNodes > 0 && k < |reqs|
    ensures var s, kind, p := LearningStep(c, cfg, sqrt, reqs, k), Classify(reqs[k].view), Predicted(reqs, cfg, k);
            var place := ClassAwarePlacement(kind, s.query);
            && s.query.now == reqs[k].arrival
            && s.placement == (if p.variance >= 0.0 then Directed(kind, place, p, s.query.now, cfg, sqrt) else place)
            && s.choice == Choice(s.placement.nodeId, s.placement.transfer)
  {
    LearningRoutes(cfg, sqrt);
    RunLearnsAll(c, cfg, sqrt, reqs, k);
    hide Learn, ClassAwarePlacement, Directed, PredictGap, Simulate, Classify, Routes;
  }

  /** Learning changes no placement: the class-aware bounds hold on every request of every run. */
  lemma {:induction false} LearningRunRegret(c: Cluster, cfg: Config, sqrt: real -> real, reqs: seq<TurnRequest>,
                                             k: nat)
    requires c.numNodes > 0 && k < |reqs|
    ensures var s, regrets := LearningStep(c, cfg, sqrt, reqs, k),
            LearningRun(c, cfg, sqrt, reqs, |reqs|).result.regrets;
            && s.choice == ClassAwareChoice(Classify(reqs[k].view), s.query)
            && k < |regrets| && 0.0 <= regrets[k] <= WorstRegret(Classify(reqs[k].view), s.query)
  {
    LearningRoutes(cfg, sqrt);
    LearningDecides(c, cfg, sqrt, reqs, k);
    RegretIsRecorded(c, LearningPolicy(cfg, sqrt), NewLearner(), reqs, k, |reqs|);
    hide Predicted, Simulate, StepOf, Regret, WorstRegret, Classify, ClassAwarePlacement, Directed;
    var s, kind, p := LearningStep(c, cfg, sqrt, reqs, k), Classify(reqs[k].view), Predicted(reqs, cfg, k);
    PlacedByClass(kind, s.query, p, cfg, sqrt);
    ClassAwareRegret(kind, s.query);
  }

  lemma {:induction false} PlacedByClass(kind: Class, q: Query, p: Prior, cfg: Config, sqrt: real -> real)
    requires HasNodes(q)
    ensures var place := ClassAwarePlacement(kind, q);
            var placed := if p.variance >= 0.0 then Directed(kind, place, p, q.now, cfg, sqrt) else place;
            Choice(placed.nodeId, placed.transfer) == ClassAwareChoice(kind, q)
  {
    hide Ttft, RegimeOf, Coarse, Confidence, Directed;
    if p.variance >= 0.0 {
      DirectivesKeepRouting(kind, q, p, cfg, sqrt);
    }
  }

  /** The directive on a placement, by class. */
  lemma {:induction false} DirectiveByClass(kind: Class, q: Query, p: Prior, cfg: Config, sqrt: real -> real)
    requires HasNodes(q) && p.variance >= 0.0
    ensures var placed := Directed(kind, ClassAwarePlacement(kind, q), p, q.now, cfg, sqrt);
            match kind
            case Oneshot => placed.priority == Some(Priority.EVICT_FIRST) && placed.retainUntil == 0.0
            case Rag => placed.priority == None && placed.retainUntil == 0.0
            case Tool =>
              if Retains(cfg, p)
              then placed.priority == Some(Priority.HIGH) && placed.retainUntil == q.now + Window(cfg, sqrt, p)
              else placed.priority == None && placed.retainUntil == 0.0
  {
    hide Ttft, RegimeOf, Coarse, Confidence, Window, ApproxScore, ClassAwareChoice;
  }

  ghost predicate HasEvidence(reqs: seq<TurnRequest>, k: nat)
    requires k < |reqs|
  {
    var tool := reqs[k].view.lastToolName;
    tool.Some? && Evidence(Turns(reqs), Retention.DEFAULTS, k + 1, tool.value) != []
  }

  /** The mean of the gaps behind the prediction for request `k`. */
  ghost function EvidenceMean(reqs: seq<TurnRequest>, k: nat): real
    requires k < |reqs| && HasEvidence(reqs, k)
  {
    Estimate(Evidence(Turns(reqs), Retention.DEFAULTS, k + 1, reqs[k].view.lastToolName.value),
             Retention.DEFAULTS.alpha).mean
  }

  /** For a tool in the index the predicted mean is that of its recorded gaps. */
  lemma {:induction false} PredictionIsEvidence(reqs: seq<TurnRequest>, k: nat, tool: string)
    requires k < |reqs| && NonDecreasing(Turns(reqs)) && reqs[k].view.lastToolName == Some(tool)
    requires tool in LearnAll(Turns(reqs), Retention.DEFAULTS, k + 1).index.vals
    ensures HasEvidence(reqs, k) && Predicted(reqs, Retention.DEFAULTS, k).mean == EvidenceMean(reqs, k)
  {
    hide LearnAll, Evidence, Estimate, NonDecreasing;
    IndexHasEvidence(Turns(reqs), Retention.DEFAULTS, k + 1, tool);
  }

  lemma {:induction false} PredictionHasEvidence(sqrt: real -> real, reqs: seq<TurnRequest>, k: nat)
    requires k < |reqs| && IsSqrt(sqrt) && NonDecreasing(Turns(reqs))
    ensures var p := Predicted(reqs, Retention.DEFAULTS, k);
            && p.variance >= 0.0
            && (Retains(Retention.DEFAULTS, p) ==>
                  HasEvidence(reqs, k) && 1.5 * EvidenceMean(reqs, k) <= Window(Retention.DEFAULTS, sqrt, p) <= 6.0)
  {
    hide LearnAll, Evidence, IsSqrt, Window, NonDecreasing, Retains, PredictGap, HasEvidence, EvidenceMean;
    LeaseHasEvidenceAndBounds(Turns(reqs), sqrt, k + 1);
    if Retains(Retention.DEFAULTS, Predicted(reqs, Retention.DEFAULTS, k)) {
      PredictionIsEvidence(reqs, k, reqs[k].view.lastToolName.value);
    }
  }

  /**
   Leases in a run with default thresholds, if a conversation's times do not decrease:
   a request is placed with priority HIGH only for a tool turn whose tool has recorded
   gaps behind it, and then for 1.5 times the estimated gap at least and 6 seconds at
   most; one-shots are placed evict-first, and everything else without a directive.
   */
  lemma {:induction false} LeasesInRun(c: Cluster, sqrt: real -> real, reqs: seq<TurnRequest>, k: nat)
    requires c.numNodes > 0 && k < |reqs| && IsSqrt(sqrt) && NonDecreasing(Turns(reqs))
    ensures var place := LearningStep(c, Retention.DEFAULTS, sqrt, reqs, k).placement;
            match Classify(reqs[k].view)
            case Oneshot => place.priority == Some(Priority.EVICT_FIRST)
            case Rag => place.priority == None
            case Tool =>
              if place.priority == None then place.retainUntil == 0.0
              else
                && place.priority == Some(Priority.HIGH) && HasEvidence(reqs, k)
                && 1.5 * EvidenceMean(reqs, k) <= place.retainUntil - reqs[k].arrival <= 6.0
  {
    LearningDecides(c, Retention.DEFAULTS, sqrt, reqs, k);
    PredictionHasEvidence(sqrt, reqs, k);
    hide HasEvidence, EvidenceMean, IsSqrt, Window, Confidence, LearningStep, Classify, Predicted, NonDecreasing,
         Directed,
         ClassAwarePlacement;
    DirectiveByClass(Classify(reqs[k].view), LearningStep(c, Retention.DEFAULTS, sqrt, reqs, k).query,
                     Predicted(reqs, Retention.DEFAULTS, k), Retention.DEFAULTS, sqrt);
  }
}
