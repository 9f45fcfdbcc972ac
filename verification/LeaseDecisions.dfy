/** When the learning router leases a prefix, for how long, and what becomes of the lease in the run. */
module LeaseDecisions {
  import opened Basics
  import opened Reals
  import opened Policies
  import opened GapStats
  import opened Learning
  import opened LearningHistory
  import opened Retention
  import opened RetentionLaws
  import opened Reliability
  import opened ReliabilityRuns
  import opened Engine
  import opened Handover
  import opened Shedding
  import Eviction
  import Leases

  /** Three seconds, confidence one half, half as long again, weight 0.3, 512 tools, 8192 conversations. */
  const SHIPPED := Config(3.0, 0.5, 1.5, 0.3, 512, 8192)

  /** A short gap whose variance does not exceed its squared mean, or is negligible. */
  ghost predicate Trusted(mean: real, variance: real) {
    mean <= 3.0 && (variance <= mean * mean || variance <= 0.000000001)
  }

  /** `w` is the least length of half as much again as the mean, and of a standard deviation past it. */
  ghost predicate LeastWindow(w: real, mean: real, variance: real) {
    && w >= 1.5 * mean && w >= mean && (w - mean) * (w - mean) >= variance
    && (w == 1.5 * mean || (w - mean) * (w - mean) == variance)
  }

  lemma {:induction false} RetainsIsTrusted(p: Prior)
    requires p.variance >= 0.0
    ensures Retains(SHIPPED, p) <==> Trusted(p.mean, p.variance)
  {
    ConfidentMeansTight(p.mean, p.variance);
    hide Confidence;
  }

  lemma {:induction false} WindowIsLeast(sqrt: real -> real, p: Prior)
    requires IsSqrt(sqrt) && p.mean >= 0.0 && p.variance >= 0.0
    ensures LeastWindow(Window(SHIPPED, sqrt, p), p.mean, p.variance)
  {
    var root := sqrt(p.variance);
    assert root >= 0.0 && Sq(root) == p.variance;
    SqCompares(root, Window(SHIPPED, sqrt, p) - p.mean);
  }

  /** The estimate behind the prediction at turn `k`: of a recent tool's gaps, oldest first. */
  ghost function Behind<K, T>(turns: seq<Turn<K, T>>, k: nat): Option<GapStat>
    requires k < |turns|
  {
    var tool, samples := turns[k].tool, Samples(turns, SHIPPED, k + 1);
    if tool.Some? && Recent(Tools(samples, |samples|), 512, tool.value)
    then Some(Estimate(Since(samples, 512, |samples|, tool.value), 0.3))
    else None
  }

  lemma {:induction false} BehindIsPredicted<K, T>(turns: seq<Turn<K, T>>, k: nat)
    requires k < |turns| && NonDecreasing(turns)
    ensures var stat := Behind(turns, k);
            var p := PredictGap(LearnAll(turns, SHIPPED, k + 1).index, map[], DEFAULT_PRIOR, turns[k].tool);
            if stat.Some?
            then p == Prior(stat.value.mean, stat.value.variance) && p.mean >= 0.0 && p.variance >= 0.0
            else p == Prior(2.0, 16.0)
  {
    var tool := turns[k].tool;
    var samples := Samples(turns, SHIPPED, k + 1);
    LearnerMatchesHistory(turns, SHIPPED, k + 1);
    GapTableIsRecent(samples, 0.3, 512, |samples|);
    hide LearnAll, Samples, Since, Estimate, Recent, GapTable, NonDecreasing, Tools;
    if tool.Some? {
      RecentIsResident(GapTable(samples, 0.3, 512, |samples|), Tools(samples, |samples|), 512, tool.value);
      if tool.value in LearnAll(turns, SHIPPED, k + 1).index.vals {
        IndexHasEvidence(turns, SHIPPED, k + 1, tool.value);
      }
    }
  }

  /** The tool of turn `k` is predicted to return soon, and reliably so. */
  ghost predicate ReturnsSoon<K, T>(turns: seq<Turn<K, T>>, k: nat)
    requires k < |turns|
  {
    Behind(turns, k).Some? && Trusted(Behind(turns, k).value.mean, Behind(turns, k).value.variance)
  }

  lemma {:induction false} PredictedIsBehind(reqs: seq<TurnRequest>, k: nat)
    requires k < |reqs| && NonDecreasing(Turns(reqs))
    ensures var p, stat := Predicted(reqs, SHIPPED, k), Behind(Turns(reqs), k);
            if stat.Some?
            then p == Prior(stat.value.mean, stat.value.variance) && p.mean >= 0.0 && p.variance >= 0.0
            else p == Prior(2.0, 16.0)
  {
    assert Turns(reqs)[k].tool == reqs[k].view.lastToolName;
    hide Behind, LearnAll, PredictGap, NonDecreasing;
    BehindIsPredicted(Turns(reqs), k);
  }

  /**
   The lease decision in every run, if a conversation's times do not decrease: a tool turn is
   placed with priority 50 exactly when its tool is among the 512 recorded most recently and
   the estimate of its gaps is short and reliable, and then for the least window; every other
   tool turn is placed without a directive.
   */
  lemma {:induction false} LeaseDecided(c: Cluster, sqrt: real -> real, reqs: seq<TurnRequest>, k: nat)
    requires c.numNodes > 0 && k < |reqs| && IsSqrt(sqrt) && NonDecreasing(Turns(reqs))
    ensures var place := LearningStep(c, SHIPPED, sqrt, reqs, k).placement;
            match Classify(reqs[k].view)
            case Oneshot => place.priority == Some(-1) && place.retainUntil == 0.0
            case Rag => place.priority == None && place.retainUntil == 0.0
            case Tool =>
              if ReturnsSoon(Turns(reqs), k) then
                && place.priority == Some(50)
                && LeastWindow(place.retainUntil - reqs[k].arrival, Behind(Turns(reqs), k).value.mean,
                               Behind(Turns(reqs), k).value.variance)
              else place.priority == None && place.retainUntil == 0.0
  {
    hide Behind, Trusted, LeastWindow, IsSqrt, NonDecreasing, Turns, Predicted, LearningStep, Retains, Window, Classify,
         Directed, ClassAwarePlacement;
    var p, q, kind := Predicted(reqs, SHIPPED, k), LearningStep(c, SHIPPED, sqrt, reqs, k).query,
        Classify(reqs[k].view);
    LearningDecides(c, SHIPPED, sqrt, reqs, k);
    PredictedIsBehind(reqs, k);
    DoubtedPrior(p);
    RetainsIsTrusted(p);
    WindowIsLeast(sqrt, p);
    DirectiveByClass(kind, q, p, SHIPPED, sqrt);
  }

  lemma {:induction false} DoubtedPrior(p: Prior)
    ensures p == Prior(2.0, 16.0) ==> !Trusted(p.mean, p.variance) && p.variance >= 0.0 && p.mean >= 0.0
  {
  }

  // ------------------------------------------------------------------ in the run

  /**
   The mark each class asks its node for: one-shots go first for good, documents and doubted
   tools are unmarked, a trusted tool's prefix is held at 50 until its window ends, or for good
   if the window is empty.
   */
  lemma {:induction false} MarkAsked(c: Cluster, sqrt: real -> real, reqs: seq<TurnRequest>, k: nat)
    requires c.numNodes > 0 && k < |reqs| && IsSqrt(sqrt) && NonDecreasing(Turns(reqs)) && reqs[k].arrival >= 0.0
    ensures var place := LearningStep(c, SHIPPED, sqrt, reqs, k).placement;
            var window := place.retainUntil - reqs[k].arrival;
            Asked(place, reqs[k].arrival) ==
            match Classify(reqs[k].view)
            case Oneshot => Some(Eviction.Mark(-1, Never))
            case Rag => None
            case Tool =>
              if !ReturnsSoon(Turns(reqs), k) then None
              else Some(Eviction.Mark(50, if window > 0.0 then At(place.retainUntil) else Never))
  {
    LeaseDecided(c, sqrt, reqs, k);
    hide LearningStep, ReturnsSoon, LeastWindow, IsSqrt, NonDecreasing, Classify, Behind;
  }

  lemma {:induction false} StepIsDecided(c: Cluster, cfg: Config, sqrt: real -> real, reqs: seq<TurnRequest>, k: nat)
    requires c.numNodes > 0 && k < |reqs|
    ensures Routes(LearningPolicy(cfg, sqrt))
    ensures Decided(c, LearningPolicy(cfg, sqrt), NewLearner(), reqs, k) ==
            LearningStep(c, cfg, sqrt, reqs, k).placement
  {
    LearningRoutes(cfg, sqrt);
    hide LearningPolicy, Simulate, Routes;
  }

  /** After request `k` its blocks on the chosen node are under exactly the mark of its class. */
  lemma {:induction false} MarksLand(c: Cluster, sqrt: real -> real, reqs: seq<TurnRequest>, k: nat, b: int)
    requires c.numNodes > 0 && k < |reqs| && IsSqrt(sqrt) && NonDecreasing(Turns(reqs)) && reqs[k].arrival >= 0.0
    requires b in reqs[k].view.blocks
    ensures var place := LearningStep(c, SHIPPED, sqrt, reqs, k).placement;
            var nodes, window := LearningRun(c, SHIPPED, sqrt, reqs, k + 1).nodes, place.retainUntil - reqs[k].arrival;
            place.nodeId < |nodes| &&
            (b in nodes[place.nodeId].cache.order ==>
               MarkIn(nodes[place.nodeId].cache.marks, b) ==
               match Classify(reqs[k].view)
               case Oneshot => Some(Eviction.Mark(-1, Never))
               case Rag => None
               case Tool =>
                 if !ReturnsSoon(Turns(reqs), k) then None
                 else Some(Eviction.Mark(50, if window > 0.0 then At(place.retainUntil) else Never)))
  {
    hide LearningPolicy, Simulate, Routes, Classify, ReturnsSoon, IsSqrt, NonDecreasing, Asked, LearningStep, Decided;
    MarkAsked(c, sqrt, reqs, k);
    StepIsDecided(c, SHIPPED, sqrt, reqs, k);
    var node := LearningStep(c, SHIPPED, sqrt, reqs, k).placement.nodeId;
    StepServes(c, LearningPolicy(SHIPPED, sqrt), NewLearner(), reqs, k, node);
  }

  /**
   A lease of the learning router, over the run: the blocks of a trusted tool turn stay on their
   node at priority 50, under the expiry they were leased with, until it passes or the node serves
   them again, for as long as the node reports no pressure.
   */
  lemma {:induction false} LearnedLeaseLasts(c: Cluster, sqrt: real -> real, reqs: seq<TurnRequest>, k: nat, j: nat,
                                             b: int)
    requires c.numNodes > 0 && k < j <= |reqs| && IsSqrt(sqrt) && NonDecreasing(Turns(reqs)) && reqs[k].arrival >= 0.0
    requires c.strategy == Eviction.Directives && b in reqs[k].view.blocks
    requires Classify(reqs[k].view) == Tool && ReturnsSoon(Turns(reqs), k)
    requires var place := LearningStep(c, SHIPPED, sqrt, reqs, k).placement;
             forall t :: k <= t < j && LearningStep(c, SHIPPED, sqrt, reqs, t).placement.nodeId == place.nodeId ==>
               && (t > k ==> b !in reqs[t].view.blocks)
               && (place.retainUntil > reqs[k].arrival ==> reqs[t].arrival < place.retainUntil)
    requires var i := LearningStep(c, SHIPPED, sqrt, reqs, k).placement.nodeId;
             i < c.numNodes &&
             LearningRun(c, SHIPPED, sqrt, reqs, j).nodes[i].cache.pinned ==
             LearningRun(c, SHIPPED, sqrt, reqs, k).nodes[i].cache.pinned
    ensures var place := LearningStep(c, SHIPPED, sqrt, reqs, k).placement;
            Leases.HeldWith(LearningRun(c, SHIPPED, sqrt, reqs, j).nodes[place.nodeId].cache, b,
                            Eviction.Mark(50, if place.retainUntil > reqs[k].arrival then At(place.retainUntil)
                                              else Never))
  {
    hide LearningPolicy, Simulate, Routes, Classify, ReturnsSoon, IsSqrt, NonDecreasing, Asked, LearningStep, Decided;
    var place := LearningStep(c, SHIPPED, sqrt, reqs, k).placement;
    var mark := Eviction.Mark(50, if place.retainUntil > reqs[k].arrival then At(place.retainUntil) else Never);
    MarkAsked(c, sqrt, reqs, k);
    StepIsDecided(c, SHIPPED, sqrt, reqs, k);
    forall t | k <= t < j
      ensures Decided(c, LearningPolicy(SHIPPED, sqrt), NewLearner(), reqs, t) ==
              LearningStep(c, SHIPPED, sqrt, reqs, t).placement
    {
      StepIsDecided(c, SHIPPED, sqrt, reqs, t);
    }
    assert Leasing(c, LearningPolicy(SHIPPED, sqrt), NewLearner(), reqs, k, j, b, mark);
    LeaseLasts(c, LearningPolicy(SHIPPED, sqrt), NewLearner(), reqs, k, j, b, mark);
  }
}
