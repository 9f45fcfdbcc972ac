/**
 The retention decision built on the learned gaps: when a lease is issued, how
 long it lasts, and what evidence stands behind it, over every run of a learner.
 */
module Retention {
  import opened Basics
  import opened BoundedMap
  import opened Reals
  import opened GapStats
  import opened Learning

  datatype Config = Config(shortGap: real, confThreshold: real, retainMargin: real, alpha: real,
                           indexCapacity: nat, trackerCapacity: nat)

  const DEFAULTS := Config(3.0, 0.5, 1.5, 0.3, 512, 8192)

  /** A square root on the non-negative reals. */
  ghost predicate IsSqrt(sqrt: real -> real) {
    forall v :: v >= 0.0 ==> sqrt(v) >= 0.0 && Sq(sqrt(v)) == v
  }

  predicate Retains(cfg: Config, p: Prior)
    requires p.variance >= 0.0
  {
    Confidence(p.mean, p.variance) >= cfg.confThreshold && p.mean <= cfg.shortGap
  }

  /** How long the prefix is kept warm. */
  function Window(cfg: Config, sqrt: real -> real, p: Prior): real {
    MaxReal(Mul(p.mean, cfg.retainMargin), p.mean + sqrt(p.variance))
  }

  /** One request as the learner meets it. */
  datatype Turn<K, T> = Turn(conversation: Option<K>, tool: Option<T>, now: real)

  datatype Learner<K(==), T(==)> = Learner(seen: Table<K, real>, index: Table<T, GapStat>)

  function NewLearner<K(==), T(==)>(): Learner<K, T> {
    Learner(Empty(), Empty())
  }

  function Learn<K(==), T(==)>(s: Learner<K, T>, turn: Turn<K, T>, cfg: Config): Learner<K, T> {
    var (gap, seen) := Observe(s.seen, turn.conversation, turn.tool.Some?, turn.now, cfg.trackerCapacity);
    Learner(seen,
            if gap.Some? then Record(s.index, turn.tool.value, gap.value, cfg.alpha, cfg.indexCapacity) else s.index)
  }

  function LearnAll<K(==), T(==)>(turns: seq<Turn<K, T>>, cfg: Config, k: nat): Learner<K, T>
    requires k <= |turns|
    decreases k
  {
    if k == 0 then NewLearner() else Learn(LearnAll(turns, cfg, k - 1), turns[k - 1], cfg)
  }

  /** No estimate has a negative variance. */
  ghost predicate Sane<T>(index: Table<T, GapStat>) {
    forall t :: t in index.vals ==> index.vals[t].variance >= 0.0
  }

  lemma {:induction false} LearnStaysSane<K, T>(l: Learner<K, T>, turn: Turn<K, T>, cfg: Config)
    requires Sane(l.index) && 0.0 <= cfg.alpha <= 1.0
    ensures Sane(Learn(l, turn, cfg).index)
  {
    hide Fold, Observe;
    var gap := Observe(l.seen, turn.conversation, turn.tool.Some?, turn.now, cfg.trackerCapacity).0;
    GapNeedsTool(l.seen, turn.conversation, turn.tool.Some?, turn.now, cfg.trackerCapacity);
    if gap.Some? {
      var tool := turn.tool.value;
      var stat := if tool in l.index.vals then l.index.vals[tool] else FRESH;
      FoldStaysSane(stat, gap.value, cfg.alpha);
    }
  }

  lemma GapNeedsTool<K>(t: Table<K, real>, key: Option<K>, hasTool: bool, now: real, cap: nat)
    ensures Observe(t, key, hasTool, now, cap).0.Some? ==> hasTool
  {
  }

  lemma {:induction false} FoldStaysSane(stat: GapStat, gap: real, alpha: real)
    requires stat.variance >= 0.0 && 0.0 <= alpha <= 1.0
    ensures Fold(stat, gap, alpha).variance >= 0.0
  {
    if stat.count > 0 {
      var d := gap - stat.mean;
      FoldValues(stat, gap, alpha);
      MulNonNegative(alpha, Sq(d));
      MulNonNegative(1.0 - alpha, stat.variance + Mul(alpha, Sq(d)));
    }
  }
}

module RetentionLaws {
  import opened Basics
  import opened Lru
  import opened BoundedMap
  import opened Reals
  import opened GapStats
  import opened Learning
  import opened LearningHistory
  import opened Retention
  import Eviction
  import Priority

  // ---------------------------------------------------- what a learner has recorded

  function Sightings<K, T>(turns: seq<Turn<K, T>>): (s: seq<Sighting<K>>)
    ensures |s| == |turns|
    ensures forall i :: 0 <= i < |turns| ==> s[i] == Sighting(turns[i].conversation, turns[i].tool.Some?, turns[i].now)
  {
    seq(|turns|, i requires 0 <= i < |turns| => Sighting(turns[i].conversation, turns[i].tool.Some?, turns[i].now))
  }

  /** The gaps the whole history attributes to tools, in order. */
  function Samples<K(==), T>(turns: seq<Turn<K, T>>, cfg: Config, k: nat): seq<Sample<T>>
    requires k <= |turns|
    decreases k
  {
    if k == 0 then []
    else
      var gap := ExactGap(Sightings(turns), cfg.trackerCapacity, k - 1);
      Samples(turns, cfg, k - 1) + (if gap.Some?
              && turns[k - 1].tool.Some? then [Sample(turns[k - 1].tool.value, gap.value)] else [])
  }

  ghost predicate NonDecreasing<K, T>(turns: seq<Turn<K, T>>) {
    forall i, j :: 0 <= i < j < |turns| && turns[i].conversation == turns[j].conversation ==>
      turns[i].now <= turns[j].now
  }

  lemma {:induction false} LearnerMatchesHistory<K, T>(turns: seq<Turn<K, T>>, cfg: Config, k: nat)
    requires k <= |turns|
    ensures LearnAll(turns, cfg, k).seen == SeenTable(Sightings(turns), cfg.trackerCapacity, k)
    ensures LearnAll(turns, cfg, k).index ==
            GapTable(Samples(turns, cfg, k), cfg.alpha, cfg.indexCapacity, |Samples(turns, cfg, k)|)
  {
    hide Samples, LearnAll, SeenTable, GapTable;
    if k > 0 {
      LearnerMatchesHistory(turns, cfg, k - 1);
      LearnerStep(turns, cfg, k - 1);
    } else {
      StartsEmpty(turns, cfg);
    }
  }

  /** The gap observed at turn `k`, as the code and as the history has it. */
  lemma {:induction false} LearnerStep<K, T>(turns: seq<Turn<K, T>>, cfg: Config, k: nat)
    requires k < |turns|
    requires LearnAll(turns, cfg, k).seen == SeenTable(Sightings(turns), cfg.trackerCapacity, k)
    requires LearnAll(turns, cfg, k).index ==
             GapTable(Samples(turns, cfg, k), cfg.alpha, cfg.indexCapacity, |Samples(turns, cfg, k)|)
    ensures LearnAll(turns, cfg, k + 1).seen == SeenTable(Sightings(turns), cfg.trackerCapacity, k + 1)
    ensures LearnAll(turns, cfg, k + 1).index ==
            GapTable(Samples(turns, cfg, k + 1), cfg.alpha, cfg.indexCapacity, |Samples(turns, cfg, k + 1)|)
  {
    var s, before, gap := Sightings(turns), Samples(turns, cfg, k), ExactGap(Sightings(turns), cfg.trackerCapacity, k);
    ObserveIsExact(s, cfg.trackerCapacity, k);
    SeenTableStep(s, cfg.trackerCapacity, k);
    SamplesStep(turns, cfg, k);
    LearnAllStep(turns, cfg, k);
    hide Observe, ExactGap, Record, GapTable, SeenTable, LearnAll, Samples;
    if gap.Some? {
      GapTableSnoc(before, Sample(turns[k].tool.value, gap.value), cfg.alpha, cfg.indexCapacity);
    } else {
      assert before + [] == before;
    }
  }

  /** One turn of the learner, in terms of the gap it observes. */
  lemma {:induction false} LearnAllStep<K, T>(turns: seq<Turn<K, T>>, cfg: Config, k: nat)
    requires k < |turns|
    ensures var l, l', t := LearnAll(turns, cfg, k), LearnAll(turns, cfg, k + 1), turns[k];
            var (gap, seen) := Observe(l.seen, t.conversation, t.tool.Some?, t.now, cfg.trackerCapacity);
            && (gap.Some? ==> t.tool.Some?) && l'.seen == seen
            && l'.index ==
               if gap.Some? then Record(l.index, t.tool.value, gap.value, cfg.alpha, cfg.indexCapacity) else l.index
  {
    var l, t := LearnAll(turns, cfg, k), turns[k];
    GapNeedsTool(l.seen, t.conversation, t.tool.Some?, t.now, cfg.trackerCapacity);
    hide Observe, Record;
  }

  lemma StartsEmpty<K, T>(turns: seq<Turn<K, T>>, cfg: Config)
    ensures Samples(turns, cfg, 0) == []
    ensures LearnAll(turns, cfg, 0).seen == SeenTable(Sightings(turns), cfg.trackerCapacity, 0)
    ensures LearnAll(turns, cfg, 0).index == GapTable(Samples(turns, cfg, 0), cfg.alpha, cfg.indexCapacity, 0)
  {
  }

  lemma {:induction false} SeenTableStep<K>(s: seq<Sighting<K>>, cap: nat, k: nat)
    requires k < |s|
    ensures SeenTable(s, cap, k + 1) == Observe(SeenTable(s, cap, k), s[k].key, s[k].hasTool, s[k].now, cap).1
  {
    hide Observe;
  }

  lemma {:induction false} GapTableSnoc<T>(before: seq<Sample<T>>, x: Sample<T>, alpha: real, cap: nat)
    ensures GapTable(before + [x], alpha, cap, |before + [x]|) ==
            Record(GapTable(before, alpha, cap, |before|), x.tool, x.gap, alpha, cap)
  {
    hide Record;
    SamplePrefix(before, before + [x], alpha, cap, |before|);
  }

  lemma GapOnlyWithTool<K>(s: seq<Sighting<K>>, cap: nat, k: nat)
    requires k < |s|
    ensures ExactGap(s, cap, k).Some? ==> s[k].hasTool && s[k].key.Some?
  {
  }

  lemma {:induction false} SamplePrefix<T>(a: seq<Sample<T>>, b: seq<Sample<T>>, alpha: real, cap: nat, k: nat)
    requires k <= |a| && a <= b
    ensures GapTable(a, alpha, cap, k) == GapTable(b, alpha, cap, k)
  {
    hide Record;
    if k > 0 {
      SamplePrefix(a, b, alpha, cap, k - 1);
    }
  }

  lemma {:induction false} LastTimeIsPast<K, T>(turns: seq<Turn<K, T>>, k: nat, j: nat)
    requires NonDecreasing(turns) && k <= j < |turns| && turns[j].conversation.Some?
    ensures var last := LastTime(Sightings(turns), k, turns[j].conversation.value);
            last.Some? ==> last.value <= turns[j].now
  {
    if k > 0 && turns[k - 1].conversation != turns[j].conversation {
      LastTimeIsPast(turns, k - 1, j);
    }
  }

  ghost predicate NonNegativeSamples<T>(s: seq<Sample<T>>) {
    forall i :: 0 <= i < |s| ==> s[i].gap >= 0.0
  }

  lemma {:induction false} SamplesAreNonNegative<K, T>(turns: seq<Turn<K, T>>, cfg: Config, k: nat)
    requires NonDecreasing(turns) && k <= |turns|
    ensures NonNegativeSamples(Samples(turns, cfg, k))
  {
    hide NonNegativeSamples, NonDecreasing, Samples;
    if k == 0 {
      NoSamplesYet(turns, cfg);
    } else {
      SamplesAreNonNegative(turns, cfg, k - 1);
      NonNegativeStep(turns, cfg, k - 1);
    }
  }

  lemma NoSamplesYet<K, T>(turns: seq<Turn<K, T>>, cfg: Config)
    ensures NonNegativeSamples(Samples(turns, cfg, 0))
  {
  }

  lemma {:induction false} NonNegativeStep<K, T>(turns: seq<Turn<K, T>>, cfg: Config, k: nat)
    requires NonDecreasing(turns) && k < |turns| && NonNegativeSamples(Samples(turns, cfg, k))
    ensures NonNegativeSamples(Samples(turns, cfg, k + 1))
  {
    hide NonNegativeSamples, ExactGap, Sightings, NonDecreasing, Samples;
    ExactGapIsNonNegative(turns, cfg, k);
    SamplesStep(turns, cfg, k);
    var gap := ExactGap(Sightings(turns), cfg.trackerCapacity, k);
    if gap.Some? {
      NonNegativeSnoc(Samples(turns, cfg, k), Sample(turns[k].tool.value, gap.value));
    } else {
      assert Samples(turns, cfg, k + 1) == Samples(turns, cfg, k);
    }
  }

  lemma {:induction false} SamplesStep<K, T>(turns: seq<Turn<K, T>>, cfg: Config, k: nat)
    requires k < |turns|
    ensures var gap := ExactGap(Sightings(turns), cfg.trackerCapacity, k);
            && (gap.Some? ==> turns[k].tool.Some?)
            && Samples(turns, cfg, k + 1) ==
               Samples(turns, cfg, k) + if gap.Some? then [Sample(turns[k].tool.value, gap.value)] else []
  {
    GapOnlyWithTool(Sightings(turns), cfg.trackerCapacity, k);
    hide ExactGap, Sightings;
  }

  lemma NonNegativeSnoc<T>(s: seq<Sample<T>>, x: Sample<T>)
    requires NonNegativeSamples(s) && x.gap >= 0.0
    ensures NonNegativeSamples(s + [x])
  {
  }

  lemma {:induction false} ExactGapIsNonNegative<K, T>(turns: seq<Turn<K, T>>, cfg: Config, k: nat)
    requires NonDecreasing(turns) && k < |turns|
    ensures var gap := ExactGap(Sightings(turns), cfg.trackerCapacity, k); gap.Some? ==> gap.value >= 0.0
  {
    if turns[k].conversation.Some? {
      LastTimeIsPast(turns, k, k);
    }
  }

  ghost predicate AllNonNegative(gaps: seq<real>) {
    forall i :: 0 <= i < |gaps| ==> gaps[i] >= 0.0
  }

  lemma {:induction false} SinceIsNonNegative<T>(s: seq<Sample<T>>, cap: nat, k: nat, tool: T)
    requires k <= |s| && NonNegativeSamples(s)
    ensures AllNonNegative(Since(s, cap, k, tool))
  {
    hide Recent;
    if k > 0 {
      SinceIsNonNegative(s, cap, k - 1, tool);
    }
  }

  /** The gaps behind the estimate of `tool` after `k` turns. */
  function Evidence<K(==), T(==)>(turns: seq<Turn<K, T>>, cfg: Config, k: nat, tool: T): seq<real>
    requires k <= |turns|
  {
    Since(Samples(turns, cfg, k), cfg.indexCapacity, |Samples(turns, cfg, k)|, tool)
  }

  /** Every estimate in the index is the estimate of recorded, non-negative gaps. */
  lemma {:induction false} IndexHasEvidence<K, T>(turns: seq<Turn<K, T>>, cfg: Config, k: nat, tool: T)
    requires NonDecreasing(turns) && k <= |turns| && 0.0 <= cfg.alpha <= 1.0
    requires tool in LearnAll(turns, cfg, k).index.vals
    ensures var gaps := Evidence(turns, cfg, k, tool);
            && gaps != [] && AllNonNegative(gaps)
            && LearnAll(turns, cfg, k).index.vals[tool] == Estimate(gaps, cfg.alpha)
            && Estimate(gaps, cfg.alpha).mean >= 0.0 && Estimate(gaps, cfg.alpha).variance >= 0.0
  {
    hide Estimate, Since, Samples, LearnAll, GapTable;
    LearnerMatchesHistory(turns, cfg, k);
    var s := Samples(turns, cfg, k);
    GapTableIsRecent(s, cfg.alpha, cfg.indexCapacity, |s|);
    SamplesAreNonNegative(turns, cfg, k);
    SinceIsNonNegative(s, cfg.indexCapacity, |s|, tool);
    NonNegativeEstimate(Evidence(turns, cfg, k, tool), cfg.alpha);
  }

  function Highest(gaps: seq<real>): (hi: real)
    ensures forall i :: 0 <= i < |gaps| ==> gaps[i] <= hi
  {
    if gaps == [] then 0.0 else MaxReal(Highest(gaps[..|gaps| - 1]), gaps[|gaps| - 1])
  }

  lemma {:induction false} NonNegativeEstimate(gaps: seq<real>, alpha: real)
    requires gaps != [] && AllNonNegative(gaps) && 0.0 <= alpha <= 1.0
    ensures var stat := Estimate(gaps, alpha); stat.mean >= 0.0 && stat.variance >= 0.0
    ensures var stat := Estimate(gaps, alpha); stat.mean == 0.0 ==> stat.variance == 0.0
  {
    hide Estimate;
    EstimateIsBounded(gaps, alpha, 0.0, Highest(gaps));
  }

  // ---------------------------------------------------------------- lease length

  /** Confidence reaches a threshold exactly when the variance is small enough against the squared mean. */
  lemma {:induction false} ConfidenceReaches(mean: real, variance: real, t: real)
    requires variance >= 0.0 && 0.0 < t <= 1.0
    ensures Confidence(mean, variance) >= t <==> Mul(t, variance) <= Mul(1.0 - t, MaxReal(Sq(mean), TINY))
  {
    var scale := MaxReal(Sq(mean), TINY);
    var r := Quot(variance, scale);
    QuotFalls(variance, scale, scale);
    hide Mul, Quot, Sq;
    QuotInverts(variance, scale);
    InverseReaches(1.0 + r, t);
    MulDistributes(t, 1.0, r);
    MulUnits(t);
    MulCompares(Mul(t, r), 1.0 - t, scale);
    MulAssociates(t, r, scale);
  }

  lemma {:induction false} InverseReaches(d: real, t: real)
    requires d > 0.0
    ensures Quot(1.0, d) >= t <==> Mul(t, d) <= 1.0
  {
    hide Mul, Quot;
    QuotInverts(1.0, d);
    MulCompares(t, Quot(1.0, d), d);
  }

  /** At confidence one half or more the variance is at most the squared mean, or both are tiny. */
  lemma {:induction false} ConfidentMeansTight(mean: real, variance: real)
    requires variance >= 0.0
    ensures Confidence(mean, variance) >= 0.5 <==> variance <= MaxReal(Sq(mean), TINY)
  {
    hide Confidence, Sq;
    ConfidenceReaches(mean, variance, 0.5);
  }

  /**
   A lease lasts at least 1.5 times the predicted gap and one standard deviation past
   it, and at most 6 seconds: twice the longest gap worth waiting for.
   */
  lemma {:induction false} WindowIsBounded(sqrt: real -> real, p: Prior)
    requires IsSqrt(sqrt) && p.mean >= 0.0 && p.variance >= 0.0 && Retains(DEFAULTS, p)
    ensures 1.5 * p.mean <= Window(DEFAULTS, sqrt, p) <= 6.0
    ensures Window(DEFAULTS, sqrt, p) >= p.mean && Sq(Window(DEFAULTS, sqrt, p) - p.mean) >= p.variance
  {
    ConfidentMeansTight(p.mean, p.variance);
    var root := sqrt(p.variance);
    assert root >= 0.0 && Sq(root) == p.variance;
    SqCompares(root, Window(DEFAULTS, sqrt, p) - p.mean);
    if Sq(p.mean) >= TINY {
      SqCompares(root, p.mean);
    } else {
      SqCompares(p.mean, 0.001);
      SqCompares(root, 0.001);
    }
  }

  /** The default prior is never confident enough, so an unseen tool never gets a lease. */
  lemma {:induction false} DefaultPriorIsDoubted()
    ensures !Retains(DEFAULTS, DEFAULT_PRIOR)
  {
    assert MaxReal(2.0 * 2.0, TINY) == 4.0;
  }

  /**
   In every run with default thresholds and no static priors: a HIGH lease is only
   issued for a tool that is in the index on recorded evidence, and it lasts between
   1.5 times the estimated gap and 6 seconds.
   */
  lemma {:induction false} LeaseHasEvidenceAndBounds<K, T>(turns: seq<Turn<K, T>>, sqrt: real -> real, k: nat)
    requires NonDecreasing(turns) && 0 < k <= |turns| && IsSqrt(sqrt)
    ensures var p := PredictGap(LearnAll(turns, DEFAULTS, k).index, map[], DEFAULT_PRIOR, turns[k - 1].tool);
            && p.mean >= 0.0 && p.variance >= 0.0
            && (Retains(DEFAULTS, p) ==>
                  && turns[k - 1].tool.Some?
                  && turns[k - 1].tool.value in LearnAll(turns, DEFAULTS, k).index.vals
                  && Evidence(turns, DEFAULTS, k, turns[k - 1].tool.value) != []
                  && 1.5 * p.mean <= Window(DEFAULTS, sqrt, p) <= 6.0)
  {
    hide LearnAll, Evidence, IsSqrt, Window, Confidence;
    var index, tool := LearnAll(turns, DEFAULTS, k).index, turns[k - 1].tool;
    DefaultPriorIsDoubted();
    if tool.Some? && tool.value in index.vals {
      IndexHasEvidence(turns, DEFAULTS, k, tool.value);
    }
    var p := PredictGap(index, map[], DEFAULT_PRIOR, tool);
    if Retains(DEFAULTS, p) {
      WindowIsBounded(sqrt, p);
    }
  }

  // --------------------------------------------------------- leases that never end

  lemma {:induction false} ZeroWindow(sqrt: real -> real, p: Prior)
    requires IsSqrt(sqrt) && p.mean >= 0.0 && p.variance >= 0.0
    requires p.mean == 0.0 ==> p.variance == 0.0
    ensures Window(DEFAULTS, sqrt, p) > 0.0 <==> p.mean > 0.0
  {
    if p.mean == 0.0 {
      var root := sqrt(p.variance);
      assert Sq(root) == 0.0;
      SqCompares(root, 0.0);
    }
  }

  /**
   The node stores a HIGH lease with its expiry exactly when the predicted gap is
   positive, that is, when some gap recorded since the tool entered the index is.
   If all of them are zero the window is empty, and the node reads an explicit
   priority without a future expiry as a mark that never lapses.
   */
  lemma {:induction false} LeaseExpiresUnlessGapsAreZero<K, T>(turns: seq<Turn<K, T>>, sqrt: real -> real, k: nat,
        tool: T)
    requires NonDecreasing(turns) && 0 < k <= |turns| && IsSqrt(sqrt)
    requires turns[k - 1].tool == Some(tool) && tool in LearnAll(turns, DEFAULTS, k).index.vals
    ensures var p := PredictGap(LearnAll(turns, DEFAULTS, k).index, map[], DEFAULT_PRIOR, Some(tool));
            var now, gaps := turns[k - 1].now, Evidence(turns, DEFAULTS, k, tool);
            var stored := Eviction.Directive(now, now + Window(DEFAULTS, sqrt, p), Some(Priority.HIGH));
            && (p.mean > 0.0 <==> exists i :: 0 <= i < |gaps| && gaps[i] > 0.0)
            && (p.mean > 0.0 <==> stored == Some(Eviction.Mark(Priority.HIGH, At(now + Window(DEFAULTS, sqrt, p)))))
            && (p.mean == 0.0 <==> stored == Some(Eviction.Mark(Priority.HIGH, Never)))
  {
    hide LearnAll, Evidence, IsSqrt, Window, Estimate;
    var gaps := Evidence(turns, DEFAULTS, k, tool);
    IndexHasEvidence(turns, DEFAULTS, k, tool);
    ZeroMean(gaps, DEFAULTS.alpha);
    NonNegativeEstimate(gaps, DEFAULTS.alpha);
    var p := PredictGap(LearnAll(turns, DEFAULTS, k).index, map[], DEFAULT_PRIOR, Some(tool));
    ZeroWindow(sqrt, p);
  }

  /** A concrete run: two turns of one conversation at the same instant pin its prefix for good. */
  lemma {:induction false} InstantReturnIsPinnedForever(sqrt: real -> real)
    requires IsSqrt(sqrt)
    ensures var turns := [Turn(Some(7), Some("lookup"), 1.0), Turn(Some(7), Some("lookup"), 1.0)];
            var p := PredictGap(LearnAll(turns, DEFAULTS, 2).index, map[], DEFAULT_PRIOR, Some("lookup"));
            && p.variance >= 0.0 && Retains(DEFAULTS, p)
            && Eviction.Directive(1.0, 1.0 + Window(DEFAULTS, sqrt, p), Some(Priority.HIGH)) ==
               Some(Eviction.Mark(Priority.HIGH, Never))
  {
    var turns := [Turn(Some(7), Some("lookup"), 1.0), Turn(Some(7), Some("lookup"), 1.0)];
    PutSame(Empty<int, real>(), 7, 1.0, 8192);
    PutSame(Table([7], map[7 := 1.0]), 7, 1.0, 8192);
    PutSame(Empty<string, GapStat>(), "lookup", GapStat(1, 0.0, 0.0), 512);
    hide Put, Window, IsSqrt;
    assert LearnAll(turns, DEFAULTS, 1) == Learner(Table([7], map[7 := 1.0]), Empty<string, GapStat>()) by {
      assert LearnAll(turns, DEFAULTS, 0) == NewLearner<int, string>();
    }
    assert LearnAll(turns, DEFAULTS, 2).index == Table(["lookup"], map["lookup" := GapStat(1, 0.0, 0.0)]);
    ZeroWindow(sqrt, Prior(0.0, 0.0));
  }

  lemma {:induction false} PutSame<K, V>(t: Table<K, V>, k: K, v: V, cap: nat)
    requires t.order == [] || t.order == [k]
    requires t.vals.Keys <= {k} && cap > 0
    ensures Put(t, k, v, cap) == Table([k], map[k := v])
  {
    assert Without(t.order, k) == [];
    assert t.vals[k := v] == map[k := v];
    assert Restrict(map[k := v], [k]) == map[k := v];
  }
}
