/** Class-aware routing with learned retention directives on top. */
module Reliability {
  import opened Basics
  import opened Cost
  import opened Policies
  import opened Reals
  import opened Learning
  import opened PythonTables
  import Retention
  import Priority
  import Eviction

  type Learner = Retention.Learner<int, string>

  /** Session turns, cold documents and saturated spills carry the coarse score; the rest the true one. */
  function ClassAwarePlacement(kind: Class, q: Query): Placement
    requires HasNodes(q)
  {
    if kind == Tool || (kind == Rag && !FollowsDocument(q)) then Scored(q, ClassAwareChoice(kind, q))
    else Predict(q, ClassAwareChoice(kind, q))
  }

  method ClassAware(kind: Class, q: Query) returns (p: Placement)
    requires HasNodes(q)
    ensures p == ClassAwarePlacement(kind, q)
  {
    hide Ttft, Coarse, RegimeOf, HotNode, LeastLoaded;
    if kind == Oneshot {
      return Predict(q, Choice(LeastLoaded(q), false));
    }
    if kind == Rag {
      if FollowsDocument(q) {
        return Predict(q, Choice(Hot(q), false));
      }
    }
    p := TransferAware(q);
  }

  function TurnOf(req: RequestView, now: real): Retention.Turn<int, string> {
    Retention.Turn(req.conversationId, req.lastToolName, now)
  }

  /** The directive a placement ends up with, given what the index predicts for the request's tool. */
  function Directed(kind: Class, place: Placement, p: Prior, now: real, cfg: Retention.Config,
                    sqrt: real -> real): Placement
    requires p.variance >= 0.0
  {
    if kind == Oneshot then place.(priority := Some(Priority.EVICT_FIRST))
    else if kind == Tool && Retention.Retains(cfg, p)
    then place.(retainUntil := now + Retention.Window(cfg, sqrt, p), priority := Some(Priority.HIGH))
    else place
  }

  class ClassAwareReliability {
    const index: ToolGapIndex<string>
    const lastSeen: LastSeen<int>
    const cfg: Retention.Config
    const sqrt: real -> real

    ghost predicate Sound()
      reads index, lastSeen
    {
      && index.Sound() && lastSeen.Sound() && Retention.Sane(index.View())
      && (forall t :: t in index.priors ==> index.priors[t].variance >= 0.0) && index.defaultPrior.variance >= 0.0
      && 0.0 <= cfg.alpha <= 1.0 && cfg.alpha == index.alpha
      && cfg.indexCapacity == index.capacity && cfg.trackerCapacity == 8192
    }

    function View(): Learner
      reads index, lastSeen
    {
      Retention.Learner(lastSeen.View(), index.View())
    }

    constructor (shortGap: real, confThreshold: real, retainMargin: real, sqrt: real -> real)
      ensures Sound() && View() == Retention.NewLearner() && fresh(index) && fresh(lastSeen)
      ensures cfg == Retention.DEFAULTS.(shortGap := shortGap, confThreshold := confThreshold,
              retainMargin := retainMargin)
      ensures cfg == Retention.Config(shortGap, confThreshold, retainMargin, 0.3, 512, 8192)
      ensures index.priors == map[] && index.defaultPrior == Prior(2.0, 16.0) && this.sqrt == sqrt
    {
      index := new ToolGapIndex(512, 0.3, map[], DEFAULT_PRIOR);
      lastSeen := new LastSeen();
      cfg := Retention.DEFAULTS.(shortGap := shortGap, confThreshold := confThreshold, retainMargin := retainMargin);
      this.sqrt := sqrt;
    }

    /** Record the realized gap since the conversation's previous turn. */
    method LearnFrom(req: RequestView, now: real)
      requires Sound()
      modifies index, lastSeen
      ensures Sound()
      ensures View() == Retention.Learn(old(View()), TurnOf(req, now), cfg)
    {
      hide Observe, Learning.Record, Retention.Sane;
      ghost var before := View();
      Retention.LearnStaysSane(before, TurnOf(req, now), cfg);
      Retention.GapNeedsTool(before.seen, req.conversationId, req.lastToolName.Some?, now, cfg.trackerCapacity);
      var gap := lastSeen.ObserveGap(req.conversationId, req.lastToolName.Some?, now, 8192);
      if gap.Some? {
        index.Record(req.lastToolName.value, gap.value);
      }
    }

    method Route(req: RequestView, q: Query) returns (p: Placement)
      requires Sound() && HasNodes(q)
      modifies index, lastSeen
      ensures Sound()
      ensures View() == Retention.Learn(old(View()), TurnOf(req, q.now), cfg)
      ensures var predicted := PredictGap(View().index, index.priors, index.defaultPrior, req.lastToolName);
              && predicted.variance >= 0.0
              && p == Directed(Classify(req), ClassAwarePlacement(Classify(req), q), predicted, q.now, cfg, sqrt)
    {
      hide Retention.Learn, ClassAwarePlacement, Confidence, Classify;
      LearnFrom(req, q.now);
      ghost var predicted := PredictGap(View().index, index.priors, index.defaultPrior, req.lastToolName);
      assert predicted.variance >= 0.0;
      hide Retention.Sane;
      var kind := Classify(req);
      var place := ClassAware(kind, q);
      if kind == Oneshot {
        return place.(priority := Some(Priority.EVICT_FIRST));
      }
      if kind != Tool {
        return place;
      }
      var gap := index.Predict(req.lastToolName);
      if Confidence(gap.mean, gap.variance) >= cfg.confThreshold && gap.mean <= cfg.shortGap {
        var window := MaxReal(Mul(gap.mean, cfg.retainMargin), gap.mean + sqrt(gap.variance));
        return place.(retainUntil := q.now + window, priority := Some(Priority.HIGH));
      }
      p := place;
    }
  }

  /** Directives never change where a request goes, so the class-aware regret bounds carry over. */
  lemma {:induction false} DirectivesKeepRouting(kind: Class, q: Query, p: Prior, cfg: Retention.Config,
                                                 sqrt: real -> real)
    requires HasNodes(q) && p.variance >= 0.0
    ensures var placed := Directed(kind, ClassAwarePlacement(kind, q), p, q.now, cfg, sqrt);
            Choice(placed.nodeId, placed.transfer) == ClassAwareChoice(kind, q)
  {
    hide Ttft, RegimeOf, Coarse, Confidence;
  }

  /**
   What the node makes of the directive: one-shots are marked evict-first for good,
   documents and doubted tools are left unmarked, and a trusted tool's prefix is HIGH
   until its window ends, or for good when that window is empty.
   */
  lemma {:induction false} StoredMark(kind: Class, q: Query, p: Prior, cfg: Retention.Config, sqrt: real -> real)
    requires HasNodes(q) && q.now >= 0.0 && p.variance >= 0.0
    ensures var placed := Directed(kind, ClassAwarePlacement(kind, q), p, q.now, cfg, sqrt);
            var window := Retention.Window(cfg, sqrt, p);
            Eviction.Directive(q.now, placed.retainUntil, placed.priority) ==
            match kind
            case Oneshot => Some(Eviction.Mark(-1, Never))
            case Rag => None
            case Tool =>
              if !Retention.Retains(cfg, p) then None
              else Some(Eviction.Mark(50, if window > 0.0 then At(q.now + window) else Never))
  {
    hide Ttft, RegimeOf, Coarse, Confidence, Retention.Window;
  }
}
