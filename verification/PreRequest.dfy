/**
 The gateway plugin's hinter: decide on a retention directive for a request and
 merge it with whatever directive the client sent.
 */
module PreRequest {
  import opened Basics
  import opened Reals
  import opened Learning
  import opened Retention
  import opened HeaderText
  import opened GoTables
  import Policies
  import Priority

  const HEADER := "x-kv-cache-priority"

  // ------------------------------------------------------------------ durations

  /** Conversion to an integer number of nanoseconds, toward zero. */
  function Nanoseconds(seconds: real): int {
    var x := seconds * 1000000000.0;
    if x >= 0.0 then x.Floor else 0 - (0.0 - x).Floor
  }

  /** `Duration.Round(time.Millisecond)`: to the nearest millisecond, halves away from zero. */
  function Milliseconds(ns: int): int {
    var d := if ns < 0 then 0 - ns else ns;
    var r := d % 1_000_000;
    var ms := if r + r < 1_000_000 then d / 1_000_000 else d / 1_000_000 + 1;
    if ns < 0 then 0 - ms else ms
  }

  function Ttl(window: real): int {
    Milliseconds(Nanoseconds(window))
  }

  // -------------------------------------------------------------------- decision

  /** `render` is how a duration of that many milliseconds prints. */
  function LeaseText(ttl: int, scope: string, render: int -> string): string {
    Itoa(Priority.HIGH) + "; ttl=" + render(ttl) + if scope != "" then "; scope=" + scope else ""
  }

  function Named(s: string): Option<string> {
    if s == "" then None else Some(s)
  }

  function Decision(l: Learner<string, string>, kind: Policies.Class, tool: string, scope: string, now: real,
                    cfg: Config, sqrt: real -> real, render: int -> string)
    : (d: (Option<string>, Learner<string, string>))
    requires Sane(l.index) && 0.0 <= cfg.alpha <= 1.0
    ensures Sane(d.1.index)
  {
    match kind
    case Oneshot => (Some(Itoa(Priority.EVICT_FIRST)), l)
    case Rag => (None, l)
    case Tool =>
      var l' := Learn(l, Turn(Named(scope), Named(tool), now), cfg);
      LearnStaysSane(l, Turn(Named(scope), Named(tool), now), cfg);
      (Lease(cfg, PredictGap(l'.index, map[], DEFAULT_PRIOR, Named(tool)), scope, sqrt, render), l')
  }

  /** The lease a predicted gap is worth, if any. */
  function Lease(cfg: Config, p: Prior, scope: string, sqrt: real -> real, render: int -> string): Option<string>
    requires p.variance >= 0.0
  {
    if Retains(cfg, p) then Some(LeaseText(Ttl(Window(cfg, sqrt, p)), scope, render)) else None
  }

  // ---------------------------------------------------------------- header merging

  /** The header after the plugin ran: the client keeps a directive that asks for no more. */
  function Merged(client: Option<string>, directive: string): string {
    if client.Some? && LeadingPriority(client.value).Some? &&
       LeadingPriority(client.value).value <= PriorityOf(directive)
    then client.value
    else directive
  }

  /** 0 when there is no leading integer. */
  function PriorityOf(directive: string): int {
    match LeadingPriority(directive)
    case None => 0
    case Some(p) => p
  }

  /** An inference request: what classification found in its body, and its headers. */
  class InferenceRequest {
    const kind: Policies.Class
    const lastTool: string
    const conversation: string
    var headers: Option<map<string, string>>

    constructor (kind: Policies.Class, lastTool: string, conversation: string, headers: Option<map<string, string>>)
      ensures this.kind == kind && this.lastTool == lastTool && this.conversation == conversation
              && this.headers == headers
    {
      this.kind, this.lastTool, this.conversation, this.headers := kind, lastTool, conversation, headers;
    }
  }

  class Hinter {
    const index: ToolGapIndex
    const sessions: SessionTracker
    const cfg: Config
    const sqrt: real -> real
    const render: int -> string

    constructor (shortGap: real, confThreshold: real, retainMargin: real, sqrt: real -> real, render: int -> string)
      ensures Sound() && View() == NewLearner() && fresh(index) && fresh(sessions)
      ensures cfg == DEFAULTS.(shortGap := shortGap, confThreshold := confThreshold, retainMargin := retainMargin)
      ensures cfg == Config(shortGap, confThreshold, retainMargin, 0.3, 512, 8192)
      ensures this.sqrt == sqrt && this.render == render
    {
      index := new ToolGapIndex(512, 0.3, map[]);
      sessions := new SessionTracker(8192);
      cfg := DEFAULTS.(shortGap := shortGap, confThreshold := confThreshold, retainMargin := retainMargin);
      this.sqrt, this.render := sqrt, render;
    }

    ghost predicate Sound()
      reads index.stats, sessions.sessions, index.stats.elems.Values
    {
      && index.Sound() && sessions.Sound() && Sane(index.stats.View())
      && index.priors == map[] && 0.0 < index.alpha <= 1.0
      && cfg.alpha == index.alpha && cfg.indexCapacity == index.capacity && cfg.trackerCapacity == sessions.capacity
    }

    ghost function View(): Learner<string, string>
      reads index.stats, sessions.sessions, index.stats.elems.Values, sessions.sessions.elems.Values
    {
      Learner(sessions.sessions.View(), index.stats.View())
    }

    method Decide(kind: Policies.Class, tool: string, scope: string, now: real) returns (directive: Option<string>)
      requires Sound()
      modifies index.stats, index.stats.elems.Values, sessions.sessions, sessions.sessions.elems.Values
      ensures Sound()
      ensures (directive, View()) == Decision(old(View()), kind, tool, scope, now, cfg, sqrt, render)
    {
      hide Learn, Sane, PredictGap, Lease, Itoa, Distinct, KeysOf;
      if kind == Policies.Oneshot {
        return Some(Itoa(Priority.EVICT_FIRST));
      }
      if kind != Policies.Tool {
        return None;
      }
      LearnTurn(tool, scope, now);
      var p := Predicted(tool);
      directive := Emit(p, scope);
    }

    method Emit(p: Prior, scope: string) returns (directive: Option<string>)
      requires p.variance >= 0.0
      ensures directive == Lease(cfg, p, scope, sqrt, render)
    {
      hide Mul, Confidence, LeaseText, Ttl;
      if Confidence(p.mean, p.variance) < cfg.confThreshold || p.mean > cfg.shortGap {
        return None;
      }
      var window := MaxReal(Mul(p.mean, cfg.retainMargin), p.mean + sqrt(p.variance));
      directive := Some(LeaseText(Ttl(window), scope, render));
    }

    method Predicted(tool: string) returns (p: Prior)
      requires Sound()
      ensures p == PredictGap(View().index, map[], DEFAULT_PRIOR, Named(tool)) && p.variance >= 0.0
    {
      p := index.Predict(tool);
    }

    /** Record the sighting and, if a gap was observed, fold it into the tool's estimate. */
    method LearnTurn(tool: string, scope: string, now: real)
      requires Sound()
      modifies index.stats, index.stats.elems.Values, sessions.sessions, sessions.sessions.elems.Values
      ensures Sound()
      ensures View() == Learn(old(View()), Turn(Named(scope), Named(tool), now), cfg)
    {
      hide Observe, Learning.Record, Sane;
      LearnStaysSane(View(), Turn(Named(scope), Named(tool), now), cfg);
      GapNeedsTool(View().seen, Named(scope), tool != "", now, cfg.trackerCapacity);
      ghost var before := View();
      var gap, ok := sessions.ObserveGap(scope, tool, now);
      assert index.stats.View() == before.index;
      ghost var seen := sessions.sessions.View();
      if ok {
        index.Record(tool, gap);
      }
      assert sessions.sessions.View() == seen;
    }

    /** The plugin hook: decide, then cap the client's directive without ever raising it. */
    method BeforeRequest(request: InferenceRequest?, now: real)
      requires Sound()
      modifies request, index.stats, index.stats.elems.Values, sessions.sessions, sessions.sessions.elems.Values
      ensures Sound()
      ensures request == null || old(request.headers) == None ==> View() == old(View())
      ensures request != null && old(request.headers) == None ==> request.headers == None
      ensures request != null && old(request.headers).Some? ==>
                var d := Decision(old(View()), request.kind, request.lastTool, request.conversation, now, cfg, sqrt,
                  render);
                View() == d.1 && request.headers == Some(HeadersAfter(old(request.headers).value, d.0))
    {
      if request == null || request.headers.None? {
        return;
      }
      hide Decision, LeadingPriority;
      var headers := request.headers.value;
      var directive := Decide(request.kind, request.lastTool, request.conversation, now);
      if directive.None? {
        return;
      }
      if HEADER in headers {
        var client := LeadingPriority(headers[HEADER]);
        if client.Some? && client.value <= PriorityOf(directive.value) {
          assert headers[HEADER := headers[HEADER]] == headers;
          return;
        }
      }
      request.headers := Some(headers[HEADER := directive.value]);
    }
  }

  function HeadersAfter(headers: map<string, string>, directive: Option<string>): map<string, string> {
    if directive.None? then headers
    else headers[HEADER := Merged(if HEADER in headers then Some(headers[HEADER]) else None, directive.value)]
  }
}

module PreRequestLaws {
  import opened Basics
  import opened Learning
  import opened Retention
  import opened RetentionLaws
  import opened HeaderText
  import opened PreRequest
  import Policies
  import Priority

  /** The priority a class of request is hinted at. */
  function RouterPriority(kind: Policies.Class): int {
    if kind == Policies.Oneshot then Priority.EVICT_FIRST else Priority.HIGH
  }

  /** Whatever the scope and however the duration prints, an emitted directive reads back as its priority. */
  lemma {:induction false} EmittedPriorityReadsBack(l: Learner<string, string>, kind: Policies.Class, tool: string,
                                                    scope: string, now: real,
                                 cfg: Config, sqrt: real -> real, render: int -> string)
    requires Sane(l.index) && 0.0 <= cfg.alpha <= 1.0
    ensures var d := Decision(l, kind, tool, scope, now, cfg, sqrt, render).0;
            d.Some? ==>
              LeadingPriority(d.value) == Some(RouterPriority(kind))
              && PriorityOf(d.value) == RouterPriority(kind)
  {
    hide LeadingPriority, Itoa, Learn, PredictGap, Retains, Window, Ttl, Sane;
    if kind == Policies.Oneshot {
      LeadingPriorityOfPrinted(Priority.EVICT_FIRST, "");
      assert Itoa(Priority.EVICT_FIRST) + "" == Itoa(Priority.EVICT_FIRST);
    } else if kind == Policies.Tool {
      var p := PredictGap(Learn(l, Turn(Named(scope), Named(tool), now), cfg).index, map[], DEFAULT_PRIOR, Named(tool));
      LearnStaysSane(l, Turn(Named(scope), Named(tool), now), cfg);
      LeaseReadsBack(Ttl(Window(cfg, sqrt, p)), scope, render);
    }
  }

  lemma {:induction false} LeaseReadsBack(ttl: int, scope: string, render: int -> string)
    ensures LeadingPriority(LeaseText(ttl, scope, render)) == Some(Priority.HIGH)
  {
    hide LeadingPriority, Itoa;
    var rest := "; ttl=" + render(ttl) + if scope != "" then "; scope=" + scope else "";
    LeadingPriorityOfPrinted(Priority.HIGH, rest);
    assert LeaseText(ttl, scope, render) == Itoa(Priority.HIGH) + rest;
  }

  /**
   The router wins downward: when it emits, the effective priority is the smaller of
   the two if the client's parses and the router's own otherwise; when it does not,
   every header is as it was.
   */
  lemma {:induction false} RouterWinsDownward(headers: map<string, string>, l: Learner<string, string>,
                                              kind: Policies.Class, tool: string,
                           scope: string, now: real, cfg: Config, sqrt: real -> real, render: int -> string)
    requires Sane(l.index) && 0.0 <= cfg.alpha <= 1.0
    ensures var d := Decision(l, kind, tool, scope, now, cfg, sqrt, render).0;
            var after, r := HeadersAfter(headers, d), RouterPriority(kind);
            var client := if HEADER in headers then LeadingPriority(headers[HEADER]) else None;
            && (d.None? ==> after == headers)
            && (d.Some? ==>
                  && HEADER in after && after - {HEADER} == headers - {HEADER}
                  && LeadingPriority(after[HEADER]) == Some(if client.Some? then Min(client.value, r) else r))
  {
    EmittedPriorityReadsBack(l, kind, tool, scope, now, cfg, sqrt, render);
    hide Decision, LeadingPriority, Sane;
  }

  // ------------------------------------------------------------------- lease length

  /** Rounding is to within half a millisecond of the truncated nanoseconds. */
  lemma MillisecondsAreNear(ns: int)
    ensures -500_000 <= 1_000_000 * Milliseconds(ns) - ns <= 500_000
  {
  }

  lemma {:induction false} TtlIsBounded(window: real)
    requires 0.0 <= window <= 6.0
    ensures 0 <= Ttl(window) <= 6000
    ensures window * 1000.0 - 0.500001 <= Ttl(window) as real <= window * 1000.0 + 0.5
  {
    var ns := Nanoseconds(window);
    assert 0 <= ns <= 6_000_000_000;
    assert ns as real <= window * 1000000000.0 < ns as real + 1.0;
    MillisecondsAreNear(ns);
  }

  /** A request the plugin has seen, with the instant it arrived. */
  datatype Seen = Seen(kind: Policies.Class, tool: string, scope: string, now: real)

  function HinterRun(reqs: seq<Seen>, cfg: Config, sqrt: real -> real, render: int -> string,
                     k: nat): (l: Learner<string, string>)
    requires k <= |reqs| && 0.0 <= cfg.alpha <= 1.0
    ensures Sane(l.index)
    decreases k
  {
    if k == 0 then NewLearner()
    else
      var r := reqs[k - 1];
      Decision(HinterRun(reqs, cfg, sqrt, render, k - 1), r.kind, r.tool, r.scope, r.now, cfg, sqrt, render).1
  }

  /** The directive emitted for request `k` of a run. */
  function Emitted(reqs: seq<Seen>, cfg: Config, sqrt: real -> real, render: int -> string, k: nat): Option<string>
    requires k < |reqs| && 0.0 <= cfg.alpha <= 1.0
  {
    var r := reqs[k];
    Decision(HinterRun(reqs, cfg, sqrt, render, k), r.kind, r.tool, r.scope, r.now, cfg, sqrt, render).0
  }

  /** Only tool-class requests teach the plugin anything. */
  function ToolTurns(reqs: seq<Seen>, k: nat): seq<Turn<string, string>>
    requires k <= |reqs|
    decreases k
  {
    if k == 0 then []
    else
      ToolTurns(reqs, k - 1)
        + if reqs[k - 1].kind == Policies.Tool
          then [Turn(Named(reqs[k - 1].scope), Named(reqs[k - 1].tool), reqs[k - 1].now)] else []
  }

  lemma {:induction false} LearnPrefix<K, T>(turns: seq<Turn<K, T>>, t: Turn<K, T>, cfg: Config, k: nat)
    requires k <= |turns|
    ensures LearnAll(turns + [t], cfg, k) == LearnAll(turns, cfg, k)
  {
    hide Learn;
    if k > 0 {
      LearnPrefix(turns, t, cfg, k - 1);
    }
  }

  lemma {:induction false} HinterLearnsToolTurns(reqs: seq<Seen>, cfg: Config, sqrt: real -> real,
                                                 render: int -> string, k: nat)
    requires k <= |reqs| && 0.0 <= cfg.alpha <= 1.0
    ensures HinterRun(reqs, cfg, sqrt, render, k) == LearnAll(ToolTurns(reqs, k), cfg, |ToolTurns(reqs, k)|)
  {
    hide HinterRun, ToolTurns, LearnAll;
    if k == 0 {
      NothingLearned(reqs, cfg, sqrt, render);
    } else {
      HinterLearnsToolTurns(reqs, cfg, sqrt, render, k - 1);
      HinterStep(reqs, cfg, sqrt, render, k - 1);
    }
  }

  lemma NothingLearned(reqs: seq<Seen>, cfg: Config, sqrt: real -> real, render: int -> string)
    requires 0.0 <= cfg.alpha <= 1.0
    ensures HinterRun(reqs, cfg, sqrt, render, 0) == LearnAll(ToolTurns(reqs, 0), cfg, |ToolTurns(reqs, 0)|)
  {
  }

  lemma {:induction false} HinterStep(reqs: seq<Seen>, cfg: Config, sqrt: real -> real, render: int -> string, k: nat)
    requires k < |reqs| && 0.0 <= cfg.alpha <= 1.0
    requires HinterRun(reqs, cfg, sqrt, render, k) == LearnAll(ToolTurns(reqs, k), cfg, |ToolTurns(reqs, k)|)
    ensures HinterRun(reqs, cfg, sqrt, render, k + 1) == LearnAll(ToolTurns(reqs, k + 1), cfg, |ToolTurns(reqs, k + 1)|)
  {
    hide Learn, Lease, Sane, PredictGap;
    var before, r := ToolTurns(reqs, k), reqs[k];
    if r.kind == Policies.Tool {
      LearnPrefix(before, Turn(Named(r.scope), Named(r.tool), r.now), cfg, |before|);
    } else {
      assert ToolTurns(reqs, k + 1) == before;
    }
  }

  /**
   Every lease the plugin emits with default thresholds, in any run in which a
   conversation's times do not decrease: the tool is named and in the index on
   recorded evidence, and the time to live is between 1.5 times the estimated gap
   (less half a millisecond of rounding) and 6000 milliseconds.
   */
  lemma {:induction false} EmittedLeaseHasEvidence(reqs: seq<Seen>, sqrt: real -> real, render: int -> string, k: nat)
    requires 0 < k <= |reqs| && IsSqrt(sqrt) && reqs[k - 1].kind == Policies.Tool
    requires NonDecreasing(ToolTurns(reqs, k))
    ensures var r, turns := reqs[k - 1], ToolTurns(reqs, k);
            var before := HinterRun(reqs, DEFAULTS, sqrt, render, k - 1);
            var d := Decision(before, r.kind, r.tool, r.scope, r.now, DEFAULTS, sqrt, render);
            d.0.Some? ==>
              && r.tool != "" && r.tool in d.1.index.vals
              && Evidence(turns, DEFAULTS, |turns|, r.tool) != []
              && var mean := d.1.index.vals[r.tool].mean;
                 exists ttl :: d.0.value == LeaseText(ttl, r.scope, render) && ttl <= 6000 &&
                               1500.0 * mean - 0.500001 <= ttl as real
  {
    var r, turns := reqs[k - 1], ToolTurns(reqs, k);
    HinterLearnsToolTurns(reqs, DEFAULTS, sqrt, render, k);
    LeaseHasEvidenceAndBounds(turns, sqrt, |turns|);
    var before := HinterRun(reqs, DEFAULTS, sqrt, render, k - 1);
    var d := Decision(before, r.kind, r.tool, r.scope, r.now, DEFAULTS, sqrt, render);
    assert d.1 == LearnAll(turns, DEFAULTS, |turns|);
    hide LearnAll, Evidence, IsSqrt, NonDecreasing, HinterRun, Learn, LeaseText, Confidence, Sane;
    if d.0.Some? {
      var p := PredictGap(d.1.index, map[], DEFAULT_PRIOR, Named(r.tool));
      var ttl := Ttl(Window(DEFAULTS, sqrt, p));
      assert d.0.value == LeaseText(ttl, r.scope, render);
      TtlIsBounded(Window(DEFAULTS, sqrt, p));
    }
  }
}
