/**
 The simulator's router and the gateway plugin on one request stream.  The plugin is
 written after the simulator, but learns from tool turns only, where the simulator
 learns from every request: what each side observes, exactly when the two observe the
 same, and what follows for the directives they issue.
 */
module TwoLearners {
  import opened Basics
  import opened Lru
  import opened BoundedMap
  import opened GapStats
  import opened Learning
  import opened LearningHistory
  import opened Retention
  import opened RetentionLaws
  import opened HeaderText
  import opened PreRequest
  import opened PreRequestLaws
  import Policies

  datatype Side = Simulator | Plugin

  /** Whether a side looks at the timing of a request at all. */
  predicate Teaches(side: Side, r: Seen) {
    side == Simulator || r.kind == Policies.Tool
  }

  function SeenTurn(r: Seen): Turn<string, string> {
    Turn(Named(r.scope), Named(r.tool), r.now)
  }

  /** The learner of one side after the first `k` requests. */
  function Taught(side: Side, reqs: seq<Seen>, cfg: Config, k: nat): Learner<string, string>
    requires k <= |reqs|
    decreases k
  {
    if k == 0 then NewLearner()
    else if Teaches(side, reqs[k - 1]) then Learn(Taught(side, reqs, cfg, k - 1), SeenTurn(reqs[k - 1]), cfg)
    else Taught(side, reqs, cfg, k - 1)
  }

  lemma {:induction false} PluginIsTaught(reqs: seq<Seen>, cfg: Config, sqrt: real -> real, render: int -> string,
                                          k: nat)
    requires k <= |reqs| && 0.0 <= cfg.alpha <= 1.0
    ensures HinterRun(reqs, cfg, sqrt, render, k) == Taught(Plugin, reqs, cfg, k)
  {
    hide Learn, Lease, PredictGap;
    if k > 0 {
      PluginIsTaught(reqs, cfg, sqrt, render, k - 1);
    }
  }

  function SeenTurns(reqs: seq<Seen>): (turns: seq<Turn<string, string>>)
    ensures |turns| == |reqs|
    ensures forall i :: 0 <= i < |reqs| ==> turns[i] == SeenTurn(reqs[i])
  {
    seq(|reqs|, i requires 0 <= i < |reqs| => SeenTurn(reqs[i]))
  }

  lemma {:induction false} SimulatorIsTaught(reqs: seq<Seen>, cfg: Config, k: nat)
    requires k <= |reqs|
    ensures LearnAll(SeenTurns(reqs), cfg, k) == Taught(Simulator, reqs, cfg, k)
  {
    hide Learn;
    if k > 0 {
      SimulatorIsTaught(reqs, cfg, k - 1);
    }
  }

  /** The gap a side observes at request `k`, from its bounded table. */
  function Answer(side: Side, reqs: seq<Seen>, cfg: Config, k: nat): Option<real>
    requires k < |reqs|
  {
    if !Teaches(side, reqs[k]) then None
    else
      var r := reqs[k];
      Observe(Taught(side, reqs, cfg, k).seen, Named(r.scope), r.tool != "", r.now, cfg.trackerCapacity).0
  }

  // ------------------------------------------------------- the answer, read off the stream

  predicate IsTurnOf(side: Side, r: Seen, scope: string) {
    Teaches(side, r) && r.scope == scope
  }

  /** The latest of the first `k` requests that is a turn of the conversation, on a side. */
  function Latest(side: Side, reqs: seq<Seen>, k: nat, scope: string): (i: Option<nat>)
    requires k <= |reqs|
    ensures i.Some? ==> i.value < k && IsTurnOf(side, reqs[i.value], scope)
    ensures i.Some? ==> forall j :: i.value < j < k ==> !IsTurnOf(side, reqs[j], scope)
    ensures i.None? ==> forall j :: 0 <= j < k ==> !IsTurnOf(side, reqs[j], scope)
    decreases k
  {
    if k == 0 then None
    else if IsTurnOf(side, reqs[k - 1], scope) then Some(k - 1)
    else Latest(side, reqs, k - 1, scope)
  }

  /** The conversations a side has met since that turn. */
  function Others(side: Side, reqs: seq<Seen>, k: nat, scope: string): set<string>
    requires k <= |reqs|
    decreases k
  {
    if k == 0 || IsTurnOf(side, reqs[k - 1], scope) then {}
    else
      Others(side, reqs, k - 1, scope)
        + if Teaches(side, reqs[k - 1]) && reqs[k - 1].scope != "" then {reqs[k - 1].scope} else {}
  }

  /** The conversation has an earlier turn, and fewer than the table's capacity have been met since. */
  predicate Remembered(side: Side, reqs: seq<Seen>, cfg: Config, k: nat, scope: string)
    requires k <= |reqs|
  {
    Latest(side, reqs, k, scope).Some? && |Others(side, reqs, k, scope)| < cfg.trackerCapacity
  }

  predicate Attributable(r: Seen) {
    r.scope != "" && r.tool != ""
  }

  function AnswerInStream(side: Side, reqs: seq<Seen>, cfg: Config, k: nat): Option<real>
    requires k < |reqs|
  {
    var r := reqs[k];
    if Teaches(side, r) && Attributable(r) && Remembered(side, reqs, cfg, k, r.scope)
    then Some(r.now - reqs[Latest(side, reqs, k, r.scope).value].now)
    else None
  }

  /** The conversations met, in order, repetitions included. */
  function Met(side: Side, reqs: seq<Seen>, k: nat): seq<string>
    requires k <= |reqs|
    decreases k
  {
    if k == 0 then []
    else
      Met(side, reqs, k - 1)
        + if Teaches(side, reqs[k - 1]) && reqs[k - 1].scope != "" then [reqs[k - 1].scope] else []
  }

  lemma {:induction false} MetSince(side: Side, reqs: seq<Seen>, k: nat, scope: string)
    requires k <= |reqs| && scope != ""
    ensures Elems(After(Met(side, reqs, k), scope)) == Others(side, reqs, k, scope)
    ensures scope in Met(side, reqs, k) <==> Latest(side, reqs, k, scope).Some?
  {
    hide After, Elems, Latest;
    if k == 0 {
      NobodyMet(side, reqs, scope);
    } else {
      MetSince(side, reqs, k - 1, scope);
      LatestStep(side, reqs, k - 1, scope);
      if Teaches(side, reqs[k - 1]) && reqs[k - 1].scope != "" {
        AfterSnoc(Met(side, reqs, k - 1), reqs[k - 1].scope, scope);
      } else {
        assert Met(side, reqs, k) == Met(side, reqs, k - 1);
      }
    }
  }

  lemma NobodyMet(side: Side, reqs: seq<Seen>, scope: string)
    ensures Elems(After(Met(side, reqs, 0), scope)) == Others(side, reqs, 0, scope)
    ensures scope !in Met(side, reqs, 0) && Latest(side, reqs, 0, scope).None?
  {
  }

  lemma LatestStep(side: Side, reqs: seq<Seen>, k: nat, scope: string)
    requires k < |reqs|
    ensures Latest(side, reqs, k + 1, scope) ==
            if IsTurnOf(side, reqs[k], scope) then Some(k) else Latest(side, reqs, k, scope)
  {
  }

  /** The last-seen table holds exactly the remembered conversations, each with its latest time. */
  lemma {:induction false} TaughtIsRecent(side: Side, reqs: seq<Seen>, cfg: Config, k: nat)
    requires k <= |reqs|
    ensures Valid(Taught(side, reqs, cfg, k).seen)
    ensures Taught(side, reqs, cfg, k).seen.order == LastN(Recency(Met(side, reqs, k)), cfg.trackerCapacity)
    ensures TimesAreLatest(side, reqs, Taught(side, reqs, cfg, k).seen, k)
  {
    hide Recency, LastN, Valid, Fold, Put, TimesAreLatest, Record;
    if k == 0 {
      NothingTaught(side, reqs, cfg);
    } else {
      TaughtIsRecent(side, reqs, cfg, k - 1);
      var t, r := Taught(side, reqs, cfg, k - 1).seen, reqs[k - 1];
      if Teaches(side, r) && r.scope != "" {
        PutFacts(t, r.scope, r.now, cfg.trackerCapacity);
        PutKeepsRecent(t, Met(side, reqs, k - 1), r.scope, r.now, cfg.trackerCapacity);
        TimesAfterTurn(side, reqs, t, k, cfg.trackerCapacity);
      } else {
        assert Met(side, reqs, k) == Met(side, reqs, k - 1);
        TimesOtherwise(side, reqs, t, k);
      }
    }
  }

  ghost predicate TimesAreLatest(side: Side, reqs: seq<Seen>, t: Table<string, real>, k: nat)
    requires k <= |reqs|
  {
    forall scope :: scope in t.vals ==>
      var i := Latest(side, reqs, k, scope); scope != "" && i.Some? && t.vals[scope] == reqs[i.value].now
  }

  lemma NothingTaught(side: Side, reqs: seq<Seen>, cfg: Config)
    ensures Valid(Taught(side, reqs, cfg, 0).seen)
    ensures Taught(side, reqs, cfg, 0).seen.order == LastN(Recency(Met(side, reqs, 0)), cfg.trackerCapacity)
    ensures TimesAreLatest(side, reqs, Taught(side, reqs, cfg, 0).seen, 0)
  {
  }

  lemma {:induction false} TimesAfterTurn(side: Side, reqs: seq<Seen>, t: Table<string, real>, k: nat, cap: nat)
    requires 0 < k <= |reqs| && Valid(t) && TimesAreLatest(side, reqs, t, k - 1)
    requires Teaches(side, reqs[k - 1]) && reqs[k - 1].scope != ""
    ensures TimesAreLatest(side, reqs, Put(t, reqs[k - 1].scope, reqs[k - 1].now, cap), k)
  {
    PutFacts(t, reqs[k - 1].scope, reqs[k - 1].now, cap);
    hide Put, Valid;
    var t' := Put(t, reqs[k - 1].scope, reqs[k - 1].now, cap);
    forall scope | scope in t'.vals
      ensures scope != "" && Latest(side, reqs, k, scope).Some?
      ensures t'.vals[scope] == reqs[Latest(side, reqs, k, scope).value].now
    {
      assert scope == reqs[k - 1].scope || scope in t.vals;
    }
  }

  lemma TimesOtherwise(side: Side, reqs: seq<Seen>, t: Table<string, real>, k: nat)
    requires 0 < k <= |reqs| && TimesAreLatest(side, reqs, t, k - 1)
    requires !Teaches(side, reqs[k - 1]) || reqs[k - 1].scope == ""
    ensures TimesAreLatest(side, reqs, t, k)
  {
  }

  /** What a side observes is what the stream says. */
  lemma {:induction false} AnswerIsInStream(side: Side, reqs: seq<Seen>, cfg: Config, k: nat)
    requires k < |reqs|
    ensures Answer(side, reqs, cfg, k) == AnswerInStream(side, reqs, cfg, k)
  {
    hide Taught, Met, Latest, Others, Recency, LastN, Put, After;
    var r, t := reqs[k], Taught(side, reqs, cfg, k).seen;
    if Teaches(side, r) && Attributable(r) {
      TaughtIsRecent(side, reqs, cfg, k);
      RecentIffFewSince(Met(side, reqs, k), r.scope, cfg.trackerCapacity);
      MetSince(side, reqs, k, r.scope);
      assert r.scope in t.vals <==> r.scope in Elems(t.order);
    }
  }

  // ------------------------------------------------------------------ when the two agree

  /** Both sides remember the conversation or neither does, and its latest turn is at one time on both. */
  predicate SameMemory(reqs: seq<Seen>, cfg: Config, k: nat)
    requires k < |reqs|
  {
    var scope := reqs[k].scope;
    && Remembered(Simulator, reqs, cfg, k, scope) == Remembered(Plugin, reqs, cfg, k, scope)
    && (Remembered(Simulator, reqs, cfg, k, scope) ==>
          reqs[Latest(Simulator, reqs, k, scope).value].now == reqs[Latest(Plugin, reqs, k, scope).value].now)
  }

  /** At a tool turn the two sides observe the same exactly if they remember the same. */
  lemma {:induction false} AnswersAgree(reqs: seq<Seen>, cfg: Config, k: nat)
    requires k < |reqs| && reqs[k].kind == Policies.Tool
    ensures Answer(Simulator, reqs, cfg, k) == Answer(Plugin, reqs, cfg, k) <==>
            (Attributable(reqs[k]) ==> SameMemory(reqs, cfg, k))
  {
    hide Answer, Latest, Others;
    AnswerIsInStream(Simulator, reqs, cfg, k);
    AnswerIsInStream(Plugin, reqs, cfg, k);
  }

  /** The gaps a side has recorded after the first `k` requests. */
  function Lessons(side: Side, reqs: seq<Seen>, cfg: Config, k: nat): seq<Sample<string>>
    requires k <= |reqs|
    decreases k
  {
    if k == 0 then []
    else
      var gap := Answer(side, reqs, cfg, k - 1);
      Lessons(side, reqs, cfg, k - 1) + if gap.Some? then [Sample(reqs[k - 1].tool, gap.value)] else []
  }

  /** Request `k` teaches both sides the same: equal gaps at a tool turn, none at any other. */
  predicate TeachesAlike(reqs: seq<Seen>, cfg: Config, k: nat)
    requires k < |reqs|
  {
    Attributable(reqs[k]) ==>
      if reqs[k].kind == Policies.Tool then SameMemory(reqs, cfg, k)
      else !Remembered(Simulator, reqs, cfg, k, reqs[k].scope)
  }

  lemma {:induction false} LessonsStep(reqs: seq<Seen>, cfg: Config, k: nat)
    requires k < |reqs| && Lessons(Simulator, reqs, cfg, k) == Lessons(Plugin, reqs, cfg, k)
    ensures Lessons(Simulator, reqs, cfg, k + 1) == Lessons(Plugin, reqs, cfg, k + 1) <==> TeachesAlike(reqs, cfg, k)
  {
    hide SameMemory, Taught, Remembered, Latest;
    var a, b, before := Answer(Simulator, reqs, cfg, k), Answer(Plugin, reqs, cfg, k), Lessons(Plugin, reqs, cfg, k);
    if reqs[k].kind == Policies.Tool {
      AnswersAgree(reqs, cfg, k);
    } else {
      AnswerIsInStream(Simulator, reqs, cfg, k);
    }
    hide Answer, AnswerInStream;
    SameTail(before, a, b, reqs[k].tool);
  }

  lemma {:induction false} SameTail(before: seq<Sample<string>>, a: Option<real>, b: Option<real>, tool: string)
    ensures (before + if a.Some? then [Sample(tool, a.value)] else [])
            == (before + if b.Some? then [Sample(tool, b.value)] else [])
            <==> a == b
  {
    var s, t := if a.Some? then [Sample(tool, a.value)] else [], if b.Some? then [Sample(tool, b.value)] else [];
    if before + s == before + t {
      assert s == (before + s)[|before|..] == (before + t)[|before|..] == t;
    }
  }

  ghost predicate SameLessons(reqs: seq<Seen>, cfg: Config, n: nat)
    requires n <= |reqs|
  {
    forall k :: 0 <= k <= n ==> Lessons(Simulator, reqs, cfg, k) == Lessons(Plugin, reqs, cfg, k)
  }

  ghost predicate AllTeachAlike(reqs: seq<Seen>, cfg: Config, n: nat)
    requires n <= |reqs|
  {
    forall k :: 0 <= k < n ==> TeachesAlike(reqs, cfg, k)
  }

  /** Over a whole run the two sides record the same gaps, at every point, exactly if every request teaches alike. */
  lemma {:induction false} LessonsAgree(reqs: seq<Seen>, cfg: Config, n: nat)
    requires n <= |reqs|
    ensures SameLessons(reqs, cfg, n) <==> AllTeachAlike(reqs, cfg, n)
  {
    hide SameLessons, AllTeachAlike, Lessons, TeachesAlike;
    if n == 0 {
      NoLessons(reqs, cfg);
    } else {
      LessonsAgree(reqs, cfg, n - 1);
      OneMoreRequest(reqs, cfg, n - 1);
      if SameLessons(reqs, cfg, n - 1) {
        LessonsStep(reqs, cfg, n - 1);
      }
    }
  }

  lemma {:induction false} OneMoreRequest(reqs: seq<Seen>, cfg: Config, n: nat)
    requires n < |reqs|
    ensures SameLessons(reqs, cfg, n) ==> Lessons(Simulator, reqs, cfg, n) == Lessons(Plugin, reqs, cfg, n)
    ensures SameLessons(reqs, cfg, n + 1) <==>
            SameLessons(reqs, cfg, n) && Lessons(Simulator, reqs, cfg, n + 1) == Lessons(Plugin, reqs, cfg, n + 1)
    ensures AllTeachAlike(reqs, cfg, n + 1) <==> AllTeachAlike(reqs, cfg, n) && TeachesAlike(reqs, cfg, n)
  {
    hide Lessons, TeachesAlike;
  }

  lemma NoLessons(reqs: seq<Seen>, cfg: Config)
    ensures SameLessons(reqs, cfg, 0) && AllTeachAlike(reqs, cfg, 0)
  {
  }

  /** The index of a side is the table of what it recorded. */
  lemma {:induction false} IndexOfLessons(side: Side, reqs: seq<Seen>, cfg: Config, k: nat)
    requires k <= |reqs|
    ensures Taught(side, reqs, cfg, k).index ==
            GapTable(Lessons(side, reqs, cfg, k), cfg.alpha, cfg.indexCapacity, |Lessons(side, reqs, cfg, k)|)
  {
    hide Answer, Taught, Record;
    if k == 0 {
      EmptyIndex(side, reqs, cfg);
    } else {
      IndexOfLessons(side, reqs, cfg, k - 1);
      IndexStep(side, reqs, cfg, k - 1);
      var before, gap := Lessons(side, reqs, cfg, k - 1), Answer(side, reqs, cfg, k - 1);
      hide GapTable;
      if gap.Some? {
        GapTableSnoc(before, Sample(reqs[k - 1].tool, gap.value), cfg.alpha, cfg.indexCapacity);
        assert Lessons(side, reqs, cfg, k) == before + [Sample(reqs[k - 1].tool, gap.value)];
      } else {
        assert Lessons(side, reqs, cfg, k) == before;
      }
    }
  }

  lemma EmptyIndex(side: Side, reqs: seq<Seen>, cfg: Config)
    ensures Taught(side, reqs, cfg, 0).index == GapTable(Lessons(side, reqs, cfg, 0), cfg.alpha, cfg.indexCapacity, 0)
  {
  }

  lemma {:induction false} IndexStep(side: Side, reqs: seq<Seen>, cfg: Config, k: nat)
    requires k < |reqs|
    ensures var gap, before := Answer(side, reqs, cfg, k), Taught(side, reqs, cfg, k).index;
            Taught(side, reqs, cfg, k + 1).index ==
            if gap.Some? then Record(before, reqs[k].tool, gap.value, cfg.alpha, cfg.indexCapacity) else before
  {
    AnswerNeedsTool(side, reqs, cfg, k);
    hide Observe, Record;
  }

  lemma AnswerNeedsTool(side: Side, reqs: seq<Seen>, cfg: Config, k: nat)
    requires k < |reqs|
    ensures Answer(side, reqs, cfg, k).Some? ==> reqs[k].tool != "" && Teaches(side, reqs[k])
  {
  }

  lemma {:induction false} IndicesAgree(reqs: seq<Seen>, cfg: Config, n: nat)
    requires n <= |reqs| && AllTeachAlike(reqs, cfg, n)
    ensures Taught(Simulator, reqs, cfg, n).index == Taught(Plugin, reqs, cfg, n).index
  {
    hide Lessons, AllTeachAlike, Taught;
    LessonsAgree(reqs, cfg, n);
    assert Lessons(Simulator, reqs, cfg, n) == Lessons(Plugin, reqs, cfg, n);
    IndexOfLessons(Simulator, reqs, cfg, n);
    IndexOfLessons(Plugin, reqs, cfg, n);
  }

  // ------------------------------------------------------------ streams that teach alike

  /** No conversation has tool turns and other turns. */
  ghost predicate Unmixed(reqs: seq<Seen>) {
    forall i, j :: 0 <= i < |reqs| && 0 <= j < |reqs| && reqs[i].scope == reqs[j].scope != "" ==>
      (reqs[i].kind == Policies.Tool <==> reqs[j].kind == Policies.Tool)
  }

  /** Only tool turns name a tool. */
  ghost predicate ToolsOnToolTurns(reqs: seq<Seen>) {
    forall i :: 0 <= i < |reqs| && reqs[i].kind != Policies.Tool ==> reqs[i].tool == ""
  }

  function Scopes(reqs: seq<Seen>, k: nat): set<string>
    requires k <= |reqs|
  {
    set i | 0 <= i < k && reqs[i].scope != "" :: reqs[i].scope
  }

  /** All three can be read off the stream. */
  ghost predicate Orderly(reqs: seq<Seen>, cfg: Config) {
    Unmixed(reqs) && ToolsOnToolTurns(reqs) && |Scopes(reqs, |reqs|)| <= cfg.trackerCapacity
  }

  lemma {:induction false} OthersAreScopes(side: Side, reqs: seq<Seen>, k: nat, scope: string)
    requires k <= |reqs| && scope != ""
    ensures Others(side, reqs, k, scope) <= Scopes(reqs, k) - {scope}
  {
    if k > 0 && !IsTurnOf(side, reqs[k - 1], scope) {
      OthersAreScopes(side, reqs, k - 1, scope);
      assert Scopes(reqs, k - 1) <= Scopes(reqs, k);
    }
  }

  /** If no more conversations occur than the table holds, every earlier turn is remembered. */
  lemma {:induction false} FewAreRemembered(side: Side, reqs: seq<Seen>, cfg: Config, k: nat)
    requires k < |reqs| && reqs[k].scope != "" && |Scopes(reqs, |reqs|)| <= cfg.trackerCapacity
    ensures Remembered(side, reqs, cfg, k, reqs[k].scope) <==> Latest(side, reqs, k, reqs[k].scope).Some?
  {
    hide Others, Latest;
    var scope, all := reqs[k].scope, Scopes(reqs, |reqs|);
    OthersAreScopes(side, reqs, k, scope);
    assert Scopes(reqs, k) <= all && scope in all;
    SubsetCardinality(Others(side, reqs, k, scope), all - {scope});
  }

  /** In a conversation of tool turns the latest turn is the latest tool turn. */
  lemma {:induction false} SameLatest(reqs: seq<Seen>, k: nat)
    requires k < |reqs| && Unmixed(reqs) && reqs[k].kind == Policies.Tool && reqs[k].scope != ""
    ensures Latest(Simulator, reqs, k, reqs[k].scope) == Latest(Plugin, reqs, k, reqs[k].scope)
  {
    SameLatestUpTo(reqs, k, k);
  }

  lemma {:induction false} SameLatestUpTo(reqs: seq<Seen>, k: nat, n: nat)
    requires n <= k < |reqs| && Unmixed(reqs) && reqs[k].kind == Policies.Tool && reqs[k].scope != ""
    ensures Latest(Simulator, reqs, n, reqs[k].scope) == Latest(Plugin, reqs, n, reqs[k].scope)
    decreases n
  {
    if n > 0 {
      SameLatestUpTo(reqs, k, n - 1);
    }
  }

  lemma {:induction false} OrderlyTeachesAlike(reqs: seq<Seen>, cfg: Config, n: nat)
    requires n <= |reqs| && Orderly(reqs, cfg)
    ensures AllTeachAlike(reqs, cfg, n)
  {
    hide Latest, Others, Remembered, Unmixed;
    forall k | 0 <= k < n ensures TeachesAlike(reqs, cfg, k) {
      if Attributable(reqs[k]) {
        FewAreRemembered(Simulator, reqs, cfg, k);
        FewAreRemembered(Plugin, reqs, cfg, k);
        assert reqs[k].kind == Policies.Tool;
        SameLatest(reqs, k);
      }
    }
  }

  /** On an orderly stream both indices are equal at every request. */
  lemma {:induction false} OrderlyIndicesAgree(reqs: seq<Seen>, cfg: Config, n: nat)
    requires n <= |reqs| && Orderly(reqs, cfg)
    ensures Taught(Simulator, reqs, cfg, n).index == Taught(Plugin, reqs, cfg, n).index
  {
    hide Orderly, Taught;
    OrderlyTeachesAlike(reqs, cfg, n);
    IndicesAgree(reqs, cfg, n);
  }

  // -------------------------------------------------------------- streams that do not

  /** A document turn between two tool turns shortens the gap on one side only. */
  lemma {:induction false} MixedConversationDiffers(cfg: Config)
    requires cfg.trackerCapacity > 0
    ensures var reqs := [Seen(Policies.Tool, "lookup", "c", 0.0), Seen(Policies.Rag, "", "c", 1.0),
                         Seen(Policies.Tool, "lookup", "c", 3.0)];
            Answer(Simulator, reqs, cfg, 2) == Some(2.0) && Answer(Plugin, reqs, cfg, 2) == Some(3.0)
  {
    hide Answer;
    var reqs := [Seen(Policies.Tool, "lookup", "c", 0.0), Seen(Policies.Rag, "", "c", 1.0),
                 Seen(Policies.Tool, "lookup", "c", 3.0)];
    AnswerIsInStream(Simulator, reqs, cfg, 2);
    AnswerIsInStream(Plugin, reqs, cfg, 2);
    assert Latest(Plugin, reqs, 1, "c") == Some(0);
    assert Others(Plugin, reqs, 1, "c") == {};
    assert Others(Plugin, reqs, 2, "c") == {};
  }

  /** A document opener gives the simulator a gap where the plugin has none. */
  lemma {:induction false} DocumentOpenerDiffers(cfg: Config)
    requires cfg.trackerCapacity > 0
    ensures var reqs := [Seen(Policies.Rag, "", "c", 0.0), Seen(Policies.Tool, "lookup", "c", 1.0)];
            Answer(Simulator, reqs, cfg, 1) == Some(1.0) && Answer(Plugin, reqs, cfg, 1) == None
  {
    hide Answer;
    var reqs := [Seen(Policies.Rag, "", "c", 0.0), Seen(Policies.Tool, "lookup", "c", 1.0)];
    AnswerIsInStream(Simulator, reqs, cfg, 1);
    AnswerIsInStream(Plugin, reqs, cfg, 1);
    assert Latest(Plugin, reqs, 0, "c") == None;
  }

  /** An unmixed conversation of other turns that names a tool teaches the simulator about it and not the plugin. */
  lemma {:induction false} NamedToolDiffers(cfg: Config)
    requires cfg.trackerCapacity > 0 && cfg.indexCapacity > 0
    ensures var reqs := [Seen(Policies.Rag, "lookup", "c", 0.0), Seen(Policies.Rag, "lookup", "c", 1.0)];
            && Unmixed(reqs)
            && Lessons(Simulator, reqs, cfg, 2) == [Sample("lookup", 1.0)] && Lessons(Plugin, reqs, cfg, 2) == []
            && "lookup" in Taught(Simulator, reqs, cfg, 2).index.vals
               && Taught(Plugin, reqs, cfg, 2).index.vals == map[]
  {
    hide Answer, Taught;
    var reqs := [Seen(Policies.Rag, "lookup", "c", 0.0), Seen(Policies.Rag, "lookup", "c", 1.0)];
    AnswerIsInStream(Simulator, reqs, cfg, 0);
    AnswerIsInStream(Simulator, reqs, cfg, 1);
    AnswerIsInStream(Plugin, reqs, cfg, 0);
    AnswerIsInStream(Plugin, reqs, cfg, 1);
    assert Lessons(Simulator, reqs, cfg, 1) == [] && Lessons(Plugin, reqs, cfg, 1) == [];
    IndexOfLessons(Simulator, reqs, cfg, 2);
    IndexOfLessons(Plugin, reqs, cfg, 2);
    OneSample("lookup", 1.0, cfg);
  }

  lemma {:induction false} OneSample(tool: string, gap: real, cfg: Config)
    requires cfg.indexCapacity > 0
    ensures tool in GapTable([Sample(tool, gap)], cfg.alpha, cfg.indexCapacity, 1).vals
  {
    PutSame(Empty<string, GapStat>(), tool, GapStat(1, gap, 0.0), cfg.indexCapacity);
    assert GapTable([Sample(tool, gap)], cfg.alpha, cfg.indexCapacity, 0) == Empty<string, GapStat>();
    hide Put;
  }

  /** One-shots of `n` fresh conversations between two tool turns. */
  function Crowd(n: nat): (reqs: seq<Seen>)
    ensures |reqs| == n + 2
    ensures reqs[0] == Seen(Policies.Tool, "lookup", "c", 0.0) && reqs[n + 1] == Seen(Policies.Tool, "lookup", "c", 1.0)
    ensures forall i :: 1 <= i <= n ==> reqs[i] == Seen(Policies.Oneshot, "", Itoa(i), 0.0)
  {
    [Seen(Policies.Tool, "lookup", "c", 0.0)]
      + seq(n, i requires 0 <= i < n => Seen(Policies.Oneshot, "", Itoa(i + 1), 0.0))
      + [Seen(Policies.Tool, "lookup", "c", 1.0)]
  }

  function Texts(k: nat): set<string> {
    set i | 1 <= i < k :: Itoa(i)
  }

  lemma {:induction false} TextsAreMany(k: nat)
    requires k >= 1
    ensures |Texts(k)| == k - 1
  {
    hide Itoa;
    if k > 1 {
      TextsAreMany(k - 1);
      ItoaIsInjective(k - 1);
      assert Texts(k) == Texts(k - 1) + {Itoa(k - 1)};
    }
  }

  lemma {:induction false} CrowdIsMet(n: nat, k: nat)
    requires 1 <= k <= n + 1
    ensures Latest(Simulator, Crowd(n), k, "c") == Some(0) == Latest(Plugin, Crowd(n), k, "c")
    ensures Others(Simulator, Crowd(n), k, "c") == Texts(k) && Others(Plugin, Crowd(n), k, "c") == {}
    decreases k
  {
    var reqs := Crowd(n);
    hide Crowd, Itoa, Others, Latest;
    LatestStep(Simulator, reqs, k - 1, "c");
    LatestStep(Plugin, reqs, k - 1, "c");
    OthersStep(Simulator, reqs, k - 1, "c");
    OthersStep(Plugin, reqs, k - 1, "c");
    if k > 1 {
      CrowdIsMet(n, k - 1);
      ItoaIsInjective(k - 1);
      assert Texts(k) == Texts(k - 1) + {Itoa(k - 1)};
    }
  }

  lemma OthersStep(side: Side, reqs: seq<Seen>, k: nat, scope: string)
    requires k < |reqs|
    ensures Others(side, reqs, k + 1, scope) ==
            if IsTurnOf(side, reqs[k], scope) then {}
            else
              Others(side, reqs, k, scope)
                + if Teaches(side, reqs[k]) && reqs[k].scope != "" then {reqs[k].scope} else {}
  {
  }

  lemma {:induction false} ItoaIsInjective(n: nat)
    ensures Itoa(n) != "c" && Itoa(n) != ""
    ensures forall m: nat :: m < n ==> Itoa(m) != Itoa(n)
  {
    NatTextParses(n);
    assert IsDigit(NatText(n)[0]);
    forall m: nat | m < n ensures Itoa(m) != Itoa(n) {
      NatTextParses(m);
    }
  }

  /** Enough one-shots in between make the simulator forget a conversation that the plugin remembers. */
  lemma {:induction false} CrowdedOutDiffers(cfg: Config)
    requires cfg.trackerCapacity > 0
    ensures var n := cfg.trackerCapacity;
            && Unmixed(Crowd(n)) && ToolsOnToolTurns(Crowd(n))
            && Answer(Simulator, Crowd(n), cfg, n + 1) == None && Answer(Plugin, Crowd(n), cfg, n + 1) == Some(1.0)
  {
    hide Answer, Others, Latest, Itoa;
    var n := cfg.trackerCapacity;
    CrowdIsMet(n, n + 1);
    TextsAreMany(n + 1);
    AnswerIsInStream(Simulator, Crowd(n), cfg, n + 1);
    AnswerIsInStream(Plugin, Crowd(n), cfg, n + 1);
    CrowdIsUnmixed(n);
  }

  lemma {:induction false} CrowdIsUnmixed(n: nat)
    ensures Unmixed(Crowd(n)) && ToolsOnToolTurns(Crowd(n))
  {
    hide Itoa;
    forall i: nat ensures Itoa(i) != "c" {
      ItoaIsInjective(i);
    }
  }
}
