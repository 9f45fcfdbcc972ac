/** Routing policies as functions of what a router may see, and the loop of `transfer_aware`. */
module Policies {
  import opened Basics
  import opened Reals
  import opened Cost

  /** A request as the router sees it; there is no ground-truth class in it. */
  datatype RequestView = RequestView(blocks: seq<int>, promptTokens: nat, numMessages: nat, hasToolMessages: bool,
                                     lastMessageTokens: nat, conversationId: Option<int>, lastToolName: Option<string>)

  datatype Class = Tool | Rag | Oneshot

  const RAG_USER_TOKENS: nat := 128
  const SATURATION_DEPTH: nat := 8

  function Classify(req: RequestView): (kind: Class)
    ensures kind == Oneshot <==> !req.hasToolMessages && req.numMessages <= 1
    ensures kind == Rag <==> !req.hasToolMessages && req.numMessages > 1 && req.lastMessageTokens >= 128
  {
    if req.hasToolMessages then Tool
    else if req.numMessages <= 1 then Oneshot
    else if req.lastMessageTokens >= RAG_USER_TOKENS then Rag
    else Tool
  }

  function NominalService(p: Params): real {
    p.prefillFixed + p.interToken * 40.0
  }

  /** Python's `round`: to the nearest integer, ties to even. */
  function Round(x: real): int {
    var f := x.Floor;
    if x - f as real < 0.5 then f
    else if x - f as real > 0.5 then f + 1
    else if f % 2 == 0 then f else f + 1
  }

  function QuantizedWait(node: NodeView, now: real, p: Params): real {
    var nominal, exact := NominalService(p), WaitAt(node, now);
    if nominal > 0.0 then Mul(Round(Quot(exact, nominal)) as real, nominal) else exact
  }

  function Coarse(q: Query, i: nat): real
    requires i < |q.nodes|
  {
    QuantizedWait(q.nodes[i], q.now, q.params)
  }

  // -------------------------------------------------------------- transfer aware

  function ApproxScore(q: Query): Choice -> real
    requires HasNodes(q)
  {
    (c: Choice) =>
      if c.node < |q.nodes| then Ttft(q, c) - WaitAt(q.nodes[c.node], q.now) + Coarse(q, c.node) else 0.0
  }

  function TransferAwareChoice(q: Query): (c: Choice)
    requires HasNodes(q)
    ensures c.node < |q.nodes|
  {
    var cs := Candidates(|q.nodes|, Hot(q), true);
    CandidatesAre(|q.nodes|, Hot(q), true, Least(ApproxScore(q), cs));
    Least(ApproxScore(q), cs)
  }

  function Scored(q: Query, c: Choice): Placement
    requires HasNodes(q) && c.node < |q.nodes|
  {
    Predict(q, c).(ttft := ApproxScore(q)(c))
  }

  /** What the double loop has tried: all of the first `n` nodes, and `k` flags of the next. */
  ghost function Tried(n: nat, hot: nat, k: nat): seq<Choice> {
    if k == 0 then Candidates(n, hot, true)
    else Tried(n, hot, k - 1) + (if k == 2 && n == hot then [] else [Choice(n, k == 2)])
  }

  lemma {:induction false} TriedBoth(n: nat, hot: nat)
    ensures Tried(n, hot, 2) == Candidates(n + 1, hot, true)
  {
    assert Tried(n, hot, 1) == Candidates(n, hot, true) + [Choice(n, false)];
  }

  method TransferAware(q: Query) returns (best: Placement)
    requires HasNodes(q)
    ensures best == Scored(q, TransferAwareChoice(q))
  {
    hide Ttft, Coarse, Candidates, HotNode, Least, BestSoFar;
    var hot := Hot(q);
    var found: Option<Placement> := None;
    NothingTried(q, hot);
    for i := 0 to |q.nodes|
      invariant BestSoFar(q, Tried(i, hot, 0), found)
    {
      for k := 0 to 2
        invariant BestSoFar(q, Tried(i, hot, k), found)
      {
        var transfer := k == 1;
        if transfer && i == hot {
          assert Tried(i, hot, k + 1) == Tried(i, hot, k);
          continue;
        }
        var p := Predict(q, Choice(i, transfer));
        var approx := p.ttft - WaitAt(q.nodes[i], q.now) + Coarse(q, i);
        var scored := Placement(p.nodeId, p.transfer, p.regime, approx, 0.0, None);
        ConsiderOne(q, Tried(i, hot, k), found, Choice(i, transfer));
        assert Tried(i, hot, k + 1) == Tried(i, hot, k) + [Choice(i, transfer)];
        if found.None? || PlacementLess(scored, found.value) {
          found := Some(scored);
        }
      }
      TriedBoth(i, hot);
    }
    AllTried(q, found);
    best := found.value;
  }

  lemma NothingTried(q: Query, hot: nat)
    requires HasNodes(q)
    ensures BestSoFar(q, Tried(0, hot, 0), None)
  {
  }

  lemma AllTried(q: Query, found: Option<Placement>)
    requires HasNodes(q) && BestSoFar(q, Candidates(|q.nodes|, Hot(q), true), found)
    ensures found == Some(Scored(q, TransferAwareChoice(q)))
  {
  }

  /** Comparison of `(ttft, node_id, transfer)` tuples. */
  predicate PlacementLess(a: Placement, b: Placement) {
    a.ttft < b.ttft ||
    (a.ttft == b.ttft && (a.nodeId < b.nodeId || (a.nodeId == b.nodeId && !a.transfer && b.transfer)))
  }

  ghost predicate BestSoFar(q: Query, seen: seq<Choice>, found: Option<Placement>)
    requires HasNodes(q)
  {
    if seen == [] then found == None
    else
      var c := Least(ApproxScore(q), seen);
      c.node < |q.nodes| && found == Some(Scored(q, c))
  }

  lemma {:induction false} ConsiderOne(q: Query, seen: seq<Choice>, found: Option<Placement>, c: Choice)
    requires HasNodes(q) && c.node < |q.nodes| && BestSoFar(q, seen, found)
    ensures BestSoFar(q, seen + [c],
                      if found.None? || PlacementLess(Scored(q, c), found.value) then Some(Scored(q, c)) else found)
  {
    hide Ttft, Coarse, RegimeOf, WaitAt, HotNode, Better;
    LeastSnoc(ApproxScore(q), seen, c);
    if seen != [] {
      ScoredOrder(q, c, Least(ApproxScore(q), seen));
    }
  }

  lemma {:induction false} LeastSnoc(score: Choice -> real, seen: seq<Choice>, c: Choice)
    ensures Least(score, seen + [c]) ==
            if seen == [] then c else if Better(score, c, Least(score, seen)) then c else Least(score, seen)
  {
    assert (seen + [c])[..|seen|] == seen;
    hide Better;
  }

  /** Comparing the scored placements is comparing the choices. */
  lemma {:induction false} ScoredOrder(q: Query, a: Choice, b: Choice)
    requires HasNodes(q) && a.node < |q.nodes| && b.node < |q.nodes|
    ensures PlacementLess(Scored(q, a), Scored(q, b)) <==> Better(ApproxScore(q), a, b)
  {
    hide Ttft, Coarse, RegimeOf, WaitAt, HotNode;
  }

  // ---------------------------------------------------------------- class aware

  function WaitScore(q: Query): Choice -> real {
    (c: Choice) => if c.node < |q.nodes| then Coarse(q, c.node) else 0.0
  }

  /** The node of least coarse queue, lowest id on ties. */
  function LeastLoaded(q: Query): (i: nat)
    requires HasNodes(q)
    ensures i < |q.nodes|
  {
    var best := Least(WaitScore(q), Candidates(|q.nodes|, Hot(q), false));
    CandidatesAre(|q.nodes|, Hot(q), false, best);
    best.node
  }

  predicate FollowsDocument(q: Query)
    requires HasNodes(q)
  {
    Have(q, Hot(q)) > 0 && Coarse(q, Hot(q)) <= Mul(SATURATION_DEPTH as real, NominalService(q.params))
  }

  function ClassAwareChoice(kind: Class, q: Query): (c: Choice)
    requires HasNodes(q)
    ensures c.node < |q.nodes|
  {
    if kind == Oneshot then Choice(LeastLoaded(q), false)
    else if kind == Rag && FollowsDocument(q) then Choice(Hot(q), false)
    else TransferAwareChoice(q)
  }
}

/** Worst-case regret of routing on coarse load signals. */
module RegretLaws {
  import opened Basics
  import opened Reals
  import opened Cost
  import opened CostLaws
  import opened Policies

  /** True time to first token of a choice above the oracle's on the same state. */
  function Regret(q: Query, c: Choice): real
    requires HasNodes(q) && c.node < |q.nodes|
  {
    Ttft(q, c) - BestPlacement(q).ttft
  }

  /** Regret is never negative, so clamping it at zero never acts; the oracle's is exactly zero. */
  lemma {:induction false} RegretIsNonNegative(q: Query, c: Choice)
    requires HasNodes(q) && c.node < |q.nodes|
    ensures Regret(q, c) >= 0.0
    ensures Regret(q, BestChoice(q, true)) == 0.0
  {
    OracleIsLowerBound(q, c);
  }

  /** The nearest integer and, half way between two, the even one. */
  lemma RoundIsNear(x: real)
    ensures -0.5 <= Round(x) as real - x <= 0.5
    ensures Round(x) as real - x == 0.5 || Round(x) as real - x == -0.5 ==> Round(x) % 2 == 0
  {
  }

  lemma {:induction false} CoarseIsNear(q: Query, i: nat)
    requires i < |q.nodes|
    ensures -0.5 * NominalService(q.params) <= Coarse(q, i) - WaitAt(q.nodes[i],
            q.now) <= 0.5 * NominalService(q.params)
  {
    assert NominalService(q.params) > 0.0;
    hide NominalService, Mul, Quot;
    QuantizationError(WaitAt(q.nodes[i], q.now), NominalService(q.params));
  }

  lemma {:induction false} QuantizationError(x: real, n: real)
    requires n > 0.0
    ensures -0.5 * n <= Mul(Round(Quot(x, n)) as real, n) - x <= 0.5 * n
  {
    HalfUnits(n);
    hide Mul, Quot, Round;
    var r, k := Quot(x, n), Round(Quot(x, n)) as real;
    RoundIsNear(r);
    QuotInverts(x, n);
    MulSubtracts(n, k, r);
    MulCompares(k - r, 0.5, n);
    MulCompares(-0.5, k - r, n);
  }

  /** The constant multiples that rounding and saturation bring in. */
  lemma HalfUnits(n: real)
    ensures Mul(0.5, n) == 0.5 * n && Mul(-0.5, n) == -0.5 * n
    ensures Mul(1.5, n) == 1.5 * n && Mul(2.0, n) == 2.0 * n && Mul(2.5, n) == 2.5 * n
    ensures Mul(8.0, n) == 8.0 * n && Mul(8.5, n) == 8.5 * n
  {
  }

  lemma {:induction false} TransferAwareRegret(q: Query)
    requires HasNodes(q)
    ensures Regret(q, TransferAwareChoice(q)) <= NominalService(q.params)
  {
    var c, best := TransferAwareChoice(q), BestChoice(q, true);
    CandidatesAre(|q.nodes|, Hot(q), true, best);
    assert !Better(ApproxScore(q), best, c);
    CoarseIsNear(q, c.node);
    CoarseIsNear(q, best.node);
  }

  /** No choice beats its own queue plus prefilling what even the hot node lacks. */
  lemma {:induction false} HotPrefixIsTheFloor(q: Query, c: Choice)
    requires HasNodes(q) && c.node < |q.nodes|
    ensures Ttft(q, c) >= WaitAt(q.nodes[c.node], q.now) + PrefillTime(q.params, |q.blocks| - Have(q, Hot(q)))
  {
    TransferSeedsHotPrefix(q, c.node);
    TransferCosts(q.params, Moved(q, c));
    PrefillGrows(q.params, |q.blocks| - Have(q, Hot(q)), |q.blocks| - Resident(q, c));
  }

  lemma {:induction false} OneshotRegret(q: Query)
    requires HasNodes(q)
    ensures Regret(q, Choice(LeastLoaded(q), false)) <=
            NominalService(q.params) + BlockTime(q.params, Have(q, Hot(q)))
  {
    hide Ttft, Coarse, LeastLoaded, BestChoice, HotNode, Local, PrefillTime;
    var i, best := LeastLoaded(q), BestChoice(q, true);
    LeastLoadedIsLeast(q, best.node);
    CoarseIsNear(q, i);
    CoarseIsNear(q, best.node);
    HotPrefixIsTheFloor(q, best);
    StayingCost(q, i);
  }

  /** Serving on a node without a transfer costs its queue and at most the hot prefix on top of the floor. */
  lemma {:induction false} StayingCost(q: Query, i: nat)
    requires HasNodes(q) && i < |q.nodes|
    ensures Ttft(q, Choice(i, false)) <=
            WaitAt(q.nodes[i], q.now) + PrefillTime(q.params, |q.blocks| - Have(q, Hot(q)))
              + BlockTime(q.params, Have(q, Hot(q)))
  {
    hide HotNode, Local;
    var total, hot, have := |q.blocks|, Have(q, Hot(q)), Have(q, i);
    TransferSeedsHotPrefix(q, i);
    PrefillGrows(q.params, total - hot, total - have);
    MoreBlocks(q.params, hot - have, hot);
  }

  lemma {:induction false} MoreBlocks(p: Params, m: nat, n: nat)
    requires m <= n
    ensures 0.0 <= BlockTime(p, m) <= BlockTime(p, n)
  {
    PrefillGrows(p, m, n);
    PrefillGrows(p, 0, m);
  }

  lemma {:induction false} LeastLoadedIsLeast(q: Query, i: nat)
    requires HasNodes(q) && i < |q.nodes|
    ensures Coarse(q, LeastLoaded(q)) <= Coarse(q, i)
  {
    CandidatesAre(|q.nodes|, Hot(q), false, Choice(i, false));
    var best := Least(WaitScore(q), Candidates(|q.nodes|, Hot(q), false));
    assert !Better(WaitScore(q), Choice(i, false), best);
  }

  lemma {:induction false} DocumentRegret(q: Query)
    requires HasNodes(q) && FollowsDocument(q)
    ensures Regret(q, Choice(Hot(q), false)) <= 8.5 * NominalService(q.params)
  {
    var best := BestChoice(q, true);
    CoarseIsNear(q, Hot(q));
    HotPrefixIsTheFloor(q, best);
    HalfUnits(NominalService(q.params));
    hide Mul;
  }

  /**
   The most a class-aware request can lose, in nominal services: one; eight and a half if it is a document whose hot
   node holds something and is not saturated; one and the hot prefix if it is a one-shot.
   */
  function WorstRegret(kind: Class, q: Query): real
    requires HasNodes(q)
  {
    match kind
    case Tool => NominalService(q.params)
    case Rag =>
      if Have(q, Hot(q)) > 0 && Coarse(q, Hot(q)) <= 8.0 * NominalService(q.params) then 8.5 * NominalService(q.params)
      else NominalService(q.params)
    case Oneshot => NominalService(q.params) + BlockTime(q.params, Have(q, Hot(q)))
  }

  /** The bounds per inferred class. */
  lemma {:induction false} ClassAwareRegret(kind: Class, q: Query)
    requires HasNodes(q)
    ensures Regret(q, ClassAwareChoice(kind, q)) <= WorstRegret(kind, q)
  {
    HalfUnits(NominalService(q.params));
    hide Mul;
    if kind == Oneshot {
      OneshotRegret(q);
    } else if kind == Rag && FollowsDocument(q) {
      DocumentRegret(q);
    } else {
      TransferAwareRegret(q);
      assert NominalService(q.params) > 0.0;
    }
  }
}
