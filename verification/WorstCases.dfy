/** Cluster states on which class-aware routing loses exactly as much as it can. */
module WorstCases {
  import opened Reals
  import opened Cost
  import opened CostLaws
  import opened Policies
  import opened RegretLaws

  /** A queue of `x` nominal service times is seen as the rounded number of them. */
  lemma {:induction false} CoarseOf(q: Query, i: nat, x: real)
    requires i < |q.nodes| && WaitAt(q.nodes[i], q.now) == Mul(x, NominalService(q.params))
    ensures Coarse(q, i) == Mul(Round(x) as real, NominalService(q.params))
  {
    assert NominalService(q.params) > 0.0;
    hide Mul, Quot, Round, NominalService;
    QuotIs(WaitAt(q.nodes[i], q.now), NominalService(q.params), x);
  }

  /**
   Two nodes whose queues look better, or more alike, than they are, when both hold
   the whole prefix; for a one-shot only the second node holds it.
   */
  ghost predicate IsWorstCase(kind: Class, q: Query) {
    var n := NominalService(q.params);
    && |q.nodes| == 2 && Have(q, 1) == |q.blocks| && Have(q, 0) == (if kind == Oneshot then 0 else |q.blocks|)
    && WaitAt(q.nodes[0], q.now) == Mul(if kind == Rag then 8.5 else 2.5, n)
    && WaitAt(q.nodes[1], q.now) == Mul(if kind == Rag then 0.0 else 1.5, n)
    && (kind == Rag ==> q.blocks != [])
  }

  /** Both queues look alike, or the first one looks open. */
  lemma {:induction false} WorstCaseQueues(kind: Class, q: Query)
    requires IsWorstCase(kind, q)
    ensures if kind == Rag then Coarse(q, 0) == Mul(8.0, NominalService(q.params)) else Coarse(q, 0) == Coarse(q, 1)
  {
    hide Mul, NominalService, Have;
    CoarseOf(q, 0, if kind == Rag then 8.5 else 2.5);
    CoarseOf(q, 1, if kind == Rag then 0.0 else 1.5);
  }

  /** Of two nodes the hot one is the second only if it holds more. */
  lemma {:induction false} HotOfTwo(q: Query)
    requires |q.nodes| == 2
    ensures Hot(q) == if Have(q, 0) >= Have(q, 1) then 0 else 1
  {
    assert q.nodes[..1] == [q.nodes[0]];
  }

  lemma {:induction false} AlikeMeansFirst(q: Query)
    requires |q.nodes| == 2 && Have(q, 0) == Have(q, 1) && Coarse(q, 0) == Coarse(q, 1)
    ensures TransferAwareChoice(q) == Choice(0, false)
  {
    HotOfTwo(q);
    var t := TransferAwareChoice(q);
    CandidatesAre(2, 0, true, Choice(0, false));
    CandidatesAre(2, 0, true, t);
    assert !Better(ApproxScore(q), Choice(0, false), t);
    hide Coarse, WaitAt, PrefillTime, TransferTime, HotNode, Local;
    assert Moved(q, t) == 0;
  }

  lemma {:induction false} LeastOfTwo(q: Query)
    requires |q.nodes| == 2
    ensures LeastLoaded(q) == if Coarse(q, 0) <= Coarse(q, 1) then 0 else 1
  {
    hide Coarse, HotNode;
    CandidatesAre(2, Hot(q), false, Choice(0, false));
    CandidatesAre(2, Hot(q), false, Choice(1, false));
    var best := Least(WaitScore(q), Candidates(2, Hot(q), false));
    CandidatesAre(2, Hot(q), false, best);
    assert !Better(WaitScore(q), Choice(0, false), best);
    assert !Better(WaitScore(q), Choice(1, false), best);
  }

  /** In the worst case every class goes to the first node. */
  lemma {:induction false} WorstCaseMisroutes(kind: Class, q: Query)
    requires IsWorstCase(kind, q)
    ensures ClassAwareChoice(kind, q) == Choice(0, false)
  {
    WorstCaseQueues(kind, q);
    HotOfTwo(q);
    hide Coarse, WaitAt, Have, Hot, NominalService, TransferAwareChoice, LeastLoaded, Mul;
    if kind == Tool {
      AlikeMeansFirst(q);
    } else if kind == Oneshot {
      LeastOfTwo(q);
    }
  }

  /** The first node's time above the second's, when neither is seeded. */
  lemma {:induction false} StayingApart(q: Query)
    requires |q.nodes| == 2 && Have(q, 1) == |q.blocks|
    ensures Ttft(q, Choice(0, false)) - Ttft(q, Choice(1, false)) ==
            WaitAt(q.nodes[0], q.now) - WaitAt(q.nodes[1], q.now) + BlockTime(q.params, |q.blocks| - Have(q, 0))
  {
    PrefillGrows(q.params, 0, |q.blocks| - Have(q, 0));
    hide PrefillTime, WaitAt, Have;
  }

  lemma NoBlocksNoTime(p: Params)
    ensures BlockTime(p, 0) == 0.0
  {
  }

  lemma {:induction false} WorstCaseLoss(kind: Class, q: Query)
    requires IsWorstCase(kind, q)
    ensures Ttft(q, Choice(0, false)) - Ttft(q, Choice(1, false)) == WorstRegret(kind, q)
  {
    HotOfTwo(q);
    WorstCaseQueues(kind, q);
    StayingApart(q);
    NoBlocksNoTime(q.params);
    HalfUnits(NominalService(q.params));
    MulUnits(NominalService(q.params));
    hide Mul, Have, Hot, WaitAt, Coarse, NominalService, Ttft, BlockTime;
  }

  /** There class-aware routing loses exactly its bound. */
  lemma {:induction false} WorstCaseAttains(kind: Class, q: Query)
    requires IsWorstCase(kind, q)
    ensures Regret(q, ClassAwareChoice(kind, q)) == WorstRegret(kind, q)
  {
    hide Ttft, BestPlacement, ClassAwareChoice, WorstRegret, Have, WaitAt, NominalService, Mul;
    WorstCaseMisroutes(kind, q);
    WorstCaseLoss(kind, q);
    ClassAwareRegret(kind, q);
    OracleIsLowerBound(q, Choice(1, false));
  }
}
