/** What each class of request is routed to, in seconds and node ids. */
module ClassChoices {
  import opened Basics
  import opened Reals
  import opened Cost
  import opened Policies
  import opened RegretLaws
  import opened Prices
  import Reliability

  /** `coarse` is `k` units, as near to `exact` as a number of units can be, and an even one half way. */
  ghost predicate IsNearest(coarse: real, exact: real, unit: real, k: int) {
    && coarse == k as real * unit
    && -0.5 * unit <= coarse - exact <= 0.5 * unit
    && (coarse - exact == 0.5 * unit || coarse - exact == -0.5 * unit ==> k % 2 == 0)
  }

  /** What the coarse signal is: the queue in whole nominal services of forty tokens, to the nearest, ties to even. */
  lemma {:induction false} CoarseInFull(q: Query, i: nat)
    requires i < |q.nodes|
    ensures var unit, exact := q.params.prefillFixed + 40.0 * q.params.interToken, Queueing(q.nodes[i], q.now);
            exists k: int :: IsNearest(Coarse(q, i), exact, unit, k)
  {
    var exact, unit := WaitAt(q.nodes[i], q.now), NominalService(q.params);
    CoarseIsRounded(q, i);
    NearestMultiple(exact, unit);
    assert exact == Queueing(q.nodes[i], q.now);
    hide Mul, Quot, Round, Queueing, WaitAt, IsNearest, Coarse;
  }

  lemma {:induction false} CoarseIsRounded(q: Query, i: nat)
    requires i < |q.nodes|
    ensures NominalService(q.params) == q.params.prefillFixed + 40.0 * q.params.interToken > 0.0
    ensures Coarse(q, i) ==
            Mul(Round(Quot(WaitAt(q.nodes[i], q.now), NominalService(q.params))) as real, NominalService(q.params))
  {
    assert NominalService(q.params) > 0.0;
    hide Mul, Quot, Round, WaitAt;
  }

  lemma {:induction false} NearestMultiple(x: real, n: real)
    requires n > 0.0
    ensures IsNearest(Mul(Round(Quot(x, n)) as real, n), x, n, Round(Quot(x, n)))
  {
    HalfUnits(n);
    QuantizationError(x, n);
    Multiple(Round(Quot(x, n)), n);
    hide Mul, Quot, Round;
    var r, k := Quot(x, n), Round(Quot(x, n)) as real;
    RoundIsNear(r);
    QuotInverts(x, n);
    MulSubtracts(n, k, r);
    MulCompares(k - r, 0.5, n);
    MulCompares(0.5, k - r, n);
    MulCompares(-0.5, k - r, n);
    MulCompares(k - r, -0.5, n);
  }

  lemma Multiple(k: int, n: real)
    ensures Mul(k as real, n) == k as real * n
  {
  }

  /** Seconds to the first token if the queue of the node is taken to be its coarse one. */
  ghost function CoarseTtft(q: Query, c: Choice): real
    requires HasNodes(q) && c.node < |q.nodes|
  {
    Ttft(q, c) - Queueing(q.nodes[c.node], q.now) + Coarse(q, c.node)
  }

  /** `best` has the least coarse time, then the lowest node id, then no transfer. */
  ghost predicate CoarselyBest(q: Query, best: Choice)
    requires HasNodes(q)
  {
    && best.node < |q.nodes| && (best.transfer ==> best.node != Hot(q))
    && forall c: Choice :: c.node < |q.nodes| && (c.transfer ==> c.node != Hot(q)) && c != best ==>
         || CoarseTtft(q, best) < CoarseTtft(q, c)
         || (CoarseTtft(q, best) == CoarseTtft(q, c) &&
             (best.node < c.node || (best.node == c.node && !best.transfer && c.transfer)))
  }

  lemma {:induction false} TransferAwareIsBest(q: Query)
    requires HasNodes(q)
    ensures CoarselyBest(q, TransferAwareChoice(q))
    ensures Scored(q, TransferAwareChoice(q)).ttft == CoarseTtft(q, TransferAwareChoice(q))
  {
    hide Ttft, HotNode, Local, Coarse;
    var best := TransferAwareChoice(q);
    CandidatesAre(|q.nodes|, Hot(q), true, best);
    forall c: Choice | c.node < |q.nodes| && (c.transfer ==> c.node != Hot(q)) && c != best
      ensures || CoarseTtft(q, best) < CoarseTtft(q, c)
              || (CoarseTtft(q, best) == CoarseTtft(q, c) &&
                  (best.node < c.node || (best.node == c.node && !best.transfer && c.transfer)))
    {
      CandidatesAre(|q.nodes|, Hot(q), true, c);
      assert !Better(ApproxScore(q), c, best);
    }
  }

  /** A tool turn always goes to the coarse optimum. */
  lemma {:induction false} ToolChoice(q: Query)
    requires HasNodes(q)
    ensures CoarselyBest(q, ClassAwareChoice(Tool, q))
    ensures Regret(q, ClassAwareChoice(Tool, q)) <= q.params.prefillFixed + 40.0 * q.params.interToken
  {
    hide CoarselyBest, Regret;
    TransferAwareIsBest(q);
    TransferAwareRegret(q);
  }

  /** A one-shot goes to the shortest coarse queue, the lowest id on ties, wherever its prefix is. */
  lemma {:induction false} OneshotChoice(q: Query, i: nat)
    requires HasNodes(q) && i < |q.nodes|
    ensures var best := ClassAwareChoice(Oneshot, q);
            && !best.transfer
            && (Coarse(q, best.node) < Coarse(q, i) || (Coarse(q, best.node) == Coarse(q, i) && best.node <= i))
  {
    hide Coarse, HotNode;
    CandidatesAre(|q.nodes|, Hot(q), false, Choice(i, false));
    var best := Least(WaitScore(q), Candidates(|q.nodes|, Hot(q), false));
    CandidatesAre(|q.nodes|, Hot(q), false, best);
    assert !Better(WaitScore(q), Choice(i, false), best);
  }

  /**
   A document follows its prefix exactly when some node holds part of it and the coarse queue
   there is within eight nominal services; cold or saturated, it goes to the coarse optimum
   and loses one nominal service at most.
   */
  lemma {:induction false} DocumentChoice(q: Query)
    requires HasNodes(q)
    ensures var unit, hot := q.params.prefillFixed + 40.0 * q.params.interToken, Hot(q);
            if Have(q, hot) > 0 && Coarse(q, hot) <= 8.0 * unit then
              && ClassAwareChoice(Rag, q) == Choice(hot, false)
              && Regret(q, ClassAwareChoice(Rag, q)) <= 8.5 * unit
            else
              && CoarselyBest(q, ClassAwareChoice(Rag, q))
              && Regret(q, ClassAwareChoice(Rag, q)) <= unit
  {
    TransferAwareIsBest(q);
    TransferAwareRegret(q);
    HalfUnits(NominalService(q.params));
    hide CoarselyBest, Regret, Mul, Coarse, HotNode;
    if FollowsDocument(q) {
      DocumentRegret(q);
    }
  }

  /**
   The placement handed back: the choice of its class, no directive, and the time it was chosen by,
   which is the true one for one-shots and followed documents and the coarse one otherwise.
   */
  lemma {:induction false} PlacementInFull(kind: Class, q: Query)
    requires HasNodes(q)
    ensures var p, c, hot := Reliability.ClassAwarePlacement(kind, q), ClassAwareChoice(kind, q), Hot(q);
            var limit := 8.0 * (q.params.prefillFixed + 40.0 * q.params.interToken);
            && p.nodeId == c.node && p.transfer == c.transfer && p.retainUntil == 0.0 && p.priority == None
            && p.ttft == if kind == Oneshot || (kind == Rag && Have(q, hot) > 0 && Coarse(q, hot) <= limit)
                         then Ttft(q, c) else CoarseTtft(q, c)
  {
    HalfUnits(NominalService(q.params));
    hide Ttft, Coarse, RegimeOf, HotNode, Local, Mul, LeastLoaded, TransferAwareChoice;
  }
}
