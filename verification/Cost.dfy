/**
 Predicted time to first token of serving a request on a node, and the oracle: the
 lexicographic argmin over every node and transfer choice.
 */
module Cost {
  import opened Basics
  import opened Reals
  import Eviction
  import Blocks

  datatype Regime = WaitForHot | Transfer | Recompute

  datatype CostParams = CostParams(blockSize: nat, prefillPerToken: real, prefillFixed: real, blockKvBytes: real,
                                   bandwidth: real, linkLatency: real, interToken: real)

  predicate Positive(p: CostParams) {
    && p.blockSize > 0 && p.prefillPerToken > 0.0 && p.prefillFixed > 0.0 && p.blockKvBytes > 0.0
    && p.bandwidth > 0.0 && p.linkLatency > 0.0 && p.interToken > 0.0
  }

  const DEFAULTS := CostParams(16, 0.0002, 0.005, 800000.0, 4000000000.0, 0.0005, 0.01)

  type Params = p: CostParams | Positive(p) witness DEFAULTS

  function TransferTime(p: Params, blocks: nat): real {
    if blocks == 0 then 0.0 else Quot(Bytes(p, blocks), p.bandwidth) + p.linkLatency
  }

  /** KV state of `blocks` blocks. */
  function Bytes(p: Params, blocks: nat): real {
    Mul(blocks as real, p.blockKvBytes)
  }

  /** Compute time of `blocks` blocks, without the fixed overhead of a request. */
  function BlockTime(p: Params, blocks: nat): real {
    Mul(blocks as real, Mul(p.blockSize as real, p.prefillPerToken))
  }

  function PrefillTime(p: Params, missing: nat): real {
    BlockTime(p, missing) + p.prefillFixed
  }

  /** What a router can read off a node: its queue tail and its cache. */
  datatype NodeView = NodeView(busyUntil: real, cache: Eviction.Cache)

  datatype Placement = Placement(nodeId: nat, transfer: bool, regime: Regime, ttft: real,
                                 retainUntil: real, priority: Option<int>)

  /** A candidate: a node (by its id, which is its index) and whether to seed it from the hot node. */
  datatype Choice = Choice(node: nat, transfer: bool)

  /** One request meeting one state of the cluster. */
  datatype Query = Query(blocks: seq<int>, nodes: seq<NodeView>, now: real, params: Params)

  ghost predicate HasNodes(q: Query) {
    q.nodes != []
  }

  function WaitAt(node: NodeView, now: real): real {
    MaxReal(0.0, node.busyUntil - now)
  }

  function Local(blocks: seq<int>, node: NodeView): (m: nat)
    ensures m <= |blocks|
  {
    Blocks.Matched(blocks, Elems(node.cache.order))
  }

  /** The node with the longest cached prefix, lowest id on ties. */
  function HotNode(blocks: seq<int>, nodes: seq<NodeView>): (hot: nat)
    requires nodes != []
    ensures hot < |nodes|
    ensures forall i :: 0 <= i < |nodes| ==> Local(blocks, nodes[i]) <= Local(blocks, nodes[hot])
    ensures forall i :: 0 <= i < hot ==> Local(blocks, nodes[i]) < Local(blocks, nodes[hot])
  {
    if |nodes| == 1 then 0
    else
      var last := |nodes| - 1;
      var hot := HotNode(blocks, nodes[..last]);
      if Local(blocks, nodes[last]) > Local(blocks, nodes[hot]) then last else hot
  }

  function Hot(q: Query): (hot: nat)
    requires HasNodes(q)
    ensures hot < |q.nodes|
  {
    HotNode(q.blocks, q.nodes)
  }

  /** Blocks resident on node `i` already. */
  function Have(q: Query, i: nat): (m: nat)
    requires i < |q.nodes|
    ensures m <= |q.blocks|
  {
    Local(q.blocks, q.nodes[i])
  }

  /** Blocks copied over from the hot node. */
  function Moved(q: Query, c: Choice): nat
    requires HasNodes(q) && c.node < |q.nodes|
  {
    if c.transfer then Max(0, Have(q, Hot(q)) - Have(q, c.node)) else 0
  }

  /** Blocks resident on the chosen node once a transfer is done. */
  function Resident(q: Query, c: Choice): (m: nat)
    requires HasNodes(q) && c.node < |q.nodes|
    ensures m <= |q.blocks|
  {
    Have(q, c.node) + Moved(q, c)
  }

  function Ttft(q: Query, c: Choice): real
    requires HasNodes(q) && c.node < |q.nodes|
  {
    WaitAt(q.nodes[c.node], q.now) + TransferTime(q.params, Moved(q, c))
      + PrefillTime(q.params, |q.blocks| - Resident(q, c))
  }

  function RegimeOf(q: Query, c: Choice): Regime
    requires HasNodes(q) && c.node < |q.nodes|
  {
    if Moved(q, c) > 0 then Transfer
    else if c.node == Hot(q) && Have(q, c.node) > 0 then WaitForHot
    else Recompute
  }

  function Predict(q: Query, c: Choice): Placement
    requires HasNodes(q) && c.node < |q.nodes|
  {
    Placement(c.node, c.transfer, RegimeOf(q, c), Ttft(q, c), 0.0, None)
  }

  // ---------------------------------------------------------------------- argmin

  /** `a` sorts before `b` as `(score, node, transfer)` tuples. */
  predicate Better(score: Choice -> real, a: Choice, b: Choice) {
    score(a) < score(b) ||
    (score(a) == score(b) && (a.node < b.node || (a.node == b.node && !a.transfer && b.transfer)))
  }

  /** Candidates over the first `n` nodes: never a transfer onto the hot node. */
  function Candidates(n: nat, hot: nat, allowTransfer: bool): (cs: seq<Choice>)
    ensures n > 0 ==> cs != []
  {
    if n == 0 then []
    else
      Candidates(n - 1, hot, allowTransfer) + [Choice(n - 1, false)]
        + if allowTransfer && n - 1 != hot then [Choice(n - 1, true)] else []
  }

  lemma {:induction false} CandidatesAre(n: nat, hot: nat, allowTransfer: bool, c: Choice)
    ensures c in Candidates(n, hot, allowTransfer) <==>
            c.node < n && (c.transfer ==> allowTransfer && c.node != hot)
  {
    if n > 0 {
      CandidatesAre(n - 1, hot, allowTransfer, c);
    }
  }

  function Least(score: Choice -> real, cs: seq<Choice>): (best: Choice)
    requires cs != []
    ensures best in cs
    ensures forall c :: c in cs ==> !Better(score, c, best)
  {
    if |cs| == 1 then cs[0]
    else
      var last := cs[|cs| - 1];
      var best := Least(score, cs[..|cs| - 1]);
      ElemsSnoc(cs);
      if Better(score, last, best) then last else best
  }

  function TtftScore(q: Query): Choice -> real
    requires HasNodes(q)
  {
    (c: Choice) => if c.node < |q.nodes| then Ttft(q, c) else 0.0
  }

  /** The placement `best_placement` decides on. */
  function BestChoice(q: Query, allowTransfer: bool): (c: Choice)
    requires HasNodes(q)
    ensures c.node < |q.nodes|
  {
    var cs := Candidates(|q.nodes|, Hot(q), allowTransfer);
    var best := Least(TtftScore(q), cs);
    CandidatesAre(|q.nodes|, Hot(q), allowTransfer, best);
    best
  }

  function BestPlacement(q: Query): Placement
    requires HasNodes(q)
  {
    Predict(q, BestChoice(q, true))
  }
}

/** Comparative statics of the cost model and its argmin. */
module CostLaws {
  import opened Reals
  import opened Cost

  lemma {:induction false} PrefillGrows(p: Params, m: nat, n: nat)
    requires m <= n
    ensures PrefillTime(p, n) - PrefillTime(p, m) == BlockTime(p, n - m)
    ensures PrefillTime(p, m) <= PrefillTime(p, n)
    ensures m < n ==> PrefillTime(p, m) < PrefillTime(p, n)
  {
    var unit := Mul(p.blockSize as real, p.prefillPerToken);
    hide Mul;
    MulPositive(p.blockSize as real, p.prefillPerToken);
    MulSubtracts(unit, n as real, m as real);
    assert (n - m) as real == n as real - m as real;
    MulCompares(m as real, n as real, unit);
  }

  lemma {:induction false} TransferCosts(p: Params, blocks: nat)
    ensures TransferTime(p, blocks) >= 0.0
    ensures blocks > 0 ==> TransferTime(p, blocks) > 0.0
  {
    hide Mul, Quot;
    if blocks > 0 {
      MulPositive(blocks as real, p.blockKvBytes);
      QuotPositive(Bytes(p, blocks), p.bandwidth);
    }
  }

  /** The argmin is no worse than any choice at all, even the excluded transfer onto the hot node. */
  lemma {:induction false} OracleIsLowerBound(q: Query, c: Choice)
    requires HasNodes(q) && c.node < |q.nodes|
    ensures BestPlacement(q).ttft <= Ttft(q, c)
  {
    hide TransferTime, PrefillTime, HotNode, Local;
    var c' := if c.node == Hot(q) then Choice(c.node, false) else c;
    CandidatesAre(|q.nodes|, Hot(q), true, c');
    assert !Better(TtftScore(q), c', BestChoice(q, true));
    assert Ttft(q, c') == Ttft(q, c);
  }

  lemma {:induction false} BestIsFirst(q: Query, c: Choice)
    requires HasNodes(q) && c.node < |q.nodes| && (c.transfer ==> c.node != Hot(q))
    ensures !Better(TtftScore(q), c, BestChoice(q, true))
  {
    CandidatesAre(|q.nodes|, Hot(q), true, c);
  }

  /** A choice that every other candidate loses to is the argmin. */
  lemma {:induction false} BestIsUnique(q: Query, best: Choice)
    requires HasNodes(q) && best.node < |q.nodes| && (best.transfer ==> best.node != Hot(q))
    requires forall c: Choice :: c != best && c.node < |q.nodes| && (c.transfer ==> c.node != Hot(q)) ==>
               Better(TtftScore(q), best, c)
    ensures BestChoice(q, true) == best
  {
    var b := BestChoice(q, true);
    CandidatesAre(|q.nodes|, Hot(q), true, b);
    BestIsFirst(q, best);
  }

  /** Tie-breaking keeps the flag honest: the oracle says "transfer" exactly when blocks move. */
  lemma {:induction false} TransferFlagIsRegime(q: Query)
    requires HasNodes(q)
    ensures BestPlacement(q).transfer <==> BestPlacement(q).regime == Transfer
  {
    var b := BestChoice(q, true);
    var stay := Choice(b.node, false);
    BestIsFirst(q, stay);
    assert Moved(q, b) == 0 ==> Ttft(q, stay) == Ttft(q, b);
  }

  /** A transfer makes exactly the hot node's matched prefix resident on the target. */
  lemma TransferSeedsHotPrefix(q: Query, i: nat)
    requires HasNodes(q) && i < |q.nodes|
    ensures Resident(q, Choice(i, true)) == Have(q, Hot(q))
    ensures Resident(q, Choice(i, false)) == Have(q, i) <= Have(q, Hot(q))
  {
  }

  // -------------------------------------------------------------------- coupling

  ghost predicate Idle(q: Query) {
    forall i :: 0 <= i < |q.nodes| ==> WaitAt(q.nodes[i], q.now) == 0.0
  }

  /** With every queue empty the optimum is the hot node without a transfer. */
  lemma {:induction false} IdleOptimumIsHot(q: Query)
    requires HasNodes(q) && Idle(q)
    ensures BestChoice(q, true) == Choice(Hot(q), false)
  {
    forall c: Choice | c != Choice(Hot(q), false) && c.node < |q.nodes| && (c.transfer ==> c.node != Hot(q))
      ensures Better(TtftScore(q), Choice(Hot(q), false), c)
    {
      IdleHotBeats(q, c);
    }
    BestIsUnique(q, Choice(Hot(q), false));
  }

  lemma {:induction false} IdleHotBeats(q: Query, c: Choice)
    requires HasNodes(q) && Idle(q) && c.node < |q.nodes| && c.node != Hot(q)
    ensures Better(TtftScore(q), Choice(Hot(q), false), c)
  {
    var hot := Hot(q);
    PrefillGrows(q.params, |q.blocks| - Have(q, hot), |q.blocks| - Resident(q, c));
    TransferCosts(q.params, Moved(q, c));
    assert c.node < hot ==> Have(q, c.node) < Have(q, hot);
  }

  /** The same query with every queue emptied. */
  function Drained(q: Query): (d: Query)
    ensures d.blocks == q.blocks && d.now == q.now && d.params == q.params && |d.nodes| == |q.nodes|
    ensures forall i :: 0 <= i < |q.nodes| ==> d.nodes[i] == q.nodes[i].(busyUntil := q.now)
  {
    q.(nodes := seq(|q.nodes|, i requires 0 <= i < |q.nodes| => q.nodes[i].(busyUntil := q.now)))
  }

  function Coupled(q: Query): bool
    requires HasNodes(q)
  {
    var loaded, idle := BestChoice(q, true), BestChoice(Drained(q), true);
    loaded != idle
  }

  lemma {:induction false} SameHot(blocks: seq<int>, nodes: seq<NodeView>, nodes': seq<NodeView>)
    requires nodes != [] && |nodes'| == |nodes|
    requires forall i :: 0 <= i < |nodes| ==> nodes[i].cache == nodes'[i].cache
    ensures HotNode(blocks, nodes) == HotNode(blocks, nodes')
  {
    assert forall i :: 0 <= i < |nodes| ==> Local(blocks, nodes[i]) == Local(blocks, nodes'[i]);
    HotIsUnique(blocks, nodes', HotNode(blocks, nodes));
  }

  lemma HotIsUnique(blocks: seq<int>, nodes: seq<NodeView>, hot: nat)
    requires hot < |nodes|
    requires forall i :: 0 <= i < |nodes| ==> Local(blocks, nodes[i]) <= Local(blocks, nodes[hot])
    requires forall i :: 0 <= i < hot ==> Local(blocks, nodes[i]) < Local(blocks, nodes[hot])
    ensures HotNode(blocks, nodes) == hot
  {
  }

  /** Closed form of the probe: a request is coupled exactly when load drives the oracle off the hot node. */
  lemma {:induction false} CoupledIsOffTheHotNode(q: Query)
    requires HasNodes(q)
    ensures Coupled(q) <==> BestChoice(q, true) != Choice(Hot(q), false)
  {
    SameHot(q.blocks, q.nodes, Drained(q).nodes);
    IdleOptimumIsHot(Drained(q));
  }

  /** If pure affinity loses time to the oracle, the request was coupled. */
  lemma {:induction false} AffinityRegretMeansCoupled(q: Query)
    requires HasNodes(q) && Ttft(q, Choice(Hot(q), false)) > BestPlacement(q).ttft
    ensures Coupled(q)
  {
    CoupledIsOffTheHotNode(q);
  }

  // ------------------------------------------------------------------- bandwidth

  function Slower(q: Query, bandwidth: real): (q': Query)
    requires 0.0 < bandwidth
    ensures HasNodes(q) ==> HasNodes(q') && Hot(q') == Hot(q)
  {
    Query(q.blocks, q.nodes, q.now, q.params.(bandwidth := bandwidth))
  }

  lemma {:induction false} SlowerLinkCostsMore(q: Query, bandwidth: real, c: Choice)
    requires HasNodes(q) && 0.0 < bandwidth <= q.params.bandwidth && c.node < |q.nodes|
    ensures Ttft(Slower(q, bandwidth), c) >= Ttft(q, c)
    ensures !c.transfer ==> Ttft(Slower(q, bandwidth), c) == Ttft(q, c)
  {
    hide TransferTime, PrefillTime, HotNode;
    var s := Slower(q, bandwidth);
    assert Moved(s, c) == Moved(q, c) && Resident(s, c) == Resident(q, c);
    SlowerTransfer(q.params, bandwidth, Moved(q, c));
    SamePrefill(q.params, bandwidth, |q.blocks| - Resident(q, c));
  }

  lemma SamePrefill(p: Params, bandwidth: real, missing: nat)
    requires 0.0 < bandwidth
    ensures PrefillTime(p.(bandwidth := bandwidth), missing) == PrefillTime(p, missing)
  {
  }

  lemma {:induction false} SlowerTransfer(p: Params, bandwidth: real, blocks: nat)
    requires 0.0 < bandwidth <= p.bandwidth
    ensures TransferTime(p.(bandwidth := bandwidth), blocks) >= TransferTime(p, blocks)
    ensures blocks == 0 ==> TransferTime(p.(bandwidth := bandwidth), blocks) == TransferTime(p, blocks)
  {
    hide Mul, Quot;
    assert Bytes(p.(bandwidth := bandwidth), blocks) == Bytes(p, blocks);
    MulNonNegative(blocks as real, p.blockKvBytes);
    QuotFalls(Bytes(p, blocks), bandwidth, p.bandwidth);
  }

  /** If the oracle does not transfer, it decides the very same at every lower bandwidth. */
  lemma {:induction false} NoTransferIsStable(q: Query, bandwidth: real)
    requires HasNodes(q) && 0.0 < bandwidth <= q.params.bandwidth
    requires !BestPlacement(q).transfer
    ensures BestPlacement(Slower(q, bandwidth)) == BestPlacement(q)
  {
    var s, b := Slower(q, bandwidth), BestChoice(q, true);
    CandidatesAre(|q.nodes|, Hot(q), true, b);
    SlowerLinkCostsMore(q, bandwidth, b);
    forall c: Choice | c != b && c.node < |s.nodes| && (c.transfer ==> c.node != Hot(s))
      ensures Better(TtftScore(s), b, c)
    {
      BestIsFirst(q, c);
      SlowerLinkCostsMore(q, bandwidth, c);
    }
    BestIsUnique(s, b);
  }

  /** More bandwidth never makes the oracle slower. */
  lemma {:induction false} OracleFallsWithBandwidth(q: Query, bandwidth: real)
    requires HasNodes(q) && 0.0 < bandwidth <= q.params.bandwidth
    ensures BestPlacement(q).ttft <= BestPlacement(Slower(q, bandwidth)).ttft
  {
    var c := BestChoice(Slower(q, bandwidth), true);
    SlowerLinkCostsMore(q, bandwidth, c);
    OracleIsLowerBound(q, c);
  }
}
