/** What every placement costs in seconds, and where the oracle breaks even. */
module Prices {
  import opened Basics
  import opened Reals
  import opened Cost
  import opened CostLaws

  /** Seconds until the node is free. */
  ghost function Queueing(n: NodeView, now: real): real {
    if n.busyUntil > now then n.busyUntil - now else 0.0
  }

  /** Seconds to copy the key-value state of `m` blocks. */
  ghost function CopySeconds(p: Params, m: nat): real {
    m as real * p.blockKvBytes / p.bandwidth + p.linkLatency
  }

  /** Seconds to compute `m` blocks. */
  ghost function ComputeSeconds(p: Params, m: nat): real {
    m as real * (p.blockSize as real * p.prefillPerToken)
  }

  /**
   The time to first token in full: the queue, the copied blocks over the link, the blocks
   that neither the node nor the copy has, and the fixed cost of a request.
   */
  lemma {:induction false} TimeInFull(q: Query, c: Choice)
    requires HasNodes(q) && c.node < |q.nodes|
    ensures var have, hot := Have(q, c.node), Have(q, Hot(q));
            var moved := if c.transfer && have < hot then hot - have else 0;
            && have + moved <= |q.blocks|
            && Ttft(q, c) == Queueing(q.nodes[c.node], q.now)
                             + (if moved == 0 then 0.0 else CopySeconds(q.params, moved))
                             + ComputeSeconds(q.params, |q.blocks| - have - moved) + q.params.prefillFixed
  {
    hide HotNode, Local;
  }

  /** On a cluster that holds nothing of a request, an idle node computes all of it. */
  lemma {:induction false} ColdTime(q: Query, c: Choice)
    requires HasNodes(q) && c.node < |q.nodes| && q.nodes[c.node].busyUntil <= q.now
    requires forall i :: 0 <= i < |q.nodes| ==> Have(q, i) == 0
    ensures Ttft(q, c) ==
            |q.blocks| as real * (q.params.blockSize as real * q.params.prefillPerToken) + q.params.prefillFixed
    ensures BestPlacement(q).ttft == Ttft(q, c)
  {
    hide HotNode, Local;
    TimeInFull(q, c);
    OracleIsLowerBound(q, c);
    TimeInFull(q, BestChoice(q, true));
    ComputeGrows(q.params, 0, |q.blocks|);
  }

  lemma {:induction false} ComputeGrows(p: Params, m: nat, n: nat)
    requires m <= n
    ensures ComputeSeconds(p, n) == ComputeSeconds(p, m) + ComputeSeconds(p, n - m)
  {
    var unit := p.blockSize as real * p.prefillPerToken;
    MulSubtracts(unit, n as real, m as real);
    assert (n - m) as real == n as real - m as real;
  }

  /** The oracle in full: the least time, then the lowest node id, then no transfer. */
  lemma {:induction false} OracleOrder(q: Query, c: Choice)
    requires HasNodes(q) && c.node < |q.nodes| && (c.transfer ==> c.node != Hot(q))
    ensures var best := BestChoice(q, true);
            && (best.transfer ==> best.node != Hot(q))
            && (c != best ==>
                  || Ttft(q, best) < Ttft(q, c)
                  || (Ttft(q, best) == Ttft(q, c) &&
                      (best.node < c.node || (best.node == c.node && !best.transfer && c.transfer))))
  {
    hide Ttft, HotNode, Local;
    CandidatesAre(|q.nodes|, Hot(q), true, BestChoice(q, true));
    BestIsFirst(q, c);
  }

  /**
   The break-even of two nodes, `h` holding `m > 0` blocks more than `o`.  The oracle copies
   exactly when copying `m` blocks is cheaper than computing them and than waiting for `h`,
   computes them on `o` exactly when that is no dearer than copying and cheaper than waiting,
   and waits for `h` otherwise; the lower id wins what is left.
   */
  lemma {:induction false} BreakEven(q: Query, h: nat, o: nat, m: nat)
    requires |q.nodes| == 2 && h < 2 && o == 1 - h && m > 0 && Have(q, h) == Have(q, o) + m
    ensures var p, wait := q.params, Queueing(q.nodes[h], q.now) - Queueing(q.nodes[o], q.now);
            var copy := m as real * p.blockKvBytes / p.bandwidth + p.linkLatency;
            var compute := m as real * (p.blockSize as real * p.prefillPerToken);
            var best := BestChoice(q, true);
            && (best == Choice(o, true) <==> copy < compute && (copy < wait || (copy == wait && o < h)))
            && (best == Choice(o, false) <==> compute <= copy && (compute < wait || (compute == wait && o < h)))
            && best != Choice(h, true)
  {
    hide BestChoice, Have, Queueing;
    OracleOfThree(q, h, o, m);
  }

  lemma {:induction false} OracleOfThree(q: Query, h: nat, o: nat, m: nat)
    requires |q.nodes| == 2 && h < 2 && o == 1 - h && m > 0 && Have(q, h) == Have(q, o) + m
    ensures var wait := Queueing(q.nodes[h], q.now) - Queueing(q.nodes[o], q.now);
            var copy, compute, best := CopySeconds(q.params, m), ComputeSeconds(q.params, m), BestChoice(q, true);
            && (best == Choice(o, true) <==> copy < compute && (copy < wait || (copy == wait && o < h)))
            && (best == Choice(o, false) <==> compute <= copy && (compute < wait || (compute == wait && o < h)))
            && best != Choice(h, true)
  {
    hide HotNode, Local, Ttft, BestChoice, Queueing, ComputeSeconds, CopySeconds;
    assert HasNodes(q);
    HotIs(q, h);
    ThreeTimes(q, h, o, m);
    OracleOrder(q, Choice(h, false));
    OracleOrder(q, Choice(o, false));
    OracleOrder(q, Choice(o, true));
    assert BestChoice(q, true).node == h || BestChoice(q, true).node == o;
  }

  /** What waiting for the hot node, computing elsewhere and copying elsewhere cost, on one base. */
  lemma {:induction false} ThreeTimes(q: Query, h: nat, o: nat, m: nat)
    requires HasNodes(q) && h < |q.nodes| && o < |q.nodes| && h != o && m > 0
    requires Hot(q) == h && Have(q, h) == Have(q, o) + m
    ensures var wh, wo := Queueing(q.nodes[h], q.now), Queueing(q.nodes[o], q.now);
            var wait := Ttft(q, Choice(h, false));
            && Ttft(q, Choice(o, false)) - wait == wo - wh + ComputeSeconds(q.params, m)
            && Ttft(q, Choice(o, true)) - wait == wo - wh + CopySeconds(q.params, m)
  {
    hide HotNode, Local, Ttft, Queueing;
    TimeInFull(q, Choice(h, false));
    TimeInFull(q, Choice(o, false));
    TimeInFull(q, Choice(o, true));
    ComputeGrows(q.params, |q.blocks| - Have(q, h), |q.blocks| - Have(q, o));
    hide ComputeSeconds, CopySeconds;
  }

  lemma {:induction false} HotIs(q: Query, h: nat)
    requires HasNodes(q) && h < |q.nodes|
    requires forall i :: 0 <= i < |q.nodes| && i != h ==> Have(q, i) < Have(q, h)
    ensures Hot(q) == h
  {
    hide Local;
    assert forall i :: 0 <= i < |q.nodes| ==> Have(q, i) == Local(q.blocks, q.nodes[i]);
    HotIsUnique(q.blocks, q.nodes, h);
  }

  /** Two nodes that hold equally much: the shorter queue, the lower id on a tie, and nothing copied. */
  lemma {:induction false} EqualHolders(q: Query)
    requires |q.nodes| == 2 && Have(q, 0) == Have(q, 1)
    ensures BestChoice(q, true) ==
            Choice(if Queueing(q.nodes[1], q.now) < Queueing(q.nodes[0], q.now) then 1 else 0, false)
  {
    assert HasNodes(q);
    var best := BestChoice(q, true);
    EqualTimes(q, best.transfer);
    EqualTimes(q, false);
    OracleOrder(q, Choice(0, false));
    OracleOrder(q, Choice(1, false));
    hide Queueing, BestChoice, Ttft, HotNode, Local;
  }

  lemma {:induction false} EqualTimes(q: Query, transfer: bool)
    requires |q.nodes| == 2 && Have(q, 0) == Have(q, 1)
    ensures Ttft(q, Choice(1, transfer)) - Ttft(q, Choice(0, false)) ==
            Queueing(q.nodes[1], q.now) - Queueing(q.nodes[0], q.now)
    ensures Ttft(q, Choice(0, transfer)) == Ttft(q, Choice(0, false))
  {
    hide HotNode, Local, Ttft, Queueing;
    assert HasNodes(q);
    TimeInFull(q, Choice(0, false));
    TimeInFull(q, Choice(0, transfer));
    TimeInFull(q, Choice(1, transfer));
    hide ComputeSeconds, CopySeconds;
  }
}
