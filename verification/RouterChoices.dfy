/** How the weighted router trades a longer cached prefix against a shorter queue. */
module RouterChoices {
  import opened Basics
  import opened Reals
  import opened Cost
  import opened Policies
  import opened RegretLaws
  import opened Router
  import Blocks

  /** The saturation limit in seconds. */
  ghost function Limit(p: Params, depth: nat): real {
    depth as real * (p.prefillFixed + 40.0 * p.interToken)
  }

  /** Node `i` takes part: its coarse queue is within the limit, or no node's is. */
  ghost predicate Candidate(q: Query, depth: nat, i: nat) {
    i < |q.nodes| &&
    (Coarse(q, i) <= Limit(q.params, depth) || forall j :: 0 <= j < |q.nodes| ==> Coarse(q, j) > Limit(q.params, depth))
  }

  /** The share of the blocks that a node is believed to hold as a prefix. */
  ghost function Share(blocks: seq<int>, belief: seq<int>): real {
    if blocks == [] then 0.0 else Blocks.Matched(blocks, Elems(belief)) as real / |blocks| as real
  }

  /** Where queue `w` lies between the shortest one `lo` (0) and the longest one `hi` (1). */
  ghost function Strain(w: real, lo: real, hi: real): real {
    if hi == lo then 0.0 else (w - lo) / (hi - lo)
  }

  lemma {:induction false} PoolIsCandidates(q: Query, depth: nat, i: nat)
    requires HasNodes(q)
    ensures i in Pool(q, depth) <==> Candidate(q, depth, i)
  {
    var open := Unsaturated(q, depth, |q.nodes|);
    LimitIsOpen(q, depth);
    hide Coarse, Open, Limit, Unsaturated;
    forall j | 0 <= j < |q.nodes| && Open(q, depth, j) ensures j in open {
      UnsaturatedIsComplete(q, depth, |q.nodes|, j);
    }
    if open == [] {
      assert Pool(q, depth) == seq(|q.nodes|, j => j);
      assert i < |q.nodes| ==> Pool(q, depth)[i] == i;
    } else {
      assert Pool(q, depth) == open && Open(q, depth, open[0]);
    }
  }

  lemma {:induction false} LimitIsOpen(q: Query, depth: nat)
    ensures forall j :: 0 <= j < |q.nodes| ==> (Open(q, depth, j) <==> Coarse(q, j) <= Limit(q.params, depth))
  {
    hide Coarse;
  }

  /** What a candidate is worth. */
  ghost function Balance(s: Scoring, share: real, strain: real): real {
    s.prefixWeight * share - s.loadWeight * strain
  }

  /**
   The decision: with `a` and `b` candidates of shortest and longest coarse queue, the winner is a
   candidate, and no candidate has a better balance of prefix share against strain, or an
   equal one and a lower id.
   */
  lemma {:induction false} TradeOff(q: Query, s: Scoring, beliefs: Beliefs, a: nat, b: nat, k: nat)
    requires HasNodes(q) && |q.nodes| == |beliefs|
    requires Candidate(q, s.saturationDepth, a) && Candidate(q, s.saturationDepth, b)
    requires Candidate(q, s.saturationDepth, k)
    requires forall i :: Candidate(q, s.saturationDepth, i) ==> Coarse(q, a) <= Coarse(q, i) <= Coarse(q, b)
    ensures var w := Winner(q, s, beliefs);
            var lo, hi := Coarse(q, a), Coarse(q, b);
            var mine := Balance(s, Share(q.blocks, beliefs[w]), Strain(Coarse(q, w), lo, hi));
            var other := Balance(s, Share(q.blocks, beliefs[k]), Strain(Coarse(q, k), lo, hi));
            && Candidate(q, s.saturationDepth, w)
            && (mine > other || (mine == other && w <= k))
  {
    assert a < |q.nodes| && b < |q.nodes| && k < |q.nodes|;
    hide Score, Winner, Pool, Coarse, Candidate, Share, Strain, Balance;
    var pool, w := Pool(q, s.saturationDepth), Winner(q, s, beliefs);
    PoolIsCandidates(q, s.saturationDepth, k);
    PoolIsCandidates(q, s.saturationDepth, w);
    var j :| 0 <= j < |pool| && pool[j] == k;
    WinnerIsBest(q, s, beliefs, j);
    Extremes(q, s.saturationDepth, a, b);
    ScoreInFull(q, s, beliefs, w, Coarse(q, a), Coarse(q, b));
    ScoreInFull(q, s, beliefs, k, Coarse(q, a), Coarse(q, b));
  }

  lemma {:induction false} Extremes(q: Query, depth: nat, a: nat, b: nat)
    requires HasNodes(q) && Candidate(q, depth, a) && Candidate(q, depth, b)
    requires forall i :: Candidate(q, depth, i) ==> Coarse(q, a) <= Coarse(q, i) <= Coarse(q, b)
    ensures LeastQueue(q, Pool(q, depth)) == Coarse(q, a) && MostQueue(q, Pool(q, depth)) == Coarse(q, b)
  {
    var pool := Pool(q, depth);
    hide Candidate, Coarse, Pool;
    forall i | i in pool ensures Candidate(q, depth, i) {
      PoolIsCandidates(q, depth, i);
    }
    PoolIsCandidates(q, depth, a);
    PoolIsCandidates(q, depth, b);
    var j :| 0 <= j < |pool| && pool[j] == a;
    var k :| 0 <= k < |pool| && pool[k] == b;
    var lo :| 0 <= lo < |pool| && LeastQueue(q, pool) == Coarse(q, pool[lo]);
    var hi :| 0 <= hi < |pool| && MostQueue(q, pool) == Coarse(q, pool[hi]);
  }

  lemma {:induction false} ScoreInFull(q: Query, s: Scoring, beliefs: Beliefs, i: nat, lo: real, hi: real)
    requires HasNodes(q) && i < |q.nodes| == |beliefs|
    requires LeastQueue(q, Pool(q, s.saturationDepth)) == lo && MostQueue(q, Pool(q, s.saturationDepth)) == hi
    ensures Score(q, s, beliefs, i) ==
            Balance(s, Share(q.blocks, beliefs[i]), Strain(Coarse(q, i), lo, hi)) + s.loadWeight
  {
    hide Coarse, Pool;
    assert PrefixScore(q.blocks, beliefs[i]) == Share(q.blocks, beliefs[i]);
    assert LoadScore(lo, hi, Coarse(q, i)) == 1.0 - Strain(Coarse(q, i), lo, hi);
    BalanceIs(s, Share(q.blocks, beliefs[i]), Strain(Coarse(q, i), lo, hi));
    hide Balance, Share, Strain, LoadScore, PrefixScore, Mul, LeastQueue, MostQueue;
    MulSubtracts(s.loadWeight, 1.0, Strain(Coarse(q, i), lo, hi));
    MulCommutes(s.loadWeight, Strain(Coarse(q, i), lo, hi));
    MulCommutes(s.loadWeight, LoadScore(lo, hi, Coarse(q, i)));
    MulUnits(s.loadWeight);
  }

  lemma BalanceIs(s: Scoring, share: real, strain: real)
    ensures Balance(s, share, strain) == Mul(s.prefixWeight, share) - Mul(s.loadWeight, strain)
  {
  }

  /** With the default weights, against any candidate `k`: twice the share less the strain. */
  lemma {:induction false} DefaultTradeOff(q: Query, beliefs: Beliefs, a: nat, b: nat, k: nat)
    requires HasNodes(q) && |q.nodes| == |beliefs|
    requires Candidate(q, 8, a) && Candidate(q, 8, b) && Candidate(q, 8, k)
    requires forall i :: Candidate(q, 8, i) ==> Coarse(q, a) <= Coarse(q, i) <= Coarse(q, b)
    ensures var w := Winner(q, DEFAULT_SCORING, beliefs);
            var mine := 2.0 * Share(q.blocks, beliefs[w]) - Strain(Coarse(q, w), Coarse(q, a), Coarse(q, b));
            var other := 2.0 * Share(q.blocks, beliefs[k]) - Strain(Coarse(q, k), Coarse(q, a), Coarse(q, b));
            && Candidate(q, 8, w)
            && (mine > other || (mine == other && w <= k))
  {
    assert a < |q.nodes| && b < |q.nodes| && k < |q.nodes|;
    hide Candidate, Coarse, Share, Strain, Balance, Winner;
    TradeOff(q, DEFAULT_SCORING, beliefs, a, b, k);
    var w, lo, hi := Winner(q, DEFAULT_SCORING, beliefs), Coarse(q, a), Coarse(q, b);
    DefaultBalance(Share(q.blocks, beliefs[w]), Strain(Coarse(q, w), lo, hi));
    DefaultBalance(Share(q.blocks, beliefs[k]), Strain(Coarse(q, k), lo, hi));
  }

  lemma DefaultBalance(share: real, strain: real)
    ensures Balance(DEFAULT_SCORING, share, strain) == 2.0 * share - strain
  {
  }

  /**
   Two candidates of different coarse queues: the longer one is chosen exactly when its lead
   exceeds one half of the blocks, or equals it and its id is the lower one.
   */
  lemma {:induction false} HalfTheBlocks(q: Query, beliefs: Beliefs, short: nat, long: nat)
    requires HasNodes(q) && |q.nodes| == |beliefs| && q.blocks != []
    requires Candidate(q, 8, short) && Candidate(q, 8, long) && Coarse(q, short) < Coarse(q, long)
    requires forall i :: Candidate(q, 8, i) ==> i == short || i == long
    ensures var lead := Blocks.Matched(q.blocks, Elems(beliefs[long])) as int
                        - Blocks.Matched(q.blocks, Elems(beliefs[short])) as int;
            Winner(q, DEFAULT_SCORING, beliefs) ==
            if 2 * lead > |q.blocks| || (2 * lead == |q.blocks| && long < short) then long else short
  {
    ShareLead(q.blocks, beliefs[long], beliefs[short]);
    hide Candidate, Coarse, Winner, Share, Strain;
    DefaultTradeOff(q, beliefs, short, long, short);
    DefaultTradeOff(q, beliefs, short, long, long);
    EndsOfStrain(Coarse(q, short), Coarse(q, long));
  }

  lemma {:induction false} EndsOfStrain(lo: real, hi: real)
    requires lo < hi
    ensures Strain(lo, lo, hi) == 0.0 && Strain(hi, lo, hi) == 1.0
  {
    MulUnits(hi - lo);
    QuotIs(0.0, hi - lo, 0.0);
    QuotIs(hi - lo, hi - lo, 1.0);
    assert Strain(lo, lo, hi) == Quot(0.0, hi - lo) && Strain(hi, lo, hi) == Quot(hi - lo, hi - lo);
  }

  /** A lead in shares of one half is a lead of one half of the blocks. */
  lemma {:induction false} ShareLead(blocks: seq<int>, belief: seq<int>, belief': seq<int>)
    requires blocks != []
    ensures var m, n := Blocks.Matched(blocks, Elems(belief)), Blocks.Matched(blocks, Elems(belief'));
            var lead := Share(blocks, belief) - Share(blocks, belief');
            (lead > 0.5 <==> 2 * (m - n) > |blocks|) && (lead == 0.5 <==> 2 * (m - n) == |blocks|)
  {
    var m, n := Blocks.Matched(blocks, Elems(belief)), Blocks.Matched(blocks, Elems(belief'));
    Lead(m, n, |blocks|);
    assert Share(blocks, belief) == Quot(m as real, |blocks| as real);
    assert Share(blocks, belief') == Quot(n as real, |blocks| as real);
  }

  lemma {:induction false} Lead(m: nat, n: nat, total: nat)
    requires total > 0
    ensures var lead := Quot(m as real, total as real) - Quot(n as real, total as real);
            (lead > 0.5 <==> 2 * (m - n) > total) && (lead == 0.5 <==> 2 * (m - n) == total)
  {
    hide Mul, Quot;
    var t, x, y := total as real, Quot(m as real, total as real), Quot(n as real, total as real);
    QuotInverts(m as real, t);
    QuotInverts(n as real, t);
    MulSubtracts(t, x, y);
    MulCompares(0.5, x - y, t);
    MulCompares(x - y, 0.5, t);
    HalfUnits(t);
  }
}
