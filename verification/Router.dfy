/**
 The weighted scoring router: a saturation filter, then prefix affinity and load,
 where affinity is read off the true caches or off a router-side index.
 */
module Router {
  import opened Basics
  import opened Lru
  import opened Reals
  import opened Cost
  import opened Policies
  import Blocks

  datatype Scoring = Scoring(prefixWeight: real, loadWeight: real, saturationDepth: nat)

  const DEFAULT_SCORING := Scoring(2.0, 1.0, 8)

  /** Believed recency list of every node. */
  type Beliefs = seq<seq<int>>

  function PrefixScore(blocks: seq<int>, belief: seq<int>): real {
    if blocks == [] then 0.0 else Quot(Blocks.Matched(blocks, Elems(belief)) as real, |blocks| as real)
  }

  predicate Open(q: Query, depth: nat, i: nat)
    requires i < |q.nodes|
  {
    Coarse(q, i) <= Mul(depth as real, NominalService(q.params))
  }

  ghost predicate InRange(pool: seq<nat>, n: nat) {
    forall k :: 0 <= k < |pool| ==> pool[k] < n
  }

  /** Nodes whose coarse queue is within the saturation limit, in id order. */
  function Unsaturated(q: Query, depth: nat, n: nat): (open: seq<nat>)
    requires n <= |q.nodes|
    ensures InRange(open, n)
    ensures forall k :: 0 <= k < |open| ==> Open(q, depth, open[k])
  {
    if n == 0 then []
    else Unsaturated(q, depth, n - 1) + if Open(q, depth, n - 1) then [n - 1] else []
  }

  lemma {:induction false} UnsaturatedIsComplete(q: Query, depth: nat, n: nat, i: nat)
    requires i < n <= |q.nodes| && Open(q, depth, i)
    ensures i in Unsaturated(q, depth, n)
  {
    if i < n - 1 {
      UnsaturatedIsComplete(q, depth, n - 1, i);
    }
  }

  /** The candidates: everything, if everything is saturated. */
  function Pool(q: Query, depth: nat): (pool: seq<nat>)
    requires HasNodes(q)
    ensures pool != [] && InRange(pool, |q.nodes|)
  {
    var open := Unsaturated(q, depth, |q.nodes|);
    if open != [] then open else seq(|q.nodes|, i => i)
  }

  function LeastQueue(q: Query, pool: seq<nat>): (lo: real)
    requires pool != [] && InRange(pool, |q.nodes|)
    ensures forall k :: 0 <= k < |pool| ==> lo <= Coarse(q, pool[k])
    ensures exists k :: 0 <= k < |pool| && lo == Coarse(q, pool[k])
  {
    if |pool| == 1 then Coarse(q, pool[0])
    else
      var lo, w := LeastQueue(q, pool[..|pool| - 1]), Coarse(q, pool[|pool| - 1]);
      if w < lo then w else lo
  }

  function MostQueue(q: Query, pool: seq<nat>): (hi: real)
    requires pool != [] && InRange(pool, |q.nodes|)
    ensures forall k :: 0 <= k < |pool| ==> Coarse(q, pool[k]) <= hi
    ensures exists k :: 0 <= k < |pool| && hi == Coarse(q, pool[k])
  {
    if |pool| == 1 then Coarse(q, pool[0])
    else MaxReal(MostQueue(q, pool[..|pool| - 1]), Coarse(q, pool[|pool| - 1]))
  }

  function LoadScore(lo: real, hi: real, w: real): real {
    if hi == lo then 1.0 else 1.0 - Quot(w - lo, hi - lo)
  }

  function Score(q: Query, s: Scoring, beliefs: Beliefs, i: nat): real
    requires HasNodes(q) && i < |q.nodes| == |beliefs|
  {
    var pool := Pool(q, s.saturationDepth);
    Mul(s.prefixWeight, PrefixScore(q.blocks, beliefs[i]))
      + Mul(s.loadWeight, LoadScore(LeastQueue(q, pool), MostQueue(q, pool), Coarse(q, i)))
  }

  function NegatedScore(q: Query, s: Scoring, beliefs: Beliefs): Choice -> real
    requires HasNodes(q) && |q.nodes| == |beliefs|
  {
    (c: Choice) => if c.node < |q.nodes| then 0.0 - Score(q, s, beliefs, c.node) else 0.0
  }

  function Plain(pool: seq<nat>): (cs: seq<Choice>)
    ensures |cs| == |pool|
    ensures forall k :: 0 <= k < |pool| ==> cs[k] == Choice(pool[k], false)
  {
    seq(|pool|, i requires 0 <= i < |pool| => Choice(pool[i], false))
  }

  /** The candidate of highest score, lowest id on ties. */
  function Winner(q: Query, s: Scoring, beliefs: Beliefs): (i: nat)
    requires HasNodes(q) && |q.nodes| == |beliefs|
    ensures i < |q.nodes|
    ensures exists k :: 0 <= k < |Pool(q, s.saturationDepth)| && Pool(q, s.saturationDepth)[k] == i
  {
    var cs := Plain(Pool(q, s.saturationDepth));
    var best := Least(NegatedScore(q, s, beliefs), cs);
    assert exists k :: 0 <= k < |cs| && cs[k] == best;
    best.node
  }

  lemma {:induction false} WinnerIsBest(q: Query, s: Scoring, beliefs: Beliefs, k: nat)
    requires HasNodes(q) && |q.nodes| == |beliefs| && k < |Pool(q, s.saturationDepth)|
    ensures var i, w := Pool(q, s.saturationDepth)[k], Winner(q, s, beliefs);
            || Score(q, s, beliefs, i) < Score(q, s, beliefs, w)
            || (Score(q, s, beliefs, i) == Score(q, s, beliefs, w) && w <= i)
  {
    hide Score, Pool;
    var cs := Plain(Pool(q, s.saturationDepth));
    assert cs[k] in cs;
    assert !Better(NegatedScore(q, s, beliefs), cs[k], Least(NegatedScore(q, s, beliefs), cs));
  }

  /** A saturated node is only ever chosen when every node is saturated. */
  lemma {:induction false} SaturationFilters(q: Query, s: Scoring, beliefs: Beliefs, i: nat)
    requires HasNodes(q) && |q.nodes| == |beliefs| && i < |q.nodes| && Open(q, s.saturationDepth, i)
    ensures Open(q, s.saturationDepth, Winner(q, s, beliefs))
  {
    UnsaturatedIsComplete(q, s.saturationDepth, |q.nodes|, i);
    var pool := Pool(q, s.saturationDepth);
    var k :| 0 <= k < |pool| && pool[k] == Winner(q, s, beliefs);
  }

  lemma {:induction false} LoadScoreIsUnit(lo: real, hi: real, w: real)
    requires lo <= w <= hi
    ensures 0.0 <= LoadScore(lo, hi, w) <= 1.0
  {
    if hi != lo {
      FractionIsUnit(w - lo, hi - lo);
      hide Quot;
    }
  }

  lemma {:induction false} FractionIsUnit(x: real, d: real)
    requires 0.0 <= x <= d && d > 0.0
    ensures 0.0 <= Quot(x, d) <= 1.0
  {
    hide Mul, Quot;
    MulUnits(d);
    QuotIs(0.0, d, 0.0);
    QuotIs(d, d, 1.0);
    QuotCompares(0.0, x, d);
    QuotCompares(x, d, d);
  }

  /**
   Affinity dominates load among the candidates: a node believed to hold more than
   half of the blocks beyond what every other candidate holds is chosen whatever the queues.
   */
  lemma {:induction false} AffinityDominates(q: Query, beliefs: Beliefs, h: nat)
    requires HasNodes(q) && |q.nodes| == |beliefs| && h < |Pool(q, DEFAULT_SCORING.saturationDepth)|
    requires var pool := Pool(q, DEFAULT_SCORING.saturationDepth);
             forall k :: 0 <= k < |pool| && pool[k] != pool[h] ==>
               PrefixScore(q.blocks, beliefs[pool[h]]) > PrefixScore(q.blocks, beliefs[pool[k]]) + 0.5
    ensures Winner(q, DEFAULT_SCORING, beliefs) == Pool(q, DEFAULT_SCORING.saturationDepth)[h]
  {
    var pool, w := Pool(q, DEFAULT_SCORING.saturationDepth), Winner(q, DEFAULT_SCORING, beliefs);
    WinnerIsBest(q, DEFAULT_SCORING, beliefs, h);
    var k :| 0 <= k < |pool| && pool[k] == w;
    ScoreRange(q, beliefs, h);
    ScoreRange(q, beliefs, k);
  }

  /** With the default weights a score is twice the prefix score plus at most one. */
  lemma {:induction false} ScoreRange(q: Query, beliefs: Beliefs, k: nat)
    requires HasNodes(q) && |q.nodes| == |beliefs| && k < |Pool(q, DEFAULT_SCORING.saturationDepth)|
    ensures var i := Pool(q, DEFAULT_SCORING.saturationDepth)[k];
            var affinity := 2.0 * PrefixScore(q.blocks, beliefs[i]);
            affinity <= Score(q, DEFAULT_SCORING, beliefs, i) <= affinity + 1.0
  {
    var pool := Pool(q, DEFAULT_SCORING.saturationDepth);
    hide Coarse, PrefixScore, LoadScore, Pool;
    LoadScoreIsUnit(LeastQueue(q, pool), MostQueue(q, pool), Coarse(q, pool[k]));
  }

  lemma {:induction false} LoadScoreFalls(lo: real, hi: real, w: real, w': real)
    requires lo <= w <= hi && lo <= w' <= hi && LoadScore(lo, hi, w) <= LoadScore(lo, hi, w')
    ensures w' <= w
  {
    hide Quot;
    if hi != lo {
      QuotCompares(w' - lo, w - lo, hi - lo);
    }
  }

  /** Among candidates believed to hold equally much, the winner has the shortest coarse queue. */
  lemma {:induction false} LoadBreaksTies(q: Query, s: Scoring, beliefs: Beliefs, k: nat)
    requires HasNodes(q) && |q.nodes| == |beliefs| && s.loadWeight > 0.0 && k < |Pool(q, s.saturationDepth)|
    requires PrefixScore(q.blocks, beliefs[Pool(q, s.saturationDepth)[k]]) ==
             PrefixScore(q.blocks, beliefs[Winner(q, s, beliefs)])
    ensures Coarse(q, Winner(q, s, beliefs)) <= Coarse(q, Pool(q, s.saturationDepth)[k])
  {
    var pool, w := Pool(q, s.saturationDepth), Winner(q, s, beliefs);
    var lo, hi := LeastQueue(q, pool), MostQueue(q, pool);
    WinnerIsBest(q, s, beliefs, k);
    var j :| 0 <= j < |pool| && pool[j] == w;
    assert lo <= Coarse(q, pool[j]) <= hi && lo <= Coarse(q, pool[k]) <= hi;
    hide Coarse, PrefixScore, LoadScore, Mul, Pool, Winner, LeastQueue, MostQueue;
    var load, best := LoadScore(lo, hi, Coarse(q, pool[k])), LoadScore(lo, hi, Coarse(q, w));
    MulCommutes(s.loadWeight, load);
    MulCommutes(s.loadWeight, best);
    MulCompares(load, best, s.loadWeight);
    LoadScoreFalls(lo, hi, Coarse(q, pool[k]), Coarse(q, w));
  }

  // ------------------------------------------------------------ router-side index

  function Recorded(beliefs: Beliefs, node: nat, blocks: seq<int>, capacity: nat): Beliefs
    requires node < |beliefs|
  {
    beliefs[node := LastN(TouchAll(beliefs[node], blocks), capacity)]
  }

  /** Per node, the blocks routed to it most recently; node-side evictions are never seen. */
  class RouterIndex {
    const capacity: nat
    var blocks: Beliefs

    constructor (numNodes: nat, capacity: nat)
      ensures this.capacity == capacity && blocks == seq(numNodes, _ => [])
    {
      this.capacity := capacity;
      blocks := seq(numNodes, _ => []);
    }

    method Record(node: nat, reqBlocks: seq<int>)
      requires node < |blocks|
      modifies this
      ensures blocks == Recorded(old(blocks), node, reqBlocks, capacity)
    {
      var index := blocks[node];
      for i := 0 to |reqBlocks|
        invariant index == TouchAll(old(blocks)[node], reqBlocks[..i])
      {
        assert reqBlocks[..i + 1][..i] == reqBlocks[..i];
        index := Without(index, reqBlocks[i]);
        index := index + [reqBlocks[i]];
      }
      assert reqBlocks[..|reqBlocks|] == reqBlocks;
      index := DropOldest(index);
      blocks := blocks[node := index];
    }

    /** `popitem(last=False)` until the list fits. */
    method DropOldest(full: seq<int>) returns (index: seq<int>)
      ensures index == LastN(full, capacity)
    {
      index := full;
      while |index| > capacity
        invariant LastN(index, capacity) == LastN(full, capacity)
      {
        index := index[1..];
      }
    }
  }

  function TrueBeliefs(nodes: seq<NodeView>): (beliefs: Beliefs)
    ensures |beliefs| == |nodes|
    ensures forall i :: 0 <= i < |nodes| ==> beliefs[i] == nodes[i].cache.order
  {
    seq(|nodes|, i requires 0 <= i < |nodes| => nodes[i].cache.order)
  }

  class WeightedScorers {
    const precise: bool
    const scoring: Scoring
    const indexCapacity: nat
    var index: RouterIndex?

    constructor (precise: bool, scoring: Scoring, indexCapacity: nat)
      ensures this.precise == precise && this.scoring == scoring && this.indexCapacity == indexCapacity
      ensures index == null
    {
      this.precise, this.scoring, this.indexCapacity, index := precise, scoring, indexCapacity, null;
    }

    /** Lazily created: before the first call the router believes every node empty. */
    function Believed(n: nat): Beliefs
      reads this, index
    {
      if index == null then seq(n, _ => []) else index.blocks
    }

    method Route(q: Query) returns (p: Placement)
      requires HasNodes(q)
      requires index != null ==> index.capacity == indexCapacity && |index.blocks| == |q.nodes|
      modifies this, index
      ensures index != null && index.capacity == indexCapacity && |index.blocks| == |q.nodes|
      ensures old(index) != null ==> index == old(index)
      ensures var before := old(Believed(|q.nodes|));
              var w := Winner(q, scoring, if precise then TrueBeliefs(q.nodes) else before);
              && p == Predict(q, Choice(w, false))
              && index.blocks == if precise then before else Recorded(before, w, q.blocks, indexCapacity)
    {
      if index == null {
        index := new RouterIndex(|q.nodes|, indexCapacity);
      }
      var best := Winner(q, scoring, if precise then TrueBeliefs(q.nodes) else index.blocks);
      if !precise {
        index.Record(best, q.blocks);
      }
      p := Predict(q, Choice(best, false));
    }
  }
}

/** Worst-case regret of the weighted router. */
module RouterLaws {
  import opened Reals
  import opened Cost
  import opened CostLaws
  import opened Policies
  import opened RegretLaws
  import opened Router

  /** The most a request can lose while some node is within the saturation limit. */
  function WeightedBound(q: Query, depth: nat): real
    requires HasNodes(q)
  {
    Mul(depth as real + 0.5, NominalService(q.params)) + BlockTime(q.params, Have(q, Hot(q)))
  }

  /**
   Whatever the router believes, it waits for no more than a saturated queue and recomputes no more than the hot
   prefix.
   */
  lemma {:induction false} WeightedRegret(q: Query, s: Scoring, beliefs: Beliefs, i: nat)
    requires HasNodes(q) && |q.nodes| == |beliefs| && i < |q.nodes| && Open(q, s.saturationDepth, i)
    ensures Regret(q, Choice(Winner(q, s, beliefs), false)) <= WeightedBound(q, s.saturationDepth)
  {
    SaturationFilters(q, s, beliefs, i);
    var w, n := Winner(q, s, beliefs), NominalService(q.params);
    CoarseIsNear(q, w);
    StayingCost(q, w);
    HotPrefixIsTheFloor(q, BestChoice(q, true));
    MulDistributes(n, s.saturationDepth as real, 0.5);
    HalfUnits(n);
    hide Mul, Coarse, Winner, Ttft, BestChoice, Have, Hot, PrefillTime, BlockTime, NominalService;
  }
}
