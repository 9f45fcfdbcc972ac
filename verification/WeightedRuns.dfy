/** Regret of the weighted router over whole runs: bounded while a node is open, unbounded when none is. */
module WeightedRuns {
  import opened Basics
  import opened Reals
  import opened Cost
  import opened CostLaws
  import opened Policies
  import opened RegretLaws
  import opened WorstCases
  import opened Router
  import opened RouterLaws
  import opened Engine
  import opened EngineLaws
  import opened RouterRuns
  import opened TwoNodeRuns
  import Eviction

  lemma {:induction false} BeliefCount(c: Cluster, s: Scoring, precise: bool, capacity: nat, reqs: seq<TurnRequest>,
                                       k: nat)
    requires c.numNodes > 0 && k <= |reqs|
    ensures |WeightedRun(c, s, precise, capacity, reqs, k).policy| == c.numNodes
  {
    hide WeightedRun, Winner, Serve, WeightedPolicy, Routes;
    if k == 0 {
      StartsUnbelieving(c, s, precise, capacity, reqs);
    } else {
      BeliefCount(c, s, precise, capacity, reqs, k - 1);
      WeightedRunStep(c, s, precise, capacity, reqs, k - 1);
      BeliefsServed(c, s, precise, capacity, WeightedRun(c, s, precise, capacity, reqs, k - 1), k - 1, reqs[k - 1]);
    }
  }

  lemma {:induction false} StartsUnbelieving(c: Cluster, s: Scoring, precise: bool, capacity: nat,
                                             reqs: seq<TurnRequest>)
    requires c.numNodes > 0
    ensures |WeightedRun(c, s, precise, capacity, reqs, 0).policy| == c.numNodes
  {
    WeightedRoutes(s, precise, capacity);
  }

  lemma {:induction false} BeliefsServed(c: Cluster, s: Scoring, precise: bool, capacity: nat, sim: Sim<Beliefs>,
                                         k: nat, req: TurnRequest)
    requires Routes(WeightedPolicy(s, precise, capacity)) && sim.nodes != [] && |sim.policy| == |sim.nodes|
    ensures |Serve(c, WeightedPolicy(s, precise, capacity), sim, k, req).policy| == |sim.policy|
  {
    hide Winner, Predict, AdmitNode, AdmissionFor, OutcomeOf, RecordOutcome, RecordGap, Coupled;
  }

  /** The state and the request the router meets at step `k`. */
  function WeightedQuery(c: Cluster, s: Scoring, precise: bool, capacity: nat, reqs: seq<TurnRequest>,
                         k: nat): (q: Query)
    requires c.numNodes > 0 && k < |reqs|
    ensures HasNodes(q) && |q.nodes| == c.numNodes && q.params == c.params
  {
    QueryFor(c, WeightedRun(c, s, precise, capacity, reqs, k).nodes, reqs[k])
  }

  function WeightedWinner(c: Cluster, s: Scoring, precise: bool, capacity: nat, reqs: seq<TurnRequest>,
                          k: nat): (w: nat)
    requires c.numNodes > 0 && k < |reqs|
    ensures w < c.numNodes
  {
    BeliefCount(c, s, precise, capacity, reqs, k);
    var q := WeightedQuery(c, s, precise, capacity, reqs, k);
    Winner(q, s, Informed(precise, WeightedRun(c, s, precise, capacity, reqs, k).policy, q))
  }

  /** The regret recorded for a request is that of the winner on the state it met. */
  lemma {:induction false} WeightedRegretIsRecorded(c: Cluster, s: Scoring, precise: bool, capacity: nat,
                                                    reqs: seq<TurnRequest>, k: nat)
    requires c.numNodes > 0 && k < |reqs|
    ensures var regrets := WeightedRun(c, s, precise, capacity, reqs, |reqs|).result.regrets;
            && k < |regrets|
            && regrets[k] == Regret(WeightedQuery(c, s, precise, capacity, reqs, k),
                                    Choice(WeightedWinner(c, s, precise, capacity, reqs, k), false))
  {
    BeliefCount(c, s, precise, capacity, reqs, k);
    WeightedRoutes(s, precise, capacity);
    hide Simulate, Winner, Regret, Ttft, RegimeOf, Routes;
    RegretIsRecorded(c, WeightedPolicy(s, precise, capacity), NoBeliefs(c), reqs, k, |reqs|);
  }

  /** While some node is within the saturation limit, precise or not, every request stays within the bound. */
  lemma {:induction false} WeightedRunRegret(c: Cluster, s: Scoring, precise: bool, capacity: nat,
                                             reqs: seq<TurnRequest>, k: nat, i: nat)
    requires c.numNodes > 0 && k < |reqs| && i < c.numNodes
    requires Open(WeightedQuery(c, s, precise, capacity, reqs, k), s.saturationDepth, i)
    ensures var regrets := WeightedRun(c, s, precise, capacity, reqs, |reqs|).result.regrets;
            k < |regrets| && regrets[k] <= WeightedBound(WeightedQuery(c, s, precise, capacity, reqs, k),
              s.saturationDepth)
  {
    BeliefCount(c, s, precise, capacity, reqs, k);
    WeightedRegretIsRecorded(c, s, precise, capacity, reqs, k);
    hide WeightedRun, Winner, Regret, WeightedBound, Open;
    var q := WeightedQuery(c, s, precise, capacity, reqs, k);
    WeightedRegret(q, s, Informed(precise, WeightedRun(c, s, precise, capacity, reqs, k).policy, q), i);
  }

  // ------------------------------------------------------------- every node saturated

  /** Enough tokens to keep a node busy for `time`. */
  function Tokens(p: Params, time: real): nat
    requires time >= 0.0
  {
    QuotFalls(time, p.interToken, p.interToken);
    Quot(time, p.interToken).Floor + 1
  }

  lemma {:induction false} TokensTake(p: Params, time: real)
    requires time >= 0.0
    ensures DecodeTime(p, Tokens(p, time)) >= time
  {
    hide Mul, Quot;
    QuotInverts(time, p.interToken);
    QuotFalls(time, p.interToken, p.interToken);
    MulCompares(Quot(time, p.interToken), Tokens(p, time) as real, p.interToken);
  }

  function Request(blocks: seq<int>, gen: nat): TurnRequest {
    TurnRequest(0.0, gen, "", RequestView(blocks, 0, 1, false, 0, None, None))
  }

  /** The second of three requests: long enough to saturate a node. */
  function Second(p: Params): TurnRequest {
    DrainsSlowly(p);
    Request([], Tokens(p, 9.0 * NominalService(p)))
  }

  lemma DrainsSlowly(p: Params)
    ensures NominalService(p) > 0.0
  {
  }

  function SecondTime(p: Params): (time: real)
    ensures time > 0.0
  {
    MulNonNegative(Second(p).genTokens as real, p.interToken);
    MulUnits(Mul(p.blockSize as real, p.prefillPerToken));
    Serving(p, Second(p), 0)
  }

  /** How long the first request has to keep its node busy for the third one to lose more than `loss`. */
  function FirstTime(p: Params, loss: real): (time: real)
    ensures time >= 9.0 * NominalService(p) >= 0.0 && time > SecondTime(p) + BlockTime(p, 1) + loss
  {
    DrainsSlowly(p);
    MoreBlocks(p, 0, 1);
    MaxReal(0.0, loss) + SecondTime(p) + BlockTime(p, 1) + 9.0 * NominalService(p) + 1.0
  }

  function First(p: Params, loss: real): TurnRequest {
    Request([1], Tokens(p, FirstTime(p, loss)))
  }

  function Trio(p: Params, loss: real): (reqs: seq<TurnRequest>)
    ensures |reqs| == 3
  {
    [First(p, loss), Second(p), Request([1], 0)]
  }

  function Nodes(p: Params, cap: nat): Cluster {
    Cluster(2, cap, p, Eviction.Directives)
  }

  /** The precise router on the three requests. */
  function TrioRun(p: Params, cap: nat, loss: real, k: nat): (sim: Sim<Beliefs>)
    requires k <= 3
    ensures |sim.nodes| == 2
  {
    WeightedRun(Nodes(p, cap), DEFAULT_SCORING, true, cap, Trio(p, loss), k)
  }

  function TrioQuery(p: Params, cap: nat, loss: real, k: nat): (q: Query)
    requires k < 3
    ensures |q.nodes| == 2 && q.params == p && q.now == 0.0 && q.blocks == Trio(p, loss)[k].view.blocks
  {
    WeightedQuery(Nodes(p, cap), DEFAULT_SCORING, true, cap, Trio(p, loss), k)
  }

  function Chosen(q: Query): nat
    requires HasNodes(q)
  {
    Winner(q, DEFAULT_SCORING, TrueBeliefs(q.nodes))
  }

  lemma {:induction false} PoolOfTwo(q: Query, depth: nat)
    requires |q.nodes| == 2
    ensures Open(q, depth, 0) == Open(q, depth, 1) ==> Pool(q, depth) == [0, 1]
  {
    hide Open;
    assert Unsaturated(q, depth, 1) == if Open(q, depth, 0) then [0] else [];
    assert Unsaturated(q, depth, 2) == Unsaturated(q, depth, 1) + if Open(q, depth, 1) then [1] else [];
  }

  /** Between two nodes that look the same in every respect the first one wins. */
  lemma {:induction false} EvenMeansFirst(q: Query)
    requires |q.nodes| == 2 && Coarse(q, 0) == Coarse(q, 1)
    requires PrefixScore(q.blocks, q.nodes[0].cache.order) == PrefixScore(q.blocks, q.nodes[1].cache.order)
    ensures Chosen(q) == 0
  {
    PoolOfTwo(q, DEFAULT_SCORING.saturationDepth);
    WinnerIsBest(q, DEFAULT_SCORING, TrueBeliefs(q.nodes), 0);
    hide Coarse, PrefixScore, Pool, Mul, LoadScore;
  }

  lemma {:induction false} NothingToMatch(blocks: seq<int>, n: NodeView)
    ensures PrefixScore(blocks, n.cache.order) == if blocks == [] then 0.0
            else Quot(Local(blocks, n) as real, |blocks| as real)
  {
  }

  /** A queue of nine service times or more is saturated, an empty one is not. */
  lemma {:induction false} LongIsClosed(q: Query, i: nat)
    requires i < |q.nodes|
    ensures WaitAt(q.nodes[i], q.now) >= 9.0 * NominalService(q.params) ==> !Open(q, 8, i)
    ensures WaitAt(q.nodes[i], q.now) == 0.0 ==> Open(q, 8, i) && Coarse(q, i) == 0.0
  {
    DrainsSlowly(q.params);
    CoarseIsNear(q, i);
    HalfUnits(NominalService(q.params));
    MulUnits(NominalService(q.params));
    assert Round(0.0) == 0;
    if WaitAt(q.nodes[i], q.now) == 0.0 {
      CoarseOf(q, i, 0.0);
    }
    hide Coarse, WaitAt, NominalService, Mul;
  }

  /** Both closed and only the first holding the block: affinity decides. */
  lemma {:induction false} AffinityHerds(q: Query)
    requires |q.nodes| == 2 && |q.blocks| == 1 && !Open(q, 8, 0) && !Open(q, 8, 1)
    requires Have(q, 0) == 1 && Have(q, 1) == 0
    ensures Chosen(q) == 0
  {
    PoolOfTwo(q, 8);
    NothingToMatch(q.blocks, q.nodes[0]);
    NothingToMatch(q.blocks, q.nodes[1]);
    QuotIs(1.0, 1.0, 1.0);
    QuotIs(0.0, 1.0, 0.0);
    hide Open, Local, Pool, PrefixScore, Quot, Winner;
    HeldDecides(q, TrueBeliefs(q.nodes));
  }

  /** Twice a whole prefix score is more than any load score makes up for. */
  lemma {:induction false} HeldDecides(q: Query, beliefs: Beliefs)
    requires |q.nodes| == 2 == |beliefs| && Pool(q, 8) == [0, 1]
    requires PrefixScore(q.blocks, beliefs[0]) == 1.0 && PrefixScore(q.blocks, beliefs[1]) == 0.0
    ensures Winner(q, DEFAULT_SCORING, beliefs) == 0
  {
    hide PrefixScore, Winner, Score, Pool;
    WinnerIsBest(q, DEFAULT_SCORING, beliefs, 0);
    ScoreRange(q, beliefs, 0);
    ScoreRange(q, beliefs, 1);
  }

  /** The weighted router stays where it chooses. */
  lemma {:induction false} ChosenStays(c: Cluster, cap: nat, sim: Sim<Beliefs>, req: TurnRequest)
    requires sim.nodes != [] && |sim.policy| == |sim.nodes|
    ensures var i := Chosen(Before(c, sim, req));
            i < |sim.nodes| && Stays(c, WeightedPolicy(DEFAULT_SCORING, true, cap), sim, req, i)
  {
    hide Winner, Predict;
  }

  lemma {:induction false} TrioNext(p: Params, cap: nat, loss: real, k: nat)
    requires k < 3
    ensures Routes(WeightedPolicy(DEFAULT_SCORING, true, cap)) && |TrioRun(p, cap, loss, k).policy| == 2
    ensures TrioRun(p, cap, loss, k + 1) ==
            Serve(Nodes(p, cap), WeightedPolicy(DEFAULT_SCORING, true, cap), TrioRun(p, cap, loss, k), k,
                  Trio(p, loss)[k])
    ensures TrioQuery(p, cap, loss, k) == Before(Nodes(p, cap), TrioRun(p, cap, loss, k), Trio(p, loss)[k])
  {
    hide WeightedRun, Serve, Trio, Routes, WeightedPolicy;
    WeightedRunStep(Nodes(p, cap), DEFAULT_SCORING, true, cap, Trio(p, loss), k);
    BeliefCount(Nodes(p, cap), DEFAULT_SCORING, true, cap, Trio(p, loss), k);
  }

  /** One request of the trio goes where it is said to. */
  lemma {:induction false} TrioStep(p: Params, cap: nat, loss: real, k: nat, a: Held, b: Held)
    requires k < 3 && Pair(TrioRun(p, cap, loss, k), a, b)
    requires |a.blocks + Elems(Trio(p, loss)[k].view.blocks)| <= cap
             && |b.blocks + Elems(Trio(p, loss)[k].view.blocks)| <= cap
    ensures var i, req := Chosen(TrioQuery(p, cap, loss, k)), Trio(p, loss)[k];
            && i < 2
            && var have := Local(req.view.blocks, TrioRun(p, cap, loss, k).nodes[i]);
               if i == 0 then Pair(TrioRun(p, cap, loss, k + 1), Then(p, a, req, have), b)
               else Pair(TrioRun(p, cap, loss, k + 1), a, Then(p, b, req, have))
  {
    hide TrioRun, TrioQuery, Serve, Routes, Stays, Local, Pair, Elems, WeightedPolicy, Chosen, Serving, First, Second;
    var sim, req := TrioRun(p, cap, loss, k), Trio(p, loss)[k];
    TrioNext(p, cap, loss, k);
    ChosenStays(Nodes(p, cap), cap, sim, req);
    PairStep(Nodes(p, cap), WeightedPolicy(DEFAULT_SCORING, true, cap), sim, k, req,
             Chosen(TrioQuery(p, cap, loss, k)), a, b);
  }

  // -------------------------------------------------------------------- the three steps

  function Long(p: Params, loss: real): real {
    Serving(p, First(p, loss), 0)
  }

  lemma {:induction false} LongEnough(p: Params, loss: real)
    ensures Long(p, loss) >= FirstTime(p, loss) && SecondTime(p) >= 9.0 * NominalService(p)
  {
    DrainsSlowly(p);
    TokensTake(p, FirstTime(p, loss));
    TokensTake(p, 9.0 * NominalService(p));
    PrefillGrows(p, 0, 1);
    MulUnits(Mul(p.blockSize as real, p.prefillPerToken));
    hide NominalService, Tokens, DecodeTime, FirstTime, Mul;
  }

  lemma {:induction false} AfterFirst(p: Params, cap: nat, loss: real)
    requires cap >= 1
    ensures Pair(TrioRun(p, cap, loss, 1), Held(Long(p, loss), {1}), Held(0.0, {}))
  {
    var q := TrioQuery(p, cap, loss, 0);
    FreshTrio(p, cap, loss);
    PairFacts(TrioRun(p, cap, loss, 0), Held(0.0, {}), Held(0.0, {}), [1]);
    OneBlock();
    hide TrioRun, Pair, Coarse, Open, PrefixScore, Local, Serving, First, Second;
    TrioNext(p, cap, loss, 0);
    LongIsClosed(q, 0);
    LongIsClosed(q, 1);
    NothingToMatch([1], q.nodes[0]);
    NothingToMatch([1], q.nodes[1]);
    assert q.blocks == [1] by {
      FirstAsks(p, loss);
    }
    EvenMeansFirst(q);
    TrioStep(p, cap, loss, 0, Held(0.0, {}), Held(0.0, {}));
    FirstServed(p, loss);
  }

  lemma OneBlock()
    ensures Elems([1]) == {1} && {} + Elems([1]) == {1} && |{1}| == 1
    ensures Elems<int>([]) == {} && {} + Elems<int>([]) == {} && {1} + Elems<int>([]) == {1}
  {
  }

  lemma FirstAsks(p: Params, loss: real)
    ensures First(p, loss).view.blocks == [1] && Second(p).view.blocks == []
  {
  }

  lemma {:induction false} FirstServed(p: Params, loss: real)
    ensures Then(p, Held(0.0, {}), First(p, loss), 0) == Held(Long(p, loss), {1})
  {
    LongEnough(p, loss);
    DrainsSlowly(p);
    OneBlock();
    hide Serving, NominalService, Second, FirstTime, Tokens;
  }

  lemma {:induction false} FreshTrio(p: Params, cap: nat, loss: real)
    ensures Pair(TrioRun(p, cap, loss, 0), Held(0.0, {}), Held(0.0, {}))
  {
    WeightedRoutes(DEFAULT_SCORING, true, cap);
    hide Trio;
  }

  /** Tails and matches of a pair, read off. */
  lemma {:induction false} PairFacts(sim: Sim<Beliefs>, a: Held, b: Held, blocks: seq<int>)
    requires Pair(sim, a, b)
    ensures sim.nodes[0].busyUntil == a.busy && sim.nodes[1].busyUntil == b.busy
    ensures blocks != [] && a.blocks == {} ==> Local(blocks, sim.nodes[0]) == 0
    ensures blocks != [] && b.blocks == {} ==> Local(blocks, sim.nodes[1]) == 0
    ensures Elems(blocks) <= a.blocks ==> Local(blocks, sim.nodes[0]) == |blocks|
  {
    LocalIs(blocks, sim.nodes[0]);
    LocalIs(blocks, sim.nodes[1]);
    hide Local;
  }

  /** The first node is saturated by the first request, the second one still idle. */
  lemma {:induction false} SecondChoice(p: Params, cap: nat, loss: real)
    requires cap >= 1
    ensures Chosen(TrioQuery(p, cap, loss, 1)) == 1
  {
    var q := TrioQuery(p, cap, loss, 1);
    AfterFirst(p, cap, loss);
    PairFacts(TrioRun(p, cap, loss, 1), Held(Long(p, loss), {1}), Held(0.0, {}), []);
    LongEnough(p, loss);
    hide TrioRun, Pair, Coarse, Open, Local, Serving, Winner, Long, SecondTime, NominalService, Elems;
    TrioNext(p, cap, loss, 1);
    LongIsClosed(q, 0);
    LongIsClosed(q, 1);
    SaturationFilters(q, DEFAULT_SCORING, TrueBeliefs(q.nodes), 1);
  }

  lemma {:induction false} AfterSecond(p: Params, cap: nat, loss: real)
    requires cap >= 1
    ensures Pair(TrioRun(p, cap, loss, 2), Held(Long(p, loss), {1}), Held(SecondTime(p), {}))
  {
    AfterFirst(p, cap, loss);
    OneBlock();
    FirstAsks(p, loss);
    SecondChoice(p, cap, loss);
    SecondServed(p);
    hide TrioRun, Pair, Chosen, Local, Serving, First, Second, Long, SecondTime;
    TrioStep(p, cap, loss, 1, Held(Long(p, loss), {1}), Held(0.0, {}));
  }

  lemma {:induction false} SecondServed(p: Params)
    ensures |Second(p).view.blocks| == 0 && Then(p, Held(0.0, {}), Second(p), 0) == Held(SecondTime(p), {})
  {
    OneBlock();
    hide Serving, NominalService, Tokens;
  }

  lemma {:induction false} HerdingLoss(q: Query)
    requires |q.nodes| == 2 && |q.blocks| == 1 && Have(q, 0) == 1 && Have(q, 1) == 0
    ensures Regret(q, Choice(0, false)) >=
            WaitAt(q.nodes[0], q.now) - WaitAt(q.nodes[1], q.now) - BlockTime(q.params, 1)
  {
    PrefillGrows(q.params, 0, 1);
    OracleIsLowerBound(q, Choice(1, false));
    hide PrefillTime, WaitAt, Have, BestPlacement, BlockTime;
  }

  /**
   When every node is saturated there is no bound: for all parameters, every cache and
   every loss, the last of three requests finds both nodes saturated and records more
   regret than that, and so does the approximate router with an index of that capacity.
   */
  lemma {:induction false} NoBoundWhenSaturated(p: Params, cap: nat, loss: real)
    requires cap >= 1
    ensures var c, reqs := Nodes(p, cap), Trio(p, loss);
            var q := WeightedQuery(c, DEFAULT_SCORING, true, cap, reqs, 2);
            var precise := WeightedRun(c, DEFAULT_SCORING, true, cap, reqs, 3).result.regrets;
            var approximate := WeightedRun(c, DEFAULT_SCORING, false, cap, reqs, 3).result.regrets;
            && !Open(q, DEFAULT_SCORING.saturationDepth, 0) && !Open(q, DEFAULT_SCORING.saturationDepth, 1)
            && |precise| == 3 && precise[2] > loss && approximate == precise
  {
    var q := TrioQuery(p, cap, loss, 2);
    LastQuery(p, cap, loss);
    WeightedRegretIsRecorded(Nodes(p, cap), DEFAULT_SCORING, true, cap, Trio(p, loss), 2);
    TrioArrives(p, loss);
    hide WeightedRun, Regret, Open, Trio, Winner, Informed;
    ApproximateIsPrecise(Nodes(p, cap), DEFAULT_SCORING, Trio(p, loss), 3);
    TrioRegrets(p, cap, loss);
  }

  lemma {:induction false} TrioArrives(p: Params, loss: real)
    ensures Arrives(Trio(p, loss)) && |Trio(p, loss)| == 3
  {
    hide First, Second;
    assert First(p, loss).arrival == 0.0 == Second(p).arrival by {
      RequestsArrive(p, loss);
    }
  }

  lemma RequestsArrive(p: Params, loss: real)
    ensures First(p, loss).arrival == 0.0 == Second(p).arrival
  {
  }

  lemma {:induction false} TrioRegrets(p: Params, cap: nat, loss: real)
    ensures |WeightedRun(Nodes(p, cap), DEFAULT_SCORING, true, cap, Trio(p, loss), 3).result.regrets| == 3
  {
    WeightedRoutes(DEFAULT_SCORING, true, cap);
    hide Simulate, Routes, WeightedPolicy;
    RunAddsUp(Nodes(p, cap), WeightedPolicy(DEFAULT_SCORING, true, cap), NoBeliefs(Nodes(p, cap)), Trio(p, loss), 3);
  }

  /** The state the third request meets, and where it goes. */
  lemma {:induction false} LastQuery(p: Params, cap: nat, loss: real)
    requires cap >= 1
    ensures var q := TrioQuery(p, cap, loss, 2);
            !Open(q, 8, 0) && !Open(q, 8, 1) && Chosen(q) == 0 && Regret(q, Choice(0, false)) > loss
  {
    hide TrioQuery, Open, WaitAt, Have, NominalService, Regret, BlockTime, Chosen, SecondTime, FirstTime;
    var q := TrioQuery(p, cap, loss, 2);
    LastState(p, cap, loss);
    LongIsClosed(q, 0);
    LongIsClosed(q, 1);
    AffinityHerds(q);
    HerdingLoss(q);
  }

  lemma {:induction false} LastState(p: Params, cap: nat, loss: real)
    requires cap >= 1
    ensures var q, n := TrioQuery(p, cap, loss, 2), NominalService(p);
            && |q.blocks| == 1 && Have(q, 0) == 1 && Have(q, 1) == 0
            && WaitAt(q.nodes[0], q.now) >= FirstTime(p, loss) && WaitAt(q.nodes[1], q.now) == SecondTime(p) >= 9.0 * n
  {
    hide TrioRun, TrioQuery, Pair, Local, Long, First, Second, NominalService, WaitAt, BlockTime;
    AfterSecond(p, cap, loss);
    TrioNext(p, cap, loss, 2);
    OneBlock();
    LongEnough(p, loss);
    PairFacts(TrioRun(p, cap, loss, 2), Held(Long(p, loss), {1}), Held(SecondTime(p), {}), [1]);
    hide SecondTime, FirstTime;
    WaitsFromZero(TrioRun(p, cap, loss, 2).nodes[0]);
    WaitsFromZero(TrioRun(p, cap, loss, 2).nodes[1]);
  }

  lemma WaitsFromZero(n: NodeView)
    ensures n.busyUntil >= 0.0 ==> WaitAt(n, 0.0) == n.busyUntil
  {
  }
}
