/** Engine runs on two nodes without directives, one request at a time. */
module TwoNodeRuns {
  import opened Basics
  import opened Lru
  import opened Reals
  import opened Cost
  import opened Policies
  import opened Engine
  import opened EngineLaws
  import opened NodeHistory
  import opened Eviction
  import opened PlainLru
  import Blocks

  /** A node that is free at `busy`, holds exactly `held` and carries no mark. */
  ghost predicate IsAt(n: NodeView, busy: real, held: set<int>) {
    n.busyUntil == busy && Coherent(n.cache) && n.cache.marks == map[] && Elems(n.cache.order) == held
  }

  lemma {:induction false} AdmitAdds(c: Cluster, n: NodeView, busy: real, held: set<int>, a: Admission)
    requires c.strategy == Directives && IsAt(n, busy, held) && |held + Elems(a.blocks)| <= c.cacheBlocks
    requires Directive(a.now, a.retainUntil, a.priority) == None
    ensures IsAt(AdmitNode(c, n, a), MaxReal(a.now, busy) + a.service, held + Elems(a.blocks))
  {
    hide Admit, TouchAll, Distinct, Elems;
    PlainAdmit(n.cache, c.cacheBlocks, a);
    TouchAllFacts(n.cache.order, a.blocks);
    DistinctCardinality(TouchAll(n.cache.order, a.blocks));
    Unmarked(TouchAll(n.cache.order, a.blocks), n.cache.pinned);
  }

  lemma Unmarked(order: seq<int>, pinned: nat)
    requires Distinct(order)
    ensures Coherent(Cache(order, map[], pinned))
  {
  }

  datatype Held = Held(busy: real, blocks: set<int>)

  ghost predicate Pair<S(!new)>(sim: Sim<S>, a: Held, b: Held) {
    |sim.nodes| == 2 && IsAt(sim.nodes[0], a.busy, a.blocks) && IsAt(sim.nodes[1], b.busy, b.blocks)
  }

  /** How long serving `req` keeps a node busy that has `have` of its blocks. */
  function Serving(p: Params, req: TurnRequest, have: nat): real
    requires have <= |req.view.blocks|
  {
    PrefillTime(p, |req.view.blocks| - have) + DecodeTime(p, req.genTokens)
  }

  function Before<S(!new)>(c: Cluster, sim: Sim<S>, req: TurnRequest): (q: Query)
    ensures q.nodes == sim.nodes && q.blocks == req.view.blocks && q.now == req.arrival && q.params == c.params
  {
    QueryFor(c, sim.nodes, req)
  }

  ghost predicate Stays<S(!new)>(c: Cluster, policy: Policy<S>, sim: Sim<S>, req: TurnRequest, i: nat)
    requires i < |sim.nodes|
  {
    policy(sim.policy, req.view, Before(c, sim, req)).0 == Predict(Before(c, sim, req), Choice(i, false))
  }

  /** A request placed on node `i` without transfer or directive. */
  lemma {:induction false} ServedOn<S(!new)>(c: Cluster, policy: Policy<S>, sim: Sim<S>, k: nat, req: TurnRequest,
                                      i: nat)
    returns (a: Admission)
    requires Routes(policy) && i < |sim.nodes| && Stays(c, policy, sim, req, i) && req.arrival >= 0.0
    ensures a.now == req.arrival && a.blocks == req.view.blocks && Directive(a.now, a.retainUntil, a.priority) == None
    ensures a.service == Serving(c.params, req, Local(req.view.blocks, sim.nodes[i]))
    ensures Serve(c, policy, sim, k, req).nodes == sim.nodes[i := AdmitNode(c, sim.nodes[i], a)]
  {
    hide Serve, AdmitNode, Ttft, RegimeOf, PrefillTime, DecodeTime, HotNode, Local;
    ServeAdmits(c, policy, sim, k, req);
    var s := StepAt(c, policy, sim, req);
    a := AdmissionFor(s.query, req, s.placement, k);
  }

  function Then(p: Params, h: Held, req: TurnRequest, have: nat): Held
    requires have <= |req.view.blocks|
  {
    Held(MaxReal(req.arrival, h.busy) + Serving(p, req, have), h.blocks + Elems(req.view.blocks))
  }

  lemma {:induction false} PairStep<S(!new)>(c: Cluster, policy: Policy<S>, sim: Sim<S>, k: nat, req: TurnRequest,
                                             i: nat, a: Held, b: Held)
    requires Routes(policy) && c.strategy == Directives && req.arrival >= 0.0 && Pair(sim, a, b)
    requires i < 2 && Stays(c, policy, sim, req, i)
    requires |(if i == 0 then a else b).blocks + Elems(req.view.blocks)| <= c.cacheBlocks
    ensures var have := Local(req.view.blocks, sim.nodes[i]);
            var after := Serve(c, policy, sim, k, req);
            if i == 0 then Pair(after, Then(c.params, a, req, have), b)
              else Pair(after, a, Then(c.params, b, req, have))
  {
    hide Serve, AdmitNode, Stays, Routes, Local, Serving, Coherent, Elems;
    var adm := ServedOn(c, policy, sim, k, req, i);
    AdmitAdds(c, sim.nodes[i], (if i == 0 then a else b).busy, (if i == 0 then a else b).blocks, adm);
  }

  /** Nodes that hold all of a request's blocks, or none. */
  lemma {:induction false} LocalIs(blocks: seq<int>, n: NodeView)
    ensures Elems(blocks) <= Elems(n.cache.order) ==> Local(blocks, n) == |blocks|
    ensures blocks != [] && Elems(n.cache.order) == {} ==> Local(blocks, n) == 0
    ensures blocks == [] ==> Local(blocks, n) == 0
  {
    if Elems(blocks) <= Elems(n.cache.order) {
      forall i | 0 <= i < |blocks| ensures blocks[i] in Elems(n.cache.order) {
        assert blocks[i] in Elems(blocks);
      }
      Blocks.MatchedAtLeast(blocks, Elems(n.cache.order), |blocks|);
    }
  }

  /** A request with nothing to prefill and 40 tokens to decode takes one nominal service time. */
  lemma {:induction false} NominalLoad(p: Params, req: TurnRequest)
    requires req.genTokens == 40
    ensures Serving(p, req, |req.view.blocks|) == NominalService(p)
  {
    MulUnits(Mul(p.blockSize as real, p.prefillPerToken));
    Forty(p.interToken);
    hide Mul;
  }

  lemma Forty(x: real)
    ensures Mul(40.0, x) == 40.0 * x
  {
  }
}

/** Class-aware runs that end in the worst case of their last request's class. */
module WorstCaseRuns {
  import opened Basics
  import opened Reals
  import opened Cost
  import opened CostLaws
  import opened Policies
  import opened RegretLaws
  import opened WorstCases
  import opened Engine
  import opened EngineLaws
  import opened TwoNodeRuns
  import Eviction

  /** A request that is classified as `kind`. */
  function Ask(kind: Class, blocks: seq<int>, at: real, gen: nat): (req: TurnRequest)
    ensures Classify(req.view) == kind
  {
    TurnRequest(at, gen, "", RequestView(blocks, 0, if kind == Oneshot then 1 else 2, kind == Tool,
                                         if kind == Rag then RAG_USER_TOKENS else 0, None, None))
  }

  /** Time by which both seeds are served. */
  function Drain(p: Params, blocks: seq<int>): real {
    PrefillTime(p, |blocks|) + DecodeTime(p, 40)
  }

  function Seeds(kind: Class, blocks: seq<int>): (reqs: seq<TurnRequest>)
    ensures |reqs| == 2
  {
    [Ask(Oneshot, if kind == Oneshot then [] else blocks, 0.0, 40), Ask(Oneshot, blocks, 0.0, 40)]
  }

  function Load(kind: Class, blocks: seq<int>, p: Params): TurnRequest {
    if kind == Rag then Ask(Rag, blocks, Drain(p, blocks), 40) else Ask(Oneshot, [], Drain(p, blocks), 40)
  }

  function Loads(kind: Class): nat {
    if kind == Rag then 9 else 5
  }

  function Last(kind: Class, blocks: seq<int>, p: Params): TurnRequest {
    Ask(kind, blocks, Drain(p, blocks) + 0.5 * NominalService(p), 0)
  }

  /** Two seeds, then loads that arrive together once the seeds are served, then the request in question. */
  function Trace(kind: Class, blocks: seq<int>, p: Params): (reqs: seq<TurnRequest>)
    ensures |reqs| == Loads(kind) + 3
    ensures reqs[0] == Seeds(kind, blocks)[0] && reqs[1] == Seeds(kind, blocks)[1]
    ensures forall k :: 2 <= k < Loads(kind) + 2 ==> reqs[k] == Load(kind, blocks, p)
    ensures reqs[Loads(kind) + 2] == Last(kind, blocks, p)
  {
    Seeds(kind, blocks) + seq(Loads(kind), _ => Load(kind, blocks, p)) + [Last(kind, blocks, p)]
  }

  function Routing(): Policy<()> {
    Stateless(ClassChoice)
  }

  function At(kind: Class, blocks: seq<int>, p: Params, cap: nat, k: nat): (sim: Sim<()>)
    requires k <= Loads(kind) + 3
    ensures |sim.nodes| == 2
  {
    StatelessRoutes(ClassChoice);
    Simulate(Pairs(p, cap), Routing(), (), Trace(kind, blocks, p), k)
  }

  function Pairs(p: Params, cap: nat): Cluster {
    Cluster(2, cap, p, Eviction.Directives)
  }

  lemma {:induction false} AtNext(kind: Class, blocks: seq<int>, p: Params, cap: nat, k: nat)
    requires k < Loads(kind) + 3
    ensures Routes(Routing())
    ensures At(kind, blocks, p, cap, k + 1) ==
            Serve(Pairs(p, cap), Routing(), At(kind, blocks, p, cap, k), k, Trace(kind, blocks, p)[k])
  {
    StatelessRoutes(ClassChoice);
    hide Serve, Routes, Stateless, Trace;
  }

  /** Where class-aware routing puts a request. */
  lemma {:induction false} ClassStays(c: Cluster, sim: Sim<()>, kind: Class, req: TurnRequest, i: nat)
    requires |sim.nodes| == 2 && i < 2 && Classify(req.view) == kind
    requires ClassAwareChoice(kind, Before(c, sim, req)) == Choice(i, false)
    ensures Stays(c, Routing(), sim, req, i)
  {
    hide ClassAwareChoice, Predict, Classify;
    assert ClassChoice(req.view, Before(c, sim, req)) == Choice(i, false);
  }

  lemma {:induction false} OneshotStays(c: Cluster, sim: Sim<()>, req: TurnRequest)
    requires |sim.nodes| == 2 && Classify(req.view) == Oneshot
    ensures var q := Before(c, sim, req);
            Stays(c, Routing(), sim, req, if Coarse(q, 0) <= Coarse(q, 1) then 0 else 1)
  {
    hide Coarse, LeastLoaded, Stays, Classify;
    var q := Before(c, sim, req);
    LeastOfTwo(q);
    ClassStays(c, sim, Oneshot, req, if Coarse(q, 0) <= Coarse(q, 1) then 0 else 1);
  }

  // ------------------------------------------------------------------------- seeds

  lemma {:induction false} DrainIsLong(p: Params, blocks: seq<int>)
    ensures 0.0 < NominalService(p) <= Drain(p, blocks)
  {
    NominalLoad(p, Ask(Oneshot, [], 0.0, 40));
    PrefillGrows(p, 0, |blocks|);
    hide PrefillTime, DecodeTime;
  }

  lemma {:induction false} EmptyQueue(q: Query, i: nat)
    requires i < |q.nodes| && q.nodes[i].busyUntil <= q.now
    ensures Coarse(q, i) == 0.0
  {
    MulUnits(NominalService(q.params));
    CoarseOf(q, i, 0.0);
    assert Round(0.0) == 0;
  }

  lemma {:induction false} LongQueue(q: Query, i: nat)
    requires i < |q.nodes| && q.nodes[i].busyUntil >= q.now + NominalService(q.params)
    ensures Coarse(q, i) > 0.0
  {
    CoarseIsNear(q, i);
    assert NominalService(q.params) > 0.0;
    hide Coarse, NominalService;
  }

  /** What the first node holds, in every case. */
  function First(kind: Class, blocks: seq<int>): set<int> {
    if kind == Oneshot then {} else Elems(blocks)
  }

  lemma {:induction false} FirstSeed(kind: Class, blocks: seq<int>, p: Params, cap: nat)
    requires |Elems(blocks)| <= cap
    ensures exists a :: NominalService(p) <= a <= Drain(p, blocks) &&
                        Pair(At(kind, blocks, p, cap, 1), Held(a, First(kind, blocks)), Held(0.0, {}))
  {
    hide At, Serve, Trace, Routes, Stays, IsAt, Serving, Local, NominalService, Drain, Routing, Elems, First, Pair;
    var sim, req := At(kind, blocks, p, cap, 0), Seeds(kind, blocks)[0];
    var time := Serving(p, req, Local(req.view.blocks, sim.nodes[0]));
    Fresh(kind, blocks, p, cap);
    AtNext(kind, blocks, p, cap, 0);
    FewBlocks(req.view.blocks, blocks, cap);
    SeedTime(p, req, sim.nodes[0], blocks);
    FirstHolds(kind, blocks);
    PairTails(sim, Held(0.0, {}), Held(0.0, {}));
    FirstStays(p, cap, sim, req);
    PairStep(Pairs(p, cap), Routing(), sim, 0, req, 0, Held(0.0, {}), Held(0.0, {}));
    assert Then(p, Held(0.0, {}), req, Local(req.view.blocks, sim.nodes[0])) == Held(time, First(kind, blocks));
  }

  lemma FirstHolds(kind: Class, blocks: seq<int>)
    ensures {} + Elems(Seeds(kind, blocks)[0].view.blocks) == First(kind, blocks)
    ensures {} + Elems(blocks) == Elems(blocks)
  {
  }

  /** Between two empty queues a one-shot goes to the first node, and past a busy one to the second. */
  lemma {:induction false} FirstStays(p: Params, cap: nat, sim: Sim<()>, req: TurnRequest)
    requires |sim.nodes| == 2 && Classify(req.view) == Oneshot && sim.nodes[1].busyUntil <= req.arrival
    ensures sim.nodes[0].busyUntil <= req.arrival ==> Stays(Pairs(p, cap), Routing(), sim, req, 0)
    ensures sim.nodes[0].busyUntil >= req.arrival + NominalService(p) ==> Stays(Pairs(p, cap), Routing(), sim, req, 1)
  {
    var q := Before(Pairs(p, cap), sim, req);
    hide Stays, Coarse, NominalService, Classify;
    EmptyQueue(q, 1);
    OneshotStays(Pairs(p, cap), sim, req);
    if sim.nodes[0].busyUntil <= req.arrival {
      EmptyQueue(q, 0);
    } else if sim.nodes[0].busyUntil >= req.arrival + NominalService(p) {
      LongQueue(q, 0);
    }
    assert NominalService(p) > 0.0 by {
      DrainIsLong(p, []);
    }
  }

  lemma {:induction false} FewBlocks(own: seq<int>, blocks: seq<int>, cap: nat)
    requires |Elems(blocks)| <= cap && (own == [] || own == blocks)
    ensures |{} + Elems(own)| <= cap
  {
    assert {} + Elems(own) == Elems(own);
    assert own == [] ==> Elems(own) == {};
  }

  lemma {:induction false} Fresh(kind: Class, blocks: seq<int>, p: Params, cap: nat)
    ensures Pair(At(kind, blocks, p, cap, 0), Held(0.0, {}), Held(0.0, {}))
  {
    hide Trace;
  }

  /** A seed takes at least the nominal time and at most the drain time. */
  lemma {:induction false} SeedTime(p: Params, req: TurnRequest, n: NodeView, blocks: seq<int>)
    requires req.genTokens == 40 && (req.view.blocks == [] || req.view.blocks == blocks)
    ensures var time := Serving(p, req, Local(req.view.blocks, n)); NominalService(p) <= time <= Drain(p, blocks)
  {
    var have := Local(req.view.blocks, n);
    NominalLoad(p, req);
    PrefillGrows(p, 0, |req.view.blocks| - have);
    PrefillGrows(p, |req.view.blocks| - have, |blocks|);
    hide PrefillTime, DecodeTime, Local, NominalService;
  }

  /** After both seeds the second node holds the prefix, the first one too unless a one-shot is to lose it. */
  lemma {:induction false} AfterSeeds(kind: Class, blocks: seq<int>, p: Params, cap: nat)
    requires |Elems(blocks)| <= cap
    ensures Loaded(kind, blocks, p, At(kind, blocks, p, cap, 2), 0, 0)
  {
    hide At, Serve, Trace, Routes, Stays, IsAt, Serving, Local, NominalService, Drain, Routing, Elems, First, Pair,
         Loaded,
         Busy;
    FirstSeed(kind, blocks, p, cap);
    var a :| NominalService(p) <= a <= Drain(p, blocks) &&
             Pair(At(kind, blocks, p, cap, 1), Held(a, First(kind, blocks)), Held(0.0, {}));
    var sim, req := At(kind, blocks, p, cap, 1), Seeds(kind, blocks)[1];
    AtNext(kind, blocks, p, cap, 1);
    FewBlocks(blocks, blocks, cap);
    SeedTime(p, req, sim.nodes[1], blocks);
    FirstHolds(kind, blocks);
    PairTails(sim, Held(a, First(kind, blocks)), Held(0.0, {}));
    FirstStays(p, cap, sim, req);
    PairStep(Pairs(p, cap), Routing(), sim, 1, req, 1, Held(a, First(kind, blocks)), Held(0.0, {}));
    var time := Serving(p, req, Local(blocks, sim.nodes[1]));
    Served(p, blocks, a);
    Served(p, blocks, time);
    DrainIsLong(p, blocks);
    assert Then(p, Held(0.0, {}), req, Local(blocks, sim.nodes[1])) == Held(time, Elems(blocks));
    PairIsLoaded(kind, blocks, p, At(kind, blocks, p, cap, 2), a, time, 0, 0);
  }

  lemma PairTails(sim: Sim<()>, a: Held, b: Held)
    requires Pair(sim, a, b)
    ensures |sim.nodes| == 2 && sim.nodes[0].busyUntil == a.busy && sim.nodes[1].busyUntil == b.busy
  {
  }

  lemma {:induction false} PairIsLoaded(kind: Class, blocks: seq<int>, p: Params, sim: Sim<()>, a: real, b: real,
                                        i: nat, j: nat)
    requires Pair(sim, Held(a, First(kind, blocks)), Held(b, Elems(blocks)))
    requires Busy(p, blocks, a, i) && Busy(p, blocks, b, j)
    ensures Loaded(kind, blocks, p, sim, i, j)
  {
    hide Busy, First;
  }

  lemma {:induction false} Served(p: Params, blocks: seq<int>, busy: real)
    requires busy <= Drain(p, blocks)
    ensures Busy(p, blocks, busy, 0)
  {
    MulUnits(NominalService(p));
    hide Mul, Drain, NominalService;
  }

  // ------------------------------------------------------------------------- loads

  /** From the drain time on the nodes have `i` and `j` nominal service times to serve. */
  ghost predicate Loaded(kind: Class, blocks: seq<int>, p: Params, sim: Sim<()>, i: nat, j: nat) {
    && |sim.nodes| == 2
    && IsAt(sim.nodes[0], sim.nodes[0].busyUntil, First(kind, blocks))
    && IsAt(sim.nodes[1], sim.nodes[1].busyUntil, Elems(blocks))
    && Busy(p, blocks, sim.nodes[0].busyUntil, i) && Busy(p, blocks, sim.nodes[1].busyUntil, j)
  }

  ghost predicate Busy(p: Params, blocks: seq<int>, busy: real, i: nat) {
    MaxReal(Drain(p, blocks), busy) == Drain(p, blocks) + Mul(i as real, NominalService(p))
  }

  lemma RoundOfWhole(i: nat)
    ensures Round(i as real) == i
  {
  }

  /** Seen at the drain time, such a queue is its number of service times. */
  lemma {:induction false} CoarseOfLoaded(q: Query, x: nat, blocks: seq<int>, i: nat)
    requires x < |q.nodes| && q.now == Drain(q.params, blocks) && Busy(q.params, blocks, q.nodes[x].busyUntil, i)
    ensures Coarse(q, x) == Mul(i as real, NominalService(q.params))
  {
    RoundOfWhole(i);
    MulNonNegative(i as real, NominalService(q.params)) by {
      DrainIsLong(q.params, blocks);
    }
    hide Mul, Round, NominalService, Drain;
    CoarseOf(q, x, i as real);
  }

  /** The node a load goes to when the nodes have `i` and `j` service times to serve. */
  function Side(kind: Class, i: nat, j: nat): nat {
    if kind == Rag || i <= j then 0 else 1
  }

  lemma {:induction false} LoadStays(kind: Class, blocks: seq<int>, p: Params, cap: nat, sim: Sim<()>, i: nat, j: nat)
    requires Loaded(kind, blocks, p, sim, i, j) && (kind == Rag ==> blocks != [] && i <= 8)
    ensures Stays(Pairs(p, cap), Routing(), sim, Load(kind, blocks, p), Side(kind, i, j))
  {
    var req := Load(kind, blocks, p);
    var q := Before(Pairs(p, cap), sim, req);
    DrainIsLong(p, blocks);
    CoarseOfLoaded(q, 0, blocks, i);
    CoarseOfLoaded(q, 1, blocks, j);
    LocalIs(blocks, sim.nodes[0]);
    LocalIs(blocks, sim.nodes[1]);
    hide Mul, Stays, Coarse, NominalService, Drain, Local, Hot, Busy, Elems, First;
    if kind == Rag {
      MulCompares(i as real, SATURATION_DEPTH as real, NominalService(p));
      HotOfTwo(q);
      FollowsHot(q);
      ClassStays(Pairs(p, cap), sim, Rag, req, 0);
    } else {
      MulCompares(i as real, j as real, NominalService(p));
      OneshotStays(Pairs(p, cap), sim, req);
    }
  }

  lemma {:induction false} FollowsHot(q: Query)
    requires HasNodes(q) && Hot(q) == 0 && Have(q, 0) > 0
    requires Coarse(q, 0) <= Mul(SATURATION_DEPTH as real, NominalService(q.params))
    ensures ClassAwareChoice(Rag, q) == Choice(0, false)
  {
    hide Hot, Coarse, NominalService, Mul, Have;
  }

  lemma {:induction false} BusyMore(p: Params, blocks: seq<int>, busy: real, i: nat)
    requires Busy(p, blocks, busy, i)
    ensures Busy(p, blocks, MaxReal(Drain(p, blocks), busy) + NominalService(p), i + 1)
  {
    var n := NominalService(p);
    DrainIsLong(p, blocks);
    MulDistributes(n, i as real, 1.0);
    MulUnits(n);
    MulNonNegative(i as real, n);
    assert (i + 1) as real == i as real + 1.0;
    hide Mul, NominalService, Drain;
  }

  /** A load takes one nominal service time and leaves the caches as they are. */
  lemma {:induction false} LoadCosts(kind: Class, blocks: seq<int>, p: Params, sim: Sim<()>, i: nat, j: nat)
    requires Loaded(kind, blocks, p, sim, i, j)
    ensures var req := Load(kind, blocks, p);
            && Serving(p, req, Local(req.view.blocks, sim.nodes[Side(kind, i, j)])) == NominalService(p)
            && First(kind, blocks) + Elems(req.view.blocks) == First(kind, blocks)
            && Elems(blocks) + Elems(req.view.blocks) == Elems(blocks)
  {
    var req := Load(kind, blocks, p);
    NominalLoad(p, req);
    LocalIs(req.view.blocks, sim.nodes[Side(kind, i, j)]);
    hide Serving, NominalService, Busy, Local, Drain;
  }

  lemma {:induction false} LoadServed(kind: Class, blocks: seq<int>, p: Params, cap: nat, sim: Sim<()>, k: nat, i: nat,
                                      j: nat)
    requires Routes(Routing()) && Loaded(kind, blocks, p, sim, i, j) && |Elems(blocks)| <= cap
    requires kind == Rag ==> blocks != [] && i <= 8
    ensures var side, sim' := Side(kind, i, j), Serve(Pairs(p, cap), Routing(), sim, k, Load(kind, blocks, p));
            if side == 0 then Loaded(kind, blocks, p, sim', i + 1, j) else Loaded(kind, blocks, p, sim', i, j + 1)
  {
    hide Serve, Routes, Stays, IsAt, Serving, Local, NominalService, Routing, Elems, First, Busy, Pair, Drain;
    var req := Load(kind, blocks, p);
    var a, b := Held(sim.nodes[0].busyUntil, First(kind, blocks)), Held(sim.nodes[1].busyUntil, Elems(blocks));
    LoadedIsPair(kind, blocks, p, sim, i, j);
    LoadStays(kind, blocks, p, cap, sim, i, j);
    LoadCosts(kind, blocks, p, sim, i, j);
    FirstIsSmall(kind, blocks, cap);
    DrainIsLong(p, blocks);
    BusyMore(p, blocks, a.busy, i);
    BusyMore(p, blocks, b.busy, j);
    PairStep(Pairs(p, cap), Routing(), sim, k, req, Side(kind, i, j), a, b);
    hide Loaded;
    var sim', more := Serve(Pairs(p, cap), Routing(), sim, k, req), NominalService(p);
    if Side(kind, i, j) == 0 {
      PairIsLoaded(kind, blocks, p, sim', MaxReal(Drain(p, blocks), a.busy) + more, b.busy, i + 1, j);
    } else {
      PairIsLoaded(kind, blocks, p, sim', a.busy, MaxReal(Drain(p, blocks), b.busy) + more, i, j + 1);
    }
  }

  lemma FirstIsSmall(kind: Class, blocks: seq<int>, cap: nat)
    requires |Elems(blocks)| <= cap
    ensures |First(kind, blocks)| <= cap
  {
  }

  lemma {:induction false} LoadedIsPair(kind: Class, blocks: seq<int>, p: Params, sim: Sim<()>, i: nat, j: nat)
    requires Loaded(kind, blocks, p, sim, i, j)
    ensures Pair(sim, Held(sim.nodes[0].busyUntil, First(kind, blocks)), Held(sim.nodes[1].busyUntil, Elems(blocks)))
    ensures Busy(p, blocks, sim.nodes[0].busyUntil, i) && Busy(p, blocks, sim.nodes[1].busyUntil, j)
  {
    hide Busy, First, Elems;
  }

  /** After `m` loads. */
  lemma {:induction false} AfterLoads(kind: Class, blocks: seq<int>, p: Params, cap: nat, m: nat)
    requires |Elems(blocks)| <= cap && m <= Loads(kind) && (kind == Rag ==> blocks != [])
    ensures if kind == Rag then Loaded(kind, blocks, p, At(kind, blocks, p, cap, m + 2), m, 0)
            else Loaded(kind, blocks, p, At(kind, blocks, p, cap, m + 2), (m + 1) / 2, m / 2)
    decreases m
  {
    hide Loaded, At, Serve, Trace, Load, Routes, Routing, Elems;
    if m == 0 {
      AfterSeeds(kind, blocks, p, cap);
    } else {
      AfterLoads(kind, blocks, p, cap, m - 1);
      AtNext(kind, blocks, p, cap, m + 1);
      var i, j := if kind == Rag then m - 1 else m / 2, if kind == Rag then 0 else (m - 1) / 2;
      LoadServed(kind, blocks, p, cap, At(kind, blocks, p, cap, m + 1), m + 1, i, j);
    }
  }

  // ---------------------------------------------------------------------- the worst case

  lemma {:induction false} WaitLater(p: Params, blocks: seq<int>, n: NodeView, i: nat)
    requires Busy(p, blocks, n.busyUntil, i)
    ensures WaitAt(n, Drain(p, blocks) + 0.5 * NominalService(p)) ==
            Mul(if i == 0 then 0.0 else i as real - 0.5, NominalService(p))
  {
    var t := NominalService(p);
    DrainIsLong(p, blocks);
    MulUnits(t);
    MulSubtracts(t, i as real, 0.5);
    HalfUnits(t);
    MulCompares(1.0, i as real, t);
    hide Mul, NominalService, Drain;
  }

  lemma {:induction false} LastIsWorstCase(kind: Class, blocks: seq<int>, p: Params, sim: Sim<()>, cap: nat)
    requires kind == Rag ==> blocks != []
    requires if kind == Rag then Loaded(kind, blocks, p, sim, 9, 0) else Loaded(kind, blocks, p, sim, 3, 2)
    ensures IsWorstCase(kind, Before(Pairs(p, cap), sim, Last(kind, blocks, p)))
  {
    LocalIs(blocks, sim.nodes[0]);
    LocalIs(blocks, sim.nodes[1]);
    WaitLater(p, blocks, sim.nodes[0], if kind == Rag then 9 else 3);
    WaitLater(p, blocks, sim.nodes[1], if kind == Rag then 0 else 2);
    hide Mul, NominalService, Drain, Local, WaitAt, Busy;
  }

  /**
   No smaller bounds hold: for all parameters, all blocks and every cache that can hold
   them, a class-aware run of a few requests ends with a request of the class that
   records exactly its bound.
   */
  lemma {:induction false} ClassAwareBoundIsAttained(kind: Class, blocks: seq<int>, p: Params, cap: nat)
    requires |Elems(blocks)| <= cap && (kind == Rag ==> blocks != [])
    ensures Routes(Stateless(ClassChoice))
    ensures var c, reqs, k := Pairs(p, cap), Trace(kind, blocks, p), Loads(kind) + 2;
            var q := StepOf(c, Stateless(ClassChoice), (), reqs, k).query;
            var regrets := Simulate(c, Stateless(ClassChoice), (), reqs, |reqs|).result.regrets;
            && reqs[k].view.blocks == blocks && Classify(reqs[k].view) == kind && Have(q, Hot(q)) == |blocks|
            && k < |regrets| && regrets[k] == WorstRegret(kind, q)
  {
    StatelessRoutes(ClassChoice);
    hide Simulate, Trace, Regret, WorstRegret, Loaded, ClassAwareChoice, Stateless;
    var c, reqs, k := Pairs(p, cap), Trace(kind, blocks, p), Loads(kind) + 2;
    AfterLoads(kind, blocks, p, cap, Loads(kind));
    var q := Before(c, At(kind, blocks, p, cap, k), reqs[k]);
    assert q == StepOf(c, Stateless(ClassChoice), (), reqs, k).query;
    LastIsWorstCase(kind, blocks, p, At(kind, blocks, p, cap, k), cap);
    HotOfTwo(q);
    WorstCaseAttains(kind, q);
    StatelessStep(c, ClassChoice, reqs, k);
    RegretIsRecorded(c, Stateless(ClassChoice), (), reqs, k, |reqs|);
  }
}
