/** The router-side index against the true caches, over whole runs of the weighted router. */
module RouterRuns {
  import opened Basics
  import opened Lru
  import opened Cost
  import opened Policies
  import opened Router
  import opened Engine
  import opened EngineLaws
  import opened Eviction
  import opened PlainLru
  import CostLaws

  function Informed(precise: bool, beliefs: Beliefs, q: Query): (b: Beliefs)
    ensures |beliefs| == |q.nodes| ==> |b| == |q.nodes|
  {
    if precise then TrueBeliefs(q.nodes) else beliefs
  }

  /** The weighted router; only the approximate one keeps writing its index. */
  function WeightedPolicy(s: Scoring, precise: bool, capacity: nat): Policy<Beliefs> {
    (beliefs: Beliefs, v: RequestView, q: Query) =>
      if q.nodes == [] || |beliefs| != |q.nodes| then (NOWHERE, beliefs)
      else
        var w := Winner(q, s, Informed(precise, beliefs, q));
        (Predict(q, Choice(w, false)), if precise then beliefs else Recorded(beliefs, w, q.blocks, capacity))
  }

  lemma {:induction false} WeightedRoutes(s: Scoring, precise: bool, capacity: nat)
    ensures Routes(WeightedPolicy(s, precise, capacity))
  {
    hide Winner, Ttft, RegimeOf;
  }

  function NoBeliefs(c: Cluster): (b: Beliefs)
    ensures |b| == c.numNodes && forall i :: 0 <= i < c.numNodes ==> b[i] == []
  {
    seq(c.numNodes, _ => [])
  }

  function WeightedRun(c: Cluster, s: Scoring, precise: bool, capacity: nat, reqs: seq<TurnRequest>,
                       k: nat): (sim: Sim<Beliefs>)
    requires c.numNodes > 0 && k <= |reqs|
    ensures |sim.nodes| == c.numNodes
  {
    WeightedRoutes(s, precise, capacity);
    Simulate(c, WeightedPolicy(s, precise, capacity), NoBeliefs(c), reqs, k)
  }

  // ------------------------------------------------------------- belief and truth

  /** A node without directives and the router's belief about it: one list is a suffix of the other. */
  ghost predicate Tracks(cache: Cache, belief: seq<int>, cap: nat, capacity: nat) {
    && Coherent(cache) && cache.marks == map[] && Distinct(belief)
    && (cap <= capacity ==> Suffix(cache.order, belief))
    && (capacity <= cap ==> Suffix(belief, cache.order))
  }

  lemma {:induction false} TracksStep(cache: Cache, belief: seq<int>, cap: nat, capacity: nat, a: Admission)
    requires Tracks(cache, belief, cap, capacity)
    requires Directive(a.now, a.retainUntil, a.priority) == None
    ensures Tracks(Admit(cache, Directives, cap, a), LastN(TouchAll(belief, a.blocks), capacity), cap, capacity)
  {
    hide TouchAll, Admit, LastN;
    PlainAdmit(cache, cap, a);
    PlainStaysCoherent(cache.order, a.blocks, cap, cache.pinned);
    PlainStaysCoherent(belief, a.blocks, capacity, 0);
    if cap <= capacity {
      SuffixStep(cache.order, belief, a.blocks, cap, capacity);
    }
    if capacity <= cap {
      SuffixStep(belief, cache.order, a.blocks, capacity, cap);
    }
  }

  lemma {:induction false} PlainStaysCoherent(order: seq<int>, blocks: seq<int>, cap: nat, pinned: nat)
    requires Distinct(order)
    ensures Distinct(LastN(TouchAll(order, blocks), cap))
    ensures Coherent(Cache(LastN(TouchAll(order, blocks), cap), map[], pinned))
  {
    TouchAllFacts(order, blocks);
    SuffixFacts(LastN(TouchAll(order, blocks), cap), TouchAll(order, blocks));
  }

  lemma {:induction false} SuffixStep(a: seq<int>, b: seq<int>, blocks: seq<int>, m: nat, n: nat)
    requires Distinct(b) && Suffix(a, b) && m <= n
    ensures Suffix(LastN(TouchAll(a, blocks), m), LastN(TouchAll(b, blocks), n))
  {
    TouchAllSuffix(a, b, blocks);
    LastNSuffix(TouchAll(a, blocks), TouchAll(b, blocks), m, n);
  }

  /** Serving one request under the weighted router. */
  lemma {:induction false} WeightedStep(c: Cluster, s: Scoring, precise: bool, capacity: nat, sim: Sim<Beliefs>,
                                        k: nat, req: TurnRequest)
    returns (a: Admission)
    requires Routes(WeightedPolicy(s, precise, capacity))
    requires sim.nodes != [] && |sim.policy| == |sim.nodes| && req.arrival >= 0.0
    ensures a.blocks == req.view.blocks && Directive(a.now, a.retainUntil, a.priority) == None
    ensures var q := QueryFor(c, sim.nodes, req);
            var w := Winner(q, s, Informed(precise, sim.policy, q));
            var sim' := Serve(c, WeightedPolicy(s, precise, capacity), sim, k, req);
            && sim'.nodes == sim.nodes[w := AdmitNode(c, sim.nodes[w], a)]
            && sim'.policy == (if precise then sim.policy else Recorded(sim.policy, w, req.view.blocks, capacity))
  {
    hide Winner, Ttft, RegimeOf, ServiceTime, AdmitNode, OutcomeOf, RecordOutcome, Recorded;
    var q := QueryFor(c, sim.nodes, req);
    var w := Winner(q, s, Informed(precise, sim.policy, q));
    var place := WeightedPolicy(s, precise, capacity)(sim.policy, req.view, q).0;
    assert place == Predict(q, Choice(w, false));
    a := AdmissionFor(q, req, place, k);
  }

  ghost predicate AllTrack(c: Cluster, capacity: nat, sim: Sim<Beliefs>) {
    && |sim.policy| == |sim.nodes| == c.numNodes
    && forall i :: 0 <= i < |sim.nodes| ==> Tracks(sim.nodes[i].cache, sim.policy[i], c.cacheBlocks, capacity)
  }

  ghost predicate Arrives(reqs: seq<TurnRequest>) {
    forall k :: 0 <= k < |reqs| ==> reqs[k].arrival >= 0.0
  }

  lemma {:induction false} BeliefsTrackCaches(c: Cluster, s: Scoring, capacity: nat, reqs: seq<TurnRequest>, k: nat)
    requires c.numNodes > 0 && c.strategy == Directives && Arrives(reqs) && k <= |reqs|
    ensures AllTrack(c, capacity, WeightedRun(c, s, false, capacity, reqs, k))
  {
    hide AllTrack, WeightedRun;
    if k == 0 {
      NothingBelieved(c, s, capacity, reqs);
    } else {
      BeliefsTrackCaches(c, s, capacity, reqs, k - 1);
      TrackServe(c, s, capacity, WeightedRun(c, s, false, capacity, reqs, k - 1), k - 1, reqs[k - 1]);
      WeightedRunStep(c, s, false, capacity, reqs, k - 1);
    }
  }

  lemma {:induction false} NothingBelieved(c: Cluster, s: Scoring, capacity: nat, reqs: seq<TurnRequest>)
    requires c.numNodes > 0
    ensures AllTrack(c, capacity, WeightedRun(c, s, false, capacity, reqs, 0))
  {
    WeightedRoutes(s, false, capacity);
  }

  lemma {:induction false} WeightedRunStep(c: Cluster, s: Scoring, precise: bool, capacity: nat,
                                           reqs: seq<TurnRequest>, k: nat)
    requires c.numNodes > 0 && k < |reqs|
    ensures Routes(WeightedPolicy(s, precise, capacity))
    ensures WeightedRun(c, s, precise, capacity, reqs, k + 1) ==
            Serve(c, WeightedPolicy(s, precise, capacity), WeightedRun(c, s, precise, capacity, reqs, k), k, reqs[k])
  {
    WeightedRoutes(s, precise, capacity);
    hide Serve, Routes, WeightedPolicy;
  }

  lemma {:induction false} TrackServe(c: Cluster, s: Scoring, capacity: nat, sim: Sim<Beliefs>, k: nat,
                                      req: TurnRequest)
    requires c.numNodes > 0 && c.strategy == Directives && req.arrival >= 0.0 && AllTrack(c, capacity, sim)
    ensures Routes(WeightedPolicy(s, false, capacity))
    ensures AllTrack(c, capacity, Serve(c, WeightedPolicy(s, false, capacity), sim, k, req))
  {
    WeightedRoutes(s, false, capacity);
    hide Serve, Routes, WeightedPolicy, Winner, Tracks, Admit;
    var a := WeightedStep(c, s, false, capacity, sim, k, req);
    var q := QueryFor(c, sim.nodes, req);
    var w := Winner(q, s, Informed(false, sim.policy, q));
    TracksStep(sim.nodes[w].cache, sim.policy[w], c.cacheBlocks, capacity, a);
  }

  /**
   Stale beliefs are one-sided: a larger index believes everything a node holds and
   perhaps more, a smaller one believes nothing a node does not hold, and an index as
   large as the cache believes the cache itself, recency included.
   */
  lemma {:induction false} BeliefAgainstTruth(c: Cluster, s: Scoring, capacity: nat, reqs: seq<TurnRequest>, k: nat,
                                              i: nat)
    requires c.numNodes > 0 && c.strategy == Directives && Arrives(reqs) && k <= |reqs| && i < c.numNodes
    ensures var sim := WeightedRun(c, s, false, capacity, reqs, k);
            && |sim.policy| == c.numNodes
            && (c.cacheBlocks <= capacity ==> Elems(sim.nodes[i].cache.order) <= Elems(sim.policy[i]))
            && (capacity <= c.cacheBlocks ==> Elems(sim.policy[i]) <= Elems(sim.nodes[i].cache.order))
            && (capacity == c.cacheBlocks ==> sim.policy[i] == sim.nodes[i].cache.order)
  {
    hide WeightedRun, Elems, Distinct;
    BeliefsTrackCaches(c, s, capacity, reqs, k);
    var sim := WeightedRun(c, s, false, capacity, reqs, k);
    assert Tracks(sim.nodes[i].cache, sim.policy[i], c.cacheBlocks, capacity);
    if c.cacheBlocks <= capacity {
      SuffixFacts(sim.nodes[i].cache.order, sim.policy[i]);
    }
    if capacity <= c.cacheBlocks {
      SuffixFacts(sim.policy[i], sim.nodes[i].cache.order);
    }
  }

  // ------------------------------------------------------------------ bisimulation

  /** Everything but the router's private state. */
  ghost predicate SameWorld(a: Sim<Beliefs>, b: Sim<Beliefs>) {
    a.nodes == b.nodes && a.seen == b.seen && a.result == b.result
  }

  /** With an index as large as the caches the approximate and the precise router are step-for-step the same. */
  lemma {:induction false} ApproximateIsPrecise(c: Cluster, s: Scoring, reqs: seq<TurnRequest>, k: nat)
    requires c.numNodes > 0 && c.strategy == Directives && Arrives(reqs) && k <= |reqs|
    ensures SameWorld(WeightedRun(c, s, false, c.cacheBlocks, reqs, k), WeightedRun(c, s, true, c.cacheBlocks, reqs, k))
    ensures |WeightedRun(c, s, true, c.cacheBlocks, reqs, k).policy| == c.numNodes
  {
    hide WeightedRun, SameWorld;
    if k == 0 {
      SameStart(c, s, reqs);
    } else {
      ApproximateIsPrecise(c, s, reqs, k - 1);
      SameStep(c, s, reqs, k - 1);
    }
  }

  lemma {:induction false} SameStart(c: Cluster, s: Scoring, reqs: seq<TurnRequest>)
    requires c.numNodes > 0
    ensures SameWorld(WeightedRun(c, s, false, c.cacheBlocks, reqs, 0), WeightedRun(c, s, true, c.cacheBlocks, reqs, 0))
    ensures |WeightedRun(c, s, true, c.cacheBlocks, reqs, 0).policy| == c.numNodes
  {
    WeightedRoutes(s, false, c.cacheBlocks);
    WeightedRoutes(s, true, c.cacheBlocks);
  }

  lemma {:induction false} SameStep(c: Cluster, s: Scoring, reqs: seq<TurnRequest>, k: nat)
    requires c.numNodes > 0 && c.strategy == Directives && Arrives(reqs) && k < |reqs|
    requires SameWorld(WeightedRun(c, s, false, c.cacheBlocks, reqs, k),
             WeightedRun(c, s, true, c.cacheBlocks, reqs, k))
    requires |WeightedRun(c, s, true, c.cacheBlocks, reqs, k).policy| == c.numNodes
    ensures SameWorld(WeightedRun(c, s, false, c.cacheBlocks, reqs, k + 1),
            WeightedRun(c, s, true, c.cacheBlocks, reqs, k + 1))
    ensures |WeightedRun(c, s, true, c.cacheBlocks, reqs, k + 1).policy| == c.numNodes
  {
    hide WeightedRun, WeightedPolicy, Serve, Routes;
    var a, p := WeightedRun(c, s, false, c.cacheBlocks, reqs, k), WeightedRun(c, s, true, c.cacheBlocks, reqs, k);
    forall i | 0 <= i < c.numNodes ensures |a.policy| == c.numNodes && a.policy[i] == a.nodes[i].cache.order {
      BeliefAgainstTruth(c, s, c.cacheBlocks, reqs, k, i);
    }
    BeliefAgainstTruth(c, s, c.cacheBlocks, reqs, k, 0);
    assert a.policy == TrueBeliefs(a.nodes);
    WeightedRunStep(c, s, false, c.cacheBlocks, reqs, k);
    WeightedRunStep(c, s, true, c.cacheBlocks, reqs, k);
    SameServe(c, s, a, p, k, reqs[k]);
  }

  /** With beliefs equal to the caches both routers place the request alike. */
  lemma {:induction false} SamePlacement(s: Scoring, capacity: nat, beliefs: Beliefs, other: Beliefs, v: RequestView,
                                         q: Query)
    requires HasNodes(q) && beliefs == TrueBeliefs(q.nodes) && |other| == |q.nodes|
    ensures WeightedPolicy(s, false, capacity)(beliefs, v, q).0 == WeightedPolicy(s, true, capacity)(other, v, q).0
    ensures WeightedPolicy(s, true, capacity)(other, v, q).1 == other
  {
    hide Winner, Predict, Recorded;
  }

  lemma {:induction false} SameServe(c: Cluster, s: Scoring, a: Sim<Beliefs>, p: Sim<Beliefs>, k: nat, req: TurnRequest)
    requires SameWorld(a, p) && a.nodes != [] && a.policy == TrueBeliefs(a.nodes) && |p.policy| == |p.nodes|
    ensures Routes(WeightedPolicy(s, false, c.cacheBlocks)) && Routes(WeightedPolicy(s, true, c.cacheBlocks))
    ensures var a', p' := Serve(c, WeightedPolicy(s, false, c.cacheBlocks), a, k, req),
                          Serve(c, WeightedPolicy(s, true, c.cacheBlocks), p, k, req);
            SameWorld(a', p') && p'.policy == p.policy
  {
    WeightedRoutes(s, false, c.cacheBlocks);
    WeightedRoutes(s, true, c.cacheBlocks);
    SamePlacement(s, c.cacheBlocks, a.policy, p.policy, req.view, QueryFor(c, a.nodes, req));
    hide WeightedPolicy, AdmitNode, AdmissionFor, OutcomeOf, RecordOutcome, RecordGap, CostLaws.Coupled;
  }
}
