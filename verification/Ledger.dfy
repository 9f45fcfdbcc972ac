/** The report of a run as the ledger of its requests: one entry each, summed and sliced. */
module Ledger {
  import opened Basics
  import opened Cost
  import opened CostLaws
  import opened Engine
  import opened EngineLaws
  import opened Handover
  import opened Prices

  /** What one request adds to the report. */
  datatype Entry = Entry(kind: string, ttft: real, e2e: real, regime: Regime, regret: real, coupled: bool,
                         reused: nat, total: nat)

  /** No node holds a longer prefix than `i`, and none with a lower id one as long. */
  ghost predicate FirstLongest(q: Query, i: nat) {
    i < |q.nodes| &&
    forall j :: 0 <= j < |q.nodes| ==> Have(q, j) <= Have(q, i) && (j < i ==> Have(q, j) < Have(q, i))
  }

  /** Seconds to the first token of placement `p`. */
  ghost function Seconds(q: Query, p: Placement): real
    requires HasNodes(q) && p.nodeId < |q.nodes|
  {
    var copied := Copied(q, p);
    Queueing(q.nodes[p.nodeId], q.now) + (if copied == 0 then 0.0 else CopySeconds(q.params, copied))
      + ComputeSeconds(q.params, |q.blocks| - Have(q, p.nodeId) - copied) + q.params.prefillFixed
  }

  ghost function EntryOf(q: Query, p: Placement, kind: string, genTokens: nat): Entry
    requires HasNodes(q) && p.nodeId < |q.nodes|
  {
    var have, copied, best := Have(q, p.nodeId), Copied(q, p), BestChoice(q, true);
    Entry(kind, Seconds(q, p), Seconds(q, p) + genTokens as real * q.params.interToken,
          if copied > 0 then Transfer else if have > 0 && FirstLongest(q, p.nodeId) then WaitForHot else Recompute,
          Seconds(q, p) - Ttft(q, best), best != Choice(Hot(q), false), have + copied, |q.blocks|)
  }

  lemma {:induction false} HotIsFirstLongest(q: Query, i: nat)
    requires HasNodes(q)
    ensures Hot(q) == i <==> FirstLongest(q, i)
  {
    hide Local;
    assert forall j :: 0 <= j < |q.nodes| ==> Have(q, j) == Local(q.blocks, q.nodes[j]);
    if FirstLongest(q, i) {
      HotIsUnique(q.blocks, q.nodes, i);
    }
  }

  /** The outcome of a request, in seconds, blocks and node ids. */
  lemma {:induction false} OutcomeIsEntry(q: Query, p: Placement, kind: string, genTokens: nat)
    requires HasNodes(q) && p.nodeId < |q.nodes|
    ensures var o := OutcomeOf(q, Choice(p.nodeId, p.transfer), genTokens, Coupled(q));
            EntryOf(q, p, kind, genTokens) ==
            Entry(kind, o.ttft, o.e2e, o.regime, o.regret, o.coupled, o.reused, o.total)
  {
    hide Ttft, Seconds, BestChoice, Coupled, FirstLongest, Have, Hot, Copied, Moved, DecodeTime;
    var choice := Choice(p.nodeId, p.transfer);
    SecondsIsTtft(q, p);
    CopiedFits(q, p);
    HotIsFirstLongest(q, p.nodeId);
    OutcomeRegret(q, choice, genTokens, Coupled(q));
    CoupledIsOffTheHotNode(q);
    Decoding(q.params, genTokens);
    var best := BestChoice(q, true);
    assert Resident(q, choice) == Have(q, p.nodeId) + Copied(q, p);
  }

  lemma Decoding(p: Params, genTokens: nat)
    ensures DecodeTime(p, genTokens) == genTokens as real * p.interToken
  {
  }

  lemma {:induction false} SecondsIsTtft(q: Query, p: Placement)
    requires HasNodes(q) && p.nodeId < |q.nodes|
    ensures Seconds(q, p) == Ttft(q, Choice(p.nodeId, p.transfer))
  {
    TimeInFull(q, Choice(p.nodeId, p.transfer));
    hide Ttft, Have, Hot, Queueing, CopySeconds, ComputeSeconds;
  }

  // ----------------------------------------------------------------------- posting

  ghost function Entries<S(!new)>(c: Cluster, policy: Policy<S>, s0: S, reqs: seq<TurnRequest>, k: nat): seq<Entry>
    requires Routes(policy) && c.numNodes > 0 && k <= |reqs|
    decreases k
  {
    if k == 0 then []
    else
      var req, nodes := reqs[k - 1], Simulate(c, policy, s0, reqs, k - 1).nodes;
      Entries(c, policy, s0, reqs, k - 1)
        + [EntryOf(Query(req.view.blocks, nodes, req.arrival, c.params), Decided(c, policy, s0, reqs, k - 1),
                   req.kind, req.genTokens)]
  }

  ghost function Column<T>(es: seq<Entry>, f: Entry -> T): seq<T> {
    seq(|es|, i requires 0 <= i < |es| => f(es[i]))
  }

  ghost function Total(es: seq<Entry>, f: Entry -> nat): nat {
    if es == [] then 0 else Total(es[..|es| - 1], f) + f(es[|es| - 1])
  }

  ghost function OfKind(es: seq<Entry>, kind: string): seq<Entry> {
    if es == [] then []
    else OfKind(es[..|es| - 1], kind) + if es[|es| - 1].kind == kind then [es[|es| - 1]] else []
  }

  lemma {:induction false} ColumnSnoc<T>(es: seq<Entry>, e: Entry, f: Entry -> T)
    ensures Column(es + [e], f) == Column(es, f) + [f(e)]
  {
  }

  lemma {:induction false} TotalSnoc(es: seq<Entry>, e: Entry, f: Entry -> nat)
    ensures Total(es + [e], f) == Total(es, f) + f(e)
  {
    assert (es + [e])[..|es|] == es;
  }

  lemma {:induction false} OfKindSnoc(es: seq<Entry>, e: Entry, kind: string)
    ensures OfKind(es + [e], kind) == OfKind(es, kind) + if e.kind == kind then [e] else []
  {
    assert (es + [e])[..|es|] == es;
  }

  /** The slice of a report for one kind of request. */
  ghost function Slice(es: seq<Entry>): KindStats {
    KindStats(|es|, Column(es, (e: Entry) => e.ttft), Column(es, (e: Entry) => e.regret),
              Total(es, (e: Entry) => e.reused), Total(es, (e: Entry) => e.total))
  }

  ghost function ServedAs(x: Regime): Entry -> nat {
    (e: Entry) => if e.regime == x then 1 else 0
  }

  /** The report is the ledger: its columns, its totals, its count per regime, its slice per kind. */
  ghost predicate Posted(r: SimResult, es: seq<Entry>) {
    && r.successes == |es|
    && r.ttfts == Column(es, (e: Entry) => e.ttft)
    && r.e2e == Column(es, (e: Entry) => e.e2e)
    && r.regrets == Column(es, (e: Entry) => e.regret)
    && r.coupled == Total(es, (e: Entry) => if e.coupled then 1 else 0)
    && r.reused == Total(es, (e: Entry) => e.reused)
    && r.total == Total(es, (e: Entry) => e.total)
    && (forall x: Regime :: GetOr(r.regimes, x, 0) == Total(es, ServedAs(x)))
    && (forall kind :: GetOr(r.byKind, kind, NO_KIND) == Slice(OfKind(es, kind)))
    && (forall kind :: kind in r.byKind <==> OfKind(es, kind) != [])
  }

  lemma {:induction false} SliceSnoc(es: seq<Entry>, e: Entry)
    ensures var s := Slice(es);
            Slice(es + [e]) == KindStats(s.count + 1, s.ttfts + [e.ttft], s.regrets + [e.regret], s.reused + e.reused,
                                         s.total + e.total)
  {
    ColumnSnoc(es, e, (e: Entry) => e.ttft);
    ColumnSnoc(es, e, (e: Entry) => e.regret);
    TotalSnoc(es, e, (e: Entry) => e.reused);
    TotalSnoc(es, e, (e: Entry) => e.total);
    hide Column, Total;
  }

  lemma {:induction false} PostKinds(r: SimResult, es: seq<Entry>, e: Entry, o: Outcome, kind: string)
    requires GetOr(r.byKind, kind, NO_KIND) == Slice(OfKind(es, kind))
    requires kind in r.byKind <==> OfKind(es, kind) != []
    requires e == Entry(e.kind, o.ttft, o.e2e, o.regime, o.regret, o.coupled, o.reused, o.total)
    ensures var r' := RecordOutcome(r, e.kind, o);
            && GetOr(r'.byKind, kind, NO_KIND) == Slice(OfKind(es + [e], kind))
            && (kind in r'.byKind <==> OfKind(es + [e], kind) != [])
  {
    hide Slice, OfKind;
    OfKindSnoc(es, e, kind);
    SliceSnoc(OfKind(es, kind), e);
    assert OfKind(es, kind) + [] == OfKind(es, kind);
  }

  lemma {:induction false} PostOne(r: SimResult, es: seq<Entry>, e: Entry, o: Outcome)
    requires Posted(r, es)
    requires e == Entry(e.kind, o.ttft, o.e2e, o.regime, o.regret, o.coupled, o.reused, o.total)
    ensures Posted(RecordOutcome(r, e.kind, o), es + [e])
  {
    hide Slice, OfKind, Column, Total, RecordKind;
    var r' := RecordOutcome(r, e.kind, o);
    ColumnSnoc(es, e, (e: Entry) => e.ttft);
    ColumnSnoc(es, e, (e: Entry) => e.e2e);
    ColumnSnoc(es, e, (e: Entry) => e.regret);
    TotalSnoc(es, e, (e: Entry) => if e.coupled then 1 else 0);
    TotalSnoc(es, e, (e: Entry) => e.reused);
    TotalSnoc(es, e, (e: Entry) => e.total);
    forall x: Regime
      ensures GetOr(r'.regimes, x, 0) == Total(es + [e], ServedAs(x))
    {
      TotalSnoc(es, e, ServedAs(x));
    }
    forall kind
      ensures GetOr(r'.byKind, kind, NO_KIND) == Slice(OfKind(es + [e], kind))
      ensures kind in r'.byKind <==> OfKind(es + [e], kind) != []
    {
      PostKinds(r, es, e, o, kind);
    }
  }

  /** Every report, after every prefix of every run of every policy, is the ledger of the requests served. */
  lemma {:induction false} ReportIsLedger<S(!new)>(c: Cluster, policy: Policy<S>, s0: S, reqs: seq<TurnRequest>, k: nat)
    requires Routes(policy) && c.numNodes > 0 && k <= |reqs|
    ensures Posted(Simulate(c, policy, s0, reqs, k).result, Entries(c, policy, s0, reqs, k))
  {
    hide Posted, Serve, Routes, Entries;
    if k == 0 {
      NothingPosted(c, policy, s0, reqs);
    } else {
      ReportIsLedger(c, policy, s0, reqs, k - 1);
      PostStep(c, policy, s0, reqs, k - 1);
    }
  }

  lemma NothingPosted<S(!new)>(c: Cluster, policy: Policy<S>, s0: S, reqs: seq<TurnRequest>)
    requires Routes(policy) && c.numNodes > 0
    ensures Posted(Simulate(c, policy, s0, reqs, 0).result, Entries(c, policy, s0, reqs, 0))
  {
  }

  lemma {:induction false} PostStep<S(!new)>(c: Cluster, policy: Policy<S>, s0: S, reqs: seq<TurnRequest>, k: nat)
    requires Routes(policy) && c.numNodes > 0 && k < |reqs|
    requires Posted(Simulate(c, policy, s0, reqs, k).result, Entries(c, policy, s0, reqs, k))
    ensures Posted(Simulate(c, policy, s0, reqs, k + 1).result, Entries(c, policy, s0, reqs, k + 1))
  {
    var sim, req, es := Simulate(c, policy, s0, reqs, k), reqs[k], Entries(c, policy, s0, reqs, k);
    var s, place := StepAt(c, policy, sim, req), Decided(c, policy, s0, reqs, k);
    ServeRecords(c, policy, sim, k, req);
    assert s.query == Query(req.view.blocks, sim.nodes, req.arrival, c.params) && s.placement == place;
    assert s.choice == Choice(place.nodeId, place.transfer);
    hide Simulate, Decided, StepAt, EntryOf, OutcomeOf, Coupled, RecordOutcome, Routes;
    var r := RecordGap(sim.result, req.view.lastToolName, s.gap);
    GapPostsNothing(sim.result, req.view.lastToolName, s.gap, es);
    var o := OutcomeOf(s.query, s.choice, req.genTokens, Coupled(s.query));
    OutcomeIsEntry(s.query, place, req.kind, req.genTokens);
    hide Posted, RecordGap;
    PostOne(r, es, EntryOf(s.query, place, req.kind, req.genTokens), o);
    assert Simulate(c, policy, s0, reqs, k + 1) == Serve(c, policy, sim, k, req);
  }

  lemma GapPostsNothing(r: SimResult, tool: Option<string>, gap: Option<real>, es: seq<Entry>)
    requires Posted(r, es)
    ensures Posted(RecordGap(r, tool, gap), es)
  {
  }
}
