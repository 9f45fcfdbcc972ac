/** What a learner learns does not depend on how conversations are named. */
module Renaming {
  import opened Basics
  import opened Lru
  import opened LearningHistory
  import opened Retention
  import opened RetentionLaws

  ghost predicate OneToOne<A(!new), B>(f: A -> B) {
    forall x, y :: f(x) == f(y) ==> x == y
  }

  function Mapped<A, B>(f: A -> B, s: seq<A>): (t: seq<B>)
    ensures |t| == |s|
    ensures forall i :: 0 <= i < |s| ==> t[i] == f(s[i])
  {
    seq(|s|, i requires 0 <= i < |s| => f(s[i]))
  }

  lemma {:induction false} IndexOfMapped<A(!new), B>(f: A -> B, s: seq<A>, x: A)
    requires OneToOne(f)
    ensures IndexOf(Mapped(f, s), f(x)) == IndexOf(s, x)
  {
    if s != [] {
      IndexOfMapped(f, s[1..], x);
      assert Mapped(f, s)[1..] == Mapped(f, s[1..]);
    }
  }

  lemma {:induction false} WithoutMapped<A(!new), B>(f: A -> B, s: seq<A>, x: A)
    requires OneToOne(f)
    ensures Without(Mapped(f, s), f(x)) == Mapped(f, Without(s, x))
  {
    IndexOfMapped(f, s, x);
    hide OneToOne, IndexOf, Mapped;
    var i := IndexOf(s, x);
    if i < |s| {
      MappedJoins(f, s[..i], s[i + 1..]);
      MappedParts(f, s, i);
    }
  }

  lemma {:induction false} TouchMapped<A(!new), B>(f: A -> B, s: seq<A>, x: A)
    requires OneToOne(f)
    ensures Touch(Mapped(f, s), f(x)) == Mapped(f, Touch(s, x))
  {
    assert Mapped(f, [x]) == [f(x)];
    hide OneToOne, Without, Mapped;
    WithoutMapped(f, s, x);
    MappedJoins(f, Without(s, x), [x]);
  }

  lemma MappedJoins<A, B>(f: A -> B, a: seq<A>, b: seq<A>)
    ensures Mapped(f, a + b) == Mapped(f, a) + Mapped(f, b)
  {
  }

  lemma MappedParts<A, B>(f: A -> B, s: seq<A>, i: nat)
    requires i < |s|
    ensures Mapped(f, s)[..i] == Mapped(f, s[..i]) && Mapped(f, s)[i + 1..] == Mapped(f, s[i + 1..])
  {
  }

  lemma {:induction false} RecencyMapped<A(!new), B>(f: A -> B, xs: seq<A>)
    requires OneToOne(f)
    ensures Recency(Mapped(f, xs)) == Mapped(f, Recency(xs))
  {
    hide OneToOne, Touch;
    if xs == [] {
      assert Recency(Mapped(f, xs)) == [];
    } else {
      var n := |xs| - 1;
      RecencyMapped(f, xs[..n]);
      assert Mapped(f, xs)[..n] == Mapped(f, xs[..n]);
      TouchMapped(f, Recency(xs[..n]), xs[n]);
    }
  }

  lemma {:induction false} RecentMapped<A(!new), B>(f: A -> B, keys: seq<A>, cap: nat, key: A)
    requires OneToOne(f)
    ensures Recent(Mapped(f, keys), cap, f(key)) <==> Recent(keys, cap, key)
  {
    RecencyMapped(f, keys);
    LastNMapped(f, Recency(keys), cap);
    hide Recency, LastN;
    var kept := LastN(Recency(keys), cap);
    if i :| 0 <= i < |kept| && kept[i] == key {
      assert Mapped(f, kept)[i] == f(key);
    }
  }

  lemma LastNMapped<A, B>(f: A -> B, s: seq<A>, cap: nat)
    ensures LastN(Mapped(f, s), cap) == Mapped(f, LastN(s, cap))
  {
  }

  function MappedKey<K, L>(f: K -> L, key: Option<K>): Option<L> {
    match key
    case None => None
    case Some(k) => Some(f(k))
  }

  /** The same turns under other conversation names. */
  function Renamed<K, L, T>(f: K -> L, turns: seq<Turn<K, T>>): (renamed: seq<Turn<L, T>>)
    ensures |renamed| == |turns|
    ensures forall i :: 0 <= i < |turns| ==>
              renamed[i] == Turn(MappedKey(f, turns[i].conversation), turns[i].tool, turns[i].now)
  {
    seq(|turns|, i requires 0 <= i < |turns| => Turn(MappedKey(f, turns[i].conversation), turns[i].tool, turns[i].now))
  }

  lemma {:induction false} KeysMapped<K(!new), L, T>(f: K -> L, turns: seq<Turn<K, T>>, k: nat)
    requires k <= |turns|
    ensures Keys(Sightings(Renamed(f, turns)), k) == Mapped(f, Keys(Sightings(turns), k))
  {
    if k > 0 {
      KeysMapped(f, turns, k - 1);
    }
  }

  lemma {:induction false} LastTimeMapped<K(!new), L, T>(f: K -> L, turns: seq<Turn<K, T>>, k: nat, key: K)
    requires OneToOne(f) && k <= |turns|
    ensures LastTime(Sightings(Renamed(f, turns)), k, f(key)) == LastTime(Sightings(turns), k, key)
  {
    if k > 0 {
      LastTimeMapped(f, turns, k - 1, key);
    }
  }

  lemma {:induction false} ExactGapMapped<K(!new), L, T>(f: K -> L, turns: seq<Turn<K, T>>, cap: nat, k: nat)
    requires OneToOne(f) && k < |turns|
    ensures ExactGap(Sightings(Renamed(f, turns)), cap, k) == ExactGap(Sightings(turns), cap, k)
  {
    hide OneToOne, Keys, LastTime, Recent;
    if turns[k].conversation.Some? {
      var key := turns[k].conversation.value;
      KeysMapped(f, turns, k);
      RecentMapped(f, Keys(Sightings(turns), k), cap, key);
      LastTimeMapped(f, turns, k, key);
    }
  }

  lemma {:induction false} SamplesMapped<K(!new), L, T>(f: K -> L, turns: seq<Turn<K, T>>, cfg: Config, k: nat)
    requires OneToOne(f) && k <= |turns|
    ensures Samples(Renamed(f, turns), cfg, k) == Samples(turns, cfg, k)
  {
    hide OneToOne, ExactGap;
    if k > 0 {
      SamplesMapped(f, turns, cfg, k - 1);
      ExactGapMapped(f, turns, cfg.trackerCapacity, k - 1);
    }
  }

  lemma {:induction false} IndexMapped<K(!new), L, T>(f: K -> L, turns: seq<Turn<K, T>>, cfg: Config, k: nat)
    requires OneToOne(f) && k <= |turns|
    ensures LearnAll(Renamed(f, turns), cfg, k).index == LearnAll(turns, cfg, k).index
  {
    hide OneToOne, LearnAll, Samples;
    SamplesMapped(f, turns, cfg, k);
    LearnerMatchesHistory(turns, cfg, k);
    LearnerMatchesHistory(Renamed(f, turns), cfg, k);
  }
}

/** The plugin's directives against the placements of the simulator's learning router. */
module PluginMirrors {
  import opened Basics
  import opened Cost
  import opened Policies
  import opened Learning
  import opened Retention
  import opened Reliability
  import opened ReliabilityRuns
  import opened Engine
  import opened HeaderText
  import opened PreRequest
  import opened PreRequestLaws
  import opened TwoLearners
  import opened Renaming
  import BoundedMap
  import GapStats
  import Priority

  /** How conversation ids appear in the gateway: distinct texts, never empty. */
  ghost predicate Keys(key: int -> string) {
    OneToOne(key) && forall id :: key(id) != ""
  }

  function ScopeOf(key: int -> string, id: Option<int>): string {
    match id
    case None => ""
    case Some(i) => key(i)
  }

  function ToolText(tool: Option<string>): string {
    match tool
    case None => ""
    case Some(t) => t
  }

  /** The request as the plugin meets it. */
  function AtGateway(key: int -> string, req: TurnRequest): Seen {
    Seen(Classify(req.view), ToolText(req.view.lastToolName), ScopeOf(key, req.view.conversationId), req.arrival)
  }

  function GatewayStream(key: int -> string, reqs: seq<TurnRequest>): (seen: seq<Seen>)
    ensures |seen| == |reqs|
    ensures forall i :: 0 <= i < |reqs| ==> seen[i] == AtGateway(key, reqs[i])
  {
    seq(|reqs|, i requires 0 <= i < |reqs| => AtGateway(key, reqs[i]))
  }

  /** In the gateway the empty text means no tool. */
  ghost predicate NamesTools(reqs: seq<TurnRequest>) {
    forall i :: 0 <= i < |reqs| ==> reqs[i].view.lastToolName != Some("")
  }

  lemma {:induction false} SameTurns(key: int -> string, reqs: seq<TurnRequest>)
    requires Keys(key) && NamesTools(reqs)
    ensures SeenTurns(GatewayStream(key, reqs)) == Renamed(key, Turns(reqs))
  {
    var a, b := SeenTurns(GatewayStream(key, reqs)), Renamed(key, Turns(reqs));
    hide Classify;
    forall i | 0 <= i < |reqs| ensures a[i] == b[i] {
      assert a[i] == SeenTurn(AtGateway(key, reqs[i]));
    }
  }

  /** The router's index in the simulator is that of the plugin's stream. */
  lemma {:induction false} IndexAtGateway(key: int -> string, reqs: seq<TurnRequest>, cfg: Config, k: nat)
    requires Keys(key) && NamesTools(reqs) && k <= |reqs|
    ensures LearnAll(Turns(reqs), cfg, k).index == Taught(Simulator, GatewayStream(key, reqs), cfg, k).index
  {
    SameTurns(key, reqs);
    hide LearnAll, Taught, OneToOne, Turns, GatewayStream, SeenTurns;
    IndexMapped(key, Turns(reqs), cfg, k);
    SimulatorIsTaught(GatewayStream(key, reqs), cfg, k);
  }

  /** A placement's directive as the header text the plugin would print for it. */
  function Printed(place: Placement, r: Seen, render: int -> string): Option<string> {
    match place.priority
    case None => None
    case Some(p) =>
      if p == Priority.HIGH then Some(LeaseText(Ttl(place.retainUntil - r.now), r.scope, render)) else Some(Itoa(p))
  }

  /** The directive the learning router attaches, given its index. */
  function DirectedBy(index: BoundedMap.Table<string, GapStats.GapStat>, r: Seen, q: Query, cfg: Config,
                      sqrt: real -> real): Placement
    requires HasNodes(q)
  {
    var place, p := ClassAwarePlacement(r.kind, q), PredictGap(index, map[], DEFAULT_PRIOR, Named(r.tool));
    if p.variance >= 0.0 then Directed(r.kind, place, p, q.now, cfg, sqrt) else place
  }

  /** From equal indices both sides direct alike, whatever the class. */
  lemma {:induction false} DirectAlike(seen: seq<Seen>, cfg: Config, sqrt: real -> real, render: int -> string, k: nat,
                                       q: Query)
    requires k < |seen| && 0.0 <= cfg.alpha <= 1.0 && HasNodes(q) && q.now == seen[k].now
    requires Taught(Simulator, seen, cfg, k + 1).index == Taught(Plugin, seen, cfg, k + 1).index
    ensures Emitted(seen, cfg, sqrt, render, k) ==
            Printed(DirectedBy(Taught(Simulator, seen, cfg, k + 1).index, seen[k], q, cfg, sqrt), seen[k], render)
  {
    PluginIsTaught(seen, cfg, sqrt, render, k);
    TaughtStaysSane(seen, cfg, k + 1);
    hide HinterRun, Learn, PredictGap, Window, Confidence, LeaseText, Ttl, Itoa, ClassAwarePlacement, Directed, Retains,
         Printed;
    var r := seen[k];
    var p := PredictGap(Taught(Plugin, seen, cfg, k + 1).index, map[], DEFAULT_PRIOR, Named(r.tool));
    PredictionIsSane(Taught(Plugin, seen, cfg, k + 1).index, r.tool);
    DirectiveByClass(r.kind, q, p, cfg, sqrt);
    PrintedByClass(Directed(r.kind, ClassAwarePlacement(r.kind, q), p, q.now, cfg, sqrt), r, Window(cfg, sqrt, p),
                   render);
  }

  lemma {:induction false} TaughtStaysSane(seen: seq<Seen>, cfg: Config, k: nat)
    requires k <= |seen| && 0.0 <= cfg.alpha <= 1.0
    ensures Sane(Taught(Plugin, seen, cfg, k).index)
  {
    hide Learn;
    if k > 0 {
      TaughtStaysSane(seen, cfg, k - 1);
      LearnStaysSane(Taught(Plugin, seen, cfg, k - 1), SeenTurn(seen[k - 1]), cfg);
      hide Sane;
    }
  }

  lemma PredictionIsSane(index: BoundedMap.Table<string, GapStats.GapStat>, tool: string)
    requires Sane(index)
    ensures PredictGap(index, map[], DEFAULT_PRIOR, Named(tool)).variance >= 0.0
  {
  }

  lemma {:induction false} PrintedByClass(place: Placement, r: Seen, window: real, render: int -> string)
    ensures place.priority == None ==> Printed(place, r, render) == None
    ensures place.priority == Some(Priority.EVICT_FIRST) ==>
              Printed(place, r, render) == Some(Itoa(Priority.EVICT_FIRST))
    ensures place.priority == Some(Priority.HIGH) && place.retainUntil == r.now + window ==>
              Printed(place, r, render) == Some(LeaseText(Ttl(window), r.scope, render))
  {
    hide Itoa, LeaseText, Ttl;
    assert place.retainUntil == r.now + window ==> place.retainUntil - r.now == window;
  }

  /**
   The plugin mirrors the router: in an engine run whose requests have all taught both
   sides alike so far, the directive the plugin emits for a request is the printed form
   of the one on the router's placement, leases and their lengths included.
   */
  lemma {:induction false} PluginMirrorsRouter(c: Cluster, cfg: Config, sqrt: real -> real, render: int -> string,
                                               key: int -> string, reqs: seq<TurnRequest>, k: nat)
    requires c.numNodes > 0 && k < |reqs| && 0.0 <= cfg.alpha <= 1.0 && Keys(key) && NamesTools(reqs)
    requires AllTeachAlike(GatewayStream(key, reqs), cfg, k + 1)
    ensures Emitted(GatewayStream(key, reqs), cfg, sqrt, render, k) ==
            Printed(LearningStep(c, cfg, sqrt, reqs, k).placement, AtGateway(key, reqs[k]), render)
  {
    hide Taught, Emitted, Printed, DirectedBy, LearningStep, AllTeachAlike, AtGateway, Keys, NamesTools;
    RouterAtGateway(c, cfg, sqrt, key, reqs, k);
    IndicesAgree(GatewayStream(key, reqs), cfg, k + 1);
    DirectAlike(GatewayStream(key, reqs), cfg, sqrt, render, k, LearningStep(c, cfg, sqrt, reqs, k).query);
  }

  /** The router's placement in terms of the gateway's stream. */
  lemma {:induction false} RouterAtGateway(c: Cluster, cfg: Config, sqrt: real -> real, key: int -> string,
                                           reqs: seq<TurnRequest>, k: nat)
    requires c.numNodes > 0 && k < |reqs| && Keys(key) && NamesTools(reqs)
    ensures var s, r := LearningStep(c, cfg, sqrt, reqs, k), AtGateway(key, reqs[k]);
            && s.query.now == r.now
            && s.placement == DirectedBy(Taught(Simulator, GatewayStream(key, reqs), cfg, k + 1).index, r, s.query,
               cfg, sqrt)
  {
    hide Taught, Directed, ClassAwarePlacement, LearningStep, PredictGap, Classify, Turns, OneToOne, LearnAll;
    LearningDecides(c, cfg, sqrt, reqs, k);
    IndexAtGateway(key, reqs, cfg, k + 1);
    assert Named(ToolText(reqs[k].view.lastToolName)) == reqs[k].view.lastToolName;
  }

  /** On an orderly stream it does so at every request. */
  lemma {:induction false} OrderlyRunsAreMirrored(c: Cluster, cfg: Config, sqrt: real -> real, render: int -> string,
                                                  key: int -> string, reqs: seq<TurnRequest>, k: nat)
    requires c.numNodes > 0 && k < |reqs| && 0.0 <= cfg.alpha <= 1.0 && Keys(key) && NamesTools(reqs)
    requires Orderly(GatewayStream(key, reqs), cfg)
    ensures Emitted(GatewayStream(key, reqs), cfg, sqrt, render, k) ==
            Printed(LearningStep(c, cfg, sqrt, reqs, k).placement, AtGateway(key, reqs[k]), render)
  {
    hide Orderly, AllTeachAlike, Keys, NamesTools, LearningStep, Emitted, Printed;
    OrderlyTeachesAlike(GatewayStream(key, reqs), cfg, k + 1);
    PluginMirrorsRouter(c, cfg, sqrt, render, key, reqs, k);
  }
}
