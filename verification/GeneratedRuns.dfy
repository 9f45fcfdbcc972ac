/** Generated session streams meet what the laws about runs ask of a stream. */
module GeneratedRuns {
  import opened Basics
  import opened Cost
  import opened Policies
  import opened Retention
  import opened RetentionLaws
  import opened Engine
  import opened ReliabilityRuns
  import opened RouterRuns
  import opened PreRequestLaws
  import opened TwoLearners
  import opened PluginMirrors
  import Workload
  import WorkloadLaws

  /** Times start at 0 or later and never decrease, so neither do those of any conversation. */
  lemma {:induction false} GeneratedStreamsAreTimely(ids: map<string, int>, setup: Workload.Setup,
                                                     launches: seq<Workload.Launch>)
    requires Workload.Sane(setup, launches)
    ensures var reqs := WorkloadLaws.Replayed(Workload.Stream(ids, setup, launches));
            NonDecreasing(Turns(reqs)) && Arrives(reqs)
  {
    hide Workload.Stream, WorkloadLaws.View;
    var stream := Workload.Stream(ids, setup, launches);
    var reqs := WorkloadLaws.Replayed(stream);
    forall i | 0 <= i < |stream|
      ensures reqs[i].arrival >= 0.0 && forall j :: i <= j < |stream| ==> reqs[i].arrival <= reqs[j].arrival
    {
      WorkloadLaws.ArrivalsAreOrdered(ids, setup, launches, i);
    }
  }

  /** Short questions, named tools, and no more sessions than the last-seen table holds. */
  ghost predicate Typical(launches: seq<Workload.Launch>, cfg: Config) {
    && |launches| <= cfg.trackerCapacity
    && forall i :: 0 <= i < |launches| ==>
         && |launches[i].opening| < RAG_USER_TOKENS
         && (launches[i].tool.Some? ==> launches[i].tool.value.name != "")
  }

  /** What the gateway meets of a generated turn. */
  lemma {:induction false} TurnAtGateway(key: int -> string, ids: map<string, int>, setup: Workload.Setup,
                                         launches: seq<Workload.Launch>, cfg: Config, r: Workload.TurnRequest)
    requires setup.size > 0 && Typical(launches, cfg) && r in Workload.Stream(ids, setup, launches)
    ensures r.session < |launches| && WorkloadLaws.View(r).lastToolName != Some("")
    ensures var seen := AtGateway(key, WorkloadLaws.Observed(r)); seen.kind == Tool && seen.scope == key(r.session)
  {
    hide Workload.Stream, Workload.Words, Workload.Messages, Workload.Encode, Workload.ArrivalOf, Classify, RegimeOf;
    WorkloadLaws.StreamHolds(ids, setup, launches, r);
    var l := launches[r.session];
    WorkloadLaws.TurnsAreClassified(ids, setup, r.session, l, Workload.StartOf(launches, r.session), r.turn);
  }

  lemma {:induction false} GeneratedStreamsAreOrderly(key: int -> string, ids: map<string, int>, setup: Workload.Setup,
                                                      launches: seq<Workload.Launch>, cfg: Config)
    requires setup.size > 0 && Keys(key) && Typical(launches, cfg)
    ensures var reqs := WorkloadLaws.Replayed(Workload.Stream(ids, setup, launches));
            NamesTools(reqs) && Orderly(GatewayStream(key, reqs), cfg)
  {
    hide Workload.Stream, Typical, AtGateway, WorkloadLaws.View, Keys;
    var stream := Workload.Stream(ids, setup, launches);
    var reqs := WorkloadLaws.Replayed(stream);
    var seen := GatewayStream(key, reqs);
    forall i | 0 <= i < |stream|
      ensures reqs[i].view.lastToolName != Some("")
      ensures seen[i].kind == Tool && stream[i].session < |launches| && seen[i].scope == key(stream[i].session)
    {
      TurnAtGateway(key, ids, setup, launches, cfg, stream[i]);
    }
    FewScopes(key, seen, stream, |launches|);
    TypicalIsFew(launches, cfg);
  }

  lemma TypicalIsFew(launches: seq<Workload.Launch>, cfg: Config)
    requires Typical(launches, cfg)
    ensures |launches| <= cfg.trackerCapacity
  {
  }

  lemma {:induction false} FewScopes(key: int -> string, seen: seq<Seen>, stream: seq<Workload.TurnRequest>, n: nat)
    requires |seen| == |stream|
    requires forall i :: 0 <= i < |stream| ==> stream[i].session < n && seen[i].scope == key(stream[i].session)
    ensures |Scopes(seen, |seen|)| <= n
  {
    var names := set i: nat | i < n :: key(i);
    assert Scopes(seen, |seen|) <= names;
    Basics.SubsetCardinality(Scopes(seen, |seen|), names);
    NamesAreFew(key, n);
  }

  lemma {:induction false} NamesAreFew(key: int -> string, n: nat)
    ensures |set i: nat | i < n :: key(i)| <= n
  {
    if n > 0 {
      NamesAreFew(key, n - 1);
      assert (set i: nat | i < n :: key(i)) == (set i: nat | i < n - 1 :: key(i)) + {key(n - 1)};
    }
  }

  /** So the plugin mirrors the router on every typical generated stream. */
  lemma {:induction false} GeneratedRunsAreMirrored(c: Cluster, cfg: Config, sqrt: real -> real, render: int -> string,
                                                    key: int -> string, ids: map<string, int>, setup: Workload.Setup,
                                                    launches: seq<Workload.Launch>, k: nat)
    requires c.numNodes > 0 && 0.0 <= cfg.alpha <= 1.0 && setup.size > 0 && Keys(key) && Typical(launches, cfg)
    requires k < |Workload.Stream(ids, setup, launches)|
    ensures var reqs := WorkloadLaws.Replayed(Workload.Stream(ids, setup, launches));
            Emitted(GatewayStream(key, reqs), cfg, sqrt, render, k) ==
            Printed(LearningStep(c, cfg, sqrt, reqs, k).placement, AtGateway(key, reqs[k]), render)
  {
    hide Orderly, Keys, NamesTools, LearningStep, Emitted, Printed, Workload.Stream, Typical;
    GeneratedStreamsAreOrderly(key, ids, setup, launches, cfg);
    OrderlyRunsAreMirrored(c, cfg, sqrt, render, key, WorkloadLaws.Replayed(Workload.Stream(ids, setup, launches)), k);
  }
}
