/** A single-server FIFO queue in closed form. */
module Queue {
  import opened Basics
  import opened Eviction

  /** When the server is free again after the first `k` admissions. */
  function Busy(ops: seq<Admission>, k: nat): real
    requires k <= |ops|
    decreases k
  {
    if k == 0 then 0.0 else MaxReal(ops[k - 1].now, Busy(ops, k - 1)) + ops[k - 1].service
  }

  /** Total service of admissions `j` to `k`. */
  function Work(ops: seq<Admission>, j: nat, k: nat): real
    requires j <= k <= |ops|
    decreases k
  {
    if j == k then 0.0 else Work(ops, j, k - 1) + ops[k - 1].service
  }

  /**
   The busy time is the largest of: all the work, and for each admission `j` its
   arrival plus the work from it on.
   */
  lemma {:induction false} BusyIsMaximum(ops: seq<Admission>, k: nat)
    requires k <= |ops|
    ensures Busy(ops, k) >= Work(ops, 0, k)
    ensures forall j :: 0 <= j < k ==> Busy(ops, k) >= ops[j].now + Work(ops, j, k)
    ensures Busy(ops, k) == Work(ops, 0, k) || exists j :: 0 <= j < k && Busy(ops, k) == ops[j].now + Work(ops, j, k)
  {
    if k > 0 {
      BusyIsMaximum(ops, k - 1);
      assert Work(ops, k - 1, k - 1) == 0.0;
      forall j | 0 <= j < k ensures Work(ops, j, k) == Work(ops, j, k - 1) + ops[k - 1].service {
      }
      if Busy(ops, k - 1) <= ops[k - 1].now {
        assert Busy(ops, k) == ops[k - 1].now + Work(ops, k - 1, k);
      } else if Busy(ops, k - 1) != Work(ops, 0, k - 1) {
        var j :| 0 <= j < k - 1 && Busy(ops, k - 1) == ops[j].now + Work(ops, j, k - 1);
        assert Busy(ops, k) == ops[j].now + Work(ops, j, k);
      }
    }
  }
}

/** Every node of an engine run is a node run of the admissions routed to it. */
module NodeHistory {
  import opened Basics
  import opened Cost
  import CostLaws
  import opened Engine
  import opened EngineLaws
  import opened Eviction
  import opened Queue

  /** The admissions node `i` receives from the first `k` requests. */
  function RoutedTo<S(!new)>(c: Cluster, policy: Policy<S>, s0: S, reqs: seq<TurnRequest>, k: nat,
                             i: nat): seq<Admission>
    requires Routes(policy) && c.numNodes > 0 && k <= |reqs|
    decreases k
  {
    if k == 0 then []
    else
      var s := StepOf(c, policy, s0, reqs, k - 1);
      RoutedTo(c, policy, s0, reqs, k - 1, i)
        + if s.choice.node == i then [AdmissionFor(s.query, reqs[k - 1], s.placement, k - 1)] else []
  }

  lemma {:induction false} RunPrefix(strategy: Strategy, cap: nat, ops: seq<Admission>, a: Admission, k: nat)
    requires k <= |ops|
    ensures Run(strategy, cap, ops + [a], k) == Run(strategy, cap, ops, k)
    ensures Busy(ops + [a], k) == Busy(ops, k)
  {
    hide Admit;
    if k > 0 {
      RunPrefix(strategy, cap, ops, a, k - 1);
    }
  }

  lemma {:induction false} RunSnoc(c: Cluster, ops: seq<Admission>, a: Admission)
    ensures NodeAfter(c, ops + [a]) == AdmitNode(c, NodeAfter(c, ops), a)
  {
    hide Admit;
    RunPrefix(c.strategy, c.cacheBlocks, ops, a, |ops|);
  }

  /** A node that has admitted `ops` from scratch. */
  function NodeAfter(c: Cluster, ops: seq<Admission>): NodeView {
    NodeView(Busy(ops, |ops|), Run(c.strategy, c.cacheBlocks, ops, |ops|))
  }

  lemma {:induction false} ServeAdmits<S(!new)>(c: Cluster, policy: Policy<S>, sim: Sim<S>, k: nat, req: TurnRequest)
    requires Routes(policy) && sim.nodes != []
    ensures var s := StepAt(c, policy, sim, req);
            && s.choice == Choice(s.placement.nodeId, s.placement.transfer)
            && s.query == QueryFor(c, sim.nodes, req)
            && Serve(c, policy, sim, k, req).nodes ==
               sim.nodes[s.choice.node := AdmitNode(c, sim.nodes[s.choice.node],
                 AdmissionFor(s.query, req, s.placement, k))]
  {
    hide AdmitNode, AdmissionFor, RecordOutcome, OutcomeOf, CostLaws.Coupled;
  }

  /** Queue and cache of every node are those of its own admissions. */
  lemma {:induction false} NodesAreRuns<S(!new)>(c: Cluster, policy: Policy<S>, s0: S, reqs: seq<TurnRequest>, k: nat,
                                                 i: nat)
    requires Routes(policy) && c.numNodes > 0 && k <= |reqs| && i < c.numNodes
    ensures Simulate(c, policy, s0, reqs, k).nodes[i] == NodeAfter(c, RoutedTo(c, policy, s0, reqs, k, i))
  {
    hide NodeAfter, Serve, RoutedTo, Routes;
    if k == 0 {
      FreshNode(c, policy, s0, reqs, i);
    } else {
      NodesAreRuns(c, policy, s0, reqs, k - 1, i);
      NodesStep(c, policy, s0, reqs, k - 1, i);
    }
  }

  lemma FreshNode<S(!new)>(c: Cluster, policy: Policy<S>, s0: S, reqs: seq<TurnRequest>, i: nat)
    requires Routes(policy) && i < c.numNodes
    ensures Simulate(c, policy, s0, reqs, 0).nodes[i] == NodeAfter(c, RoutedTo(c, policy, s0, reqs, 0, i))
  {
  }

  lemma {:induction false} NodesStep<S(!new)>(c: Cluster, policy: Policy<S>, s0: S, reqs: seq<TurnRequest>, k: nat,
                                              i: nat)
    requires Routes(policy) && c.numNodes > 0 && k < |reqs| && i < c.numNodes
    requires Simulate(c, policy, s0, reqs, k).nodes[i] == NodeAfter(c, RoutedTo(c, policy, s0, reqs, k, i))
    ensures Simulate(c, policy, s0, reqs, k + 1).nodes[i] == NodeAfter(c, RoutedTo(c, policy, s0, reqs, k + 1, i))
  {
    hide NodeAfter, Serve, StepAt, AdmitNode, AdmissionFor;
    var s, before := StepOf(c, policy, s0, reqs, k), RoutedTo(c, policy, s0, reqs, k, i);
    ServeAdmits(c, policy, Simulate(c, policy, s0, reqs, k), k, reqs[k]);
    if s.choice.node == i {
      RunSnoc(c, before, AdmissionFor(s.query, reqs[k], s.placement, k));
    } else {
      assert RoutedTo(c, policy, s0, reqs, k + 1, i) == before;
    }
  }

  /**
   Completion law: arrival plus end-to-end latency is the moment the chosen node
   becomes free again, plus the transfer the request waited for.
   */
  lemma {:induction false} CompletionTime<S(!new)>(c: Cluster, policy: Policy<S>, sim: Sim<S>, k: nat, req: TurnRequest)
    requires Routes(policy) && sim.nodes != []
    ensures var s := StepAt(c, policy, sim, req);
            var after := Serve(c, policy, sim, k, req);
            after.result.e2e != [] &&
            req.arrival + after.result.e2e[|after.result.e2e| - 1] ==
            after.nodes[s.choice.node].busyUntil + TransferTime(c.params, Moved(s.query, s.choice))
  {
    hide Serve, StepAt, BestPlacement, TransferTime, PrefillTime, DecodeTime, Moved, Resident, Admit, RegimeOf,
         RecordOutcome, RecordGap, CostLaws.Coupled;
    ServeAdmits(c, policy, sim, k, req);
    ServeRecords(c, policy, sim, k, req);
    var s := StepAt(c, policy, sim, req);
    RecordedFields(sim.result, req.view.lastToolName, s.gap, req.kind,
                   OutcomeOf(s.query, s.choice, req.genTokens, CostLaws.Coupled(s.query)));
    WaitOrServe(sim.nodes[s.choice.node].busyUntil, req.arrival);
  }

  lemma WaitOrServe(busy: real, now: real)
    ensures now + MaxReal(0.0, busy - now) == MaxReal(now, busy)
  {
  }
}
