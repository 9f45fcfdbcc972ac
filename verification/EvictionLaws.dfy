/**
 What the eviction loop amounts to: the batch specification "keep the top `cap`",
 the exact count of sacrificed leases, and inclusion between capacities.
 */
module EvictionLaws {
  import opened Basics
  import opened Lru
  import opened Ranking
  import opened Eviction

  /** `a` holds some of the blocks of `b`, in the same relative order and with the same marks. */
  ghost predicate Agrees(a: Cache, b: Cache) {
    && Elems(a.order) <= Elems(b.order)
    && (forall x, y :: x in a.order && y in a.order ==>
          (IndexOf(a.order, x) < IndexOf(a.order, y) <==> IndexOf(b.order, x) < IndexOf(b.order, y)))
    && (forall x :: x in a.order ==> (x in a.marks <==> x in b.marks))
    && (forall x :: x in a.order && x in a.marks ==> a.marks[x] == b.marks[x])
  }

  lemma {:induction false} AgreesSubset(a: Cache, b: Cache)
    requires Agrees(a, b)
    ensures forall x :: x in a.order ==> x in b.order
  {
    forall x | x in a.order ensures x in b.order {
      assert x in Elems(a.order);
    }
  }

  lemma {:induction false} AgreesTransitive(a: Cache, b: Cache, c: Cache)
    requires Agrees(a, b) && Agrees(b, c)
    ensures Agrees(a, c)
  {
    AgreesSubset(a, b);
  }

  lemma {:induction false} AgreesSameLine(e: Evictor, a: Cache, b: Cache)
    requires Agrees(a, b)
    ensures SameOrder(Elems(a.order), Line(e, a), Line(e, b))
  {
    forall x | x in a.order ensures RankOf(e, a.marks, x) == RankOf(e, b.marks, x) {
    }
  }

  lemma {:induction false} EvictOneFacts(e: Evictor, c: Cache)
    requires Coherent(c) && c.order != []
    ensures Coherent(EvictOne(e, c)) && Agrees(EvictOne(e, c), c)
    ensures Victim(e, c) in c.order
    ensures Elems(EvictOne(e, c).order) == Elems(c.order) - {Victim(e, c)}
    ensures |EvictOne(e, c).order| == |c.order| - 1
  {
    var v, c' := Victim(e, c), EvictOne(e, c);
    WithoutFacts(c.order, v);
    forall x, y | x in c'.order && y in c'.order
      ensures IndexOf(c'.order, x) < IndexOf(c'.order, y) <==> IndexOf(c.order, x) < IndexOf(c.order, y)
    {
      WithoutOrder(c.order, v, x, y);
    }
  }

  /** The loop keeps exactly the top `cap` of what it is given, as it was. */
  lemma {:induction false} EvictLoopKeepsTop(e: Evictor, c: Cache, cap: nat)
    requires Coherent(c)
    ensures Coherent(EvictLoop(e, c, cap)) && Agrees(EvictLoop(e, c, cap), c)
    ensures |EvictLoop(e, c, cap).order| == Min(|c.order|, cap)
    ensures Elems(EvictLoop(e, c, cap).order) == Survivors(Elems(c.order), Line(e, c), cap)
    decreases |c.order|
  {
    LineIsStrictTotal(e, c);
    DistinctCardinality(c.order);
    if |c.order| <= cap {
      AllFit(Elems(c.order), Line(e, c), cap);
    } else {
      var c' := EvictOne(e, c);
      EvictOneFacts(e, c);
      EvictLoopKeepsTop(e, c', cap);
      AgreesTransitive(EvictLoop(e, c, cap), c', c);
      AgreesSameLine(e, c', c);
      VictimIsLeast(e, c);
      DropLeast(Elems(c.order), Line(e, c), Line(e, c'), cap, Victim(e, c));
    }
  }

  /** Resident blocks that may go without breaking a live lease of priority at least 0. */
  ghost function Expendable(e: Evictor, c: Cache): set<Block> {
    set b | b in c.order && !Sacrifices(e, c, b)
  }

  lemma SacrificesAgree(e: Evictor, a: Cache, b: Cache, x: Block)
    requires Agrees(a, b) && x in a.order
    ensures Sacrifices(e, a, x) == Sacrifices(e, b, x)
  {
  }

  lemma {:induction false} ExpendableAfterOne(e: Evictor, c: Cache)
    requires Coherent(c) && c.order != []
    ensures Expendable(e, EvictOne(e, c)) == Expendable(e, c) - {Victim(e, c)}
  {
    var c', v := EvictOne(e, c), Victim(e, c);
    EvictOneFacts(e, c);
    WithoutFacts(c.order, v);
    forall x | x in c'.order ensures Sacrifices(e, c', x) == Sacrifices(e, c, x) {
      SacrificesAgree(e, c', c, x);
    }
  }

  /** A live lease is only sacrificed when nothing expendable is left. */
  lemma {:induction false} SacrificeIsLastResort(e: Evictor, c: Cache)
    requires c.order != []
    ensures Sacrifices(e, c, Victim(e, c)) <==> Expendable(e, c) == {}
  {
    var v := Victim(e, c);
    if Sacrifices(e, c, v) {
      forall x | x in c.order ensures Sacrifices(e, c, x) {
        var i :| 0 <= i < |c.order| && c.order[i] == x;
        assert !RankLess(RankOf(e, c.marks, c.order[i]), RankOf(e, c.marks, v));
      }
    } else {
      assert v in Expendable(e, c);
    }
  }

  /** Every admission counts exactly the overflow that expendable blocks could not cover. */
  lemma {:induction false} PressureIsExact(e: Evictor, c: Cache, cap: nat)
    requires Coherent(c)
    ensures EvictLoop(e, c, cap).pinned == c.pinned + Max(0, |c.order| - cap - |Expendable(e, c)|)
    decreases |c.order|
  {
    DistinctCardinality(c.order);
    if |c.order| <= cap {
    } else {
      var v := Victim(e, c);
      EvictOneFacts(e, c);
      ExpendableAfterOne(e, c);
      SacrificeIsLastResort(e, c);
      PressureIsExact(e, EvictOne(e, c), cap);
      if !Sacrifices(e, c, v) {
        assert v in Expendable(e, c);
      }
    }
  }

  // ------------------------------------------------------------------ insertion

  lemma {:induction false} InsertFacts(c: Cache, b: Block, mark: Option<Mark>)
    requires Coherent(c)
    ensures Coherent(Insert(c, b, mark))
    ensures Elems(Insert(c, b, mark).order) == Elems(c.order) + {b}
  {
    TouchFacts(c.order, b);
  }

  lemma {:induction false} InsertAllFacts(c: Cache, bs: seq<Block>, mark: Option<Mark>)
    requires Coherent(c)
    ensures Coherent(InsertAll(c, bs, mark))
    ensures Elems(InsertAll(c, bs, mark).order) == Elems(c.order) + Elems(bs)
    ensures InsertAll(c, bs, mark).order == TouchAll(c.order, bs)
    ensures InsertAll(c, bs, mark).pinned == c.pinned
  {
    assert bs == [] ==> Elems(c.order) + Elems(bs) == Elems(c.order);
    hide Touch, Distinct, Elems;
    if bs != [] {
      InsertAllFacts(c, bs[..|bs| - 1], mark);
      InsertFacts(InsertAll(c, bs[..|bs| - 1], mark), bs[|bs| - 1], mark);
      ElemsSnoc(bs);
    }
  }

  /** The batch ends up with its own directive; every other block keeps what it had. */
  lemma {:induction false} InsertAllMarks(c: Cache, bs: seq<Block>, mark: Option<Mark>)
    ensures forall b :: b in bs ==> (b in InsertAll(c, bs, mark).marks <==> mark.Some?)
    ensures forall b :: b in bs && mark.Some? ==> InsertAll(c, bs, mark).marks[b] == mark.value
    ensures forall b :: b !in bs ==> (b in InsertAll(c, bs, mark).marks <==> b in c.marks)
    ensures forall b :: b !in bs && b in c.marks ==> InsertAll(c, bs, mark).marks[b] == c.marks[b]
  {
    if bs != [] {
      var front := bs[..|bs| - 1];
      InsertAllMarks(c, front, mark);
      ElemsSnoc(bs);
    }
  }

  lemma {:induction false} TouchKeepsOrder(s: seq<Block>, h: Block, x: Block, y: Block)
    requires Distinct(s) && x in Touch(s, h) && y in Touch(s, h)
    ensures IndexOf(Touch(s, h), x) < IndexOf(Touch(s, h), y) <==>
            (x != h && (y == h || IndexOf(s, x) < IndexOf(s, y)))
  {
    WithoutFacts(s, h);
    IndexOfAppend(Without(s, h), [h], x);
    IndexOfAppend(Without(s, h), [h], y);
    if x != h && y != h {
      WithoutOrder(s, h, x, y);
    }
  }

  lemma {:induction false} InsertAgrees(a: Cache, b: Cache, h: Block, mark: Option<Mark>)
    requires Coherent(a) && Coherent(b) && Agrees(a, b)
    ensures Agrees(Insert(a, h, mark), Insert(b, h, mark))
  {
    var a', b' := Insert(a, h, mark), Insert(b, h, mark);
    hide Touch, IndexOf;
    TouchMembers(a.order, h);
    TouchMembers(b.order, h);
    AgreesSubset(a, b);
    forall x, y | x in a'.order && y in a'.order
      ensures IndexOf(a'.order, x) < IndexOf(a'.order, y) <==> IndexOf(b'.order, x) < IndexOf(b'.order, y)
    {
      TouchKeepsOrder(a.order, h, x, y);
      TouchKeepsOrder(b.order, h, x, y);
    }
    forall x | x in a'.order ensures x in b'.order {
      assert h in b'.order;
    }
  }

  lemma {:induction false} TouchMembers(s: seq<Block>, h: Block)
    requires Distinct(s)
    ensures forall x :: x in Touch(s, h) <==> x == h || x in s
  {
    WithoutFacts(s, h);
  }

  lemma {:induction false} InsertAllAgrees(a: Cache, b: Cache, bs: seq<Block>, mark: Option<Mark>)
    requires Coherent(a) && Coherent(b) && Agrees(a, b)
    ensures Agrees(InsertAll(a, bs, mark), InsertAll(b, bs, mark))
  {
    if bs != [] {
      var front := bs[..|bs| - 1];
      InsertAllAgrees(a, b, front, mark);
      InsertAllFacts(a, front, mark);
      InsertAllFacts(b, front, mark);
      InsertAgrees(InsertAll(a, front, mark), InsertAll(b, front, mark), bs[|bs| - 1], mark);
    }
  }

  // ------------------------------------------------------------------ admission

  /** What `admit` leaves of cache `c`: the top `cap` of its own blocks and the batch. */
  ghost predicate KeepsTop(c: Cache, c': Cache, strategy: Strategy, cap: nat, a: Admission) {
    var t, e := Inserted(c, a), EvictorAt(strategy, a);
    && Coherent(t) && Elems(t.order) == Elems(c.order) + Elems(a.blocks)
    && Coherent(c') && Agrees(c', t)
    && |c'.order| == Min(|t.order|, cap)
    && Elems(c'.order) == Survivors(Elems(t.order), Line(e, t), cap)
    && c'.pinned == c.pinned + Max(0, |t.order| - cap - |Expendable(e, t)|)
  }

  /**
   The batch specification of `admit`: the survivors are the top `cap` of the old
   blocks and the batch, each with its recency and its mark untouched, and the
   pressure counter grows by the part of the overflow no expendable block covers.
   */
  lemma {:induction false} AdmitKeepsTop(c: Cache, strategy: Strategy, cap: nat, a: Admission)
    requires Coherent(c)
    ensures KeepsTop(c, Admit(c, strategy, cap, a), strategy, cap, a)
  {
    InsertAllFacts(c, a.blocks, Directive(a.now, a.retainUntil, a.priority));
    EvictLoopKeepsTop(EvictorAt(strategy, a), Inserted(c, a), cap);
    PressureIsExact(EvictorAt(strategy, a), Inserted(c, a), cap);
  }

  lemma EmptyIsCoherent()
    ensures Coherent(EMPTY)
  {
  }

  lemma {:induction false} RunFacts(strategy: Strategy, cap: nat, ops: seq<Admission>, k: nat)
    requires k <= |ops|
    ensures Coherent(Run(strategy, cap, ops, k))
    ensures |Run(strategy, cap, ops, k).order| <= cap
  {
    hide Admit, Inserted, EvictLoop, Survivors, Agrees, Expendable, Distinct, Elems;
    if k == 0 {
      EmptyIsCoherent();
    } else {
      RunFacts(strategy, cap, ops, k - 1);
      AdmitKeepsTop(Run(strategy, cap, ops, k - 1), strategy, cap, ops[k - 1]);
    }
  }

  /**
   Stack inclusion, for both strategies and arbitrary directives: under the same
   admissions the larger cache holds everything the smaller one holds, with the
   same marks and relative recency.
   */
  lemma {:induction false} StackInclusion(strategy: Strategy, cap: nat, cap': nat, ops: seq<Admission>, k: nat)
    requires cap <= cap' && k <= |ops|
    ensures Agrees(Run(strategy, cap, ops, k), Run(strategy, cap', ops, k))
    ensures |Run(strategy, cap', ops, k).order| - |Run(strategy, cap, ops, k).order| <= cap' - cap
  {
    hide Admit;
    if k > 0 {
      StackInclusion(strategy, cap, cap', ops, k - 1);
      RunFacts(strategy, cap, ops, k - 1);
      RunFacts(strategy, cap', ops, k - 1);
      AdmitInclusion(strategy, cap, cap', Run(strategy, cap, ops, k - 1), Run(strategy, cap', ops, k - 1), ops[k - 1]);
    }
  }

  lemma {:induction false} AdmitInclusion(strategy: Strategy, cap: nat, cap': nat, c: Cache, d: Cache, a: Admission)
    requires Coherent(c) && Coherent(d) && Agrees(c, d)
    requires |d.order| - |c.order| <= cap' - cap
    ensures Agrees(Admit(c, strategy, cap, a), Admit(d, strategy, cap', a))
    ensures |Admit(d, strategy, cap', a).order| - |Admit(c, strategy, cap, a).order| <= cap' - cap
  {
    var e, t, u := EvictorAt(strategy, a), Inserted(c, a), Inserted(d, a);
    AdmitKeepsTop(c, strategy, cap, a);
    AdmitKeepsTop(d, strategy, cap', a);
    InsertAllAgrees(c, d, a.blocks, Directive(a.now, a.retainUntil, a.priority));
    AgreesSameLine(e, t, u);
    ExtraShrinks(c, d, t, u, Elems(a.blocks));
    SurvivorsInclusion(Elems(t.order), Elems(u.order), Line(e, t), Line(e, u), cap, cap');
    InclusionAgrees(Admit(c, strategy, cap, a), t, Admit(d, strategy, cap', a), u);
  }

  lemma {:induction false} ExtraShrinks(c: Cache, d: Cache, t: Cache, u: Cache, batch: set<Block>)
    requires Coherent(c) && Coherent(d) && Coherent(t) && Coherent(u) && Elems(c.order) <= Elems(d.order)
    requires Elems(t.order) == Elems(c.order) + batch && Elems(u.order) == Elems(d.order) + batch
    ensures |Elems(u.order) - Elems(t.order)| == |u.order| - |t.order| <= |d.order| - |c.order|
  {
    DistinctCardinality(c.order);
    DistinctCardinality(d.order);
    DistinctCardinality(t.order);
    DistinctCardinality(u.order);
    SubsetCardinality(Elems(c.order), Elems(d.order));
    SubsetCardinality(Elems(t.order), Elems(u.order));
    SubsetCardinality(Elems(u.order) - Elems(t.order), Elems(d.order) - Elems(c.order));
  }

  /** Two views of one cache agree as soon as one's blocks are among the other's. */
  lemma {:induction false} InclusionAgrees(a: Cache, t: Cache, b: Cache, u: Cache)
    requires Agrees(a, t) && Agrees(b, u) && Agrees(t, u) && Elems(a.order) <= Elems(b.order)
    ensures Agrees(a, b)
  {
    AgreesTransitive(a, t, u);
    forall x, y | x in a.order && y in a.order
      ensures IndexOf(a.order, x) < IndexOf(a.order, y) <==> IndexOf(b.order, x) < IndexOf(b.order, y)
    {
      assert x in Elems(b.order) && y in Elems(b.order);
      assert IndexOf(a.order, x) < IndexOf(a.order, y) <==> IndexOf(u.order, x) < IndexOf(u.order, y);
      assert IndexOf(b.order, x) < IndexOf(b.order, y) <==> IndexOf(u.order, x) < IndexOf(u.order, y);
    }
    forall x | x in a.order
      ensures x in a.marks <==> x in b.marks
      ensures x in a.marks ==> a.marks[x] == b.marks[x]
    {
      assert x in Elems(b.order);
    }
  }
}
