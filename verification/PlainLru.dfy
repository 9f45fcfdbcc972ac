/** A node that never receives a directive is a plain LRU, and keeps a session's prefix warm. */
module PlainLru {
  import opened Basics
  import opened Lru
  import opened Eviction
  import opened EvictionLaws
  import Blocks

  ghost predicate Plain(ops: seq<Admission>) {
    forall k :: 0 <= k < |ops| ==> Directive(ops[k].now, ops[k].retainUntil, ops[k].priority) == None
  }

  /** All blocks admitted by operations `i` to `k`, in order. */
  function Flat(ops: seq<Admission>, i: nat, k: nat): seq<Block>
    requires i <= k <= |ops|
    decreases k
  {
    if i == k then [] else Flat(ops, i, k - 1) + ops[k - 1].blocks
  }

  lemma {:induction false} UnmarkedVictimIsOldest(e: Evictor, c: Cache)
    requires e.strategy.Directives? && c.marks == map[] && c.order != []
    ensures VictimIndex(e, c.order, c.marks) == 0
  {
    VictimIndexUnique(e, c, 0);
  }

  lemma {:induction false} UnmarkedEvictsOldest(e: Evictor, c: Cache)
    requires e.strategy.Directives? && c.marks == map[] && c.order != []
    ensures EvictOne(e, c) == Cache(c.order[1..], map[], c.pinned)
  {
    UnmarkedVictimIsOldest(e, c);
    assert IndexOf(c.order, c.order[0]) == 0;
    assert Without(c.order, c.order[0]) == c.order[1..];
  }

  /** Without marks the eviction loop drops the oldest blocks and nothing else. */
  lemma {:induction false} UnmarkedLoopTrims(e: Evictor, c: Cache, cap: nat)
    requires e.strategy.Directives? && c.marks == map[]
    ensures EvictLoop(e, c, cap) == Cache(LastN(c.order, cap), map[], c.pinned)
    decreases |c.order|
  {
    if |c.order| > cap {
      UnmarkedEvictsOldest(e, c);
      hide EvictOne, Victim, RankOf;
      UnmarkedLoopTrims(e, EvictOne(e, c), cap);
    }
  }

  lemma {:induction false} PlainInsert(c: Cache, bs: seq<Block>)
    requires c.marks == map[]
    ensures InsertAll(c, bs, None).marks == map[]
  {
    hide InsertAll;
    InsertAllMarks(c, bs, None);
    forall b ensures b !in InsertAll(c, bs, None).marks {
      if b in bs {
      } else {
        assert b !in c.marks;
      }
    }
  }

  lemma {:induction false} PlainAdmit(c: Cache, cap: nat, a: Admission)
    requires Coherent(c) && c.marks == map[] && Directive(a.now, a.retainUntil, a.priority) == None
    ensures Admit(c, Directives, cap, a) == Cache(LastN(TouchAll(c.order, a.blocks), cap), map[], c.pinned)
  {
    hide InsertAll, TouchAll, LastN, EvictLoop, Coherent, Distinct, Elems;
    InsertAllFacts(c, a.blocks, None);
    PlainInsert(c, a.blocks);
    UnmarkedLoopTrims(EvictorAt(Directives, a), Inserted(c, a), cap);
  }

  /** The whole cache is the `cap` most recently used blocks of the run. */
  lemma {:induction false} PlainRunIsRecent(cap: nat, ops: seq<Admission>, k: nat)
    requires Plain(ops) && k <= |ops|
    ensures Run(Directives, cap, ops, k) == Cache(LastN(Recency(Flat(ops, 0, k)), cap), map[], 0)
  {
    hide Admit, Coherent, TouchAll, LastN;
    if k > 0 {
      PlainRunIsRecent(cap, ops, k - 1);
      RunFacts(Directives, cap, ops, k - 1);
      PlainAdmit(Run(Directives, cap, ops, k - 1), cap, ops[k - 1]);
      TouchAllFacts([], Flat(ops, 0, k - 1));
      TrimmedBatch(Recency(Flat(ops, 0, k - 1)), ops[k - 1].blocks, cap);
      TouchAllAppend([], Flat(ops, 0, k - 1), ops[k - 1].blocks);
    } else {
      NothingRecent(cap);
    }
  }

  lemma NothingRecent(cap: nat)
    ensures LastN(Recency<Block>([]), cap) == []
  {
  }

  lemma {:induction false} FlatSplits(ops: seq<Admission>, i: nat, k: nat)
    requires i <= k <= |ops|
    ensures Flat(ops, 0, k) == Flat(ops, 0, i) + Flat(ops, i, k)
  {
    if i < k {
      FlatSplits(ops, i, k - 1);
    }
  }

  lemma {:induction false} FlatContains(ops: seq<Admission>, i: nat, k: nat)
    requires i < k <= |ops|
    ensures Elems(ops[i].blocks) <= Elems(Flat(ops, i, k))
  {
    if i + 1 < k {
      FlatContains(ops, i, k - 1);
    }
  }

  /**
   If the blocks admitted from request `i` on still fit, every block of request
   `i` is resident when request `j` arrives.
   */
  lemma {:induction false} RecentBlocksStay(cap: nat, ops: seq<Admission>, i: nat, j: nat)
    requires Plain(ops) && i < j <= |ops| && |Elems(Flat(ops, i, j))| <= cap
    ensures Elems(ops[i].blocks) <= Elems(Run(Directives, cap, ops, j).order)
  {
    PlainRunIsRecent(cap, ops, j);
    FlatSplits(ops, i, j);
    FlatContains(ops, i, j);
    TouchAllAppend([], Flat(ops, 0, i), Flat(ops, i, j));
    TouchAllFacts([], Flat(ops, 0, i));
    RecentlyTouchedStays(Recency(Flat(ops, 0, i)), Flat(ops, i, j), cap);
  }

  /**
   Session affinity: a turn that extends the prompt of an earlier turn finds at
   least that turn's whole chain, provided that chain and the distinct blocks
   admitted since fit in the cache.
   */
  lemma {:induction false} NextTurnFindsItsPrefix(h: Blocks.Hash, tokens: seq<int>, more: seq<int>, size: nat,
                               cap: nat, ops: seq<Admission>, i: nat, j: nat)
    requires size > 0 && Plain(ops) && i < j <= |ops|
    requires ops[i].blocks == Blocks.Chain(h, tokens, size, |tokens| / size)
    requires |Elems(Flat(ops, i, j))| <= cap
    ensures Blocks.Matched(Blocks.Chain(h, tokens + more, size, |tokens + more| / size),
                           Elems(Run(Directives, cap, ops, j).order)) >= |tokens| / size
  {
    var turn, next := ops[i].blocks, Blocks.Chain(h, tokens + more, size, |tokens + more| / size);
    RecentBlocksStay(cap, ops, i, j);
    Blocks.GrowingPromptExtendsChain(h, tokens, more, size);
    forall k | 0 <= k < |turn| ensures next[k] in Elems(Run(Directives, cap, ops, j).order) {
      assert turn[k] in Elems(turn);
    }
    Blocks.MatchedAtLeast(next, Elems(Run(Directives, cap, ops, j).order), |turn|);
  }

  lemma {:induction false} FlatStarts(ops: seq<Admission>, i: nat, j: nat)
    requires i < j <= |ops|
    ensures Flat(ops, i, j) == ops[i].blocks + Flat(ops, i + 1, j)
  {
    if i + 1 < j {
      FlatStarts(ops, i, j - 1);
    }
  }

  /** The head of a batch is its oldest block: it goes as soon as the distinct blocks since it do not fit with it. */
  lemma {:induction false} HeadStaysIfAllFit(cap: nat, ops: seq<Admission>, i: nat, j: nat)
    requires Plain(ops) && i < j <= |ops| && ops[i].blocks != [] && Distinct(ops[i].blocks)
    requires ops[i].blocks[0] !in Flat(ops, i + 1, j)
    ensures ops[i].blocks[0] in Run(Directives, cap, ops, j).order <==> |Elems(Flat(ops, i, j))| <= cap
  {
    hide Flat, Run, Recency, After, LastN, Distinct, Elems;
    var before, head, after := Flat(ops, 0, i), ops[i].blocks[0], ops[i].blocks[1..] + Flat(ops, i + 1, j);
    PlainRunIsRecent(cap, ops, j);
    FlatSplits(ops, i, j);
    FlatStarts(ops, i, j);
    HeadFirst(ops[i].blocks, Flat(ops, i + 1, j));
    assert Flat(ops, 0, j) == before + [head] + after;
    AfterIs(before, head, after);
    RecentIffFewSince(Flat(ops, 0, j), head, cap);
    OneMore(head, after);
    assert head in Flat(ops, 0, j);
  }

  lemma {:induction false} HeadFirst(batch: seq<Block>, since: seq<Block>)
    requires batch != [] && Distinct(batch) && batch[0] !in since
    ensures batch + since == [batch[0]] + (batch[1..] + since) && batch[0] !in batch[1..] + since
  {
    assert batch == [batch[0]] + batch[1..];
    assert forall k :: 0 <= k < |batch[1..]| ==> batch[1..][k] == batch[k + 1];
  }

  lemma {:induction false} OneMore(head: Block, after: seq<Block>)
    requires head !in after
    ensures |Elems([head] + after)| == 1 + |Elems(after)|
  {
    assert Elems([head] + after) == {head} + Elems(after);
  }

  /**
   All or nothing: if the head of an earlier turn's chain has not been admitted again,
   a turn that extends its prompt finds the whole chain when the distinct blocks
   admitted from it on fit, and not a single block when they do not.
   */
  lemma {:induction false} NextTurnFindsAllOrNothing(h: Blocks.Hash, tokens: seq<int>, more: seq<int>, size: nat,
                                                     cap: nat, ops: seq<Admission>, i: nat, j: nat)
    requires Blocks.Injective(h) && size > 0 && |tokens| / size > 0 && Plain(ops) && i < j <= |ops|
    requires ops[i].blocks == Blocks.Chain(h, tokens, size, |tokens| / size)
    requires ops[i].blocks[0] !in Flat(ops, i + 1, j)
    ensures var matched := Blocks.Matched(Blocks.Chain(h, tokens + more, size, |tokens + more| / size),
                                          Elems(Run(Directives, cap, ops, j).order));
            && (|Elems(Flat(ops, i, j))| <= cap <==> matched >= |tokens| / size)
            && (|Elems(Flat(ops, i, j))| > cap <==> matched == 0)
  {
    hide Flat, Run, Blocks.Chain, Blocks.Injective;
    Blocks.ChainIsDistinct(h, tokens, size, |tokens| / size);
    HeadStaysIfAllFit(cap, ops, i, j);
    Blocks.GrowingPromptExtendsChain(h, tokens, more, size);
    if |Elems(Flat(ops, i, j))| <= cap {
      NextTurnFindsItsPrefix(h, tokens, more, size, cap, ops, i, j);
    } else {
      assert Blocks.Chain(h, tokens + more, size, |tokens + more| / size)[0] == ops[i].blocks[0];
    }
  }

  /** A larger cache never matches a shorter prefix, for either strategy and any directives. */
  lemma {:induction false} MatchedGrowsWithCapacity(strategy: Strategy, cap: nat, cap': nat, ops: seq<Admission>,
                                                    k: nat, blocks: seq<Block>)
    requires cap <= cap' && k <= |ops|
    ensures Blocks.Matched(blocks, Elems(Run(strategy, cap, ops, k).order)) <=
            Blocks.Matched(blocks, Elems(Run(strategy, cap', ops, k).order))
  {
    StackInclusion(strategy, cap, cap', ops, k);
    Blocks.MatchedGrows(blocks, Elems(Run(strategy, cap, ops, k).order), Elems(Run(strategy, cap', ops, k).order));
  }
}
