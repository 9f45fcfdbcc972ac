/**
 The gateway plugin's tables: a map into the elements of a linked list whose
 entries are updated in place.  They refine the simulator's OrderedDict tables.
 */
module GoTables {
  import opened Basics
  import opened Lru
  import opened BoundedMap
  import opened GapStats
  import opened Learning

  /** A list element with its entry; the key of an entry never changes. */
  class Element<K(==), V> {
    const key: K
    var value: V

    constructor (key: K, value: V)
      ensures this.key == key && this.value == value
    {
      this.key, this.value := key, value;
    }
  }

  function KeysOf<K(==), V>(order: seq<Element<K, V>>): (keys: seq<K>)
    ensures |keys| == |order|
    ensures forall i :: 0 <= i < |order| ==> keys[i] == order[i].key
  {
    seq(|order|, i requires 0 <= i < |order| => order[i].key)
  }

  lemma KeysOfAppend<K, V>(a: seq<Element<K, V>>, b: seq<Element<K, V>>)
    ensures KeysOf(a + b) == KeysOf(a) + KeysOf(b)
  {
  }

  /** Elements with distinct keys are distinct. */
  lemma {:induction false} DistinctKeys<K, V>(order: seq<Element<K, V>>)
    requires Distinct(KeysOf(order))
    ensures Distinct(order)
  {
    var keys := KeysOf(order);
    assert forall i, j :: 0 <= i < j < |order| ==> keys[i] != keys[j];
  }

  /** Removing an element removes its key. */
  lemma {:induction false} KeysOfWithout<K, V>(order: seq<Element<K, V>>, e: Element<K, V>)
    requires Distinct(KeysOf(order)) && e in order
    ensures KeysOf(Without(order, e)) == Without(KeysOf(order), e.key)
  {
    hide IndexOf, Distinct, KeysOf;
    KeyIndex(order, e);
    KeysOfDropped(order, IndexOf(order, e));
  }

  lemma {:induction false} KeyIndex<K, V>(order: seq<Element<K, V>>, e: Element<K, V>)
    requires Distinct(KeysOf(order)) && e in order
    ensures IndexOf(KeysOf(order), e.key) == IndexOf(order, e) < |order|
  {
    hide Distinct, KeysOf;
    assert KeysOf(order)[IndexOf(order, e)] == e.key;
    IndexIs(KeysOf(order), e.key, IndexOf(order, e));
  }

  lemma KeysOfDropped<K, V>(order: seq<Element<K, V>>, i: nat)
    requires i < |order|
    ensures KeysOf(order[..i] + order[i + 1..]) == KeysOf(order)[..i] + KeysOf(order)[i + 1..]
  {
  }

  lemma {:induction false} KeysOfMoved<K, V>(order: seq<Element<K, V>>, e: Element<K, V>)
    requires Distinct(KeysOf(order)) && e in order
    ensures KeysOf(Without(order, e) + [e]) == Touch(KeysOf(order), e.key)
    ensures Distinct(KeysOf(Without(order, e) + [e]))
    ensures forall x :: x in Without(order, e) + [e] <==> x in order
  {
    KeysOfWithout(order, e);
    KeysOfAppend(Without(order, e), [e]);
    DistinctKeys(order);
    WithoutFacts(order, e);
    assert KeysOf([e]) == [e.key];
    hide Without, KeysOf;
    TouchFacts(KeysOf(order), e.key);
  }

  lemma {:induction false} KeysOfPushed<K, V>(order: seq<Element<K, V>>, e: Element<K, V>)
    requires Distinct(KeysOf(order)) && e.key !in KeysOf(order)
    ensures KeysOf(order + [e]) == Touch(KeysOf(order), e.key)
    ensures Distinct(KeysOf(order + [e]))
  {
    KeysOfAppend(order, [e]);
    assert KeysOf([e]) == [e.key];
    TouchNew(KeysOf(order), e.key);
    TouchFacts(KeysOf(order), e.key);
  }

  /** Front of the list is least recently used. */
  class LruList<K(==), V> {
    var elems: map<K, Element<K, V>>
    var order: seq<Element<K, V>>

    /** The map and the list are in bijection, key by key. */
    ghost predicate Sound()
      reads this
    {
      && Distinct(KeysOf(order))
      && (forall e :: e in order ==> e.key in elems && elems[e.key] == e)
      && (forall k :: k in elems ==> elems[k] in order && elems[k].key == k)
    }

    ghost function View(): Table<K, V>
      reads this, elems.Values
    {
      Table(KeysOf(order), map k | k in elems :: elems[k].value)
    }

    constructor ()
      ensures Sound() && View() == Empty() && elems == map[]
    {
      elems, order := map[], [];
    }

    lemma {:induction false} ViewIsValid()
      requires Sound()
      ensures Valid(View())
    {
      forall k | k in elems ensures k in KeysOf(order) {
        var i := IndexOf(order, elems[k]);
        assert KeysOf(order)[i] == k;
      }
      forall k | k in KeysOf(order) ensures k in elems {
        var i := IndexOf(KeysOf(order), k);
        assert order[i] in order;
      }
    }

    lemma {:induction false} AbsentKey(k: K)
      requires Sound() && k !in elems
      ensures k !in KeysOf(order)
    {
      forall i | 0 <= i < |order| ensures KeysOf(order)[i] != k {
        assert order[i] in order;
      }
    }

    /** Update the entry of `k` through its element. */
    method SetValue(k: K, v: V)
      requires Sound() && k in elems
      modifies elems[k]
      ensures Sound()
      ensures View() == old(View()).(vals := old(View()).vals[k := v])
    {
      hide Distinct, KeysOf;
      elems[k].value := v;
      assert View().vals == old(View()).vals[k := v];
    }

    /** `MoveToBack` of the element of `k`. */
    method MoveToBack(k: K)
      requires Sound() && k in elems
      modifies this`order
      ensures Sound()
      ensures View() == old(View()).(order := Touch(old(View()).order, k))
    {
      hide Without, Distinct, KeysOf, Touch;
      var e := elems[k];
      KeysOfMoved(order, e);
      order := Without(order, e) + [e];
    }

    /** Push a new element for `k` to the back. */
    method Append(k: K, v: V)
      requires Sound() && k !in elems
      modifies this
      ensures Sound() && elems.Keys == old(elems.Keys) + {k} && fresh(elems[k])
      ensures forall x :: x in old(elems) ==> elems[x] == old(elems[x])
      ensures View() == Table(Touch(old(View()).order, k), old(View()).vals[k := v])
    {
      hide Distinct, KeysOf, Touch;
      AbsentKey(k);
      var e := new Element(k, v);
      KeysOfPushed(order, e);
      Push(e);
    }

    /** Put `e` at the back of the list and under its key in the map. */
    method Push(e: Element<K, V>)
      requires Sound() && e.key !in elems && Distinct(KeysOf(order + [e]))
      modifies this
      ensures Sound() && elems == old(elems)[e.key := e] && order == old(order) + [e]
      ensures View() == Table(KeysOf(old(order) + [e]), old(View()).vals[e.key := e.value])
    {
      hide KeysOf, Distinct;
      elems := elems[e.key := e];
      order := order + [e];
      assert View().vals == old(View()).vals[e.key := e.value];
    }

    /** Remove elements from the front until the list fits. */
    method TrimFront(capacity: nat)
      requires Sound()
      modifies this
      ensures Sound()
      ensures View() == Trim(old(View()), capacity)
      ensures forall k :: k in elems ==> k in old(elems) && elems[k] == old(elems[k])
    {
      ghost var full := View();
      ViewIsValid();
      while |order| > capacity
        invariant Sound() && Valid(View()) && Trim(View(), capacity) == Trim(full, capacity)
        invariant forall k :: k in elems ==> k in old(elems) && elems[k] == old(elems[k])
        decreases |order|
      {
        TrimStep(View(), capacity);
        RemoveFront();
      }
      TrimFacts(View(), capacity);
    }

    method RemoveFront()
      requires Sound() && order != []
      modifies this
      ensures Sound() && |order| == |old(order)| - 1
      ensures View() == Table(old(View()).order[1..], old(View()).vals - {old(View()).order[0]})
      ensures forall k :: k in elems ==> k in old(elems) && elems[k] == old(elems[k])
    {
      hide KeysOf, Distinct;
      var lru, rest := order[0], order[1..];
      TailKeys(order, rest);
      RemoveKey(lru, rest);
    }

    /** Take `lru` out of the list and its key out of the map. */
    method RemoveKey(lru: Element<K, V>, rest: seq<Element<K, V>>)
      requires Sound() && lru in order && Distinct(KeysOf(rest))
      requires forall e :: e in rest <==> e in order && e.key != lru.key
      modifies this
      ensures Sound() && order == rest && elems == old(elems) - {lru.key}
      ensures View() == Table(KeysOf(rest), old(View()).vals - {lru.key})
    {
      hide KeysOf, Distinct;
      order := rest;
      elems := elems - {lru.key};
      assert View().vals == old(View()).vals - {lru.key};
    }
  }

  lemma {:induction false} TailKeys<K, V>(order: seq<Element<K, V>>, rest: seq<Element<K, V>>)
    requires order != [] && Distinct(KeysOf(order)) && rest == order[1..]
    ensures KeysOf(rest) == KeysOf(order)[1..] && Distinct(KeysOf(rest)) && KeysOf(order)[0] == order[0].key
    ensures forall e :: e in rest <==> e in order && e.key != order[0].key
  {
    assert order == [order[0]] + rest;
    forall e | e in rest ensures e.key != order[0].key {
      var i :| 0 <= i < |rest| && rest[i] == e;
      assert KeysOf(order)[i + 1] == e.key;
    }
  }

  /** Last-seen times per conversation; the empty string stands for no key and for no tool. */
  class SessionTracker {
    const capacity: nat
    const sessions: LruList<string, real>

    ghost predicate Sound()
      reads sessions
    {
      sessions.Sound()
    }

    constructor (capacity: int)
      ensures Sound() && fresh(sessions) && sessions.View() == Empty() && sessions.elems == map[]
      ensures this.capacity == if capacity <= 0 then 8192 else capacity
    {
      this.capacity := if capacity <= 0 then 8192 else capacity;
      sessions := new LruList();
    }

    /** The answer and the new table are those of the simulator's function. */
    ghost predicate Answers(before: Table<string, real>, conversation: string, tool: string, now: real,
                            answer: Option<real>, after: Table<string, real>)
    {
      (answer, after) ==
      Observe(before, if conversation == "" then None else Some(conversation), tool != "", now, capacity)
    }

    method ObserveGap(conversation: string, tool: string, now: real) returns (gap: real, ok: bool)
      requires Sound()
      modifies sessions, sessions.elems.Values
      ensures Sound()
      ensures Answers(old(sessions.View()), conversation, tool, now, if ok then Some(gap) else None, sessions.View())
    {
      hide Put, Lookup, Distinct, KeysOf;
      if conversation == "" {
        return 0.0, false;
      }
      var prev, hadPrev := LastSeen(conversation);
      See(conversation, now);
      if !hadPrev || tool == "" {
        return 0.0, false;
      }
      return now - prev, true;
    }

    method LastSeen(conversation: string) returns (prev: real, hadPrev: bool)
      requires Sound()
      ensures Lookup(sessions.View(), conversation) == if hadPrev then Some(prev) else None
    {
      prev, hadPrev := 0.0, false;
      if conversation in sessions.elems {
        prev, hadPrev := sessions.elems[conversation].value, true;
      }
    }

    /** Update the entry of the conversation, or push a new one, and trim. */
    method See(conversation: string, now: real)
      requires Sound()
      modifies sessions, sessions.elems.Values
      ensures Sound()
      ensures sessions.View() == Put(old(sessions.View()), conversation, now, capacity)
    {
      hide Touch, Trim, Distinct, KeysOf;
      ghost var before := sessions.View();
      if conversation in sessions.elems {
        sessions.SetValue(conversation, now);
        sessions.MoveToBack(conversation);
      } else {
        sessions.Append(conversation, now);
      }
      assert sessions.View() == Table(Touch(before.order, conversation), before.vals[conversation := now]);
      sessions.TrimFront(capacity);
    }
  }

  /** Per-tool gap estimates. */
  class ToolGapIndex {
    const capacity: nat
    const alpha: real
    const priors: map<string, Prior>
    const stats: LruList<string, GapStat>

    ghost predicate Sound()
      reads stats
    {
      stats.Sound()
    }

    constructor (capacity: int, alpha: real, priors: map<string, Prior>)
      ensures Sound() && fresh(stats) && stats.View() == Empty() && stats.elems == map[]
      ensures this.capacity == if capacity <= 0 then 512 else capacity
      ensures this.alpha == if alpha <= 0.0 || alpha > 1.0 then 0.3 else alpha
      ensures this.priors == priors
    {
      this.capacity := if capacity <= 0 then 512 else capacity;
      this.alpha := if alpha <= 0.0 || alpha > 1.0 then 0.3 else alpha;
      this.priors := priors;
      stats := new LruList();
    }

    method Record(tool: string, gap: real)
      requires Sound()
      modifies stats, stats.elems.Values
      ensures Sound()
      ensures stats.View() == Learning.Record(old(stats.View()), tool, gap, alpha, capacity)
    {
      hide Touch, Trim, Fold, Distinct, KeysOf;
      ghost var before := stats.View();
      Enter(tool);
      FoldEntry(tool, gap);
      assert stats.View() == Table(Touch(before.order, tool),
             before.vals[tool := Fold(Known(before, tool), gap, alpha)]);
      stats.TrimFront(capacity);
    }

    ghost function Known(t: Table<string, GapStat>, tool: string): GapStat {
      if tool in t.vals then t.vals[tool] else FRESH
    }

    /** Push a fresh entry for an unseen tool, move a known one to the back. */
    method Enter(tool: string)
      requires Sound()
      modifies stats, stats.elems.Values
      ensures Sound() && tool in stats.elems
      ensures tool in old(stats.elems) ==> stats.elems[tool] == old(stats.elems[tool])
      ensures tool !in old(stats.elems) ==> fresh(stats.elems[tool])
      ensures var t := old(stats.View()); stats.View() == Table(Touch(t.order, tool), t.vals[tool := Known(t, tool)])
    {
      hide Touch;
      if tool !in stats.elems {
        stats.Append(tool, FRESH);
      } else {
        stats.MoveToBack(tool);
      }
    }

    /** Fold a gap into the entry of a resident tool, in place. */
    method FoldEntry(tool: string, gap: real)
      requires Sound() && tool in stats.elems
      modifies stats.elems[tool]
      ensures Sound()
      ensures var t := old(stats.View());
              stats.View() == t.(vals := t.vals[tool := Fold(t.vals[tool], gap, alpha)])
    {
      hide Fold;
      var stat := UpdateStat(stats.elems[tool].value, gap, alpha);
      stats.SetValue(tool, stat);
    }

    method Predict(tool: string) returns (p: Prior)
      requires Sound()
      ensures p == PredictGap(stats.View(), priors, DEFAULT_PRIOR, if tool == "" then None else Some(tool))
      ensures tool != "" && tool in stats.elems ==>
                p.mean == stats.elems[tool].value.mean && p.variance == stats.elems[tool].value.variance
      ensures tool != "" && tool !in stats.elems && tool in priors ==> p == priors[tool]
      ensures tool == "" || (tool !in stats.elems && tool !in priors) ==> p == Prior(2.0, 16.0)
    {
      if tool != "" {
        if tool in stats.elems {
          var stat := stats.elems[tool].value;
          return Prior(stat.mean, stat.variance);
        }
        if tool in priors {
          return priors[tool];
        }
      }
      p := DEFAULT_PRIOR;
    }
  }
}
