/**
 A capacity-bounded OrderedDict used as an LRU: the value every write leaves behind,
 and its agreement with the unbounded sequence of writes.
 */
module BoundedMap {
  import opened Basics
  import opened Lru

  /** `order` is oldest first and lists exactly the keys of `vals`. */
  datatype Table<K(==), V> = Table(order: seq<K>, vals: map<K, V>)

  ghost predicate Valid<K, V>(t: Table<K, V>) {
    Distinct(t.order) && t.vals.Keys == Elems(t.order)
  }

  function Empty<K(==), V>(): Table<K, V> {
    Table([], map[])
  }

  function Lookup<K(==), V>(t: Table<K, V>, k: K): Option<V> {
    if k in t.vals then Some(t.vals[k]) else None
  }

  /** Drop oldest entries until at most `cap` are left. */
  function Trim<K(==), V>(t: Table<K, V>, cap: nat): Table<K, V> {
    Table(LastN(t.order, cap), Restrict(t.vals, LastN(t.order, cap)))
  }

  function Restrict<K(==), V>(vals: map<K, V>, kept: seq<K>): map<K, V> {
    map k | k in vals && k in kept :: vals[k]
  }

  lemma RestrictAfterDrop<K, V>(vals: map<K, V>, kept: seq<K>, k: K)
    requires k !in kept
    ensures Restrict(vals - {k}, kept) == Restrict(vals, kept)
  {
  }

  /** Write `k` as most recently used, then trim. */
  function Put<K(==), V>(t: Table<K, V>, k: K, v: V, cap: nat): Table<K, V> {
    Trim(Table(Touch(t.order, k), t.vals[k := v]), cap)
  }

  lemma {:induction false} TrimFacts<K, V>(t: Table<K, V>, cap: nat)
    requires Valid(t)
    ensures Valid(Trim(t, cap))
    ensures |t.order| <= cap ==> Trim(t, cap) == t
  {
    SuffixFacts(LastN(t.order, cap), t.order);
    RestrictKeys(t.vals, t.order, LastN(t.order, cap));
  }

  lemma {:induction false} RestrictKeys<K, V>(vals: map<K, V>, order: seq<K>, kept: seq<K>)
    requires vals.Keys == Elems(order) && Elems(kept) <= Elems(order)
    ensures Restrict(vals, kept).Keys == Elems(kept)
    ensures kept == order ==> Restrict(vals, kept) == vals
  {
    assert forall k :: k in vals <==> k in Elems(order);
    assert forall k :: k in kept <==> k in Elems(kept);
  }

  lemma {:induction false} TailFacts<K>(order: seq<K>, cap: nat)
    requires Distinct(order) && |order| > cap
    ensures Distinct(order[1..]) && Elems(order[1..]) == Elems(order) - {order[0]}
    ensures LastN(order[1..], cap) == LastN(order, cap)
    ensures order[0] !in LastN(order, cap)
  {
    assert order == [order[0]] + order[1..];
  }

  /** Popping the oldest entry of an overfull table does not change what trimming leaves. */
  lemma {:induction false} TrimStep<K, V>(t: Table<K, V>, cap: nat)
    requires Valid(t) && |t.order| > cap
    ensures var t' := Table(t.order[1..], t.vals - {t.order[0]});
            Valid(t') && Trim(t', cap) == Trim(t, cap)
  {
    TailFacts(t.order, cap);
    hide LastN, Distinct, Elems, Restrict;
    RestrictAfterDrop(t.vals, LastN(t.order, cap), t.order[0]);
  }

  lemma {:induction false} TouchedIsValid<K, V>(t: Table<K, V>, k: K, v: V)
    requires Valid(t)
    ensures Valid(Table(Touch(t.order, k), t.vals[k := v]))
  {
    hide Touch, Distinct;
    TouchFacts(t.order, k);
  }

  lemma {:induction false} PutFacts<K, V>(t: Table<K, V>, k: K, v: V, cap: nat)
    requires Valid(t)
    ensures Valid(Put(t, k, v, cap))
    ensures Put(t, k, v, cap).order == LastN(Touch(t.order, k), cap)
    ensures forall x :: x in Put(t, k, v, cap).vals ==>
              if x == k then Put(t, k, v, cap).vals[x] == v
              else x in t.vals && Put(t, k, v, cap).vals[x] == t.vals[x]
  {
    TouchedIsValid(t, k, v);
    TrimFacts(Table(Touch(t.order, k), t.vals[k := v]), cap);
  }

  /** The key order after any writes is that of the `cap` most recently written keys. */
  lemma {:induction false} PutKeepsRecent<K, V>(t: Table<K, V>, keys: seq<K>, k: K, v: V, cap: nat)
    requires Valid(t) && t.order == LastN(Recency(keys), cap)
    ensures Put(t, k, v, cap).order == LastN(Recency(keys + [k]), cap)
  {
    BoundedKeysAreRecent(keys, cap);
    BoundedKeysAreRecent(keys + [k], cap);
    assert (keys + [k])[..|keys|] == keys;
    PutFacts(t, k, v, cap);
  }
}
