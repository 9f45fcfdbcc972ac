/**
 What a router learns from timing alone, as values: the last-seen table, the
 gap index, and the lease decision; and their agreement with the full history.
 */
module Learning {
  import opened Basics
  import opened Reals
  import opened BoundedMap
  import opened GapStats

  // -------------------------------------------------------------- last-seen table

  /** Record a sighting; the answer is the gap to attribute, if there is one. */
  function Observe<K(==)>(t: Table<K, real>, key: Option<K>, hasTool: bool, now: real, cap: nat)
    : (Option<real>, Table<K, real>)
  {
    match key
    case None => (None, t)
    case Some(k) =>
      var prev := Lookup(t, k);
      (if prev.Some? && hasTool then Some(now - prev.value) else None, Put(t, k, now, cap))
  }

  // ------------------------------------------------------------------- gap index

  function Record<T(==)>(t: Table<T, GapStat>, tool: T, gap: real, alpha: real, cap: nat): Table<T, GapStat> {
    var stat := if tool in t.vals then t.vals[tool] else FRESH;
    Put(t, tool, Fold(stat, gap, alpha), cap)
  }

  datatype Prior = Prior(mean: real, variance: real)

  const DEFAULT_PRIOR := Prior(2.0, 16.0)

  /** Learned estimate, else the tool's static prior, else the default prior. */
  function PredictGap<T(==)>(t: Table<T, GapStat>, priors: map<T, Prior>, fallback: Prior, tool: Option<T>): Prior {
    if tool.Some? && tool.value in t.vals then Prior(t.vals[tool.value].mean, t.vals[tool.value].variance)
    else if tool.Some? && tool.value in priors then priors[tool.value]
    else fallback
  }

  const TINY := 0.000000001

  function Confidence(mean: real, variance: real): real
    requires variance >= 0.0
  {
    QuotFalls(variance, MaxReal(Sq(mean), TINY), MaxReal(Sq(mean), TINY));
    Quot(1.0, 1.0 + Quot(variance, MaxReal(Sq(mean), TINY)))
  }
}

/** The bounded tables against the unbounded history of what was written to them. */
module LearningHistory {
  import opened Basics
  import opened Lru
  import opened BoundedMap
  import opened GapStats
  import opened Learning

  /** One request as the last-seen table meets it. */
  datatype Sighting<K> = Sighting(key: Option<K>, hasTool: bool, now: real)

  function SeenTable<K(==)>(s: seq<Sighting<K>>, cap: nat, k: nat): Table<K, real>
    requires k <= |s|
    decreases k
  {
    if k == 0 then Empty()
    else Observe(SeenTable(s, cap, k - 1), s[k - 1].key, s[k - 1].hasTool, s[k - 1].now, cap).1
  }

  /** The keys seen so far, in order, repetitions included. */
  function Keys<K>(s: seq<Sighting<K>>, k: nat): seq<K>
    requires k <= |s|
    decreases k
  {
    if k == 0 then []
    else if s[k - 1].key.None? then Keys(s, k - 1)
    else Keys(s, k - 1) + [s[k - 1].key.value]
  }

  /** When `key` was last seen among the first `k` sightings, however long ago. */
  function LastTime<K(==)>(s: seq<Sighting<K>>, k: nat, key: K): Option<real>
    requires k <= |s|
    decreases k
  {
    if k == 0 then None
    else if s[k - 1].key == Some(key) then Some(s[k - 1].now)
    else LastTime(s, k - 1, key)
  }

  /** Among the `cap` distinct keys seen most recently. */
  predicate Recent<K(==)>(keys: seq<K>, cap: nat, key: K) {
    key in LastN(Recency(keys), cap)
  }

  lemma {:induction false} SeenTableIsRecent<K>(s: seq<Sighting<K>>, cap: nat, k: nat)
    requires k <= |s|
    ensures Valid(SeenTable(s, cap, k))
    ensures SeenTable(s, cap, k).order == LastN(Recency(Keys(s, k)), cap)
    ensures forall key :: key in SeenTable(s, cap, k).vals ==>
            LastTime(s, k, key) == Some(SeenTable(s, cap, k).vals[key])
  {
    hide Put, Recency, LastN, Valid;
    if k == 0 {
      EmptyIsRecent<K, real>(cap);
    } else {
      SeenTableIsRecent(s, cap, k - 1);
      if s[k - 1].key.Some? {
        var t := SeenTable(s, cap, k - 1);
        PutFacts(t, s[k - 1].key.value, s[k - 1].now, cap);
        PutKeepsRecent(t, Keys(s, k - 1), s[k - 1].key.value, s[k - 1].now, cap);
      }
    }
  }

  lemma EmptyIsRecent<K, V>(cap: nat)
    ensures Valid(Empty<K, V>())
    ensures Empty<K, V>().order == LastN(Recency<K>([]), cap)
  {
  }

  lemma {:induction false} RecentIsResident<K, V>(t: Table<K, V>, keys: seq<K>, cap: nat, key: K)
    requires Valid(t) && t.order == LastN(Recency(keys), cap)
    ensures key in t.vals <==> Recent(keys, cap, key)
  {
    assert key in t.vals <==> key in Elems(t.order);
  }

  /** The answer read off the whole history. */
  function ExactGap<K(==)>(s: seq<Sighting<K>>, cap: nat, k: nat): Option<real>
    requires k < |s|
  {
    if s[k].key.None? || !s[k].hasTool || !Recent(Keys(s, k), cap, s[k].key.value) then None
    else
      match LastTime(s, k, s[k].key.value)
      case None => None
      case Some(last) => Some(s[k].now - last)
  }

  /**
   The bounded tracker answers exactly: the time since the previous turn when the
   conversation is among the `cap` most recently seen and a tool is known, else nothing.
   */
  lemma {:induction false} ObserveIsExact<K>(s: seq<Sighting<K>>, cap: nat, k: nat)
    requires k < |s|
    ensures Observe(SeenTable(s, cap, k), s[k].key, s[k].hasTool, s[k].now, cap).0 == ExactGap(s, cap, k)
  {
    hide Valid, Recent, Put, SeenTable, LastTime, Keys, Recency, LastN;
    if s[k].key.Some? {
      SeenTableIsRecent(s, cap, k);
      RecentIsResident(SeenTable(s, cap, k), Keys(s, k), cap, s[k].key.value);
    }
  }

  // ------------------------------------------------------------------- gap index

  datatype Sample<T> = Sample(tool: T, gap: real)

  function GapTable<T(==)>(s: seq<Sample<T>>, alpha: real, cap: nat, k: nat): Table<T, GapStat>
    requires k <= |s|
    decreases k
  {
    if k == 0 then Empty() else Record(GapTable(s, alpha, cap, k - 1), s[k - 1].tool, s[k - 1].gap, alpha, cap)
  }

  function Tools<T>(s: seq<Sample<T>>, k: nat): (tools: seq<T>)
    requires k <= |s|
    ensures |tools| == k
    decreases k
  {
    if k == 0 then [] else Tools(s, k - 1) + [s[k - 1].tool]
  }

  /** The gaps recorded for `tool` since it last entered the table, judged by recency alone. */
  function Since<T(==)>(s: seq<Sample<T>>, cap: nat, k: nat, tool: T): seq<real>
    requires k <= |s|
    decreases k
  {
    if k == 0 then []
    else if s[k - 1].tool != tool then Since(s, cap, k - 1, tool)
    else if Recent(Tools(s, k - 1), cap, tool) then Since(s, cap, k - 1, tool) + [s[k - 1].gap]
    else [s[k - 1].gap]
  }

  /** A resident tool's estimate is the fold of exactly its gaps since it last entered. */
  lemma {:induction false} GapTableIsRecent<T>(s: seq<Sample<T>>, alpha: real, cap: nat, k: nat)
    requires k <= |s|
    ensures Valid(GapTable(s, alpha, cap, k))
    ensures GapTable(s, alpha, cap, k).order == LastN(Recency(Tools(s, k)), cap)
    ensures forall tool :: tool in GapTable(s, alpha, cap, k).vals ==>
              Since(s, cap, k, tool) != [] &&
              GapTable(s, alpha, cap, k).vals[tool] == Estimate(Since(s, cap, k, tool), alpha)
  {
    hide Put, Recency, LastN, Valid, Fold, Recent;
    if k == 0 {
      EmptyIsRecent<T, GapStat>(cap);
    } else {
      GapTableIsRecent(s, alpha, cap, k - 1);
      var t, x := GapTable(s, alpha, cap, k - 1), s[k - 1];
      var stat := if x.tool in t.vals then t.vals[x.tool] else FRESH;
      PutFacts(t, x.tool, Fold(stat, x.gap, alpha), cap);
      PutKeepsRecent(t, Tools(s, k - 1), x.tool, Fold(stat, x.gap, alpha), cap);
      RecentIsResident(t, Tools(s, k - 1), cap, x.tool);
      FoldIsEstimate(s, alpha, cap, k, stat);
    }
  }

  lemma {:induction false} FoldIsEstimate<T>(s: seq<Sample<T>>, alpha: real, cap: nat, k: nat, stat: GapStat)
    requires 0 < k <= |s|
    requires var x := s[k - 1];
             stat == if Recent(Tools(s, k - 1), cap, x.tool) then Estimate(Since(s, cap, k - 1, x.tool), alpha)
               else FRESH
    ensures Fold(stat, s[k - 1].gap, alpha) == Estimate(Since(s, cap, k, s[k - 1].tool), alpha)
  {
    hide Fold, Recent;
    var x := s[k - 1];
    EstimateSnoc(Since(s, cap, k - 1, x.tool), x.gap, alpha);
    EstimateSnoc([], x.gap, alpha);
    assert [] + [x.gap] == [x.gap];
  }

  lemma {:induction false} EstimateSnoc(gaps: seq<real>, gap: real, alpha: real)
    ensures Estimate(gaps + [gap], alpha) == Fold(Estimate(gaps, alpha), gap, alpha)
  {
    assert (gaps + [gap])[..|gaps|] == gaps;
  }
}
