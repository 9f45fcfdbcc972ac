/** The simulator's router-side tables: OrderedDicts updated in place. */
module PythonTables {
  import opened Basics
  import opened Lru
  import opened BoundedMap
  import opened GapStats
  import opened Learning

  /** The per-conversation last-seen table of `observe_gap`. */
  class LastSeen<K(==)> {
    var order: seq<K>
    var times: map<K, real>

    ghost predicate Sound()
      reads this
    {
      Valid(View())
    }

    function View(): Table<K, real>
      reads this
    {
      Table(order, times)
    }

    constructor ()
      ensures Sound() && View() == Empty()
    {
      order, times := [], map[];
    }

    method ObserveGap(conversation: Option<K>, hasTool: bool, now: real, capacity: nat) returns (gap: Option<real>)
      requires Sound()
      modifies this
      ensures Sound()
      ensures (gap, View()) == Observe(old(View()), conversation, hasTool, now, capacity)
    {
      hide Valid, Trim, Without;
      if conversation.None? {
        return None;
      }
      var k := conversation.value;
      var prev := if k in times then Some(times[k]) else None;
      times := times[k := now];
      order := Without(order, k) + [k];
      TouchedIsValid(old(View()), k, now);
      DropOldest(capacity);
      if prev.None? || !hasTool {
        return None;
      }
      gap := Some(now - prev.value);
    }

    /** `popitem(last=False)` until the table fits. */
    method DropOldest(capacity: nat)
      requires Sound()
      modifies this
      ensures Sound()
      ensures View() == Trim(old(View()), capacity)
    {
      ghost var full := View();
      while |order| > capacity
        invariant Sound() && Trim(View(), capacity) == Trim(full, capacity)
        decreases |order|
      {
        TrimStep(View(), capacity);
        hide Valid, Trim;
        times := times - {order[0]};
        order := order[1..];
      }
      TrimFacts(View(), capacity);
    }
  }

  /** The per-tool gap index. */
  class ToolGapIndex<T(==)> {
    const capacity: nat
    const alpha: real
    const priors: map<T, Prior>
    const defaultPrior: Prior
    var order: seq<T>
    var stats: map<T, GapStat>

    ghost predicate Sound()
      reads this
    {
      Valid(View())
    }

    function View(): Table<T, GapStat>
      reads this
    {
      Table(order, stats)
    }

    constructor (capacity: nat, alpha: real, priors: map<T, Prior>, defaultPrior: Prior)
      ensures Sound() && View() == Empty()
      ensures this.capacity == capacity && this.alpha == alpha
      ensures this.priors == priors && this.defaultPrior == defaultPrior
    {
      this.capacity, this.alpha, this.priors, this.defaultPrior := capacity, alpha, priors, defaultPrior;
      order, stats := [], map[];
    }

    method Record(tool: T, gap: real)
      requires Sound()
      modifies this
      ensures Sound()
      ensures View() == Learning.Record(old(View()), tool, gap, alpha, capacity)
    {
      hide Valid, Trim, Without;
      var stat := FRESH;
      if tool in stats {
        stat := stats[tool];
      }
      order, stats := Without(order, tool), stats - {tool};
      stat := UpdateStat(stat, gap, alpha);
      hide Fold;
      stats := stats[tool := stat];
      order := order + [tool];
      assert stats == old(stats)[tool := stat];
      TouchedIsValid(old(View()), tool, stat);
      DropOldest();
    }

    /** `popitem(last=False)` until the table fits. */
    method DropOldest()
      requires Sound()
      modifies this
      ensures Sound()
      ensures View() == Trim(old(View()), capacity)
    {
      ghost var full := View();
      while |order| > capacity
        invariant Sound() && Trim(View(), capacity) == Trim(full, capacity)
        decreases |order|
      {
        TrimStep(View(), capacity);
        hide Valid, Trim;
        stats := stats - {order[0]};
        order := order[1..];
      }
      TrimFacts(View(), capacity);
    }

    method Predict(tool: Option<T>) returns (p: Prior)
      ensures p == PredictGap(View(), priors, defaultPrior, tool)
      ensures tool.Some? && tool.value in stats ==> p.mean == stats[tool.value].mean
      ensures tool.Some? && tool.value in stats ==> p.variance == stats[tool.value].variance
      ensures tool.Some? && tool.value !in stats && tool.value in priors ==> p == priors[tool.value]
      ensures tool.None? || (tool.value !in stats && tool.value !in priors) ==> p == defaultPrior
    {
      if tool.Some? {
        if tool.value in stats {
          return Prior(stats[tool.value].mean, stats[tool.value].variance);
        }
        if tool.value in priors {
          return priors[tool.value];
        }
      }
      p := defaultPrior;
    }
  }
}
