/**
 The one-pass gap estimate of a tool, and what it is: the exponentially weighted
 mean of the recorded gaps and the variance about it under the very same weights.
 */
module GapStats {
  import opened Reals

  datatype GapStat = GapStat(count: nat, mean: real, variance: real)

  const FRESH := GapStat(0, 0.0, 0.0)

  /** Fold one observed gap into an estimate. */
  function Fold(stat: GapStat, gap: real, alpha: real): GapStat {
    if stat.count == 0 then GapStat(1, gap, 0.0)
    else
      var delta := gap - stat.mean;
      GapStat(stat.count + 1, stat.mean + alpha * delta, (1.0 - alpha) * (stat.variance + alpha * delta * delta))
  }

  /** One gap folded in, field by field. */
  method UpdateStat(before: GapStat, gap: real, alpha: real) returns (stat: GapStat)
    ensures stat == Fold(before, gap, alpha)
  {
    var mean, variance := gap, 0.0;
    if before.count > 0 {
      var delta := gap - before.mean;
      mean := before.mean + alpha * delta;
      variance := (1.0 - alpha) * (before.variance + alpha * delta * delta);
    }
    stat := GapStat(before.count + 1, mean, variance);
  }

  function Estimate(gaps: seq<real>, alpha: real): (stat: GapStat)
    ensures stat.count == |gaps|
  {
    if gaps == [] then FRESH else Fold(Estimate(gaps[..|gaps| - 1], alpha), gaps[|gaps| - 1], alpha)
  }

  function Mix(alpha: real, older: real, newer: real): real {
    (1.0 - alpha) * older + alpha * newer
  }

  /** Weight of each of `n` observations, oldest first: geometric decay that keeps the first one's remainder. */
  function Weights(n: nat, alpha: real): (ws: seq<real>)
    ensures |ws| == n
  {
    if n == 0 then [] else if n == 1 then [1.0]
    else Scale(Weights(n - 1, alpha), 1.0 - alpha) + [alpha]
  }

  function Scale(ws: seq<real>, c: real): (r: seq<real>)
    ensures |r| == |ws|
    ensures forall i :: 0 <= i < |ws| ==> r[i] == Mul(c, ws[i])
  {
    seq(|ws|, i requires 0 <= i < |ws| => Mul(c, ws[i]))
  }

  function Sum(ws: seq<real>): real {
    if ws == [] then 0.0 else Sum(ws[..|ws| - 1]) + ws[|ws| - 1]
  }

  function Dot(ws: seq<real>, xs: seq<real>): real
    requires |ws| == |xs|
  {
    if ws == [] then 0.0
    else Dot(ws[..|ws| - 1], xs[..|xs| - 1]) + Mul(ws[|ws| - 1], xs[|xs| - 1])
  }

  /** Squared deviations from `m`. */
  function Deviations(gaps: seq<real>, m: real): (d: seq<real>)
    ensures |d| == |gaps|
    ensures forall i :: 0 <= i < |gaps| ==> d[i] == Sq(gaps[i] - m)
  {
    seq(|gaps|, i requires 0 <= i < |gaps| => Sq(gaps[i] - m))
  }

  // ----------------------------------------------------------- nonlinear arithmetic

  lemma MixSame(alpha: real, k: real)
    ensures Mix(alpha, k, k) == k
  {
  }

  lemma MixAdd(alpha: real, a: real, b: real, c: real, d: real)
    ensures Mix(alpha, a + b, c + d) == Mix(alpha, a, c) + Mix(alpha, b, d)
  {
  }

  lemma {:induction false} MixMul(alpha: real, k: real, a: real, b: real)
    ensures Mix(alpha, Mul(k, a), Mul(k, b)) == Mul(k, Mix(alpha, a, b))
  {
    assert (1.0 - alpha) * (k * a) == k * ((1.0 - alpha) * a);
    assert alpha * (k * b) == k * (alpha * b);
    MulDistributes(k, (1.0 - alpha) * a, alpha * b);
  }

  lemma {:induction false} MixBounds(alpha: real, a: real, b: real, lo: real, hi: real)
    requires 0.0 <= alpha <= 1.0 && lo <= a <= hi && lo <= b <= hi
    ensures lo <= Mix(alpha, a, b) <= hi
  {
    MulNonNegative(1.0 - alpha, a - lo);
    MulNonNegative(alpha, b - lo);
    MulNonNegative(1.0 - alpha, hi - a);
    MulNonNegative(alpha, hi - b);
    MixSame(alpha, lo);
    MixSame(alpha, hi);
    assert Mix(alpha, a, b) - Mix(alpha, lo, lo) == (1.0 - alpha) * (a - lo) + alpha * (b - lo);
    assert Mix(alpha, hi, hi) - Mix(alpha, a, b) == (1.0 - alpha) * (hi - a) + alpha * (hi - b);
  }

  lemma SqShift(g: real, m: real, p: real)
    ensures Sq(g - p) == Sq(g - m) + Mul(2.0 * (m - p), g - m) + Sq(m - p)
  {
  }

  /** Stepping `a` of the way from two distances whose steps cancel. */
  lemma {:induction false} ProductSpread(a: real, x: real, y: real, d: real)
    ensures Mul(x + Mul(a, d), y - Mul(a, d)) ==
            Mul(x, y) + Mul(a, Mul(d, y) - Mul(d, x)) - Mul(a, Mul(a, Sq(d)))
  {
    DifferenceProduct(x, y, a * d);
    Regroup(a, d, y);
    Regroup(a, d, x);
    SqOfProduct(a, d);
    assert a * (d * y) - a * (d * x) == a * (d * y - d * x);
    assert a * a * (d * d) == a * (a * (d * d));
  }

  lemma DifferenceProduct(x: real, y: real, e: real)
    ensures Mul(x + e, y - e) == Mul(x, y) + (e * y - e * x) - Sq(e)
  {
  }

  lemma Regroup(a: real, d: real, y: real)
    ensures (a * d) * y == a * (d * y)
  {
  }

  // --------------------------------------------------------------------- weights

  /** The weighted sum as a recurrence: each observation decays the older ones. */
  function Average(xs: seq<real>, alpha: real): real
    requires xs != []
  {
    if |xs| == 1 then xs[0] else Mix(alpha, Average(xs[..|xs| - 1], alpha), xs[|xs| - 1])
  }

  lemma {:induction false} ScaledDot(ws: seq<real>, xs: seq<real>, c: real)
    requires |ws| == |xs|
    ensures Dot(Scale(ws, c), xs) == Mul(c, Dot(ws, xs))
  {
    if ws != [] {
      var n := |ws| - 1;
      ScaledDot(ws[..n], xs[..n], c);
      hide Mul;
      assert Scale(ws, c)[..n] == Scale(ws[..n], c);
      MulAssociates(c, ws[n], xs[n]);
      MulDistributes(c, Dot(ws[..n], xs[..n]), Mul(ws[n], xs[n]));
    }
  }

  lemma {:induction false} ScaledSum(ws: seq<real>, c: real)
    ensures Sum(Scale(ws, c)) == Mul(c, Sum(ws))
  {
    if ws != [] {
      var n := |ws| - 1;
      ScaledSum(ws[..n], c);
      hide Mul;
      assert Scale(ws, c)[..n] == Scale(ws[..n], c);
      MulDistributes(c, Sum(ws[..n]), ws[n]);
    }
  }

  /** The weights are non-negative and add up to one. */
  lemma {:induction false} WeightsAreConvex(n: nat, alpha: real)
    requires n > 0 && 0.0 <= alpha <= 1.0
    ensures Sum(Weights(n, alpha)) == 1.0
    ensures forall i :: 0 <= i < n ==> Weights(n, alpha)[i] >= 0.0
  {
    hide Sum, Mul;
    if n > 1 {
      var front := Weights(n - 1, alpha);
      WeightsAreConvex(n - 1, alpha);
      ScaledSum(front, 1.0 - alpha);
      MulUnits(1.0 - alpha);
      SumSnoc(Scale(front, 1.0 - alpha), alpha);
      ScaleNonNegative(front, 1.0 - alpha);
    } else {
      SumOne(1.0);
    }
  }

  ghost function Power(b: real, n: nat): real {
    if n == 0 then 1.0 else Mul(b, Power(b, n - 1))
  }

  /**
   Each weight in closed form: `alpha` for the newest gap, losing the factor `1 - alpha` with every
   gap since; the first gap keeps what is left.
   */
  lemma {:induction false} WeightsInFull(n: nat, alpha: real, i: nat)
    requires i < n
    ensures Weights(n, alpha)[i] ==
            if i == 0 then Power(1.0 - alpha, n - 1) else Mul(alpha, Power(1.0 - alpha, n - 1 - i))
  {
    hide Mul;
    if i == n - 1 {
      MulUnits(alpha);
    } else {
      var rest := Power(1.0 - alpha, n - 2 - i);
      WeightsInFull(n - 1, alpha, i);
      assert Weights(n, alpha)[i] == Mul(1.0 - alpha, Weights(n - 1, alpha)[i]);
      MulAssociates(1.0 - alpha, alpha, rest);
      MulAssociates(alpha, 1.0 - alpha, rest);
      MulCommutes(alpha, 1.0 - alpha);
    }
  }

  lemma {:induction false} ScaleNonNegative(ws: seq<real>, c: real)
    requires c >= 0.0 && forall i :: 0 <= i < |ws| ==> ws[i] >= 0.0
    ensures forall i :: 0 <= i < |ws| ==> Scale(ws, c)[i] >= 0.0
  {
    var r := Scale(ws, c);
    forall i | 0 <= i < |ws| ensures r[i] >= 0.0 {
      MulNonNegative(c, ws[i]);
    }
  }

  lemma {:induction false} SumOne(w: real)
    ensures Sum([w]) == w
  {
    assert [w][..0] == [];
  }

  lemma {:induction false} SumSnoc(ws: seq<real>, w: real)
    ensures Sum(ws + [w]) == Sum(ws) + w
  {
    assert (ws + [w])[..|ws|] == ws;
  }

  lemma {:induction false} DotSnoc(ws: seq<real>, w: real, xs: seq<real>)
    requires |xs| == |ws| + 1
    ensures Dot(ws + [w], xs) == Dot(ws, xs[..|ws|]) + Mul(w, xs[|ws|])
  {
    assert (ws + [w])[..|ws|] == ws;
  }

  lemma {:induction false} DotOne(xs: seq<real>)
    requires |xs| == 1
    ensures Dot([1.0], xs) == xs[0]
  {
    assert [1.0][..0] == [] == xs[..0];
  }

  lemma {:induction false} AverageIsDot(xs: seq<real>, alpha: real)
    requires xs != []
    ensures Average(xs, alpha) == Dot(Weights(|xs|, alpha), xs)
  {
    var n := |xs| - 1;
    hide Dot;
    if n == 0 {
      DotOne(xs);
    } else {
      AverageIsDot(xs[..n], alpha);
      ScaledDot(Weights(n, alpha), xs[..n], 1.0 - alpha);
      DotSnoc(Scale(Weights(n, alpha), 1.0 - alpha), alpha, xs);
    }
  }

  // ------------------------------------------------------------ mean and variance

  /** One fold step as mixtures: of the means, and of the spreads about the new mean. */
  lemma {:induction false} FoldMixes(stat: GapStat, gap: real, alpha: real)
    requires stat.count > 0
    ensures var stat' := Fold(stat, gap, alpha);
            && stat'.mean == Mix(alpha, stat.mean, gap)
            && stat'.variance == Mix(alpha, stat.variance + Sq(stat.mean - stat'.mean), Sq(gap - stat'.mean))
  {
    var d, a, v := gap - stat.mean, 1.0 - alpha, stat.variance;
    var m := stat.mean + alpha * d;
    assert m == a * stat.mean + alpha * gap;
    assert stat.mean - m == -(alpha * d) && gap - m == a * d;
    var s := d * d;
    SqOfProduct(alpha, d);
    SqOfProduct(a, d);
    assert Sq(-(alpha * d)) == Sq(alpha * d);
    assert alpha * d * d == alpha * s;
    SpreadIdentity(alpha, v, s);
  }

  lemma {:induction false} SqOfProduct(a: real, d: real)
    ensures Sq(a * d) == a * a * (d * d)
  {
    assert (a * d) * (a * d) == a * (d * (a * d));
    assert d * (a * d) == a * (d * d);
  }

  lemma {:induction false} SpreadIdentity(alpha: real, v: real, s: real)
    ensures var a := 1.0 - alpha;
            a * (v + alpha * s) == a * (v + alpha * alpha * s) + alpha * (a * a * s)
  {
    var a := 1.0 - alpha;
    assert alpha * alpha * s + alpha * (a * s) == alpha * s;
    assert a * (alpha * (a * s)) == alpha * (a * a * s);
    assert a * (alpha * alpha * s + alpha * (a * s)) == a * (alpha * alpha * s) + a * (alpha * (a * s));
  }

  lemma {:induction false} MeanIsAverage(gaps: seq<real>, alpha: real)
    requires gaps != []
    ensures Estimate(gaps, alpha).mean == Average(gaps, alpha)
  {
    var n := |gaps| - 1;
    if n > 0 {
      hide Fold, Mix;
      MeanIsAverage(gaps[..n], alpha);
      FoldMixes(Estimate(gaps[..n], alpha), gaps[n], alpha);
    }
  }

  lemma {:induction false} DeviationsFront(gaps: seq<real>, m: real)
    requires gaps != []
    ensures Deviations(gaps, m)[..|gaps| - 1] == Deviations(gaps[..|gaps| - 1], m)
    ensures Deviations(gaps, m)[|gaps| - 1] == Sq(gaps[|gaps| - 1] - m)
  {
    hide Sq;
  }

  lemma AverageStep(xs: seq<real>, alpha: real)
    requires |xs| > 1
    ensures Average(xs, alpha) == Mix(alpha, Average(xs[..|xs| - 1], alpha), xs[|xs| - 1])
  {
  }

  /** Moving the point the deviations are taken about. */
  lemma {:induction false} DeviationShift(gaps: seq<real>, alpha: real, m: real, p: real)
    requires gaps != []
    ensures Average(Deviations(gaps, p), alpha) ==
            Average(Deviations(gaps, m), alpha) + Mul(2.0 * (m - p), Average(gaps, alpha) - m) + Sq(m - p)
  {
    var n, k, s := |gaps| - 1, 2.0 * (m - p), Sq(m - p);
    hide Mul, Sq, Mix;
    DeviationsFront(gaps, p);
    DeviationsFront(gaps, m);
    SqShift(gaps[n], m, p);
    if n > 0 {
      DeviationShift(gaps[..n], alpha, m, p);
      var mean, spread := Average(gaps[..n], alpha), Average(Deviations(gaps[..n], m), alpha);
      ShiftMix(alpha, k, s, mean - m, spread, gaps[n] - m, Sq(gaps[n] - m));
      MixAdd(alpha, mean - m, m, gaps[n] - m, m);
      MixSame(alpha, m);
      AverageStep(gaps, alpha);
      AverageStep(Deviations(gaps, p), alpha);
      AverageStep(Deviations(gaps, m), alpha);
    }
  }

  lemma {:induction false} ShiftMix(alpha: real, k: real, s: real, x: real, spread: real, y: real, dev: real)
    ensures Mix(alpha, spread + Mul(k, x) + s, dev + Mul(k, y) + s) ==
            Mix(alpha, spread, dev) + Mul(k, Mix(alpha, x, y)) + s
  {
    hide Mul, Mix;
    MixAdd(alpha, spread + Mul(k, x), s, dev + Mul(k, y), s);
    MixAdd(alpha, spread, Mul(k, x), dev, Mul(k, y));
    MixMul(alpha, k, x, y);
    MixSame(alpha, s);
  }

  lemma {:induction false} VarianceIsAverage(gaps: seq<real>, alpha: real)
    requires gaps != []
    ensures Estimate(gaps, alpha).variance == Average(Deviations(gaps, Estimate(gaps, alpha).mean), alpha)
  {
    var n, mean := |gaps| - 1, Estimate(gaps, alpha).mean;
    DeviationsFront(gaps, mean);
    if n == 0 {
      assert Estimate(gaps[..0], alpha) == FRESH;
    } else {
      hide Fold, Mix, Mul, Sq;
      var before := Estimate(gaps[..n], alpha);
      VarianceIsAverage(gaps[..n], alpha);
      MeanIsAverage(gaps[..n], alpha);
      DeviationShift(gaps[..n], alpha, before.mean, mean);
      MulUnits(2.0 * (before.mean - mean));
      FoldMixes(before, gaps[n], alpha);
      AverageStep(Deviations(gaps, mean), alpha);
    }
  }

  /**
   Exactness of the one-pass tracker: its mean and variance are the mean and the
   variance of everything recorded, under the same explicit weights.
   */
  lemma {:induction false} EstimateIsWeighted(gaps: seq<real>, alpha: real)
    requires gaps != []
    ensures var stat, ws := Estimate(gaps, alpha), Weights(|gaps|, alpha);
            stat.mean == Dot(ws, gaps) && stat.variance == Dot(ws, Deviations(gaps, stat.mean))
  {
    MeanIsAverage(gaps, alpha);
    VarianceIsAverage(gaps, alpha);
    AverageIsDot(gaps, alpha);
    AverageIsDot(Deviations(gaps, Estimate(gaps, alpha).mean), alpha);
  }

  // ---------------------------------------------------------------------- bounds

  ghost predicate Within(gaps: seq<real>, lo: real, hi: real) {
    forall i :: 0 <= i < |gaps| ==> lo <= gaps[i] <= hi
  }

  /** The mean stays within the observed range, and the spread within what that range allows. */
  lemma {:induction false} EstimateIsBounded(gaps: seq<real>, alpha: real, lo: real, hi: real)
    requires gaps != [] && 0.0 <= alpha <= 1.0 && Within(gaps, lo, hi)
    ensures var stat := Estimate(gaps, alpha);
            lo <= stat.mean <= hi && 0.0 <= stat.variance <= Mul(hi - stat.mean, stat.mean - lo)
  {
    var n := |gaps| - 1;
    if n == 0 {
      assert Estimate(gaps[..0], alpha) == FRESH;
      MulNonNegative(hi - gaps[0], gaps[0] - lo);
    } else {
      hide Fold, Mul;
      EstimateIsBounded(gaps[..n], alpha, lo, hi);
      FoldIsBounded(Estimate(gaps[..n], alpha), gaps[n], alpha, lo, hi);
    }
  }

  lemma {:induction false} FoldIsBounded(stat: GapStat, gap: real, alpha: real, lo: real, hi: real)
    requires stat.count > 0 && 0.0 <= alpha <= 1.0 && lo <= stat.mean <= hi && lo <= gap <= hi
    requires 0.0 <= stat.variance <= Mul(hi - stat.mean, stat.mean - lo)
    ensures var stat' := Fold(stat, gap, alpha);
            lo <= stat'.mean <= hi && 0.0 <= stat'.variance <= Mul(hi - stat'.mean, stat'.mean - lo)
  {
    FoldValues(stat, gap, alpha);
    FoldMixes(stat, gap, alpha);
    MixBounds(alpha, stat.mean, gap, lo, hi);
    hide Fold, Mix, Mul, Sq;
    SpreadStep(alpha, stat.mean, stat.variance, gap, lo, hi);
  }

  lemma {:induction false} FoldValues(stat: GapStat, gap: real, alpha: real)
    requires stat.count > 0
    ensures var d := gap - stat.mean;
            Fold(stat, gap, alpha) ==
            GapStat(stat.count + 1, stat.mean + Mul(alpha, d), Mul(1.0 - alpha, stat.variance + Mul(alpha, Sq(d))))
  {
    Regroup(alpha, gap - stat.mean, gap - stat.mean);
  }

  lemma {:induction false} SpreadStep(alpha: real, mean: real, v: real, gap: real, lo: real, hi: real)
    requires 0.0 <= alpha <= 1.0 && lo <= mean <= hi && lo <= gap <= hi
    requires 0.0 <= v <= Mul(hi - mean, mean - lo)
    ensures var d := gap - mean;
            0.0 <= Mul(1.0 - alpha, v + Mul(alpha, Sq(d))) <=
            Mul(hi - (mean + Mul(alpha, d)), (mean + Mul(alpha, d)) - lo)
  {
    var d, x, y := gap - mean, hi - gap, gap - lo;
    Complement(alpha, d);
    hide Mul, Sq;
    assert hi - mean == x + d && mean - lo == y - d;
    SpreadBound(alpha, v, d, x, y);
    assert hi - (mean + Mul(alpha, d)) == x + Mul(1.0 - alpha, d);
    assert (mean + Mul(alpha, d)) - lo == y - Mul(1.0 - alpha, d);
  }

  lemma Complement(alpha: real, d: real)
    ensures Mul(1.0 - alpha, d) == d - Mul(alpha, d)
    ensures Mul(1.0, d) == d
  {
  }

  /** `x` and `y` are the distances of the new gap to the ends of the range, `d` its distance to the mean. */
  lemma {:induction false} SpreadBound(alpha: real, v: real, d: real, x: real, y: real)
    requires 0.0 <= alpha <= 1.0 && x >= 0.0 && y >= 0.0
    requires 0.0 <= v <= Mul(x + d, y - d)
    ensures 0.0 <= Mul(1.0 - alpha, v + Mul(alpha, Sq(d))) <= Mul(x + Mul(1.0 - alpha, d), y - Mul(1.0 - alpha, d))
  {
    ProductSpread(1.0 - alpha, x, y, d);
    ProductSpread(1.0, x, y, d);
    MulNonNegative(x, y);
    assert Sq(d) >= 0.0;
    var c := Mul(d, y) - Mul(d, x);
    Complement(alpha, d);
    Complement(alpha, c);
    Complement(alpha, Sq(d));
    hide Mul, Sq;
    assert Mul(1.0, Mul(1.0, Sq(d))) == Sq(d);
    SpreadMargin(1.0 - alpha, alpha, v, Sq(d), Mul(x, y), c);
  }

  lemma {:induction false} SpreadMargin(a: real, alpha: real, v: real, s: real, xy: real, c: real)
    requires a + alpha == 1.0 && a >= 0.0 && alpha >= 0.0 && s >= 0.0 && xy >= 0.0
    requires 0.0 <= v <= xy + c - s
    ensures 0.0 <= Mul(a, v + Mul(alpha, s)) <= xy + Mul(a, c) - Mul(a, Mul(a, s))
  {
    MulNonNegative(alpha, s);
    MulNonNegative(a, v + alpha * s);
    MulNonNegative(a, xy + c - s - v);
    MulNonNegative(alpha, xy);
    assert alpha * s == s - a * s;
    assert a * (xy + c - s - v) + a * (v + alpha * s) == a * (xy + c - a * s);
    assert a * (xy + c - a * s) == a * xy + a * c - a * (a * s);
    assert a * xy + alpha * xy == xy;
  }

  /** With a weight strictly between 0 and 1, non-negative gaps have mean 0 exactly when all of them are 0. */
  lemma {:induction false} ZeroMean(gaps: seq<real>, alpha: real)
    requires gaps != [] && 0.0 < alpha < 1.0
    requires forall i :: 0 <= i < |gaps| ==> gaps[i] >= 0.0
    ensures Estimate(gaps, alpha).mean >= 0.0
    ensures Estimate(gaps, alpha).mean == 0.0 <==> forall i :: 0 <= i < |gaps| ==> gaps[i] == 0.0
  {
    var n := |gaps| - 1;
    if n == 0 {
      assert Estimate(gaps[..0], alpha) == FRESH;
    } else {
      hide Fold, Mix;
      ZeroMean(gaps[..n], alpha);
      FoldMixes(Estimate(gaps[..n], alpha), gaps[n], alpha);
      MixZero(alpha, Estimate(gaps[..n], alpha).mean, gaps[n]);
      assert forall i :: 0 <= i < n ==> gaps[..n][i] == gaps[i];
    }
  }

  lemma {:induction false} MixZero(alpha: real, a: real, b: real)
    requires 0.0 < alpha < 1.0 && a >= 0.0 && b >= 0.0
    ensures Mix(alpha, a, b) >= 0.0
    ensures Mix(alpha, a, b) == 0.0 <==> a == 0.0 && b == 0.0
  {
    MulNonNegative(1.0 - alpha, a);
    MulNonNegative(alpha, b);
    assert a > 0.0 ==> (1.0 - alpha) * a > 0.0;
    assert b > 0.0 ==> alpha * b > 0.0;
  }
}
