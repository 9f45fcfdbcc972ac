/** Products and quotients of reals behind names, so that each nonlinear fact about them is proved once. */
module Reals {
  function Mul(a: real, b: real): real {
    a * b
  }

  function Sq(x: real): real {
    x * x
  }

  function Quot(a: real, b: real): real
    requires b != 0.0
  {
    a / b
  }

  lemma MulUnits(a: real)
    ensures Mul(a, 1.0) == a == Mul(1.0, a)
    ensures Mul(a, 0.0) == 0.0 == Mul(0.0, a)
  {
  }

  lemma MulCommutes(a: real, b: real)
    ensures Mul(a, b) == Mul(b, a)
  {
  }

  lemma MulAssociates(a: real, b: real, c: real)
    ensures Mul(Mul(a, b), c) == Mul(a, Mul(b, c))
  {
  }

  lemma MulDistributes(a: real, b: real, c: real)
    ensures Mul(a, b + c) == Mul(a, b) + Mul(a, c)
    ensures Mul(b + c, a) == Mul(b, a) + Mul(c, a)
  {
  }

  lemma MulSubtracts(a: real, b: real, c: real)
    ensures Mul(b - c, a) == Mul(b, a) - Mul(c, a)
  {
  }

  lemma MulNonNegative(a: real, b: real)
    requires a >= 0.0 && b >= 0.0
    ensures Mul(a, b) >= 0.0
  {
  }

  lemma MulPositive(a: real, b: real)
    requires a > 0.0 && b > 0.0
    ensures Mul(a, b) > 0.0
  {
  }

  /** Scaling by a positive number neither loses nor reverses a comparison. */
  lemma {:induction false} MulCompares(a: real, b: real, k: real)
    requires k > 0.0
    ensures a <= b <==> Mul(a, k) <= Mul(b, k)
    ensures a < b <==> Mul(a, k) < Mul(b, k)
  {
    MulSubtracts(k, a, b);
    hide Mul;
    if a > b {
      MulPositive(a - b, k);
    } else if a < b {
      MulSubtracts(k, b, a);
      MulPositive(b - a, k);
    }
  }

  lemma QuotInverts(a: real, b: real)
    requires b != 0.0
    ensures Mul(Quot(a, b), b) == a
  {
  }

  /** The only number that scales to `a`. */
  lemma {:induction false} QuotIs(a: real, b: real, x: real)
    requires b > 0.0 && Mul(x, b) == a
    ensures Quot(a, b) == x
  {
    QuotInverts(a, b);
    MulCompares(x, Quot(a, b), b);
    MulCompares(Quot(a, b), x, b);
  }

  /** Dividing by a positive number keeps comparisons. */
  lemma {:induction false} QuotCompares(a: real, b: real, d: real)
    requires d > 0.0
    ensures a <= b <==> Quot(a, d) <= Quot(b, d)
  {
    hide Mul, Quot;
    QuotInverts(a, d);
    QuotInverts(b, d);
    MulCompares(Quot(a, d), Quot(b, d), d);
  }

  /** A non-negative number falls when it is divided by more. */
  lemma {:induction false} QuotFalls(a: real, d: real, d': real)
    requires a >= 0.0 && 0.0 < d <= d'
    ensures Quot(a, d) >= Quot(a, d') >= 0.0
  {
    hide Mul, Quot;
    var y := Quot(a, d');
    QuotInverts(a, d');
    QuotInverts(a, d);
    MulUnits(d');
    MulCompares(0.0, y, d');
    MulSubtracts(y, d', d);
    MulNonNegative(d' - d, y);
    MulCommutes(y, d);
    MulCommutes(y, d');
    MulCompares(y, Quot(a, d), d);
  }

  lemma {:induction false} QuotPositive(a: real, d: real)
    requires a > 0.0 && d > 0.0
    ensures Quot(a, d) > 0.0
  {
    hide Mul, Quot;
    QuotInverts(a, d);
    MulUnits(d);
    MulCompares(0.0, Quot(a, d), d);
  }

  lemma {:induction false} SqCompares(a: real, b: real)
    requires a >= 0.0 && b >= 0.0
    ensures a <= b <==> Sq(a) <= Sq(b)
  {
    SqDifference(a, b);
    SqDifference(b, a);
    hide Sq, Mul;
    if a < b {
      MulPositive(b - a, b + a);
    } else if b < a {
      MulPositive(a - b, a + b);
    }
  }

  lemma SqDifference(a: real, b: real)
    ensures Sq(b) - Sq(a) == Mul(b - a, b + a)
  {
  }
}
