/**
 * The decay schedule of the self-organizing map trainer.
 *
 * The trainer shrinks its neighbourhood radius and its learning rate by the
 * factor exp(-iteration / time_constant), where time_constant is
 * max_iterations / log(initial radius). The exponential and the logarithm
 * are floating-point transcendental functions; here they are parameters of
 * the model, and the predicates ExpFacts and LogFacts collect everything the
 * model assumes about them.
 */
module Decay {
  import opened Arith

  /** What the model uses of the exponential: exp(0) = 1, exp never
      decreases, and exp maps the non-positive reals into (0, 1]. */
  ghost predicate ExpFacts(exp: real -> real) {
    && exp(0.0) == 1.0
    && (forall t :: t <= 0.0 ==> 0.0 < exp(t) <= 1.0)
    && (forall s, t :: s <= t ==> exp(s) <= exp(t))
  }

  /** What the model uses of the natural logarithm: it is positive above 1. */
  ghost predicate LogFacts(log: real -> real) {
    forall x :: x > 1.0 ==> log(x) > 0.0
  }

  /** The decay constant max_iterations / log(radius0), computed once
      before training. It is positive exactly when there is a pass to run. */
  function TimeConstant(maxIterations: int, log: real -> real, radius0: real): (tc: real)
    requires LogFacts(log) && radius0 > 1.0
    ensures maxIterations > 0 ==> tc > 0.0
    ensures maxIterations <= 0 ==> tc <= 0.0
  {
    QuotientSign(maxIterations as real, log(radius0));
    maxIterations as real / log(radius0)
  }

  /** The factor exp(-iteration / time_constant) shared by the radius and
      the rate of one pass: it is 1 on the first pass and lies in (0, 1]. */
  function DecayFactor(exp: real -> real, timeConstant: real, iteration: nat): (f: real)
    requires ExpFacts(exp) && timeConstant > 0.0
    ensures 0.0 < f <= 1.0
    ensures iteration == 0 ==> f == 1.0
  {
    QuotientSign(-(iteration as real), timeConstant);
    exp(-(iteration as real) / timeConstant)
  }

  /** The neighbourhood radius of one pass: it starts at radius0 and stays
      in (0, radius0]. */
  function Radius(exp: real -> real, radius0: real, timeConstant: real, iteration: nat): (r: real)
    requires ExpFacts(exp) && timeConstant > 0.0 && radius0 > 0.0
    ensures 0.0 < r <= radius0
    ensures iteration == 0 ==> r == radius0
  {
    var f := DecayFactor(exp, timeConstant, iteration);
    ScaleBounds(f, radius0);
    radius0 * f
  }

  /** The learning rate of one pass: it starts at rate0 and, for a
      non-negative rate0, stays in [0, rate0] (in (0, rate0] for a positive
      one). */
  function Rate(exp: real -> real, rate0: real, timeConstant: real, iteration: nat): (r: real)
    requires ExpFacts(exp) && timeConstant > 0.0
    ensures rate0 >= 0.0 ==> 0.0 <= r <= rate0
    ensures rate0 > 0.0 ==> 0.0 < r
    ensures iteration == 0 ==> r == rate0
  {
    var f := DecayFactor(exp, timeConstant, iteration);
    ScaleBounds(f, rate0);
    rate0 * f
  }

  /** The decay factor never grows from one pass to a later one. */
  lemma DecayFactorMonotone(exp: real -> real, timeConstant: real, i: nat, j: nat)
    requires ExpFacts(exp) && timeConstant > 0.0 && i <= j
    ensures DecayFactor(exp, timeConstant, j) <= DecayFactor(exp, timeConstant, i)
  {
    QuotientMonotone(-(j as real), -(i as real), timeConstant);
  }

  /** Radius and rate never increase from one pass to a later one. */
  lemma ScheduleMonotone(exp: real -> real, radius0: real, rate0: real, timeConstant: real, i: nat, j: nat)
    requires ExpFacts(exp) && timeConstant > 0.0 && radius0 > 0.0 && rate0 >= 0.0 && i <= j
    ensures Radius(exp, radius0, timeConstant, j) <= Radius(exp, radius0, timeConstant, i)
    ensures Rate(exp, rate0, timeConstant, j) <= Rate(exp, rate0, timeConstant, i)
  {
    DecayFactorMonotone(exp, timeConstant, i, j);
    ScaledMonotone(radius0, DecayFactor(exp, timeConstant, j), DecayFactor(exp, timeConstant, i),
                   Radius(exp, radius0, timeConstant, j), Radius(exp, radius0, timeConstant, i));
    ScaledMonotone(rate0, DecayFactor(exp, timeConstant, j), DecayFactor(exp, timeConstant, i),
                   Rate(exp, rate0, timeConstant, j), Rate(exp, rate0, timeConstant, i));
  }

  /** k·a ≤ k·b, stated about ka and kb passed in as parameters: the products
      then reach the solver as plain variables, which keeps it stable. */
  lemma ScaledMonotone(k: real, a: real, b: real, ka: real, kb: real)
    requires k >= 0.0 && a <= b && ka == k * a && kb == k * b
    ensures ka <= kb
  {
    MulLeft(k, a, b);
  }

  /** The influence exp(-d² / (2·radius²)) of the best-matching unit on a
      cell at squared grid distance d²: in (0, 1], exactly 1 at the unit
      itself. */
  function Influence(exp: real -> real, sqGridDist: nat, radius: real): (infl: real)
    requires ExpFacts(exp) && radius != 0.0
    ensures 0.0 < infl <= 1.0
    ensures sqGridDist == 0 ==> infl == 1.0
  {
    QuotientOfSquare(sqGridDist as real, sqGridDist as real, radius);
    exp(-(sqGridDist as real) / (2.0 * (radius * radius)))
  }

  /** A cell farther from the best-matching unit never gets more influence. */
  lemma InfluenceMonotone(exp: real -> real, d1: nat, d2: nat, radius: real)
    requires ExpFacts(exp) && radius != 0.0 && d1 <= d2
    ensures Influence(exp, d2, radius) <= Influence(exp, d1, radius)
  {
    QuotientOfSquare(d1 as real, d2 as real, radius);
  }

  /** -n / (2·r²) is non-positive, zero for n = 0, and non-increasing in n. */
  lemma QuotientOfSquare(n1: real, n2: real, r: real)
    requires 0.0 <= n1 <= n2 && r != 0.0
    ensures -n1 / (2.0 * (r * r)) <= 0.0
    ensures n1 == 0.0 ==> -n1 / (2.0 * (r * r)) == 0.0
    ensures -n2 / (2.0 * (r * r)) <= -n1 / (2.0 * (r * r))
  {
    QuotientOfProduct(n1, n2, r, r);
  }

  lemma QuotientOfProduct(n1: real, n2: real, a: real, b: real)
    requires 0.0 <= n1 <= n2 && ((a > 0.0 && b > 0.0) || (a < 0.0 && b < 0.0))
    ensures -n1 / (2.0 * (a * b)) <= 0.0
    ensures n1 == 0.0 ==> -n1 / (2.0 * (a * b)) == 0.0
    ensures -n2 / (2.0 * (a * b)) <= -n1 / (2.0 * (a * b))
  {
    TwiceProductPositive(a, b);
    var den := 2.0 * (a * b);
    QuotientSign(-n1, den);
    QuotientMonotone(-n2, -n1, den);
  }
}
