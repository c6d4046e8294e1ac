/**
 * The self-organizing map trainer: a width × height × 3 weight array that
 * training updates in place, pass after pass, sample after sample.
 */
module Som {
  import opened Decay
  import opened SomSpec

  /** The grid value that an array of weights holds. */
  function GridOf(a: array3<real>): (g: Grid)
    reads a
    ensures |g| == a.Length0
    ensures forall x :: 0 <= x < a.Length0 ==> |g[x]| == a.Length1
    ensures forall x, y :: 0 <= x < a.Length0 && 0 <= y < a.Length1 ==> |g[x][y]| == a.Length2
    ensures forall x, y, c :: 0 <= x < a.Length0 && 0 <= y < a.Length1 && 0 <= c < a.Length2 ==>
      g[x][y][c] == a[x, y, c]
  {
    seq(a.Length0, x requires 0 <= x < a.Length0 reads a =>
      seq(a.Length1, y requires 0 <= y < a.Length1 reads a =>
        seq(a.Length2, c requires 0 <= c < a.Length2 reads a => a[x, y, c])))
  }

  class SelfOrganizingMap {
    const width: int
    const height: int
    const maxIterations: int
    /** The initial learning rate. */
    const learningRate: real
    /** The initial neighbourhood radius. */
    const neighborhoodRadius: real
    /** The prototype vectors, indexed [x, y, component]. */
    const weights: array3<real>

    ghost predicate Valid() {
      weights.Length0 == width && weights.Length1 == height && weights.Length2 == Dim
    }

    /** The weights as a grid value. */
    ghost function Prototypes(): Grid
      reads weights
    {
      GridOf(weights)
    }

    /** Sets the parameters, starts the radius at half the longer side, and
        allocates a fresh width × height × 3 weight array holding init (the
        values the random draw would produce). */
    constructor (width: int, height: int, maxIterations: int, init: Grid, learningRate: real := 0.1)
      requires width >= 0 && height >= 0
      requires IsGrid(init, width, height)
      ensures Valid() && fresh(weights)
      ensures this.width == width && this.height == height && this.maxIterations == maxIterations
      ensures this.learningRate == learningRate
      ensures neighborhoodRadius == Max(width, height) as real / 2.0
      ensures Prototypes() == init
    {
      this.width := width;
      this.height := height;
      this.maxIterations := maxIterations;
      this.learningRate := learningRate;
      neighborhoodRadius := Max(width, height) as real / 2.0;
      weights := new real[width, height, Dim]((x, y, c)
        requires 0 <= x < width && 0 <= y < height && 0 <= c < Dim => init[x][y][c]);
      new;
      GridEquality(GridOf(weights), init, width, height);
    }

    /** Trains on the samples for maxIterations passes and returns the weight
        array itself, now holding the trained grid. */
    method Train(samples: seq<Vector>, exp: real -> real, log: real -> real) returns (trained: array3<real>)
      requires Valid() && width > 0 && height > 0 && AllSamples(samples)
      requires ExpFacts(exp) && LogFacts(log) && neighborhoodRadius > 1.0
      modifies weights
      ensures Valid() && trained == weights
      ensures Prototypes() == Trained(old(Prototypes()), samples, width, height, maxIterations,
                                      neighborhoodRadius, learningRate, exp, log)
    {
      var timeConstant := TimeConstant(maxIterations, log, neighborhoodRadius);
      ghost var g0 := Prototypes();
      var iteration := 0;
      while iteration < maxIterations
        invariant 0 <= iteration && (iteration == 0 || iteration <= maxIterations)
        invariant Prototypes() == Passes(g0, samples, width, height, neighborhoodRadius, learningRate,
                                         timeConstant, exp, iteration)
      {
        PassesNext(g0, samples, width, height, neighborhoodRadius, learningRate, timeConstant, exp, iteration);
        TrainIteration(samples, timeConstant, iteration, exp);
        iteration := iteration + 1;
      }
      assert iteration == if maxIterations > 0 then maxIterations else 0;
      trained := weights;
    }

    /** Pass number `iteration`: the decayed radius and rate, then a pass
        over the samples. */
    method TrainIteration(samples: seq<Vector>, timeConstant: real, iteration: nat, exp: real -> real)
      requires Valid() && width > 0 && height > 0 && AllSamples(samples)
      requires ExpFacts(exp) && timeConstant > 0.0 && neighborhoodRadius > 0.0
      modifies weights
      ensures Prototypes() == Pass(old(Prototypes()), samples, width, height,
                                   Radius(exp, neighborhoodRadius, timeConstant, iteration),
                                   Rate(exp, learningRate, timeConstant, iteration), exp)
    {
      var radius := Radius(exp, neighborhoodRadius, timeConstant, iteration);
      var rate := Rate(exp, learningRate, timeConstant, iteration);
      TrainPass(samples, radius, rate, exp);
    }

    /** One pass: every sample in input order, each with the pass's radius
        and rate, each update in place before the next search. */
    method TrainPass(samples: seq<Vector>, radius: real, rate: real, exp: real -> real)
      requires Valid() && width > 0 && height > 0 && AllSamples(samples)
      requires ExpFacts(exp) && radius > 0.0
      modifies weights
      ensures Prototypes() == Pass(old(Prototypes()), samples, width, height, radius, rate, exp)
    {
      ghost var start := Prototypes();
      for i := 0 to |samples|
        invariant Prototypes() == Pass(start, samples[..i], width, height, radius, rate, exp)
      {
        assert samples[..i + 1][..i] == samples[..i];
        TrainOnSample(samples[i], radius, rate, exp);
      }
      assert samples[..|samples|] == samples;
    }

    /** One sample: find the best-matching unit in the current weights, then
        update every cell of its window in place. */
    method TrainOnSample(sample: Vector, radius: real, rate: real, exp: real -> real)
      requires Valid() && width > 0 && height > 0 && |sample| == Dim
      requires ExpFacts(exp) && radius > 0.0
      modifies weights
      ensures Prototypes() == Step(old(Prototypes()), sample, width, height, radius, rate, exp)
    {
      var g := GridOf(weights);
      var bmu := Bmu(g, sample, width, height);
      var win := NeighbourhoodWindow(bmu, radius, width, height);
      UpdateWindowInPlace(sample, bmu, win, radius, rate, exp);
      ghost var h := GridOf(weights);
      forall x, y, c | 0 <= x < width && 0 <= y < height && 0 <= c < Dim && win.Contains(x, y)
        ensures h[x][y][c] == Toward(g[x][y][c], sample[c], rate * Influence(exp, SqGridDist(bmu, x, y), radius))
      {
        assert h[x][y][c] == weights[x, y, c] && g[x][y][c] == old(weights[x, y, c]);
      }
      forall x, y, c | 0 <= x < width && 0 <= y < height && 0 <= c < Dim && !win.Contains(x, y)
        ensures h[x][y][c] == g[x][y][c]
      {
        assert h[x][y][c] == weights[x, y, c] && g[x][y][c] == old(weights[x, y, c]);
      }
      StepFromCells(g, h, sample, width, height, radius, rate, exp, bmu, win);
    }

    /** The slice update weights[xMin:xMax, yMin:yMax] += rate·influence·(s − w):
        every cell of the window moves toward the sample, each from its own old
        value, and every other cell keeps its vector. */
    method UpdateWindowInPlace(sample: Vector, bmu: Cell, win: Window, radius: real, rate: real,
                               exp: real -> real)
      requires Valid() && |sample| == Dim && ExpFacts(exp) && radius != 0.0
      requires 0 <= win.xMin && win.xMax <= width && 0 <= win.yMin && win.yMax <= height
      modifies weights
      ensures forall x, y, c :: 0 <= x < width && 0 <= y < height && 0 <= c < Dim && win.Contains(x, y) ==>
        weights[x, y, c] == Toward(old(weights[x, y, c]), sample[c], rate * Influence(exp, SqGridDist(bmu, x, y), radius))
      ensures forall x, y, c :: 0 <= x < width && 0 <= y < height && 0 <= c < Dim && !win.Contains(x, y) ==>
        weights[x, y, c] == old(weights[x, y, c])
    {
      forall x, y, c | win.xMin <= x < win.xMax && win.yMin <= y < win.yMax && 0 <= c < Dim {
        weights[x, y, c] := Toward(weights[x, y, c], sample[c], rate * Influence(exp, SqGridDist(bmu, x, y), radius));
      }
    }
  }
}
