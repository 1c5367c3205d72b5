/**
  `Spline` of `functions/spline.py`: a planar curve through a list of
  coordinates. The knots are the running arc length of the polyline through
  the coordinates; one `SplineBase` fits the x values and one the y values
  against the knots, and the constructor samples both fits on a grid of
  knots[0], knots[0] + step, ... strictly below the last knot.

  `hypot` is a square root passed as an argument. The curvature
  (x'y'' - x''y') / (x'^2 + y'^2)^1.5 and the yaw atan2(y', x') are kept as
  the exact arguments of `** 1.5` and `atan2`.
 */
module Splines {
  import opened Common
  import opened MathLib
  import opened Plane
  import opened SplineFit

  /** `numpy.hypot`: the length of the vector (dx, dy). */
  function Hypot(sqrt: real -> real, dx: real, dy: real): real {
    sqrt(dx * dx + dy * dy)
  }

  /**
    `_compute_knots`: 0, then the cumulative sum of the distances between
    consecutive coordinates. With no coordinates it is still `[0]`.
   */
  function Knots(ps: seq<Point>, sqrt: real -> real): (k: seq<real>)
    ensures |k| == if |ps| == 0 then 1 else |ps|
    ensures k[0] == 0.0
    ensures forall i :: 0 <= i < |ps| - 1 ==>
      k[i + 1] == k[i] + Hypot(sqrt, ps[i + 1].x - ps[i].x, ps[i + 1].y - ps[i].y)
    decreases |ps|
  {
    if |ps| <= 1 then [0.0]
    else
      var k := Knots(ps[..|ps| - 1], sqrt);
      k + [k[|k| - 1] + Hypot(sqrt, ps[|ps| - 1].x - ps[|ps| - 2].x, ps[|ps| - 1].y - ps[|ps| - 2].y)]
  }

  /** Each knot step is a distance: never negative, and zero only between equal coordinates. */
  lemma HypotOfStep(sqrt: real -> real, p: Point, q: Point)
    requires IsSqrt(sqrt)
    ensures Hypot(sqrt, q.x - p.x, q.y - p.y) >= 0.0
    ensures Hypot(sqrt, q.x - p.x, q.y - p.y) == 0.0 <==> p == q
  {
    var dx, dy := q.x - p.x, q.y - p.y;
    Square(dx, dx * dx);
    Square(dy, dy * dy);
    SqrtFacts(sqrt, dx * dx + dy * dy);
  }

  /** One knot step: never a decrease, and no advance exactly when the two coordinates coincide. */
  lemma KnotStep(ps: seq<Point>, sqrt: real -> real, i: int)
    requires IsSqrt(sqrt) && 0 <= i < |ps| - 1
    ensures var k := Knots(ps, sqrt); k[i] <= k[i + 1] && (k[i] == k[i + 1] <==> ps[i] == ps[i + 1])
  {
    var k := Knots(ps, sqrt);
    HypotOfStep(sqrt, ps[i], ps[i + 1]);
    Advance(k[i], k[i + 1], Hypot(sqrt, ps[i + 1].x - ps[i].x, ps[i + 1].y - ps[i].y), ps[i] == ps[i + 1]);
  }

  lemma Advance(a: real, b: real, h: real, same: bool)
    requires b == a + h && h >= 0.0 && (h == 0.0 <==> same)
    ensures a <= b && (a == b <==> same)
  {
  }

  /** The knots never decrease. */
  lemma KnotsNondecreasing(ps: seq<Point>, sqrt: real -> real)
    requires IsSqrt(sqrt)
    ensures var k := Knots(ps, sqrt);
      forall i, j :: 0 <= i <= j < |k| ==> k[i] <= k[j]
  {
    var k := Knots(ps, sqrt);
    forall i | 0 <= i < |k| - 1
      ensures k[i] <= k[i + 1]
    {
      KnotStep(ps, sqrt, i);
    }
    forall i, j | 0 <= i <= j < |k|
      ensures k[i] <= k[j]
    {
      StepsAdd(k, i, j);
    }
  }

  /** The knots strictly increase exactly when no two consecutive coordinates coincide. */
  lemma KnotsIncreasing(ps: seq<Point>, sqrt: real -> real)
    requires IsSqrt(sqrt)
    ensures Increasing(Knots(ps, sqrt)) <==> forall i :: 0 <= i < |ps| - 1 ==> ps[i] != ps[i + 1]
  {
    if forall i :: 0 <= i < |ps| - 1 ==> ps[i] != ps[i + 1] {
      DistinctKnots(ps, sqrt);
    } else {
      var i :| 0 <= i < |ps| - 1 && ps[i] == ps[i + 1];
      RepeatedKnot(ps, sqrt, i);
    }
  }

  lemma DistinctKnots(ps: seq<Point>, sqrt: real -> real)
    requires IsSqrt(sqrt) && forall i :: 0 <= i < |ps| - 1 ==> ps[i] != ps[i + 1]
    ensures Increasing(Knots(ps, sqrt))
  {
    var k := Knots(ps, sqrt);
    forall i | 0 <= i < |k| - 1
      ensures k[i] < k[i + 1]
    {
      KnotStep(ps, sqrt, i);
    }
    forall i, j | 0 <= i < j < |k|
      ensures k[i] < k[j]
    {
      StrictStepsAdd(k, i, j);
    }
  }

  lemma RepeatedKnot(ps: seq<Point>, sqrt: real -> real, i: int)
    requires IsSqrt(sqrt) && 0 <= i < |ps| - 1 && ps[i] == ps[i + 1]
    ensures var k := Knots(ps, sqrt); k[i] == k[i + 1]
  {
    KnotStep(ps, sqrt, i);
  }

  lemma {:induction false} StepsAdd(k: seq<real>, i: int, j: int)
    requires forall m :: 0 <= m < |k| - 1 ==> k[m] <= k[m + 1]
    requires 0 <= i <= j < |k|
    ensures k[i] <= k[j]
    decreases j - i
  {
    if i < j {
      StepsAdd(k, i, j - 1);
    }
  }

  lemma {:induction false} StrictStepsAdd(k: seq<real>, i: int, j: int)
    requires forall m :: 0 <= m < |k| - 1 ==> k[m] < k[m + 1]
    requires 0 <= i < j < |k|
    ensures k[i] < k[j]
    decreases j - i
  {
    if i < j - 1 {
      StrictStepsAdd(k, i, j - 1);
    }
  }

  // ---------------------------------------------------------------------------
  // The sample grid

  /** The number of points `numpy.arange(start, stop, step)` yields: ceil((stop - start) / step), or 0. */
  function GridCount(start: real, stop: real, step: real): (n: nat)
    requires step > 0.0
  {
    if stop <= start then 0
    else
      var q := (stop - start) / step;
      if q.Floor as real == q then q.Floor else q.Floor + 1
  }

  /** `numpy.arange(start, stop, step)` for a positive step, in exact arithmetic. */
  function Grid(start: real, stop: real, step: real): (g: seq<real>)
    requires step > 0.0
    ensures |g| == GridCount(start, stop, step)
    ensures forall j :: 0 <= j < |g| ==> g[j] == start + j as real * step
  {
    seq(GridCount(start, stop, step), j => start + j as real * step)
  }

  /**
    Every grid point lies in [start, stop), and the grid stops only once the
    next point would reach stop: nothing below stop is left out.
   */
  lemma GridBounds(start: real, stop: real, step: real)
    requires step > 0.0
    ensures var g := Grid(start, stop, step);
      (forall j :: 0 <= j < |g| ==> start <= g[j] < stop) &&
      start + |g| as real * step >= stop &&
      (start < stop ==> |g| >= 1 && g[0] == start)
  {
    var g := Grid(start, stop, step);
    var n := |g|;
    if start < stop {
      var q := (stop - start) / step;
      assert q * step == stop - start;
      Ceiling(q, n);
      forall j | 0 <= j < n
        ensures start <= g[j] < stop
      {
        assert j as real <= (n - 1) as real < q;
        BelowScaled(j as real, q, step);
        assert g[j] - start == j as real * step;
      }
      AtLeastScaled(n as real, q, step);
      assert n as real * step >= stop - start;
    }
  }

  /** The count of a non-empty grid is the ceiling of q: at least q, and less than q + 1. */
  lemma Ceiling(q: real, n: int)
    requires q > 0.0 && n == if q.Floor as real == q then q.Floor else q.Floor + 1
    ensures n >= 1 && n as real >= q && (n - 1) as real < q
  {
  }

  lemma BelowScaled(j: real, q: real, step: real)
    requires 0.0 <= j < q && step > 0.0
    ensures 0.0 <= j * step < q * step
  {
    MulSign(j, step, j * step);
    MulSign(q - j, step, (q - j) * step);
  }

  lemma AtLeastScaled(n: real, q: real, step: real)
    requires n >= q && step > 0.0
    ensures n * step >= q * step
  {
    MulSign(n - q, step, (n - q) * step);
  }

  // ---------------------------------------------------------------------------
  // Sampling the two fits

  /** The curvature at a sample, as the arguments of `(...) / (...) ** 1.5`. */
  datatype Curvature = Curvature(numerator: real, speedSq: real)

  /** The yaw at a sample, as the arguments of `atan2(dy, dx)`. */
  datatype Yaw = Yaw(dy: real, dx: real)

  /** Both fits are over the same knots, and t lies in the range where they answer without error. */
  ghost predicate Samplable(sx: SplineBase, sy: SplineBase, t: real) {
    sx.Valid() && sy.Valid() && sx.xs == sy.xs && sx.xs[0] <= t < sx.xs[|sx.xs| - 1]
  }

  /** `_compute_position`: the point of the curve at parameter t. */
  function PositionAt(sx: SplineBase, sy: SplineBase, t: real): (p: Point)
    requires Samplable(sx, sy, t)
    ensures sx.Position(t) == Ok(Some(p.x)) && sy.Position(t) == Ok(Some(p.y))
  {
    Point(sx.ClampedPosition(t).value, sy.ClampedPosition(t).value)
  }

  /** The number a query answered, when it answered one. */
  function Answer(r: Result<Option<real>>): real
    requires r.Ok? && r.value.Some?
  {
    r.value.value
  }

  /** A query at t answers with a number: no IndexError and no None. */
  predicate Answered(r: Result<Option<real>>) {
    r.Ok? && r.value.Some?
  }

  /**
    `_compute_curvature`: x' y'' - x'' y' over (x'^2 + y'^2) ** 1.5, from the
    four derivative queries at t, all of which answer.
   */
  function CurvatureAt(sx: SplineBase, sy: SplineBase, t: real): (k: Curvature)
    requires Samplable(sx, sy, t)
    ensures Answered(sx.FirstDerivative(t)) && Answered(sx.SecondDerivative(t))
    ensures Answered(sy.FirstDerivative(t)) && Answered(sy.SecondDerivative(t))
    ensures k.speedSq >= 0.0
  {
    var x1, x2 := Answer(sx.FirstDerivative(t)), Answer(sx.SecondDerivative(t));
    var y1, y2 := Answer(sy.FirstDerivative(t)), Answer(sy.SecondDerivative(t));
    SpeedSq(x1, y1);
    Curvature(y2 * x1 - x2 * y1, x1 * x1 + y1 * y1)
  }

  lemma SpeedSq(x1: real, y1: real)
    ensures x1 * x1 + y1 * y1 >= 0.0
  {
    Square(x1, x1 * x1);
    Square(y1, y1 * y1);
  }

  /** `_compute_yaw`: atan2(y', x'). */
  function YawAt(sx: SplineBase, sy: SplineBase, t: real): (w: Yaw)
    requires Samplable(sx, sy, t)
    ensures sx.FirstDerivative(t) == Ok(Some(w.dx)) && sy.FirstDerivative(t) == Ok(Some(w.dy))
  {
    Yaw(sy.ClampedFirstDerivative(t).value, sx.ClampedFirstDerivative(t).value)
  }

  /** The grid `_compute_results` samples: from the first to the last knot, by step. */
  function SampleGrid(sx: SplineBase, step: real): (g: seq<real>)
    requires sx.Valid() && step > 0.0
    ensures forall j :: 0 <= j < |g| ==> sx.xs[0] <= g[j] < sx.xs[|sx.xs| - 1]
    ensures |g| >= 1 && g[0] == sx.xs[0]
  {
    GridBounds(sx.xs[0], sx.xs[|sx.xs| - 1], step);
    Grid(sx.xs[0], sx.xs[|sx.xs| - 1], step)
  }

  /** Both fits over the same knots: what `Spline` keeps after construction. */
  ghost predicate Fitted(sx: SplineBase, sy: SplineBase) {
    sx.Valid() && sy.Valid() && sx.xs == sy.xs
  }

  /** `_compute_results`, positions column: one point per grid point, in grid order. */
  function Positions(sx: SplineBase, sy: SplineBase, step: real): (ps: seq<Point>)
    requires Fitted(sx, sy) && step > 0.0
    ensures |ps| == |SampleGrid(sx, step)|
    ensures forall j :: 0 <= j < |ps| ==>
      sx.Position(SampleGrid(sx, step)[j]) == Ok(Some(ps[j].x)) &&
      sy.Position(SampleGrid(sx, step)[j]) == Ok(Some(ps[j].y))
  {
    var g := SampleGrid(sx, step);
    seq(|g|, j requires 0 <= j < |g| => PositionAt(sx, sy, g[j]))
  }

  /** `_compute_results`, curvature column. */
  function Curvatures(sx: SplineBase, sy: SplineBase, step: real): (ks: seq<Curvature>)
    requires Fitted(sx, sy) && step > 0.0
    ensures |ks| == |SampleGrid(sx, step)|
    ensures forall j :: 0 <= j < |ks| ==> ks[j] == CurvatureAt(sx, sy, SampleGrid(sx, step)[j])
  {
    var g := SampleGrid(sx, step);
    seq(|g|, j requires 0 <= j < |g| => CurvatureAt(sx, sy, g[j]))
  }

  /** `_compute_results`, yaw column. */
  function Yaws(sx: SplineBase, sy: SplineBase, step: real): (ws: seq<Yaw>)
    requires Fitted(sx, sy) && step > 0.0
    ensures |ws| == |SampleGrid(sx, step)|
    ensures forall j :: 0 <= j < |ws| ==> ws[j] == YawAt(sx, sy, SampleGrid(sx, step)[j])
  {
    var g := SampleGrid(sx, step);
    seq(|g|, j requires 0 <= j < |g| => YawAt(sx, sy, g[j]))
  }

  /** The x components of the coordinates. */
  function Xs(ps: seq<Point>): (xs: seq<real>)
    ensures |xs| == |ps| && forall i :: 0 <= i < |ps| ==> xs[i] == ps[i].x
  {
    seq(|ps|, i requires 0 <= i < |ps| => ps[i].x)
  }

  /** The y components of the coordinates. */
  function Ys(ps: seq<Point>): (ys: seq<real>)
    ensures |ys| == |ps| && forall i :: 0 <= i < |ps| ==> ys[i] == ps[i].y
  {
    seq(|ps|, i requires 0 <= i < |ps| => ps[i].y)
  }

  /** Every item is a number. */
  predicate AllNumbers(items: seq<Arg<real>>) {
    forall i :: 0 <= i < |items| ==> items[i].Typed?
  }

  /** The values a setter receives, once every item has been checked to be a number. */
  function Numbers(items: seq<Arg<real>>): (vs: seq<real>)
    requires AllNumbers(items)
    ensures |vs| == |items| && forall i :: 0 <= i < |items| ==> Typed(vs[i]) == items[i]
  {
    seq(|items|, i requires 0 <= i < |items| => items[i].value)
  }

  /** What the linear solves of both fits must satisfy, given as the answers b of the x and y fits. */
  ghost predicate SolvedFits(ps: seq<Point>, sqrt: real -> real, solutionX: seq<real>, solutionY: seq<real>) {
    var k := Knots(ps, sqrt);
    |ps| >= 2 && Increasing(k) && Positive(Diffs(k)) &&
    Solves(Diffs(k), Rhs(Diffs(k), Xs(ps)), solutionX) && Solves(Diffs(k), Rhs(Diffs(k), Ys(ps)), solutionY)
  }

  class Spline {
    var x: seq<real>
    var y: seq<real>
    const knots: seq<real>
    const splineX: SplineBase
    const splineY: SplineBase
    var generationStep: real
    const positions: seq<Point>
    const curvature: seq<Curvature>
    const yaw: seq<Yaw>
    /** The step the results were computed with. */
    ghost const sampledStep: real

    /** The fits are over the knots and the results are their samples on the grid. */
    ghost predicate Valid() {
      Fitted(splineX, splineY) && splineX.xs == knots && sampledStep > 0.0 &&
      positions == Positions(splineX, splineY, sampledStep) &&
      curvature == Curvatures(splineX, splineY, sampledStep) &&
      yaw == Yaws(splineX, splineY, sampledStep)
    }

    constructor Init(xs: seq<real>, ys: seq<real>, sx: SplineBase, sy: SplineBase, step: real)
      requires Fitted(sx, sy) && step > 0.0
      ensures x == xs && y == ys && knots == sx.xs && splineX == sx && splineY == sy
      ensures generationStep == step && sampledStep == step && Valid()
    {
      x, y := xs, ys;
      knots := sx.xs;
      splineX, splineY := sx, sy;
      generationStep := step;
      sampledStep := step;
      positions := Positions(sx, sy, step);
      curvature := Curvatures(sx, sy, step);
      yaw := Yaws(sx, sy, step);
    }

    /**
      `Spline(coordinates, gen_step)`. Fewer than two coordinates leave a
      single knot, and fitting it raises IndexError. Otherwise both fits are
      built over the knots (solutionX and solutionY stand for the answers of their linear
      solves) and sampled on the grid.
     */
    static method Create(coordinates: seq<Point>, genStep: real, sqrt: real -> real, solutionX: seq<real>, solutionY: seq<real>)
      returns (r: Result<Spline>)
      requires genStep > 0.0
      requires |coordinates| >= 2 ==> SolvedFits(coordinates, sqrt, solutionX, solutionY)
      ensures r.Err? <==> |coordinates| < 2
      ensures r.Err? ==> r.error == IndexError
      ensures r.Ok? ==>
        fresh(r.value) && r.value.Valid() &&
        r.value.x == Xs(coordinates) && r.value.y == Ys(coordinates) &&
        r.value.knots == Knots(coordinates, sqrt) && r.value.generationStep == genStep &&
        r.value.sampledStep == genStep &&
        r.value.splineX.ys == Xs(coordinates) && r.value.splineY.ys == Ys(coordinates) &&
        r.value.splineX.b == solutionX && r.value.splineY.b == solutionY
    {
      var xs, ys := Xs(coordinates), Ys(coordinates);
      var k := Knots(coordinates, sqrt);
      var fitX := SplineBase.Create(k, xs, solutionX);
      var fitY := SplineBase.Create(k, ys, solutionY);
      if fitX.Err? || fitY.Err? {
        return Err(IndexError);
      }
      var s := new Spline.Init(xs, ys, fitX.value, fitY.value, genStep);
      return Ok(s);
    }

    /**
      The `x` setter: TypeError for anything but a list or tuple (numpy
      arrays included, since `np.array` in the isinstance check is a function,
      not a type) or for an item that is not a number; otherwise x alone is replaced. The knots, both fits and the
      results stay those of the old coordinates.
     */
    method SetX(value: Arg<seq<Arg<real>>>) returns (o: Outcome)
      requires Valid()
      modifies this
      ensures Valid()
      ensures value.Mistyped? || !AllNumbers(value.value) ==> o == Raised(TypeError) && unchanged(this)
      ensures value.Typed? && AllNumbers(value.value) ==>
        o == Done && x == Numbers(value.value) && y == old(y) && generationStep == old(generationStep)
    {
      if value.Mistyped? {
        return Raised(TypeError);
      }
      if !AllNumbers(value.value) {
        return Raised(TypeError);
      }
      x := Numbers(value.value);
      return Done;
    }

    /** The `y` setter: as `SetX`, for y. */
    method SetY(value: Arg<seq<Arg<real>>>) returns (o: Outcome)
      requires Valid()
      modifies this
      ensures Valid()
      ensures value.Mistyped? || !AllNumbers(value.value) ==> o == Raised(TypeError) && unchanged(this)
      ensures value.Typed? && AllNumbers(value.value) ==>
        o == Done && y == Numbers(value.value) && x == old(x) && generationStep == old(generationStep)
    {
      if value.Mistyped? {
        return Raised(TypeError);
      }
      if !AllNumbers(value.value) {
        return Raised(TypeError);
      }
      y := Numbers(value.value);
      return Done;
    }

    /**
      The `generation_step` setter: TypeError for a non-number, ValueError
      for a step that is not positive; otherwise the step alone is replaced
      and the results are not recomputed.
     */
    method SetGenerationStep(value: Arg<real>) returns (o: Outcome)
      requires Valid()
      modifies this
      ensures Valid()
      ensures value.Mistyped? ==> o == Raised(TypeError) && unchanged(this)
      ensures value.Typed? && value.value <= 0.0 ==> o == Raised(ValueError) && unchanged(this)
      ensures value.Typed? && value.value > 0.0 ==>
        o == Done && generationStep == value.value && x == old(x) && y == old(y)
    {
      if value.Mistyped? {
        return Raised(TypeError);
      }
      if value.value <= 0.0 {
        return Raised(ValueError);
      }
      generationStep := value.value;
      return Done;
    }

    /** `len()`: the number of stored x values. */
    function Len(): (n: nat)
      reads this
      ensures n == |x|
    {
      |x|
    }
  }

  /** The knots of a fitted spline: one per coordinate, from 0, strictly increasing. */
  lemma KnotsOfSpline(coordinates: seq<Point>, sqrt: real -> real, s: Spline)
    requires s.Valid() && s.knots == Knots(coordinates, sqrt)
    ensures |s.knots| == |coordinates| >= 2
    ensures s.knots[0] == 0.0 && Increasing(s.knots)
  {
  }

  /**
    The first sample is the first coordinate: the grid starts at knot 0,
    where both fits return their first value.
   */
  lemma FirstSampleIsFirstCoordinate(s: Spline)
    requires s.Valid()
    ensures |s.positions| >= 1
    ensures s.positions[0] == Point(s.splineX.ys[0], s.splineY.ys[0])
  {
    var g := SampleGrid(s.splineX, s.sampledStep);
    InterpolatesAtLeftKnots(s.splineX, 0);
    InterpolatesAtLeftKnots(s.splineY, 0);
    assert g[0] == s.knots[0];
  }

  /**
    The results are sampled on one grid: positions, curvature and yaw have
    the same length, and entry j of each comes from the same grid point,
    which lies inside the knots, so no query raised or returned None.
   */
  lemma ResultsAligned(s: Spline, j: int)
    requires s.Valid() && 0 <= j < |s.positions|
    ensures |s.curvature| == |s.yaw| == |s.positions|
    ensures var t := SampleGrid(s.splineX, s.sampledStep)[j];
      s.knots[0] <= t < s.knots[|s.knots| - 1] &&
      s.splineX.Position(t) == Ok(Some(s.positions[j].x)) &&
      s.splineY.Position(t) == Ok(Some(s.positions[j].y)) &&
      s.splineX.FirstDerivative(t) == Ok(Some(s.yaw[j].dx)) &&
      s.splineY.FirstDerivative(t) == Ok(Some(s.yaw[j].dy))
  {
    var t := SampleGrid(s.splineX, s.sampledStep)[j];
    assert s.yaw[j] == YawAt(s.splineX, s.splineY, t);
  }
}
