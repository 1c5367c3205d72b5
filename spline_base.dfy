/**
  `SplineBase` of `functions/spline.py`: a natural cubic spline through the
  points (xs[i], ys[i]). The constructor fills a tridiagonal matrix and a
  right-hand side in loops, hands both to `numpy.linalg.solve` for the
  second-order coefficients b, and derives a, c and d from b. Each segment i
  is then the cubic a[i]*dx^3 + b[i]*dx^2 + c[i]*dx + d[i] with dx = t - xs[i].

  The linear solve is a foreign call: the model receives its answer b and
  requires that it solves the system the constructor built.
 */
module SplineFit {
  import opened Common

  /** `numpy.diff`: consecutive differences. */
  function Diffs(s: seq<real>): (h: seq<real>)
    ensures |h| == if |s| == 0 then 0 else |s| - 1
    ensures forall i :: 0 <= i < |h| ==> h[i] == s[i + 1] - s[i]
  {
    if |s| == 0 then [] else seq(|s| - 1, i requires 0 <= i < |s| - 1 => s[i + 1] - s[i])
  }

  predicate Increasing(s: seq<real>) {
    forall i, j :: 0 <= i < j < |s| ==> s[i] < s[j]
  }

  predicate Positive(h: seq<real>) {
    forall i :: 0 <= i < |h| ==> h[i] > 0.0
  }

  lemma IncreasingGaps(s: seq<real>)
    requires Increasing(s)
    ensures Positive(Diffs(s))
  {
  }

  // ---------------------------------------------------------------------------
  // The linear system

  /**
    Entry (r, c) of the matrix `__calc_matrix_a` returns for gaps h (the
    matrix is n x n with n = |h| + 1): unit first and last rows, and interior
    row r holding h[r-1], 2(h[r-1] + h[r]) and h[r] around the diagonal.
   */
  function Entry(h: seq<real>, r: int, c: int): real
    requires |h| >= 1 && 0 <= r <= |h| && 0 <= c <= |h|
  {
    if r == 0 || r == |h| then (if c == r then 1.0 else 0.0)
    else if c == r - 1 then h[r - 1]
    else if c == r then 2.0 * (h[r - 1] + h[r])
    else if c == r + 1 then h[r]
    else 0.0
  }

  /** The sum of Entry(r, c) * w[c] over the first k columns. */
  function RowDot(h: seq<real>, r: int, w: seq<real>, k: int): real
    requires |h| >= 1 && 0 <= r <= |h| && |w| == |h| + 1 && 0 <= k <= |w|
    decreases k
  {
    if k == 0 then 0.0 else RowDot(h, r, w, k - 1) + Entry(h, r, k - 1) * w[k - 1]
  }

  /** Row r of the matrix times w, keeping only the band the matrix can be non-zero on. */
  function Band(h: seq<real>, r: int, w: seq<real>): real
    requires |h| >= 1 && 0 <= r <= |h| && |w| == |h| + 1
  {
    if r == 0 then w[0]
    else if r == |h| then w[|h|]
    else h[r - 1] * w[r - 1] + 2.0 * (h[r - 1] + h[r]) * w[r] + h[r] * w[r + 1]
  }

  lemma {:induction false} RowDotZeros(h: seq<real>, r: int, w: seq<real>, lo: int, k: int)
    requires |h| >= 1 && 0 <= r <= |h| && |w| == |h| + 1 && 0 <= lo <= k <= |w|
    requires forall c :: lo <= c < k ==> Entry(h, r, c) == 0.0
    ensures RowDot(h, r, w, k) == RowDot(h, r, w, lo)
    decreases k
  {
    if k > lo {
      RowDotZeros(h, r, w, lo, k - 1);
    }
  }

  /** The matrix is tridiagonal: a full row product only ever sees the band. */
  lemma RowDotBand(h: seq<real>, r: int, w: seq<real>)
    requires |h| >= 1 && 0 <= r <= |h| && |w| == |h| + 1
    ensures RowDot(h, r, w, |w|) == Band(h, r, w)
  {
    var n := |w|;
    if r == 0 {
      assert RowDot(h, r, w, 1) == w[0];
      RowDotZeros(h, r, w, 1, n);
    } else if r == n - 1 {
      RowDotZeros(h, r, w, 0, n - 1);
    } else {
      RowDotZeros(h, r, w, 0, r - 1);
      assert RowDot(h, r, w, r) == h[r - 1] * w[r - 1];
      assert RowDot(h, r, w, r + 1) == h[r - 1] * w[r - 1] + 2.0 * (h[r - 1] + h[r]) * w[r];
      RowDotZeros(h, r, w, r + 2, n);
    }
  }

  /** Weights 1 everywhere except 0 at column r: the row product sums the off-diagonal entries. */
  function OffDiagonal(n: nat, r: int): (w: seq<real>)
    ensures |w| == n && forall c :: 0 <= c < n ==> w[c] == (if c == r then 0.0 else 1.0)
  {
    seq(n, c => if c == r then 0.0 else 1.0)
  }

  /**
    With positive gaps every entry is non-negative and each diagonal entry
    exceeds the sum of the other entries of its row: the matrix is strictly
    diagonally dominant, so the system has exactly one solution.
   */
  lemma DiagonallyDominant(h: seq<real>, r: int)
    requires |h| >= 1 && 0 <= r <= |h| && Positive(h)
    ensures forall c :: 0 <= c <= |h| ==> Entry(h, r, c) >= 0.0
    ensures Entry(h, r, r) > RowDot(h, r, OffDiagonal(|h| + 1, r), |h| + 1)
  {
    RowDotBand(h, r, OffDiagonal(|h| + 1, r));
  }

  /** Interior entry r of the right-hand side `__calc_matrix_b` builds from the values y. */
  function RhsEntry(h: seq<real>, y: seq<real>, r: int): real
    requires |y| == |h| + 1 && 1 <= r < |h| && Positive(h)
  {
    3.0 * (y[r + 1] - y[r]) / h[r] - 3.0 * (y[r] - y[r - 1]) / h[r - 1]
  }

  /** The right-hand side: zero at both ends, `RhsEntry` in between. */
  function Rhs(h: seq<real>, y: seq<real>): (v: seq<real>)
    requires |y| == |h| + 1 && Positive(h)
    ensures |v| == |y|
  {
    seq(|y|, r requires 0 <= r < |y| => if r == 0 || r == |h| then 0.0 else RhsEntry(h, y, r))
  }

  /** b solves the system: every row of the matrix times b is the right-hand side. */
  ghost predicate Solves(h: seq<real>, rhs: seq<real>, b: seq<real>)
    requires |h| >= 1 && |rhs| == |h| + 1
  {
    |b| == |h| + 1 && forall r :: 0 <= r <= |h| ==> RowDot(h, r, b, |b|) == rhs[r]
  }

  /** The unit end rows and zero end entries force the natural boundary b[0] = b[n-1] = 0. */
  lemma NaturalBoundary(h: seq<real>, y: seq<real>, b: seq<real>)
    requires |h| >= 1 && |y| == |h| + 1 && Positive(h) && Solves(h, Rhs(h, y), b)
    ensures b[0] == 0.0 && b[|h|] == 0.0
  {
    RowDotBand(h, 0, b);
    RowDotBand(h, |h|, b);
  }

  /** An interior row of the solved system, read off the band. */
  lemma SolvedRow(h: seq<real>, y: seq<real>, b: seq<real>, r: int)
    requires |h| >= 1 && |y| == |h| + 1 && Positive(h) && Solves(h, Rhs(h, y), b)
    requires 1 <= r < |h|
    ensures h[r - 1] * b[r - 1] + 2.0 * (h[r - 1] + h[r]) * b[r] + h[r] * b[r + 1] == RhsEntry(h, y, r)
  {
    RowDotBand(h, r, b);
  }

  /** The entries of the matrix after the loop of `__calc_matrix_a` has run k times. */
  function Filled(h: seq<real>, k: int, r: int, c: int): real
    requires |h| >= 1 && 0 <= k <= |h| && 0 <= r <= |h| && 0 <= c <= |h|
  {
    if r == 0 && c == 0 then 1.0
    else if 1 <= r <= k && c == r - 1 then h[r - 1]
    else if r < k && c == r + 1 then h[r]
    else if 1 <= r <= k && r != |h| && c == r then 2.0 * (h[r - 1] + h[r])
    else 0.0
  }

  /** `__calc_matrix_a`: the n x n matrix, filled in place as the source does. */
  method CalcMatrixA(h: seq<real>) returns (m: array2<real>)
    requires |h| >= 1
    ensures fresh(m) && m.Length0 == |h| + 1 && m.Length1 == |h| + 1
    ensures forall r, c :: 0 <= r <= |h| && 0 <= c <= |h| ==> m[r, c] == Entry(h, r, c)
  {
    var n := |h| + 1;
    m := new real[n, n]((r, c) => 0.0);
    m[0, 0] := 1.0;
    for i := 0 to n - 1
      invariant forall r, c :: 0 <= r < n && 0 <= c < n ==> m[r, c] == Filled(h, i, r, c)
    {
      if i != n - 2 {
        m[i + 1, i + 1] := 2.0 * (h[i] + h[i + 1]);
      }
      m[i + 1, i] := h[i];
      m[i, i + 1] := h[i];
    }
    m[0, 1] := 0.0;
    m[n - 1, n - 2] := 0.0;
    m[n - 1, n - 1] := 1.0;
  }

  /** `__calc_matrix_b`: the right-hand side vector, filled in place as the source does. */
  method CalcMatrixB(h: seq<real>, y: seq<real>) returns (v: array<real>)
    requires |h| >= 1 && |y| == |h| + 1 && Positive(h)
    ensures fresh(v) && v[..] == Rhs(h, y)
  {
    var n := |y|;
    v := new real[n](_ => 0.0);
    for i := 0 to n - 2
      invariant forall r :: 0 <= r < n ==> v[r] == if 1 <= r <= i then RhsEntry(h, y, r) else 0.0
    {
      v[i + 1] := 3.0 * (y[i + 2] - y[i + 1]) / h[i + 1] - 3.0 * (y[i + 1] - y[i]) / h[i];
    }
  }

  // ---------------------------------------------------------------------------
  // Coefficients and segments

  /** Coefficient c: `d_diff[i] / h[i] - h[i] * (b[i+1] + 2 b[i]) / 3`. */
  function CoeffC(h: seq<real>, y: seq<real>, b: seq<real>): (c: seq<real>)
    requires |y| == |h| + 1 && |b| == |h| + 1 && Positive(h)
    ensures |c| == |h|
  {
    seq(|h|, i requires 0 <= i < |h| => (y[i + 1] - y[i]) / h[i] - h[i] * (b[i + 1] + 2.0 * b[i]) / 3.0)
  }

  /** Coefficient a: `b_diff[i] / (3 h[i])`. */
  function CoeffA(h: seq<real>, b: seq<real>): (a: seq<real>)
    requires |b| == |h| + 1 && Positive(h)
    ensures |a| == |h|
  {
    seq(|h|, i requires 0 <= i < |h| => (b[i + 1] - b[i]) / (3.0 * h[i]))
  }

  /** A segment's value, slope and curvature at offset dx. */
  function Cubic(a: real, b: real, c: real, d: real, dx: real): real {
    a * dx * dx * dx + b * dx * dx + c * dx + d
  }

  function CubicSlope(a: real, b: real, c: real, dx: real): real {
    3.0 * a * dx * dx + 2.0 * b * dx + c
  }

  function CubicCurve(a: real, b: real, dx: real): real {
    6.0 * a * dx + 2.0 * b
  }

  /**
    The coefficients the constructor derives for a segment of width hi > 0
    from the values y0, y1 at its ends and the solved b0, b1 there.
   */
  predicate SegmentOf(hi: real, y0: real, y1: real, b0: real, b1: real, a: real, c: real) {
    hi > 0.0 && a == (b1 - b0) / (3.0 * hi) && c == (y1 - y0) / hi - hi * (b1 + 2.0 * b0) / 3.0
  }

  /**
    With the source's a and c, a segment starting at y0 reaches y1 at its
    right end, whatever b0 and b1 are.
   */
  lemma SegmentReachesRight(hi: real, y0: real, y1: real, b0: real, b1: real, a: real, c: real)
    requires SegmentOf(hi, y0, y1, b0, b1, a, c)
    ensures Cubic(a, b0, c, y0, hi) == y1
  {
    var hh := hi * hi;
    assert a * hi == (b1 - b0) / 3.0;
    assert a * hi * hi * hi == (a * hi) * hh;
    assert c * hi == (y1 - y0) - hh * (b1 + 2.0 * b0) / 3.0;
    assert b0 * hi * hi == b0 * hh;
    assert (b1 - b0) / 3.0 * hh + b0 * hh - hh * (b1 + 2.0 * b0) / 3.0
        == hh * ((b1 - b0) / 3.0 + b0 - (b1 + 2.0 * b0) / 3.0);
  }

  /** The second derivative of segment i at its right end is 2 b[i+1]. */
  lemma SegmentCurveRight(hi: real, y0: real, y1: real, b0: real, b1: real, a: real, c: real)
    requires SegmentOf(hi, y0, y1, b0, b1, a, c)
    ensures CubicCurve(a, b0, hi) == 2.0 * b1
  {
    assert a * (3.0 * hi) == b1 - b0;
    assert 6.0 * a * hi == 2.0 * (a * (3.0 * hi));
  }

  /** The first derivative of a segment at its right end, in terms of y and b. */
  lemma SegmentSlopeRight(hi: real, y0: real, y1: real, b0: real, b1: real, a: real, c: real)
    requires SegmentOf(hi, y0, y1, b0, b1, a, c)
    ensures CubicSlope(a, b0, c, hi) == (y1 - y0) / hi + hi * (2.0 * b1 + b0) / 3.0
  {
    assert a * hi == (b1 - b0) / 3.0;
    assert 3.0 * a * hi * hi == 3.0 * (a * hi) * hi;
    assert 3.0 * ((b1 - b0) / 3.0) * hi == (b1 - b0) * hi;
    assert (b1 - b0) * hi + 2.0 * b0 * hi - hi * (b1 + 2.0 * b0) / 3.0 == hi * (2.0 * b1 + b0) / 3.0;
  }

  /**
    `bisect.bisect` (bisect right): the number of leading entries at most t,
    which for a sorted list is the insertion point after any entries equal to t.
   */
  function BisectRight(xs: seq<real>, t: real): (k: nat)
    ensures k <= |xs|
  {
    if |xs| == 0 then 0
    else if xs[|xs| - 1] <= t then |xs|
    else BisectRight(xs[..|xs| - 1], t)
  }

  lemma {:induction false} BisectSplits(xs: seq<real>, t: real)
    requires Increasing(xs)
    ensures forall i :: 0 <= i < BisectRight(xs, t) ==> xs[i] <= t
    ensures forall i :: BisectRight(xs, t) <= i < |xs| ==> t < xs[i]
  {
    if |xs| > 0 && t < xs[|xs| - 1] {
      BisectSplits(xs[..|xs| - 1], t);
    }
  }

  // ---------------------------------------------------------------------------
  // The fitted spline

  class SplineBase {
    const xs: seq<real>
    const ys: seq<real>
    const a: seq<real>
    const b: seq<real>
    const c: seq<real>
    const d: seq<real>

    ghost predicate Valid() {
      |xs| >= 2 && |ys| == |xs| && Increasing(xs) &&
      Positive(Diffs(xs)) && Solves(Diffs(xs), Rhs(Diffs(xs), ys), b) &&
      d == ys && c == CoeffC(Diffs(xs), ys, b) && a == CoeffA(Diffs(xs), b)
    }

    constructor Init(xs: seq<real>, ys: seq<real>, b: seq<real>)
      requires |xs| >= 2 && |ys| == |xs| && Increasing(xs)
      requires Positive(Diffs(xs)) && Solves(Diffs(xs), Rhs(Diffs(xs), ys), b)
      ensures this.xs == xs && this.ys == ys && this.b == b && Valid()
    {
      var h := Diffs(xs);
      this.xs, this.ys := xs, ys;
      this.d := ys;
      this.b := b;
      this.c := CoeffC(h, ys, b);
      this.a := CoeffA(h, b);
    }

    /**
      `SplineBase(x, y)`. Fewer than two knots make `__calc_matrix_a` index
      past its 1 x 1 or 0 x 0 matrix (IndexError). Otherwise the matrix and
      right-hand side are built and `solution` stands for what
      `numpy.linalg.solve` returns for them.
     */
    static method Create(xs: seq<real>, ys: seq<real>, solution: seq<real>) returns (r: Result<SplineBase>)
      requires |xs| >= 2 ==> |ys| == |xs| && Increasing(xs)
      requires |xs| >= 2 ==> Positive(Diffs(xs)) && Solves(Diffs(xs), Rhs(Diffs(xs), ys), solution)
      ensures r.Err? <==> |xs| < 2
      ensures r.Err? ==> r.error == IndexError
      ensures r.Ok? ==>
        fresh(r.value) && r.value.Valid() &&
        r.value.xs == xs && r.value.ys == ys && r.value.b == solution
    {
      if |xs| < 2 {
        return Err(IndexError);
      }
      var h := Diffs(xs);
      var matrix := CalcMatrixA(h);
      var rhs := CalcMatrixB(h, ys);
      // `solution` is the answer of the foreign solve for `matrix` and `rhs`.
      var s := new SplineBase.Init(xs, ys, solution);
      return Ok(s);
    }

    /** `__search_index`: one less than the bisect-right insertion point. */
    function SearchIndex(t: real): (i: int)
      requires Valid()
      ensures xs[0] <= t <= xs[|xs| - 1] ==> 0 <= i < |xs|
      ensures xs[0] <= t < xs[|xs| - 1] ==> i < |xs| - 1 && xs[i] <= t < xs[i + 1]
      ensures t == xs[|xs| - 1] ==> i == |xs| - 1
      ensures forall j :: 0 <= j < |xs| ==> (xs[j] <= t <==> j <= i)
    {
      BisectSplits(xs, t);
      BisectRight(xs, t) - 1
    }

    /**
      `position`: None outside [xs[0], xs[-1]]; otherwise segment i's cubic,
      where the last knot itself gives i = n - 1, one past the last segment,
      and reading a[i] raises IndexError.
     */
    function Position(t: real): (r: Result<Option<real>>)
      requires Valid()
      ensures r == Ok(None) <==> !(xs[0] <= t <= xs[|xs| - 1])
      ensures r.Err? <==> t == xs[|xs| - 1]
      ensures r.Err? ==> r.error == IndexError
    {
      if !(xs[0] <= t <= xs[|xs| - 1]) then Ok(None)
      else
        var i := SearchIndex(t);
        if i >= |a| then Err(IndexError)
        else Ok(Some(Cubic(a[i], b[i], c[i], d[i], t - xs[i])))
    }

    /** `first_derivative`: as `position`, for the derivative of the cubic. */
    function FirstDerivative(t: real): (r: Result<Option<real>>)
      requires Valid()
      ensures r == Ok(None) <==> !(xs[0] <= t <= xs[|xs| - 1])
      ensures r.Err? <==> t == xs[|xs| - 1]
      ensures r.Err? ==> r.error == IndexError
    {
      if !(xs[0] <= t <= xs[|xs| - 1]) then Ok(None)
      else
        var i := SearchIndex(t);
        if i >= |a| then Err(IndexError)
        else Ok(Some(CubicSlope(a[i], b[i], c[i], t - xs[i])))
    }

    /** `second_derivative`: as `position`, for the second derivative of the cubic. */
    function SecondDerivative(t: real): (r: Result<Option<real>>)
      requires Valid()
      ensures r == Ok(None) <==> !(xs[0] <= t <= xs[|xs| - 1])
      ensures r.Err? <==> t == xs[|xs| - 1]
      ensures r.Err? ==> r.error == IndexError
    {
      if !(xs[0] <= t <= xs[|xs| - 1]) then Ok(None)
      else
        var i := SearchIndex(t);
        if i >= |a| then Err(IndexError)
        else Ok(Some(CubicCurve(a[i], b[i], t - xs[i])))
    }

    /** The segment the queries are meant to use: the search index, kept within the segments. */
    function ClampedIndex(t: real): (i: int)
      requires Valid() && xs[0] <= t <= xs[|xs| - 1]
      ensures 0 <= i < |xs| - 1 && xs[i] <= t <= xs[i + 1]
    {
      var i := SearchIndex(t);
      if i == |xs| - 1 then |xs| - 2 else i
    }

    /** `position` with the clamped segment: defined on the whole closed range. */
    function ClampedPosition(t: real): (r: Option<real>)
      requires Valid()
      ensures r.None? <==> !(xs[0] <= t <= xs[|xs| - 1])
      ensures xs[0] <= t < xs[|xs| - 1] ==> Position(t) == Ok(r)
    {
      if !(xs[0] <= t <= xs[|xs| - 1]) then None
      else
        var i := ClampedIndex(t);
        Some(Cubic(a[i], b[i], c[i], d[i], t - xs[i]))
    }

    /** `first_derivative` with the clamped segment. */
    function ClampedFirstDerivative(t: real): (r: Option<real>)
      requires Valid()
      ensures r.None? <==> !(xs[0] <= t <= xs[|xs| - 1])
      ensures xs[0] <= t < xs[|xs| - 1] ==> FirstDerivative(t) == Ok(r)
    {
      if !(xs[0] <= t <= xs[|xs| - 1]) then None
      else
        var i := ClampedIndex(t);
        Some(CubicSlope(a[i], b[i], c[i], t - xs[i]))
    }

    /** `second_derivative` with the clamped segment. */
    function ClampedSecondDerivative(t: real): (r: Option<real>)
      requires Valid()
      ensures r.None? <==> !(xs[0] <= t <= xs[|xs| - 1])
      ensures xs[0] <= t < xs[|xs| - 1] ==> SecondDerivative(t) == Ok(r)
    {
      if !(xs[0] <= t <= xs[|xs| - 1]) then None
      else
        var i := ClampedIndex(t);
        Some(CubicCurve(a[i], b[i], t - xs[i]))
    }
  }

  // ---------------------------------------------------------------------------
  // Properties of the fitted spline

  /** Each segment starts at its own data value: the spline passes through (xs[i], ys[i]). */
  lemma InterpolatesAtLeftKnots(s: SplineBase, i: int)
    requires s.Valid() && 0 <= i < |s.xs| - 1
    ensures s.Position(s.xs[i]) == Ok(Some(s.ys[i]))
  {
    var t := s.xs[i];
    assert s.SearchIndex(t) == i;
  }

  /** The coefficients of segment i, read off a valid spline. */
  lemma Coefficients(s: SplineBase, i: int)
    requires s.Valid() && 0 <= i < |s.xs| - 1
    ensures s.d[i] == s.ys[i]
    ensures SegmentOf(s.xs[i + 1] - s.xs[i], s.ys[i], s.ys[i + 1], s.b[i], s.b[i + 1], s.a[i], s.c[i])
  {
    SegmentCoefficients(s.xs, s.ys, s.b, s.a, s.c, i);
    assert Diffs(s.xs)[i] == s.xs[i + 1] - s.xs[i];
  }

  /** `Coefficients`, on the sequences alone. */
  lemma SegmentCoefficients(xs: seq<real>, ys: seq<real>, b: seq<real>, a: seq<real>, c: seq<real>, i: int)
    requires |xs| >= 2 && |ys| == |xs| && |b| == |xs| && Positive(Diffs(xs)) && 0 <= i < |xs| - 1
    requires a == CoeffA(Diffs(xs), b) && c == CoeffC(Diffs(xs), ys, b)
    ensures SegmentOf(Diffs(xs)[i], ys[i], ys[i + 1], b[i], b[i + 1], a[i], c[i])
  {
  }

  /** Each segment ends at the next data value, whatever b the solve returned. */
  lemma SegmentEndsAtNextValue(s: SplineBase, i: int)
    requires s.Valid() && 0 <= i < |s.xs| - 1
    ensures Cubic(s.a[i], s.b[i], s.c[i], s.d[i], s.xs[i + 1] - s.xs[i]) == s.ys[i + 1]
  {
    Coefficients(s, i);
    SegmentReachesRight(s.xs[i + 1] - s.xs[i], s.ys[i], s.ys[i + 1], s.b[i], s.b[i + 1], s.a[i], s.c[i]);
  }

  /** The second derivative is continuous across knots: segment i ends with 2 b[i+1]. */
  lemma SecondDerivativeContinuous(s: SplineBase, i: int)
    requires s.Valid() && 0 <= i < |s.xs| - 1
    ensures CubicCurve(s.a[i], s.b[i], s.xs[i + 1] - s.xs[i]) == 2.0 * s.b[i + 1]
  {
    Coefficients(s, i);
    SegmentCurveRight(s.xs[i + 1] - s.xs[i], s.ys[i], s.ys[i + 1], s.b[i], s.b[i + 1], s.a[i], s.c[i]);
  }

  /**
    The first derivative is continuous across interior knots: segment i
    ends with the slope c[i+1] segment i+1 starts with. This is what the
    interior rows of the solved system say.
   */
  lemma FirstDerivativeContinuous(s: SplineBase, i: int)
    requires s.Valid() && 0 <= i < |s.xs| - 2
    ensures CubicSlope(s.a[i], s.b[i], s.c[i], s.xs[i + 1] - s.xs[i]) == s.c[i + 1]
  {
    Coefficients(s, i);
    Coefficients(s, i + 1);
    InteriorRow(s, i + 1);
    SlopesMeet(s.xs[i + 1] - s.xs[i], s.xs[i + 2] - s.xs[i + 1], s.ys[i], s.ys[i + 1], s.ys[i + 2],
      s.b[i], s.b[i + 1], s.b[i + 2], s.a[i], s.c[i], s.a[i + 1], s.c[i + 1]);
  }

  /** Row r of a tridiagonal system with gaps h0, h1 around a knot, as the constructor builds it. */
  predicate BandRow(h0: real, h1: real, y0: real, y1: real, y2: real, b0: real, b1: real, b2: real)
    requires h0 > 0.0 && h1 > 0.0
  {
    h0 * b0 + 2.0 * (h0 + h1) * b1 + h1 * b2 == 3.0 * (y2 - y1) / h1 - 3.0 * (y1 - y0) / h0
  }

  /** Row r of the solved system of a valid spline, in terms of its knots. */
  lemma InteriorRow(s: SplineBase, r: int)
    requires s.Valid() && 1 <= r < |s.xs| - 1
    ensures s.xs[r] - s.xs[r - 1] > 0.0 && s.xs[r + 1] - s.xs[r] > 0.0
    ensures BandRow(s.xs[r] - s.xs[r - 1], s.xs[r + 1] - s.xs[r], s.ys[r - 1], s.ys[r], s.ys[r + 1],
      s.b[r - 1], s.b[r], s.b[r + 1])
  {
    var h := Diffs(s.xs);
    RowIsBand(h, s.ys, s.b, r);
    assert h[r - 1] == s.xs[r] - s.xs[r - 1] && h[r] == s.xs[r + 1] - s.xs[r];
  }

  /** Row r of a solved system, as a `BandRow` over its gaps. */
  lemma RowIsBand(h: seq<real>, y: seq<real>, b: seq<real>, r: int)
    requires |h| >= 1 && |y| == |h| + 1 && Positive(h) && Solves(h, Rhs(h, y), b)
    requires 1 <= r < |h|
    ensures h[r - 1] > 0.0 && h[r] > 0.0
    ensures BandRow(h[r - 1], h[r], y[r - 1], y[r], y[r + 1], b[r - 1], b[r], b[r + 1])
  {
    SolvedRow(h, y, b, r);
  }

  /** The algebra behind `FirstDerivativeContinuous`, on named quantities. */
  lemma SlopesMeet(h0: real, h1: real, y0: real, y1: real, y2: real, b0: real, b1: real, b2: real,
                   a0: real, c0: real, a1: real, c1: real)
    requires SegmentOf(h0, y0, y1, b0, b1, a0, c0) && SegmentOf(h1, y1, y2, b1, b2, a1, c1)
    requires BandRow(h0, h1, y0, y1, y2, b0, b1, b2)
    ensures CubicSlope(a0, b0, c0, h0) == c1
  {
    SegmentSlopeRight(h0, y0, y1, b0, b1, a0, c0);
    assert 2.0 * (h0 + h1) * b1 == 2.0 * h0 * b1 + 2.0 * h1 * b1;
  }

  /** The spline is natural: zero second derivative at the first knot (and at the last, clamped). */
  lemma NaturalEnds(s: SplineBase)
    requires s.Valid()
    ensures s.b[0] == 0.0 && s.b[|s.b| - 1] == 0.0
    ensures s.SecondDerivative(s.xs[0]) == Ok(Some(0.0))
    ensures s.ClampedSecondDerivative(s.xs[|s.xs| - 1]) == Some(0.0)
  {
    NaturalBoundary(Diffs(s.xs), s.ys, s.b);
    assert s.SearchIndex(s.xs[0]) == 0;
    SecondDerivativeContinuous(s, |s.xs| - 2);
  }

  /**
    At the last knot the three queries raise IndexError, although the point
    is inside the documented range; the clamped evaluation gives the last
    data value there.
   */
  lemma LastKnotRaises(s: SplineBase)
    requires s.Valid()
    ensures var t := s.xs[|s.xs| - 1];
      s.Position(t) == Err(IndexError) && s.FirstDerivative(t) == Err(IndexError) &&
      s.SecondDerivative(t) == Err(IndexError) &&
      s.ClampedPosition(t) == Some(s.ys[|s.ys| - 1])
  {
    SegmentEndsAtNextValue(s, |s.xs| - 2);
  }
}
