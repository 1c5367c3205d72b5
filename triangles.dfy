/**
  The triangle module (`polygons/triangle.py`): a slope-based collinearity
  test, a `Circumcircle` object that relabels its vertices in place and
  recomputes centre and radius on every vertex change, and a `Triangle`
  whose vertex setters clear a cache of derived properties.
 */
module Triangles {
  import opened Common
  import opened MathLib
  import opened Plane
  import opened CircumKernel
  import Operations

  // ---------------------------------------------------------------------------
  // Collinearity through slopes

  /** The slopes of ab, bc and ac, in that order, leaving out the vertical ones. */
  function Slopes(a: Point, b: Point, c: Point): seq<real> {
    (if b.x - a.x != 0.0 then [(b.y - a.y) / (b.x - a.x)] else []) +
    (if c.x - b.x != 0.0 then [(c.y - b.y) / (c.x - b.x)] else []) +
    (if c.x - a.x != 0.0 then [(c.y - a.y) / (c.x - a.x)] else [])
  }

  /** `any(s[0] == s[1] for s in combinations(slopes, 2))`. */
  predicate HasEqualPair(s: seq<real>) {
    exists i, j :: 0 <= i < j < |s| && s[i] == s[j]
  }

  /**
    The test of `_ensure_non_collinear` and `is_collinear`: all x equal, all y
    equal, or two of the defined slopes equal.
   */
  predicate SlopeCollinear(a: Point, b: Point, c: Point) {
    (a.x == b.x && b.x == c.x) || (a.y == b.y && b.y == c.y) || HasEqualPair(Slopes(a, b, c))
  }

  /** Two defined slopes are equal exactly when the cross product of the displacements vanishes. */
  lemma SlopeRatio(u: Point, w: Point)
    requires u.x != 0.0 && w.x != 0.0
    ensures u.y / u.x == w.y / w.x <==> Cross(u, w) == 0.0
  {
    var s1, s2 := u.y / u.x, w.y / w.x;
    assert s1 * u.x == u.y && s2 * w.x == w.y;
    var p := u.x * w.x;
    MulSign(u.x, w.x, p);
    var m := p * (s2 - s1);
    MulSign(p, s2 - s1, m);
    assert Cross(u, w) == u.x * (s2 * w.x) - (s1 * u.x) * w.x;
    assert Cross(u, w) == m;
  }

  lemma HasEqualPairSmall(x: real, y: real, z: real)
    ensures !HasEqualPair([]) && !HasEqualPair([x])
    ensures HasEqualPair([x, y]) <==> x == y
    ensures HasEqualPair([x, y, z]) <==> x == y || x == z || y == z
  {
    if x == y { assert [x, y][0] == [x, y][1]; assert [x, y, z][0] == [x, y, z][1]; }
    if x == z { assert [x, y, z][0] == [x, y, z][2]; }
    if y == z { assert [x, y, z][1] == [x, y, z][2]; }
  }

  /** The cross products of the three displacements all equal the determinant, up to sign. */
  lemma DisplacementCrosses(a: Point, b: Point, c: Point)
    ensures Cross(Displacement(a, b), Displacement(b, c)) == Det(a, b, c)
    ensures Cross(Displacement(b, c), Displacement(a, c)) == -Det(a, b, c)
    ensures Cross(Displacement(a, b), Displacement(a, c)) == Det(a, b, c)
  {
    DetOfDisplacements(a, b, c);
  }

  /** The slope test when all three slopes are defined. */
  lemma SlopeCollinearThree(a: Point, b: Point, c: Point)
    requires b.x - a.x != 0.0 && c.x - b.x != 0.0 && c.x - a.x != 0.0
    ensures SlopeCollinear(a, b, c) <==> Det(a, b, c) == 0.0
  {
    var u, v, w := Displacement(a, b), Displacement(b, c), Displacement(a, c);
    DisplacementCrosses(a, b, c);
    SlopeRatio(u, v);
    SlopeRatio(u, w);
    SlopeRatio(v, w);
    HasEqualPairSmall(u.y / u.x, v.y / v.x, w.y / w.x);
    assert Slopes(a, b, c) == [u.y / u.x, v.y / v.x, w.y / w.x];
  }

  /** The slope test when exactly two slopes, those of u and w, are defined. */
  lemma SlopeCollinearTwo(a: Point, b: Point, c: Point, u: Point, w: Point)
    requires u.x != 0.0 && w.x != 0.0 && Slopes(a, b, c) == [u.y / u.x, w.y / w.x]
    requires Cross(u, w) == Det(a, b, c) || Cross(u, w) == -Det(a, b, c)
    ensures SlopeCollinear(a, b, c) <==> Det(a, b, c) == 0.0
  {
    SlopeRatio(u, w);
    HasEqualPairSmall(u.y / u.x, w.y / w.x, 0.0);
  }

  /** The slope test agrees with the signed-area determinant: collinear exactly when it is zero. */
  lemma SlopeCollinearIffDet(a: Point, b: Point, c: Point)
    ensures SlopeCollinear(a, b, c) <==> Det(a, b, c) == 0.0
  {
    var u, v, w := Displacement(a, b), Displacement(b, c), Displacement(a, c);
    DisplacementCrosses(a, b, c);
    if u.x != 0.0 && v.x != 0.0 && w.x != 0.0 {
      SlopeCollinearThree(a, b, c);
    } else if u.x != 0.0 && v.x != 0.0 {
      SlopeCollinearTwo(a, b, c, u, v);
    } else if u.x != 0.0 && w.x != 0.0 {
      SlopeCollinearTwo(a, b, c, u, w);
    } else if v.x != 0.0 && w.x != 0.0 {
      SlopeCollinearTwo(a, b, c, v, w);
    } else {
      assert a.x == b.x && b.x == c.x;
    }
  }

  /** The four collinearity examples of the triangle tests. */
  lemma CollinearExamples()
    ensures SlopeCollinear(Point(0.0, 0.0), Point(1.0, 1.0), Point(2.0, 2.0))
    ensures !SlopeCollinear(Point(0.0, 0.0), Point(1.0, 1.0), Point(2.0, 3.0))
    ensures SlopeCollinear(Point(0.0, 0.0), Point(0.0, 1.0), Point(0.0, -1.0))
    ensures SlopeCollinear(Point(0.0, 0.0), Point(1.0, 0.0), Point(-1.0, 0.0))
  {
    SlopeCollinearIffDet(Point(0.0, 0.0), Point(1.0, 1.0), Point(2.0, 2.0));
    SlopeCollinearIffDet(Point(0.0, 0.0), Point(1.0, 1.0), Point(2.0, 3.0));
  }

  /** The `any(...)` scan over all pairs of a list of slopes. */
  method AnyEqualPair(s: seq<real>) returns (r: bool)
    ensures r <==> HasEqualPair(s)
  {
    for i := 0 to |s|
      invariant forall p, q :: 0 <= p < i && p < q < |s| ==> s[p] != s[q]
    {
      for j := i + 1 to |s|
        invariant forall q :: i < q < j ==> s[i] != s[q]
      {
        if s[i] == s[j] {
          return true;
        }
      }
    }
    return false;
  }

  /**
    The body shared by `_ensure_non_collinear` and `is_collinear`: the chained
    equality checks, then the slopes appended one by one and scanned for a
    repeated value. It decides the vanishing of the determinant.
   */
  method CollinearBySlopes(a: Point, b: Point, c: Point) returns (r: bool)
    ensures r <==> SlopeCollinear(a, b, c)
    ensures r <==> Det(a, b, c) == 0.0
  {
    SlopeCollinearIffDet(a, b, c);
    if (a.x == b.x && b.x == c.x) || (a.y == b.y && b.y == c.y) {
      return true;
    }
    var slopes: seq<real> := [];
    if b.x - a.x != 0.0 {
      slopes := slopes + [(b.y - a.y) / (b.x - a.x)];
    }
    if c.x - b.x != 0.0 {
      slopes := slopes + [(c.y - b.y) / (c.x - b.x)];
    }
    if c.x - a.x != 0.0 {
      slopes := slopes + [(c.y - a.y) / (c.x - a.x)];
    }
    assert slopes == Slopes(a, b, c);
    r := AnyEqualPair(slopes);
  }

  // ---------------------------------------------------------------------------
  // The circle of a triangle

  /** What a successful `Circumcircle(a, b, c)` holds: the gate, the relabelling, the construction. */
  function CircleOf(a: Point, b: Point, c: Point, sqrt: real -> real): (r: Result<Circle>)
    ensures r.Err? ==> r.error == ValueError || r.error == ZeroDivisionError
    ensures r.Err? && r.error == ValueError <==> Det(a, b, c) == 0.0
  {
    SlopeCollinearIffDet(a, b, c);
    if SlopeCollinear(a, b, c) then Err(ValueError)
    else Circumscribe(Relabel(a, b, c).0, Relabel(a, b, c).1, Relabel(a, b, c).2, sqrt)
  }

  /** Testing collinearity by slopes or by the determinant gives the same circle. */
  lemma CircleOfIsGated(a: Point, b: Point, c: Point, sqrt: real -> real)
    ensures CircleOf(a, b, c, sqrt) == GatedCircle(a, b, c, sqrt)
  {
    SlopeCollinearIffDet(a, b, c);
  }

  /** With a genuine square root a non-degenerate triangle has its circle, through all three vertices. */
  lemma CircleOfCircumscribes(a: Point, b: Point, c: Point, sqrt: real -> real)
    requires IsSqrt(sqrt) && Det(a, b, c) != 0.0
    ensures CircleOf(a, b, c, sqrt).Ok?
    ensures Circumscribes(CircleOf(a, b, c, sqrt).value, {a, b, c}, sqrt)
  {
    SlopeCollinearIffDet(a, b, c);
    RelabelledCircumscribes(a, b, c, sqrt);
  }

  /** Listing the vertices in another order gives the same circle. */
  lemma CircleOfSymmetric(a: Point, b: Point, c: Point, p: Point, q: Point, r: Point, sqrt: real -> real)
    requires IsSqrt(sqrt) && {a, b, c} == {p, q, r}
    ensures CircleOf(a, b, c, sqrt) == CircleOf(p, q, r, sqrt)
  {
    SlopeCollinearIffDet(a, b, c);
    SlopeCollinearIffDet(p, q, r);
    if Det(a, b, c) != 0.0 {
      DetOfSameSet(a, b, c, p, q, r);
      RelabelledCircleSymmetric(a, b, c, p, q, r, sqrt);
    } else if Det(p, q, r) != 0.0 {
      DetOfSameSet(p, q, r, a, b, c);
    }
  }

  class Circumcircle {
    var a: Point
    var b: Point
    var c: Point
    var center: Point
    var radius: real
    const sqrt: real -> real

    /** Centre and radius are those the construction gives for the stored vertices. */
    ghost predicate Current()
      reads this
    {
      Circumscribe(a, b, c, sqrt) == Ok(Circle(center, radius))
    }

    /**
      The effect of `_calculate` started on the vertices (a0, b0, c0): ValueError
      and nothing touched when they are collinear; otherwise the vertices
      relabelled in place and, unless the construction divides by zero, the
      centre and radius recomputed.
     */
    twostate predicate Recalculated(a0: Point, b0: Point, c0: Point, o: Outcome)
      reads this
    {
      if SlopeCollinear(a0, b0, c0) then
        o == Raised(ValueError) && a == a0 && b == b0 && c == c0 &&
        center == old(center) && radius == old(radius)
      else
        (a, b, c) == Relabel(a0, b0, c0) &&
        (o == Done <==> Circumscribe(a, b, c, sqrt).Ok?) &&
        (o == Done ==> Current()) &&
        (o != Done ==> o == Raised(ZeroDivisionError) && center == old(center) && radius == old(radius))
    }

    /** The raw field writes `self._a = a` and `self._b = b` that start `__init__`. */
    constructor Init(a: Point, b: Point, c: Point, sqrt: real -> real)
      ensures this.a == a && this.b == b && this.c == c && this.sqrt == sqrt
    {
      this.a, this.b, this.c := a, b, c;
      this.sqrt := sqrt;
      center, radius := Point(0.0, 0.0), 0.0;
    }

    /**
      `Circumcircle(a, b, c)`: a and b stored as given, then the c setter, which
      type-checks c and calculates once.
     */
    static method Create(a: Point, b: Point, c: Arg<Point>, sqrt: real -> real) returns (r: Result<Circumcircle>)
      ensures c.Mistyped? ==> r == Err(TypeError)
      ensures c.Typed? ==> r.Ok? == CircleOf(a, b, c.value, sqrt).Ok?
      ensures c.Typed? && r.Err? ==> r.error == CircleOf(a, b, c.value, sqrt).error
      ensures r.Ok? ==>
        fresh(r.value) && r.value.sqrt == sqrt && r.value.Current() &&
        (r.value.a, r.value.b, r.value.c) == Relabel(a, b, c.value) &&
        CircleOf(a, b, c.value, sqrt) == Ok(Circle(r.value.center, r.value.radius))
    {
      if c.Mistyped? {
        return Err(TypeError);
      }
      var k := new Circumcircle.Init(a, b, c.value, sqrt);
      var o := k.Calculate();
      if o.Raised? {
        return Err(o.error);
      }
      return Ok(k);
    }

    /** `_ensure_non_collinear`: ValueError for a collinear triple, else nothing. */
    method EnsureNonCollinear() returns (o: Outcome)
      ensures o == Done <==> Det(a, b, c) != 0.0
      ensures o != Done ==> o == Raised(ValueError)
    {
      var collinear := CollinearBySlopes(a, b, c);
      o := if collinear then Raised(ValueError) else Done;
    }

    /** `_calculate`: the gate, the two in-place swaps, then centre and radius. */
    method Calculate() returns (o: Outcome)
      modifies this
      ensures Recalculated(old(a), old(b), old(c), o)
      ensures IsSqrt(sqrt) && Det(old(a), old(b), old(c)) != 0.0 ==>
        o == Done && Circumscribes(Circle(center, radius), {old(a), old(b), old(c)}, sqrt)
    {
      ghost var a0, b0, c0 := a, b, c;
      SlopeCollinearIffDet(a, b, c);
      o := EnsureNonCollinear();
      if o != Done {
        return;
      }
      if a != b || a != c || b != c {
        if b.x - a.x == 0.0 {
          a, c := c, a;
        }
        if c.x - a.x == 0.0 {
          a, b := b, a;
        }
      }
      assert (a, b, c) == Relabel(a0, b0, c0);
      if IsSqrt(sqrt) {
        RelabelledCircumscribes(a0, b0, c0, sqrt);
      }
      var k := Circumscribe(a, b, c, sqrt);
      if k.Err? {
        o := Raised(k.error);
        return;
      }
      center, radius := k.value.center, k.value.radius;
    }

    /** The `a` setter: TypeError for a non-coordinate, else store and recalculate. */
    method SetA(value: Arg<Point>) returns (o: Outcome)
      modifies this
      ensures value.Mistyped? ==> o == Raised(TypeError) && unchanged(this)
      ensures value.Typed? ==> Recalculated(value.value, old(b), old(c), o)
      ensures value.Typed? && IsSqrt(sqrt) && Det(value.value, old(b), old(c)) != 0.0 ==>
        o == Done && Circumscribes(Circle(center, radius), {value.value, old(b), old(c)}, sqrt)
    {
      if value.Mistyped? {
        return Raised(TypeError);
      }
      a := value.value;
      o := Calculate();
    }

    /** The `b` setter. */
    method SetB(value: Arg<Point>) returns (o: Outcome)
      modifies this
      ensures value.Mistyped? ==> o == Raised(TypeError) && unchanged(this)
      ensures value.Typed? ==> Recalculated(old(a), value.value, old(c), o)
      ensures value.Typed? && IsSqrt(sqrt) && Det(old(a), value.value, old(c)) != 0.0 ==>
        o == Done && Circumscribes(Circle(center, radius), {old(a), value.value, old(c)}, sqrt)
    {
      if value.Mistyped? {
        return Raised(TypeError);
      }
      b := value.value;
      o := Calculate();
    }

    /** The `c` setter. */
    method SetC(value: Arg<Point>) returns (o: Outcome)
      modifies this
      ensures value.Mistyped? ==> o == Raised(TypeError) && unchanged(this)
      ensures value.Typed? ==> Recalculated(old(a), old(b), value.value, o)
      ensures value.Typed? && IsSqrt(sqrt) && Det(old(a), old(b), value.value) != 0.0 ==>
        o == Done && Circumscribes(Circle(center, radius), {old(a), old(b), value.value}, sqrt)
    {
      if value.Mistyped? {
        return Raised(TypeError);
      }
      c := value.value;
      o := Calculate();
    }
  }

  // ---------------------------------------------------------------------------
  // Barycentric containment

  /** The denominator shared by both weights of `__contains__`. */
  function Denominator(a: Point, b: Point, c: Point): real {
    (b.y - c.y) * (a.x - c.x) + (c.x - b.x) * (a.y - c.y)
  }

  /**
    The weights (λa, λb, 1 - λa - λb) of p with respect to a, b and c;
    ZeroDivisionError when the shared denominator is zero.
   */
  function Weights(a: Point, b: Point, c: Point, p: Point): (r: Result<(real, real, real)>)
    ensures r.Err? <==> Det(a, b, c) == 0.0
    ensures r.Err? ==> r.error == ZeroDivisionError
    ensures r.Ok? ==> r.value.0 + r.value.1 + r.value.2 == 1.0
  {
    var d := Denominator(a, b, c);
    assert d == Det(a, b, c);
    if d == 0.0 then Err(ZeroDivisionError)
    else
      var la := ((b.y - c.y) * (p.x - c.x) + (c.x - b.x) * (p.y - c.y)) / d;
      var lb := ((c.y - a.y) * (p.x - c.x) + (a.x - c.x) * (p.y - c.y)) / d;
      Ok((la, lb, 1.0 - la - lb))
  }

  /** `p in triangle`: all three weights in [0, 1]. */
  function ContainsPoint(a: Point, b: Point, c: Point, p: Point): (r: Result<bool>)
    ensures r.Err? <==> Det(a, b, c) == 0.0
    ensures r.Err? ==> r.error == ZeroDivisionError
  {
    match Weights(a, b, c, p)
    case Err(e) => Err(e)
    case Ok(w) => Ok(0.0 <= w.0 <= 1.0 && 0.0 <= w.1 <= 1.0 && 0.0 <= w.2 <= 1.0)
  }

  /** The point `la * a + lb * b + lc * c`. */
  function Combination(a: Point, b: Point, c: Point, la: real, lb: real, lc: real): Point {
    Point(la * a.x + lb * b.x + lc * c.x, la * a.y + lb * b.y + lc * c.y)
  }

  /** Cramer's rule for the 2x2 system `la * u + lb * v == w`. */
  lemma Cramer(u: Point, v: Point, w: Point, la: real, lb: real, d: real)
    requires d == v.y * u.x - v.x * u.y && d != 0.0
    requires la * d == v.y * w.x - v.x * w.y && lb * d == u.x * w.y - u.y * w.x
    ensures la * u.x + lb * v.x == w.x && la * u.y + lb * v.y == w.y
  {
    var ex := la * u.x + lb * v.x - w.x;
    var ey := la * u.y + lb * v.y - w.y;
    assert ex * d == (la * d) * u.x + (lb * d) * v.x - w.x * d;
    assert ex * d == 0.0;
    MulSign(ex, d, ex * d);
    assert ey * d == (la * d) * u.y + (lb * d) * v.y - w.y * d;
    assert ey * d == 0.0;
    MulSign(ey, d, ey * d);
  }

  /** The weights reproduce p: p is the weighted combination of the vertices. */
  lemma WeightsReconstruct(a: Point, b: Point, c: Point, p: Point)
    requires Det(a, b, c) != 0.0
    ensures var w := Weights(a, b, c, p).value; Combination(a, b, c, w.0, w.1, w.2) == p
  {
    var w := Weights(a, b, c, p).value;
    var u, v, q := Displacement(c, a), Displacement(c, b), Displacement(c, p);
    var d := Denominator(a, b, c);
    assert w.0 * d == v.y * q.x - v.x * q.y;
    assert w.1 * d == u.x * q.y - u.y * q.x;
    Cramer(u, v, q, w.0, w.1, d);
    assert w.0 * a.x + w.1 * b.x + w.2 * c.x == c.x + (w.0 * u.x + w.1 * v.x);
    assert w.0 * a.y + w.1 * b.y + w.2 * c.y == c.y + (w.0 * u.y + w.1 * v.y);
  }

  /** The numerators of the weights of a combination are its coefficients times the denominator. */
  lemma CombinationNumerators(a: Point, b: Point, c: Point, la: real, lb: real)
    ensures var p, d := Combination(a, b, c, la, lb, 1.0 - la - lb), Denominator(a, b, c);
      (b.y - c.y) * (p.x - c.x) + (c.x - b.x) * (p.y - c.y) == la * d &&
      (c.y - a.y) * (p.x - c.x) + (a.x - c.x) * (p.y - c.y) == lb * d
  {
    var p := Combination(a, b, c, la, lb, 1.0 - la - lb);
    var u, v := Displacement(c, a), Displacement(c, b);
    var d := Denominator(a, b, c);
    assert p.x - c.x == la * u.x + lb * v.x;
    assert p.y - c.y == la * u.y + lb * v.y;
    assert d == v.y * u.x - v.x * u.y;
    var na := (b.y - c.y) * (p.x - c.x) + (c.x - b.x) * (p.y - c.y);
    var nb := (c.y - a.y) * (p.x - c.x) + (a.x - c.x) * (p.y - c.y);
    assert na == v.y * (la * u.x + lb * v.x) - v.x * (la * u.y + lb * v.y);
    assert nb == u.x * (la * u.y + lb * v.y) - u.y * (la * u.x + lb * v.x);
  }

  /** Conversely, the weights of a combination are its own coefficients. */
  lemma CombinationWeights(a: Point, b: Point, c: Point, la: real, lb: real)
    requires Det(a, b, c) != 0.0
    ensures Weights(a, b, c, Combination(a, b, c, la, lb, 1.0 - la - lb)) == Ok((la, lb, 1.0 - la - lb))
  {
    var p := Combination(a, b, c, la, lb, 1.0 - la - lb);
    var d := Denominator(a, b, c);
    assert d == Det(a, b, c);
    CombinationNumerators(a, b, c, la, lb);
    var na := (b.y - c.y) * (p.x - c.x) + (c.x - b.x) * (p.y - c.y);
    var nb := (c.y - a.y) * (p.x - c.x) + (a.x - c.x) * (p.y - c.y);
    assert na / d == la && nb / d == lb;
    var w := Weights(a, b, c, p);
    assert w.Ok?;
    assert w.value.0 == na / d;
    assert w.value.1 == nb / d;
    assert w.value.2 == 1.0 - w.value.0 - w.value.1;
  }

  /**
    On a non-degenerate triangle a point is contained exactly when it is a
    convex combination of the vertices, edges and vertices included.
   */
  lemma ContainsIffConvex(a: Point, b: Point, c: Point, la: real, lb: real)
    requires Det(a, b, c) != 0.0
    ensures ContainsPoint(a, b, c, Combination(a, b, c, la, lb, 1.0 - la - lb)) == Ok(true)
        <==> 0.0 <= la && 0.0 <= lb && la + lb <= 1.0
  {
    CombinationWeights(a, b, c, la, lb);
  }

  /** Every contained point is such a convex combination. */
  lemma ContainedIsConvex(a: Point, b: Point, c: Point, p: Point)
    requires ContainsPoint(a, b, c, p) == Ok(true)
    ensures var w := Weights(a, b, c, p).value;
      0.0 <= w.0 && 0.0 <= w.1 && 0.0 <= w.2 && p == Combination(a, b, c, w.0, w.1, w.2)
  {
    WeightsReconstruct(a, b, c, p);
  }

  /** The vertices themselves are contained, contrary to the note that edges are excluded. */
  lemma VerticesContained(a: Point, b: Point, c: Point)
    requires Det(a, b, c) != 0.0
    ensures ContainsPoint(a, b, c, a) == Ok(true)
    ensures ContainsPoint(a, b, c, b) == Ok(true)
    ensures ContainsPoint(a, b, c, c) == Ok(true)
  {
    ContainsIffConvex(a, b, c, 1.0, 0.0);
    assert Combination(a, b, c, 1.0, 0.0, 0.0) == a;
    ContainsIffConvex(a, b, c, 0.0, 1.0);
    assert Combination(a, b, c, 0.0, 1.0, 0.0) == b;
    ContainsIffConvex(a, b, c, 0.0, 0.0);
    assert Combination(a, b, c, 0.0, 0.0, 1.0) == c;
  }

  // ---------------------------------------------------------------------------
  // Area, perimeter and comparisons

  /** The cached `area`: the shoelace formula on (a, b, c), half the absolute determinant. */
  function AreaOf(a: Point, b: Point, c: Point): (area: real)
    ensures area == Abs(Det(a, b, c)) / 2.0
  {
    Operations.ShoelaceTriangle(a, b, c);
    Abs(Operations.Shoelace([a, b, c]) / 2.0)
  }

  /** A triangle's area depends only on its set of vertices. */
  lemma AreaOfSameSet(a: Point, b: Point, c: Point, p: Point, q: Point, r: Point)
    ensures {a, b, c} == {p, q, r} ==> AreaOf(a, b, c) == AreaOf(p, q, r)
  {
    if {a, b, c} != {p, q, r} {
    } else if Det(a, b, c) != 0.0 {
      DetOfSameSet(a, b, c, p, q, r);
    } else if Det(p, q, r) != 0.0 {
      DetOfSameSet(p, q, r, a, b, c);
    }
  }

  /** The six sides of `sides`, one per ordered pair of distinct keys, in `permutations` order. */
  function SidePairs(a: Point, b: Point, c: Point): seq<(Point, Point)> {
    [(a, b), (a, c), (b, a), (b, c), (c, a), (c, b)]
  }

  /**
    The lengths of the sides, each endpoint set counted once: the sum over
    `set(self.sides.values())`, whose segments are equal when their endpoint
    sets are.
   */
  function DedupSum(sides: seq<(Point, Point)>, seen: set<set<Point>>, sqrt: real -> real): real
    decreases |sides|
  {
    if |sides| == 0 then 0.0
    else
      var s := {sides[0].0, sides[0].1};
      if s in seen then DedupSum(sides[1..], seen, sqrt)
      else Operations.Dist(sides[0].0, sides[0].1, sqrt) + DedupSum(sides[1..], seen + {s}, sqrt)
  }

  /** The cached `perimeter` of a triangle. */
  function SidesPerimeter(a: Point, b: Point, c: Point, sqrt: real -> real): real {
    DedupSum(SidePairs(a, b, c), {}, sqrt)
  }

  lemma DistSymmetric(p: Point, q: Point, sqrt: real -> real)
    ensures Operations.Dist(p, q, sqrt) == Operations.Dist(q, p, sqrt)
  {
    DistSqFacts(p, q);
  }

  /** With distinct vertices the perimeter is the sum of the three sides, as `perimeter(a, b, c)` gives. */
  lemma SidesPerimeterDistinct(a: Point, b: Point, c: Point, sqrt: real -> real)
    requires a != b && a != c && b != c
    ensures SidesPerimeter(a, b, c, sqrt)
         == Operations.Dist(a, b, sqrt) + Operations.Dist(a, c, sqrt) + Operations.Dist(b, c, sqrt)
    ensures Operations.Perimeter([Typed(a), Typed(b), Typed(c)], sqrt) == Ok(SidesPerimeter(a, b, c, sqrt))
  {
    DedupSumDistinct(a, b, c, sqrt);
    Operations.PerimeterOfTriangle(a, b, c, sqrt);
  }

  /** The deduplicated sum over the six ordered sides of three distinct vertices keeps the first of each pair. */
  lemma DedupSumDistinct(a: Point, b: Point, c: Point, sqrt: real -> real)
    requires a != b && a != c && b != c
    ensures SidesPerimeter(a, b, c, sqrt)
         == Operations.Dist(a, b, sqrt) + Operations.Dist(a, c, sqrt) + Operations.Dist(b, c, sqrt)
  {
    var ab, ac, bc := Operations.Dist(a, b, sqrt), Operations.Dist(a, c, sqrt), Operations.Dist(b, c, sqrt);
    assert c !in {a, b} && b !in {a, c} && a !in {b, c};
    var s1: set<set<Point>> := {{a, b}};
    var s2 := s1 + {{a, c}};
    var s3 := s2 + {{b, c}};
    assert {a, c} !in s1 && {b, c} !in s2;
    assert {b, a} == {a, b} && {c, a} == {a, c} && {c, b} == {b, c};
    assert {b, a} in s2 && {c, a} in s3 && {c, b} in s3;
    var t5 := [(c, b)];
    var t4 := [(c, a)] + t5;
    var t3 := [(b, c)] + t4;
    var t2 := [(b, a)] + t3;
    var t1 := [(a, c)] + t2;
    var t0 := [(a, b)] + t1;
    assert t0 == SidePairs(a, b, c);
    assert DedupSum(t5, s3, sqrt) == DedupSum([], s3, sqrt) == 0.0 by { assert t5[1..] == []; }
    assert DedupSum(t4, s3, sqrt) == 0.0 by { assert t4[1..] == t5; }
    assert DedupSum(t3, s2, sqrt) == bc by { assert t3[1..] == t4; }
    assert DedupSum(t2, s2, sqrt) == bc by { assert t2[1..] == t3; }
    assert DedupSum(t1, s1, sqrt) == ac + bc by { assert t1[1..] == t2; }
    assert DedupSum(t0, {}, sqrt) == ab + ac + bc by {
      assert t0[1..] == t1;
      assert {} + {{a, b}} == s1;
    }
  }

  /** With a repeated vertex the set of sides loses its duplicate: a == b gives |aa| + |ac|, not the pairwise sum. */
  lemma SidesPerimeterRepeated(a: Point, c: Point, sqrt: real -> real)
    requires a != c
    ensures SidesPerimeter(a, a, c, sqrt) == Operations.Dist(a, a, sqrt) + Operations.Dist(a, c, sqrt)
  {
    var aa, ac := Operations.Dist(a, a, sqrt), Operations.Dist(a, c, sqrt);
    assert c !in {a, a};
    var s1: set<set<Point>> := {{a, a}};
    var s2 := s1 + {{a, c}};
    assert {a, c} !in s1;
    assert {c, a} == {a, c};
    assert {a, a} in s2 && {a, c} in s2 && {c, a} in s2;
    var t5 := [(c, a)];
    var t4 := [(c, a)] + t5;
    var t3 := [(a, c)] + t4;
    var t2 := [(a, a)] + t3;
    var t1 := [(a, c)] + t2;
    var t0 := [(a, a)] + t1;
    assert t0 == SidePairs(a, a, c);
    assert DedupSum(t5, s2, sqrt) == DedupSum([], s2, sqrt) == 0.0 by { assert t5[1..] == []; }
    assert DedupSum(t4, s2, sqrt) == 0.0 by { assert t4[1..] == t5; }
    assert DedupSum(t3, s2, sqrt) == 0.0 by { assert t3[1..] == t4; }
    assert DedupSum(t2, s2, sqrt) == 0.0 by { assert t2[1..] == t3; }
    assert DedupSum(t1, s1, sqrt) == ac by { assert t1[1..] == t2; }
    assert DedupSum(t0, {}, sqrt) == aa + ac by {
      assert t0[1..] == t1;
      assert {} + {{a, a}} == s1;
    }
  }

  lemma SqrtOne(sqrt: real -> real)
    requires IsSqrt(sqrt)
    ensures sqrt(1.0) == 1.0
  {
    var one := sqrt(1.0);
    assert one >= 0.0 && one * one == 1.0;
    var m := (one - 1.0) * (one + 1.0);
    assert m == one * one - 1.0;
    MulSign(one - 1.0, one + 1.0, m);
  }

  /** The perimeter of (0,0), (1,1), (1,0) is sqrt(2) + 2. */
  lemma PerimeterExample(a: Point, b: Point, c: Point, sqrt: real -> real)
    requires a == Point(0.0, 0.0) && b == Point(1.0, 1.0) && c == Point(1.0, 0.0)
    requires IsSqrt(sqrt)
    ensures SidesPerimeter(a, b, c, sqrt) == sqrt(2.0) + 2.0
  {
    SqrtOne(sqrt);
    ExampleSides(a, b, c);
    PerimeterOfUnitRightTriangle(a, b, c, sqrt);
  }

  /** Sides of squared lengths 2, 1 and 1 add up to sqrt(2) + 2. */
  lemma PerimeterOfUnitRightTriangle(a: Point, b: Point, c: Point, sqrt: real -> real)
    requires a != b && a != c && b != c && sqrt(1.0) == 1.0
    requires DistSq(a, b) == 2.0 && DistSq(a, c) == 1.0 && DistSq(b, c) == 1.0
    ensures SidesPerimeter(a, b, c, sqrt) == sqrt(2.0) + 2.0
  {
    var two, one := 2.0, 1.0;
    PerimeterFromSquares(a, b, c, two, one, one, sqrt);
    assert SidesPerimeter(a, b, c, sqrt) == sqrt(two) + 2.0 * sqrt(one);
    assert sqrt(one) == 1.0;
  }

  /** The perimeter of three distinct vertices from the squared lengths of their sides. */
  lemma PerimeterFromSquares(a: Point, b: Point, c: Point, ab: real, ac: real, bc: real, sqrt: real -> real)
    requires a != b && a != c && b != c
    requires DistSq(a, b) == ab && DistSq(a, c) == ac && DistSq(b, c) == bc
    ensures SidesPerimeter(a, b, c, sqrt) == sqrt(ab) + sqrt(ac) + sqrt(bc)
    ensures sqrt(ac) == sqrt(bc) ==> SidesPerimeter(a, b, c, sqrt) == sqrt(ab) + 2.0 * sqrt(ac)
  {
    DedupSumDistinct(a, b, c, sqrt);
  }

  lemma ExampleSides(a: Point, b: Point, c: Point)
    requires a == Point(0.0, 0.0) && b == Point(1.0, 1.0) && c == Point(1.0, 0.0)
    ensures a != b && a != c && b != c
    ensures DistSq(a, b) == 2.0 && DistSq(a, c) == 1.0 && DistSq(b, c) == 1.0
  {
  }

  /** The area of (0,0), (1,1), (1,0) is 0.5. */
  lemma AreaExample()
    ensures AreaOf(Point(0.0, 0.0), Point(1.0, 1.0), Point(1.0, 0.0)) == 0.5
  {
  }

  /**
    Two triangles with the same area and different vertices, (0,0), (1,0), (0,1)
    and (0,0), (2,0), (0,0.5): none of `t1 >= t2`, `t1 < t2` and `t1 <= t2` holds.
   */
  lemma OrderNotTotal(p: Point, q: Point, r: Point, s: Point, t: Point)
    requires p == Point(0.0, 0.0) && q == Point(1.0, 0.0) && r == Point(0.0, 1.0)
    requires s == Point(2.0, 0.0) && t == Point(0.0, 0.5)
    ensures var ge := AreaOf(p, q, r) > AreaOf(p, s, t) || {p, q, r} == {p, s, t};
      var lt := AreaOf(p, q, r) < AreaOf(p, s, t);
      var le := lt || {p, q, r} == {p, s, t};
      !ge && !lt && !le
  {
    assert Det(p, q, r) == 1.0 && Det(p, s, t) == 1.0;
    assert q !in {p, s, t};
  }

  class Triangle {
    var a: Point
    var b: Point
    var c: Point
    /** The `area`, `perimeter` and `circumcircle` entries of `_properties`. */
    var areaCache: Option<real>
    var perimeterCache: Option<real>
    var circleCache: Option<Circle>
    const sqrt: real -> real

    ghost predicate Valid()
      reads this
    {
      (areaCache.Some? ==> areaCache.value == AreaOf(a, b, c)) &&
      (perimeterCache.Some? ==> perimeterCache.value == SidesPerimeter(a, b, c, sqrt)) &&
      (circleCache.Some? ==> CircleOf(a, b, c, sqrt) == Ok(circleCache.value))
    }

    constructor Init(a: Point, b: Point, c: Point, sqrt: real -> real)
      ensures this.a == a && this.b == b && this.c == c && this.sqrt == sqrt
      ensures areaCache == None && perimeterCache == None && circleCache == None
    {
      this.a, this.b, this.c := a, b, c;
      this.sqrt := sqrt;
      areaCache, perimeterCache, circleCache := None, None, None;
    }

    /** `Triangle(a, b, c)`: an empty cache, then the three type-checking setters. */
    static method Create(a: Arg<Point>, b: Arg<Point>, c: Arg<Point>, sqrt: real -> real) returns (r: Result<Triangle>)
      ensures r.Err? <==> a.Mistyped? || b.Mistyped? || c.Mistyped?
      ensures r.Err? ==> r.error == TypeError
      ensures r.Ok? ==>
        fresh(r.value) && r.value.a == a.value && r.value.b == b.value && r.value.c == c.value &&
        r.value.sqrt == sqrt && r.value.Valid()
    {
      if a.Mistyped? || b.Mistyped? || c.Mistyped? {
        return Err(TypeError);
      }
      var t := new Triangle.Init(a.value, b.value, c.value, sqrt);
      return Ok(t);
    }

    /** The `a` setter: TypeError for a non-coordinate, else store and clear the cache. */
    method SetA(value: Arg<Point>) returns (o: Outcome)
      requires Valid()
      modifies this
      ensures value.Mistyped? ==> o == Raised(TypeError) && unchanged(this)
      ensures value.Typed? ==>
        o == Done && a == value.value && b == old(b) && c == old(c) &&
        areaCache == None && perimeterCache == None && circleCache == None
      ensures Valid()
    {
      if value.Mistyped? {
        return Raised(TypeError);
      }
      a := value.value;
      areaCache, perimeterCache, circleCache := None, None, None;
      return Done;
    }

    /** The `b` setter. */
    method SetB(value: Arg<Point>) returns (o: Outcome)
      requires Valid()
      modifies this
      ensures value.Mistyped? ==> o == Raised(TypeError) && unchanged(this)
      ensures value.Typed? ==>
        o == Done && b == value.value && a == old(a) && c == old(c) &&
        areaCache == None && perimeterCache == None && circleCache == None
      ensures Valid()
    {
      if value.Mistyped? {
        return Raised(TypeError);
      }
      b := value.value;
      areaCache, perimeterCache, circleCache := None, None, None;
      return Done;
    }

    /** The `c` setter. */
    method SetC(value: Arg<Point>) returns (o: Outcome)
      requires Valid()
      modifies this
      ensures value.Mistyped? ==> o == Raised(TypeError) && unchanged(this)
      ensures value.Typed? ==>
        o == Done && c == value.value && a == old(a) && b == old(b) &&
        areaCache == None && perimeterCache == None && circleCache == None
      ensures Valid()
    {
      if value.Mistyped? {
        return Raised(TypeError);
      }
      c := value.value;
      areaCache, perimeterCache, circleCache := None, None, None;
      return Done;
    }

    /** The `area` property: the shoelace area of the vertices, cached. */
    method Area() returns (area: real)
      requires Valid()
      modifies this`areaCache
      ensures area == Abs(Det(a, b, c)) / 2.0 && areaCache == Some(area) && Valid()
    {
      if areaCache.None? {
        var v := Operations.Area([a, b, c]);
        Operations.ShoelaceTriangle(a, b, c);
        areaCache := Some(v);
      }
      area := areaCache.value;
    }

    /** The `perimeter` property: the lengths of the distinct sides, summed once each, cached. */
    method Perimeter() returns (p: real)
      requires Valid()
      modifies this`perimeterCache
      ensures p == SidesPerimeter(a, b, c, sqrt) && perimeterCache == Some(p) && Valid()
      ensures a != b && a != c && b != c ==>
        p == Operations.Dist(a, b, sqrt) + Operations.Dist(a, c, sqrt) + Operations.Dist(b, c, sqrt)
    {
      if a != b && a != c && b != c {
        SidesPerimeterDistinct(a, b, c, sqrt);
      }
      if perimeterCache.Some? {
        return perimeterCache.value;
      }
      var sides := SidePairs(a, b, c);
      var seen: set<set<Point>> := {};
      var total := 0.0;
      for i := 0 to |sides|
        invariant total + DedupSum(sides[i..], seen, sqrt) == DedupSum(sides, {}, sqrt)
      {
        assert sides[i..][1..] == sides[i + 1..];
        var side := {sides[i].0, sides[i].1};
        if side !in seen {
          total := total + Operations.Dist(sides[i].0, sides[i].1, sqrt);
          seen := seen + {side};
        }
      }
      perimeterCache := Some(total);
      p := total;
    }

    /** The `circumcenter` property: a `Circumcircle` of the vertices, built once and cached. */
    method Circumcenter() returns (r: Result<Point>)
      requires Valid()
      modifies this`circleCache
      ensures r.Ok? <==> CircleOf(a, b, c, sqrt).Ok?
      ensures r.Ok? ==> r.value == CircleOf(a, b, c, sqrt).value.center
      ensures r.Err? ==> r.error == CircleOf(a, b, c, sqrt).error
      ensures Valid()
    {
      var k := GetCircle();
      r := if k.Ok? then Ok(k.value.center) else Err(k.error);
    }

    /** The `circumradius` property. */
    method Circumradius() returns (r: Result<real>)
      requires Valid()
      modifies this`circleCache
      ensures r.Ok? <==> CircleOf(a, b, c, sqrt).Ok?
      ensures r.Ok? ==> r.value == CircleOf(a, b, c, sqrt).value.radius
      ensures r.Err? ==> r.error == CircleOf(a, b, c, sqrt).error
      ensures Valid()
    {
      var k := GetCircle();
      r := if k.Ok? then Ok(k.value.radius) else Err(k.error);
    }

    /** The cached circumcircle shared by both properties. */
    method GetCircle() returns (r: Result<Circle>)
      requires Valid()
      modifies this`circleCache
      ensures r == CircleOf(a, b, c, sqrt) && Valid()
    {
      if circleCache.Some? {
        return Ok(circleCache.value);
      }
      var k := Circumcircle.Create(a, b, Typed(c), sqrt);
      if k.Err? {
        return Err(k.error);
      }
      circleCache := Some(Circle(k.value.center, k.value.radius));
      r := Ok(circleCache.value);
    }

    /** `is_collinear`: decided by slopes, true exactly when the determinant vanishes. */
    method IsCollinear() returns (r: bool)
      ensures r <==> Det(a, b, c) == 0.0
    {
      r := CollinearBySlopes(a, b, c);
    }

    /** `value in triangle`. */
    function Contains(p: Point): (r: Result<bool>)
      reads this
      ensures r.Err? <==> Det(a, b, c) == 0.0
      ensures r.Ok? && r.value ==> var w := Weights(a, b, c, p).value;
        0.0 <= w.0 && 0.0 <= w.1 && 0.0 <= w.2 && p == Combination(a, b, c, w.0, w.1, w.2)
    {
      var r := ContainsPoint(a, b, c, p);
      if r.Ok? && r.value then ContainedIsConvex(a, b, c, p); r else r
    }

    /** `==`: TypeError for a non-triangle, else equal vertex sets. */
    function Equals(value: Arg<Triangle>): (r: Result<bool>)
      reads this, if value.Typed? then {value.value} else {}
      ensures value.Mistyped? <==> r == Err(TypeError)
      ensures value.Typed? ==> r == Ok({a, b, c} == {value.value.a, value.value.b, value.value.c})
    {
      if value.Mistyped? then Err(TypeError)
      else Ok({a, b, c} == {value.value.a, value.value.b, value.value.c})
    }

    /** `!=`: `not self == value`. */
    function NotEquals(value: Arg<Triangle>): (r: Result<bool>)
      reads this, if value.Typed? then {value.value} else {}
      ensures r.Err? <==> value.Mistyped?
      ensures r.Ok? ==> r.value == !Equals(value).value
    {
      match Equals(value)
      case Err(e) => Err(e)
      case Ok(eq) => Ok(!eq)
    }

    /**
      `>`: compares areas. A function, so the area-cache fill that reading
      `self.area` performs is not modelled here; the value is the same.
     */
    function Greater(value: Arg<Triangle>): (r: Result<bool>)
      reads this, if value.Typed? then {value.value} else {}
      ensures value.Mistyped? <==> r == Err(TypeError)
      ensures value.Typed? ==>
        r == Ok(Abs(Det(a, b, c)) > Abs(Det(value.value.a, value.value.b, value.value.c)))
    {
      if value.Mistyped? then Err(TypeError)
      else Ok(AreaOf(a, b, c) > AreaOf(value.value.a, value.value.b, value.value.c))
    }

    /** `<`: compares areas, like `Greater` without the area-cache fill. */
    function Less(value: Arg<Triangle>): (r: Result<bool>)
      reads this, if value.Typed? then {value.value} else {}
      ensures value.Mistyped? <==> r == Err(TypeError)
      ensures value.Typed? ==>
        r == Ok(Abs(Det(a, b, c)) < Abs(Det(value.value.a, value.value.b, value.value.c)))
    {
      if value.Mistyped? then Err(TypeError)
      else Ok(AreaOf(a, b, c) < AreaOf(value.value.a, value.value.b, value.value.c))
    }

    /** `>=`: strictly greater or equal; an equal triangle always qualifies and is never strictly smaller. */
    function GreaterOrEqual(value: Arg<Triangle>): (r: Result<bool>)
      reads this, if value.Typed? then {value.value} else {}
      ensures value.Mistyped? <==> r == Err(TypeError)
      ensures r.Ok? ==> (r.value <==> Greater(value).value || Equals(value).value)
      ensures r == Ok(true) <== Equals(value) == Ok(true)
      ensures Equals(value) == Ok(true) ==> Less(value) == Ok(false) && Greater(value) == Ok(false)
    {
      if value.Mistyped? then Err(TypeError)
      else
        AreaOfSameSet(a, b, c, value.value.a, value.value.b, value.value.c);
        if Greater(value).value then Ok(true) else Equals(value)
    }

    /** `<=`: strictly smaller or equal. */
    function LessOrEqual(value: Arg<Triangle>): (r: Result<bool>)
      reads this, if value.Typed? then {value.value} else {}
      ensures value.Mistyped? <==> r == Err(TypeError)
      ensures r.Ok? ==> (r.value <==> Less(value).value || Equals(value).value)
      ensures r == Ok(true) <== Equals(value) == Ok(true)
    {
      if value.Mistyped? then Err(TypeError)
      else if Less(value).value then Ok(true) else Equals(value)
    }
  }
}
