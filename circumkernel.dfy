/**
  The circumcentre computation that the triangle and every circumcircle class
  of the library share, written once: the perpendicular-bisector construction
  of `_calculate` (unit normals, "vertical" vectors, midpoints, the horizontal
  intersection, the centre) and the relabelling of the vertices that precedes
  it. The class modules decide when it runs and what they store.
 */
module CircumKernel {
  import opened Common
  import opened MathLib
  import opened Plane

  datatype Circle = Circle(center: Point, radius: real)

  /** `(b - a).x` and `(b - a).y`: the displacement from a to b. */
  function Displacement(a: Point, b: Point): Point {
    Point(b.x - a.x, b.y - a.y)
  }

  /** The unit normal `(d.y / len, -d.x / len)` of a displacement of length len. */
  function Unitary(d: Point, len: real): Point
    requires len != 0.0
  {
    Point(d.y / len, -d.x / len)
  }

  /** The midpoint `d / 2 + a` of a segment starting at a with displacement d. */
  function Middle(a: Point, d: Point): Point {
    Point(d.x / 2.0 + a.x, d.y / 2.0 + a.y)
  }

  /** `sqrt(d.x ** 2 + d.y ** 2)`: the length of a displacement. */
  function Length(d: Point, sqrt: real -> real): real {
    sqrt(d.x * d.x + d.y * d.y)
  }

  /**
    The last two steps of the construction: the point of the bisector of ab at
    the height of the midpoint of ac, then the centre, found by moving along
    both bisectors (slopes `vab` and `-vac` over a unit rise) until they meet.
   */
  function Center(a: Point, dab: Point, dac: Point, uab: Point, vab: real, vac: real): Point
    requires uab.y != 0.0 && vab + vac != 0.0
  {
    var mab := Middle(a, dab);
    var mac := Middle(a, dac);
    var ix := mab.x + ((mac.y - mab.y) / uab.y) * uab.x;
    var k := (mac.x - ix) / (vab + vac);
    Point(ix + k * vab, mac.y + k)
  }

  /**
    The construction of `_calculate` on vertices already in place. Every
    division of the source appears with the `ZeroDivisionError` it raises when
    its divisor is zero: the two segment lengths, the y components of the unit
    normals, and the sum of the two "vertical" slopes.
   */
  function Circumscribe(a: Point, b: Point, c: Point, sqrt: real -> real): (r: Result<Circle>)
    ensures r.Err? ==> r.error == ZeroDivisionError
    ensures r.Ok? ==> r.value.radius == sqrt(DistSq(a, r.value.center))
  {
    var dab := Displacement(a, b);
    var dac := Displacement(a, c);
    var lab := Length(dab, sqrt);
    var lac := Length(dac, sqrt);
    if lab == 0.0 || lac == 0.0 then Err(ZeroDivisionError)
    else
      var uab := Unitary(dab, lab);
      var uac := Unitary(dac, lac);
      if uab.y == 0.0 || uac.y == 0.0 then Err(ZeroDivisionError)
      else
        var vab := uab.x / uab.y;
        var vac := -(uac.x / uac.y);
        if vab + vac == 0.0 then Err(ZeroDivisionError)
        else
          var center := Center(a, dab, dac, uab, vab, vac);
          Ok(Circle(center, sqrt(DistSq(a, center))))
  }

  /**
    The "vertical alignment prevention" step: when the vertices are not all
    equal, swap a and c if b - a has no x component, then swap a and b if
    c - a has none.
   */
  function Relabel(a: Point, b: Point, c: Point): (r: (Point, Point, Point))
    ensures multiset{r.0, r.1, r.2} == multiset{a, b, c}
  {
    if a != b || a != c || b != c then
      var (a1, c1) := if b.x - a.x == 0.0 then (c, a) else (a, c);
      if c1.x - a1.x == 0.0 then (b, a1, c1) else (a1, b, c1)
    else (a, b, c)
  }

  // ---------------------------------------------------------------------------
  // Relabelling

  lemma DetSwaps(a: Point, b: Point, c: Point)
    ensures Det(c, b, a) == -Det(a, b, c)
    ensures Det(b, a, c) == -Det(a, b, c)
  {
  }

  /** A triangle with a repeated vertex is degenerate. */
  lemma DetRepeated(a: Point, c: Point)
    ensures Det(a, a, c) == 0.0 && Det(a, c, a) == 0.0 && Det(c, a, a) == 0.0
  {
  }

  /**
    On a non-degenerate triangle the relabelling leaves both b - a and c - a
    with a non-zero x component, so the construction never divides by a zero
    unit-normal component.
   */
  lemma RelabelClearsVertical(a: Point, b: Point, c: Point)
    requires Det(a, b, c) != 0.0
    ensures var (a', b', c') := Relabel(a, b, c);
      b'.x != a'.x && c'.x != a'.x && Det(a', b', c') != 0.0
  {
    DetSwaps(a, b, c);
    assert !(a.x == b.x && b.x == c.x);
  }

  // ---------------------------------------------------------------------------
  // When the construction succeeds

  lemma UnitaryY(d: Point, len: real)
    requires len != 0.0
    ensures Unitary(d, len).y == 0.0 <==> d.x == 0.0
  {
  }

  /** The "vertical" slope of a unit normal is the negated inverse slope of the segment. */
  lemma UnitaryRatio(d: Point, len: real)
    requires len != 0.0 && d.x != 0.0
    ensures Unitary(d, len).y != 0.0
    ensures Unitary(d, len).x / Unitary(d, len).y == -d.y / d.x
  {
    var u := Unitary(d, len);
    calc {
      u.x / u.y;
      (d.y / len) / (-d.x / len);
      { assert d.y / len == d.y * (1.0 / len);
        assert -d.x / len == -d.x * (1.0 / len); }
      -d.y / d.x;
    }
  }

  /** The sum of the two vertical slopes is the determinant over the two x displacements. */
  lemma VerticalSum(a: Point, b: Point, c: Point)
    requires b.x - a.x != 0.0 && c.x - a.x != 0.0
    ensures -(b.y - a.y) / (b.x - a.x) + (c.y - a.y) / (c.x - a.x) == 0.0
        <==> Det(a, b, c) == 0.0
  {
    var p, q, r, s := b.x - a.x, b.y - a.y, c.x - a.x, c.y - a.y;
    var sum := -q / p + s / r;
    var pr := p * r;
    assert sum * pr == -q * r + s * p;
    assert -q * r + s * p == Det(a, b, c);
    MulSign(p, r, pr);
    MulSign(sum, pr, Det(a, b, c));
  }

  lemma LengthNonZero(d: Point, sqrt: real -> real)
    requires IsSqrt(sqrt)
    ensures Length(d, sqrt) == 0.0 <==> d == Point(0.0, 0.0)
  {
    Square(d.x, d.x * d.x);
    Square(d.y, d.y * d.y);
    SqrtFacts(sqrt, d.x * d.x + d.y * d.y);
  }

  /**
    With a genuine square root, the construction raises exactly when b - a or
    c - a has no x component or the three vertices are collinear.
   */
  lemma CircumscribeDefined(a: Point, b: Point, c: Point, sqrt: real -> real)
    requires IsSqrt(sqrt)
    ensures Circumscribe(a, b, c, sqrt).Ok?
        <==> b.x != a.x && c.x != a.x && Det(a, b, c) != 0.0
  {
    var dab, dac := Displacement(a, b), Displacement(a, c);
    LengthNonZero(dab, sqrt);
    LengthNonZero(dac, sqrt);
    var lab, lac := Length(dab, sqrt), Length(dac, sqrt);
    if lab != 0.0 && lac != 0.0 {
      UnitaryY(dab, lab);
      UnitaryY(dac, lac);
      if dab.x != 0.0 && dac.x != 0.0 {
        UnitaryRatio(dab, lab);
        UnitaryRatio(dac, lac);
        VerticalSum(a, b, c);
      }
    }
  }

  /** A point whose offset from the midpoint of ab is orthogonal to b - a is as far from a as from b. */
  lemma BisectorEquidistant(a: Point, b: Point, p: Point)
    requires (p.x - Middle(a, Displacement(a, b)).x) * (b.x - a.x)
           + (p.y - Middle(a, Displacement(a, b)).y) * (b.y - a.y) == 0.0
    ensures DistSq(a, p) == DistSq(b, p)
  {
    var m := Middle(a, Displacement(a, b));
    assert DistSq(a, p) - DistSq(b, p)
        == 2.0 * ((p.x - m.x) * (b.x - a.x) + (p.y - m.y) * (b.y - a.y));
  }

  lemma ScaleRatio(k: real, uy: real, ux: real)
    requires uy != 0.0
    ensures (k / uy) * ux == k * (ux / uy)
  {
  }

  /** An offset along (v, 1) is orthogonal to a side d with v * d.x == -d.y. */
  lemma AlongNormal(o: Point, m: Point, d: Point, v: real)
    requires o.x - m.x == v * (o.y - m.y) && v * d.x == -d.y
    ensures (o.x - m.x) * d.x + (o.y - m.y) * d.y == 0.0
  {
    assert (o.x - m.x) * d.x + (o.y - m.y) * d.y == (o.y - m.y) * (v * d.x + d.y);
  }

  /**
    The arithmetic of `Center`: from the first midpoint the centre is offset
    along (vab, 1), from the second along (-vac, 1).
   */
  lemma CenterOffsets(a: Point, dab: Point, dac: Point, uab: Point, vab: real, vac: real)
    requires uab.y != 0.0 && vab + vac != 0.0 && uab.x / uab.y == vab
    ensures var o, mab, mac := Center(a, dab, dac, uab, vab, vac), Middle(a, dab), Middle(a, dac);
      o.x - mab.x == vab * (o.y - mab.y) && o.x - mac.x == -vac * (o.y - mac.y)
  {
    var mab, mac := Middle(a, dab), Middle(a, dac);
    var h := mac.y - mab.y;
    var t := (h / uab.y) * uab.x;
    ScaleRatio(h, uab.y, uab.x);
    assert t == h * vab;
    var ix := mab.x + t;
    var k := (mac.x - ix) / (vab + vac);
    assert vab * (h + k) == h * vab + k * vab;
    assert k * (vab + vac) == mac.x - ix;
    assert Center(a, dab, dac, uab, vab, vac) == Point(ix + k * vab, mac.y + k);
  }

  /** The point `Center` computes is on both bisectors: its offsets from the midpoints are orthogonal to the sides. */
  lemma CenterOrthogonal(a: Point, dab: Point, dac: Point, uab: Point, vab: real, vac: real)
    requires uab.y != 0.0 && vab + vac != 0.0
    requires uab.x / uab.y == vab
    requires vab * dab.x == -dab.y && vac * dac.x == dac.y
    ensures var o, mab, mac := Center(a, dab, dac, uab, vab, vac), Middle(a, dab), Middle(a, dac);
      (o.x - mab.x) * dab.x + (o.y - mab.y) * dab.y == 0.0 &&
      (o.x - mac.x) * dac.x + (o.y - mac.y) * dac.y == 0.0
  {
    var mab, mac := Middle(a, dab), Middle(a, dac);
    var o := Center(a, dab, dac, uab, vab, vac);
    CenterOffsets(a, dab, dac, uab, vab, vac);
    // o - mab is a multiple of (vab, 1), which is orthogonal to dab
    AlongNormal(o, mab, dab, vab);
    // o - mac is a multiple of (-vac, 1), which is orthogonal to dac
    AlongNormal(Point(-o.x, o.y), Point(-mac.x, mac.y), Point(-dac.x, dac.y), vac);
  }

  /** Whenever the construction succeeds, its centre is equidistant from the three vertices. */
  lemma CenterOnBisectors(a: Point, b: Point, c: Point, sqrt: real -> real)
    requires Circumscribe(a, b, c, sqrt).Ok?
    ensures var o := Circumscribe(a, b, c, sqrt).value.center;
      DistSq(a, o) == DistSq(b, o) && DistSq(a, o) == DistSq(c, o)
  {
    var dab, dac := Displacement(a, b), Displacement(a, c);
    var lab, lac := Length(dab, sqrt), Length(dac, sqrt);
    assert lab != 0.0 && lac != 0.0;
    var uab, uac := Unitary(dab, lab), Unitary(dac, lac);
    UnitaryY(dab, lab);
    UnitaryY(dac, lac);
    UnitaryRatio(dab, lab);
    UnitaryRatio(dac, lac);
    var vab := uab.x / uab.y;
    var vac := -(uac.x / uac.y);
    assert vab * dab.x == -dab.y;
    assert vac * dac.x == dac.y;
    CenterOrthogonal(a, dab, dac, uab, vab, vac);
    var o := Center(a, dab, dac, uab, vab, vac);
    BisectorEquidistant(a, b, o);
    BisectorEquidistant(a, c, o);
  }

  // ---------------------------------------------------------------------------
  // The circle through three points

  /** circle passes through every point of vs: its radius is the distance from its centre to each of them. */
  ghost predicate Circumscribes(circle: Circle, vs: set<Point>, sqrt: real -> real) {
    forall v :: v in vs ==> circle.radius == sqrt(DistSq(v, circle.center))
  }

  /** A point as far from a as from b lies on the perpendicular bisector of ab. */
  lemma EquidistantOrthogonal(a: Point, b: Point, p: Point)
    requires DistSq(a, p) == DistSq(b, p)
    ensures (p.x - (a.x + b.x) / 2.0) * (b.x - a.x) + (p.y - (a.y + b.y) / 2.0) * (b.y - a.y) == 0.0
  {
    assert DistSq(a, p) - DistSq(b, p)
        == 2.0 * ((p.x - (a.x + b.x) / 2.0) * (b.x - a.x) + (p.y - (a.y + b.y) / 2.0) * (b.y - a.y));
  }

  function Dot(u: Point, v: Point): real {
    u.x * v.x + u.y * v.y
  }

  function Cross(u: Point, v: Point): real {
    u.x * v.y - u.y * v.x
  }

  /** A vector orthogonal to two independent vectors is zero. */
  lemma OrthogonalToBoth(w: Point, u: Point, v: Point)
    requires Dot(w, u) == 0.0 && Dot(w, v) == 0.0 && Cross(u, v) != 0.0
    ensures w == Point(0.0, 0.0)
  {
    var det := u.x * v.y - u.y * v.x;
    assert w.x * det == (w.x * u.x + w.y * u.y) * v.y - (w.x * v.x + w.y * v.y) * u.y;
    assert w.y * det == (w.x * v.x + w.y * v.y) * u.x - (w.x * u.x + w.y * u.y) * v.x;
    MulSign(w.x, det, w.x * det);
    MulSign(w.y, det, w.y * det);
  }

  lemma DetOfDisplacements(a: Point, b: Point, c: Point)
    ensures Cross(Displacement(a, b), Displacement(a, c)) == Det(a, b, c)
  {
  }

  /** Two points each as far from a as from b differ by a vector orthogonal to b - a. */
  lemma EquidistantPair(a: Point, b: Point, p: Point, q: Point)
    requires DistSq(a, p) == DistSq(b, p) && DistSq(a, q) == DistSq(b, q)
    ensures Dot(Point(p.x - q.x, p.y - q.y), Displacement(a, b)) == 0.0
  {
    EquidistantOrthogonal(a, b, p);
    EquidistantOrthogonal(a, b, q);
    OffsetDifference(p, q, Point((a.x + b.x) / 2.0, (a.y + b.y) / 2.0), Displacement(a, b));
  }

  lemma OffsetDifference(p: Point, q: Point, m: Point, u: Point)
    requires (p.x - m.x) * u.x + (p.y - m.y) * u.y == 0.0
    requires (q.x - m.x) * u.x + (q.y - m.y) * u.y == 0.0
    ensures (p.x - q.x) * u.x + (p.y - q.y) * u.y == 0.0
  {
    assert (p.x - q.x) * u.x + (p.y - q.y) * u.y
        == ((p.x - m.x) * u.x + (p.y - m.y) * u.y) - ((q.x - m.x) * u.x + (q.y - m.y) * u.y);
  }

  /** Three non-collinear points have at most one point equidistant from all three. */
  lemma EquidistantUnique(a: Point, b: Point, c: Point, p: Point, q: Point)
    requires Det(a, b, c) != 0.0
    requires DistSq(a, p) == DistSq(b, p) && DistSq(a, p) == DistSq(c, p)
    requires DistSq(a, q) == DistSq(b, q) && DistSq(a, q) == DistSq(c, q)
    ensures p == q
  {
    EquidistantPair(a, b, p, q);
    EquidistantPair(a, c, p, q);
    DetOfDisplacements(a, b, c);
    OrthogonalToBoth(Point(p.x - q.x, p.y - q.y), Displacement(a, b), Displacement(a, c));
  }

  /** Three non-collinear points lie on exactly one circle. */
  lemma CircleUnique(a: Point, b: Point, c: Point, c1: Circle, c2: Circle, sqrt: real -> real)
    requires IsSqrt(sqrt) && Det(a, b, c) != 0.0
    requires Circumscribes(c1, {a, b, c}, sqrt) && Circumscribes(c2, {a, b, c}, sqrt)
    ensures c1 == c2
  {
    assert a in {a, b, c} && b in {a, b, c} && c in {a, b, c};
    var o1, o2 := c1.center, c2.center;
    DistSqFacts(a, o1);
    DistSqFacts(b, o1);
    DistSqFacts(c, o1);
    DistSqFacts(a, o2);
    DistSqFacts(b, o2);
    DistSqFacts(c, o2);
    SqrtInjective(sqrt, DistSq(a, o1), DistSq(b, o1));
    SqrtInjective(sqrt, DistSq(a, o1), DistSq(c, o1));
    SqrtInjective(sqrt, DistSq(a, o2), DistSq(b, o2));
    SqrtInjective(sqrt, DistSq(a, o2), DistSq(c, o2));
    EquidistantUnique(a, b, c, o1, o2);
  }

  /**
    On a non-degenerate triangle and with a genuine square root, relabelling
    followed by the construction succeeds and yields the circle through the
    three original vertices.
   */
  lemma RelabelledCircumscribes(a: Point, b: Point, c: Point, sqrt: real -> real)
    requires IsSqrt(sqrt) && Det(a, b, c) != 0.0
    ensures var (a', b', c') := Relabel(a, b, c);
      var r := Circumscribe(a', b', c', sqrt);
      r.Ok? && Circumscribes(r.value, {a, b, c}, sqrt)
  {
    var (a', b', c') := Relabel(a, b, c);
    RelabelClearsVertical(a, b, c);
    CircumscribeDefined(a', b', c', sqrt);
    CenterOnBisectors(a', b', c', sqrt);
    assert {a', b', c'} == {a, b, c} by {
      assert multiset{a', b', c'} == multiset{a, b, c};
    }
  }

  /** Whenever the construction succeeds on vertices in place, its circle passes through all three. */
  lemma ConstructionCircumscribes(a: Point, b: Point, c: Point, sqrt: real -> real)
    requires Circumscribe(a, b, c, sqrt).Ok?
    ensures Circumscribes(Circumscribe(a, b, c, sqrt).value, {a, b, c}, sqrt)
  {
    CenterOnBisectors(a, b, c, sqrt);
  }

  /** Collinearity depends only on the set of vertices. */
  lemma DetOfSameSet(a: Point, b: Point, c: Point, p: Point, q: Point, r: Point)
    requires {a, b, c} == {p, q, r} && Det(a, b, c) != 0.0
    ensures Det(p, q, r) == Det(a, b, c) || Det(p, q, r) == -Det(a, b, c)
  {
    DetRepeated(a, c);
    DetRepeated(b, a);
    DetRepeated(a, b);
    DetSwaps(a, b, c);
    assert p in {a, b, c} && q in {a, b, c} && r in {a, b, c};
    assert a in {p, q, r} && b in {p, q, r} && c in {p, q, r};
    if p == a {
      if q == b { assert r == c; } else { assert q == c && r == b; }
    } else if p == b {
      if q == a { assert r == c; } else { assert q == c && r == a; }
    } else {
      assert p == c;
      if q == a { assert r == b; } else { assert q == b && r == a; }
    }
  }

  /**
    The circle computed for a triangle does not depend on the order in which
    its vertices are given: any listing of the same three non-collinear points
    yields the same centre and radius.
   */
  lemma RelabelledCircleSymmetric(a: Point, b: Point, c: Point, p: Point, q: Point, r: Point, sqrt: real -> real)
    requires IsSqrt(sqrt) && Det(a, b, c) != 0.0 && {a, b, c} == {p, q, r}
    ensures var (a1, b1, c1) := Relabel(a, b, c);
      var (p1, q1, r1) := Relabel(p, q, r);
      Circumscribe(a1, b1, c1, sqrt).Ok? &&
      Circumscribe(a1, b1, c1, sqrt) == Circumscribe(p1, q1, r1, sqrt)
  {
    DetOfSameSet(a, b, c, p, q, r);
    RelabelledCircumscribes(a, b, c, sqrt);
    RelabelledCircumscribes(p, q, r, sqrt);
    var (a1, b1, c1) := Relabel(a, b, c);
    var (p1, q1, r1) := Relabel(p, q, r);
    CircleUnique(a, b, c, Circumscribe(a1, b1, c1, sqrt).value, Circumscribe(p1, q1, r1, sqrt).value, sqrt);
  }

  /**
    The determinant-gated computation of the revisions that test collinearity
    by the signed area: ValueError for a zero determinant, otherwise the
    relabelling followed by the construction.
   */
  function GatedCircle(a: Point, b: Point, c: Point, sqrt: real -> real): (r: Result<Circle>)
    ensures r.Err? ==> r.error == ValueError || r.error == ZeroDivisionError
    ensures r.Err? && r.error == ValueError <==> Det(a, b, c) == 0.0
  {
    if Det(a, b, c) == 0.0 then Err(ValueError)
    else Circumscribe(Relabel(a, b, c).0, Relabel(a, b, c).1, Relabel(a, b, c).2, sqrt)
  }

  /** With a genuine square root the gated computation succeeds exactly on non-collinear input, with the circle through the vertices. */
  lemma GatedCircleCircumscribes(a: Point, b: Point, c: Point, sqrt: real -> real)
    requires IsSqrt(sqrt)
    ensures GatedCircle(a, b, c, sqrt).Ok? <==> Det(a, b, c) != 0.0
    ensures GatedCircle(a, b, c, sqrt).Ok? ==> Circumscribes(GatedCircle(a, b, c, sqrt).value, {a, b, c}, sqrt)
  {
    if Det(a, b, c) != 0.0 {
      RelabelledCircumscribes(a, b, c, sqrt);
    }
  }

  lemma CircumscribesTriple(k: Circle, a: Point, b: Point, c: Point, sqrt: real -> real)
    requires k.radius == sqrt(DistSq(a, k.center)) && k.radius == sqrt(DistSq(b, k.center))
    requires k.radius == sqrt(DistSq(c, k.center))
    ensures Circumscribes(k, {a, b, c}, sqrt)
  {
  }

  /** Two points of a set at different distances from the centre: no circle passes through the whole set. */
  lemma NotConcyclic(k: Circle, p: Point, w: Point, vs: set<Point>, sqrt: real -> real)
    requires IsSqrt(sqrt) && p in vs && w in vs && DistSq(p, k.center) != DistSq(w, k.center)
    ensures !Circumscribes(k, vs, sqrt)
  {
    DistSqFacts(p, k.center);
    DistSqFacts(w, k.center);
    SqrtInjective(sqrt, DistSq(p, k.center), DistSq(w, k.center));
  }

  /** A circle through three points has its centre equally far from each of them. */
  lemma CircumscribedEquidistant(k: Circle, a: Point, b: Point, c: Point, sqrt: real -> real)
    requires IsSqrt(sqrt) && Circumscribes(k, {a, b, c}, sqrt)
    ensures DistSq(a, k.center) == DistSq(b, k.center) && DistSq(a, k.center) == DistSq(c, k.center)
  {
    assert a in {a, b, c} && b in {a, b, c} && c in {a, b, c};
    DistSqFacts(a, k.center);
    DistSqFacts(b, k.center);
    DistSqFacts(c, k.center);
    SqrtInjective(sqrt, DistSq(a, k.center), DistSq(b, k.center));
    SqrtInjective(sqrt, DistSq(a, k.center), DistSq(c, k.center));
  }

  /**
    The only point equally far from (0,0), (2,0) and (0,2) is (1,1), so by
    `CircumscribedEquidistant` every circle through them is centred there.
   */
  lemma ExampleEquidistant(a: Point, b: Point, c: Point, p: Point)
    requires a == Point(0.0, 0.0) && b == Point(2.0, 0.0) && c == Point(0.0, 2.0)
    requires DistSq(a, p) == DistSq(b, p) && DistSq(a, p) == DistSq(c, p)
    ensures p == Point(1.0, 1.0)
  {
    assert DistSq(b, p) == DistSq(a, p) + 4.0 - 4.0 * p.x;
    assert DistSq(c, p) == DistSq(a, p) + 4.0 - 4.0 * p.y;
  }

  /** No circle centred at (1,1) passes through both (0,0) and (4,4). */
  lemma ExampleFar(a: Point, w: Point, k: Circle, vs: set<Point>, sqrt: real -> real)
    requires IsSqrt(sqrt) && a == Point(0.0, 0.0) && w == Point(4.0, 4.0) && k.center == Point(1.0, 1.0)
    requires a in vs && w in vs
    ensures !Circumscribes(k, vs, sqrt)
  {
    assert DistSq(a, k.center) == 2.0 && DistSq(w, k.center) == 18.0;
    NotConcyclic(k, a, w, vs, sqrt);
  }
}
