/**
  Plane operations on coordinates (`core/operations.py`): distance, midpoint,
  the shoelace area of a polygon and the pairwise "perimeter". Every function
  but `area` first checks that its arguments are coordinates.
 */
module Operations {
  import opened Common
  import opened MathLib
  import opened Plane

  /** The Euclidean distance between two known coordinates. */
  function Dist(a: Point, b: Point, sqrt: real -> real): real {
    sqrt(DistSq(a, b))
  }

  /** `distance(a, b)`: TypeError unless both arguments are coordinates. */
  function Distance(a: Arg<Point>, b: Arg<Point>, sqrt: real -> real): (r: Result<real>)
    ensures r.Err? <==> a.Mistyped? || b.Mistyped?
    ensures r.Err? ==> r.error == TypeError
    ensures r.Ok? ==> r.value == Dist(a.value, b.value, sqrt)
  {
    if a.Mistyped? || b.Mistyped? then Err(TypeError)
    else Ok(Dist(a.value, b.value, sqrt))
  }

  /** Distance is symmetric, never negative, and zero exactly between equal points. */
  lemma DistanceFacts(a: Point, b: Point, sqrt: real -> real)
    requires IsSqrt(sqrt)
    ensures Distance(Typed(a), Typed(b), sqrt) == Distance(Typed(b), Typed(a), sqrt)
    ensures Dist(a, b, sqrt) >= 0.0
    ensures Dist(a, b, sqrt) == 0.0 <==> a == b
  {
    DistSqFacts(a, b);
    SqrtFacts(sqrt, DistSq(a, b));
  }

  /** `midpoint(a, b)`: TypeError unless both arguments are coordinates. */
  function Midpoint(a: Arg<Point>, b: Arg<Point>): (r: Result<Point>)
    ensures r.Err? <==> a.Mistyped? || b.Mistyped?
    ensures r.Err? ==> r.error == TypeError
  {
    if a.Mistyped? || b.Mistyped? then Err(TypeError)
    else Ok(Point((a.value.x + b.value.x) / 2.0, (a.value.y + b.value.y) / 2.0))
  }

  /** The midpoint is the point m with m - a == b - m; in particular it is as far from a as from b. */
  lemma MidpointHalves(a: Point, b: Point)
    ensures var m := Midpoint(Typed(a), Typed(b)).value;
      m.x - a.x == b.x - m.x && m.y - a.y == b.y - m.y && DistSq(a, m) == DistSq(b, m)
  {
    var m := Midpoint(Typed(a), Typed(b)).value;
    assert a.x - m.x == -(b.x - m.x) && a.y - m.y == -(b.y - m.y);
  }

  // ---------------------------------------------------------------------------
  // Shoelace area

  /** Python's `xs[j]` for `-len(xs) <= j < len(xs)`. */
  function PyIndex(n: nat, j: int): (k: nat)
    requires -(n as int) <= j < n
    ensures k < n && (k == j || k == n + j)
  {
    if j < 0 then n + j else j
  }

  /** One term `(x[j] + x[i]) * (y[j] - y[i])` of the sum, for the edge from p to q. */
  function Term(p: Point, q: Point): real {
    (p.x + q.x) * (p.y - q.y)
  }

  /** The sum of the first k terms, each edge running from the previous vertex (cyclically) to vertex i. */
  function ShoelacePrefix(vs: seq<Point>, k: nat): real
    requires k <= |vs|
  {
    if k == 0 then 0.0
    else ShoelacePrefix(vs, k - 1) + Term(vs[PyIndex(|vs|, k - 2)], vs[k - 1])
  }

  /** The full sum over all edges (last, first), (first, second), ... */
  function Shoelace(vs: seq<Point>): real {
    ShoelacePrefix(vs, |vs|)
  }

  /**
    `area(*vertices)`: accumulate the shoelace sum with a trailing index j that
    starts at -1 (the last vertex) and follows i, then return `abs(area / 2)`.
   */
  method Area(vertices: seq<Point>) returns (area: real)
    ensures area == Abs(Shoelace(vertices) / 2.0)
    ensures area >= 0.0
  {
    var x := seq(|vertices|, k requires 0 <= k < |vertices| => vertices[k].x);
    var y := seq(|vertices|, k requires 0 <= k < |vertices| => vertices[k].y);
    var sum := 0.0;
    var j := -1;
    for i := 0 to |vertices|
      invariant j == i - 1
      invariant sum == ShoelacePrefix(vertices, i)
    {
      var jj := PyIndex(|vertices|, j);
      sum := sum + (x[jj] + x[i]) * (y[jj] - y[i]);
      j := i;
    }
    area := Abs(sum / 2.0);
  }

  /** On a triangle the shoelace sum is minus the signed-area determinant, so the area is |Det| / 2. */
  lemma ShoelaceTriangle(a: Point, b: Point, c: Point)
    ensures Shoelace([a, b, c]) == -Det(a, b, c)
    ensures Abs(Shoelace([a, b, c]) / 2.0) == Abs(Det(a, b, c)) / 2.0
  {
    var vs := [a, b, c];
    assert ShoelacePrefix(vs, 1) == Term(c, a);
    assert ShoelacePrefix(vs, 2) == Term(c, a) + Term(a, b);
    assert Shoelace(vs) == Term(c, a) + Term(a, b) + Term(b, c);
  }

  /** Listing the vertices backwards negates the sum, so the area does not depend on orientation. */
  lemma ShoelaceReversedTriangle(a: Point, b: Point, c: Point)
    ensures Shoelace([c, b, a]) == -Shoelace([a, b, c])
  {
    ShoelaceTriangle(a, b, c);
    ShoelaceTriangle(c, b, a);
  }

  lemma ShoelaceUnitExample()
    ensures Abs(Shoelace([Point(0.0, 0.0), Point(1.0, 1.0), Point(1.0, 0.0)]) / 2.0) == 0.5
  {
    ShoelaceTriangle(Point(0.0, 0.0), Point(1.0, 1.0), Point(1.0, 0.0));
  }

  // ---------------------------------------------------------------------------
  // Pairwise "perimeter"

  /** The distances from p to each of qs, in order. */
  function SumFrom(p: Point, qs: seq<Point>, sqrt: real -> real): real {
    if |qs| == 0 then 0.0 else Dist(p, qs[0], sqrt) + SumFrom(p, qs[1..], sqrt)
  }

  /** The sum of distances over `combinations(ps, 2)`: every unordered pair once. */
  function PairSum(ps: seq<Point>, sqrt: real -> real): real {
    if |ps| == 0 then 0.0 else SumFrom(ps[0], ps[1..], sqrt) + PairSum(ps[1..], sqrt)
  }

  predicate AllTyped(cs: seq<Arg<Point>>) {
    forall i :: 0 <= i < |cs| ==> cs[i].Typed?
  }

  function Values(cs: seq<Arg<Point>>): (ps: seq<Point>)
    requires AllTyped(cs)
    ensures |ps| == |cs| && forall i :: 0 <= i < |cs| ==> ps[i] == cs[i].value
  {
    if |cs| == 0 then [] else [cs[0].value] + Values(cs[1..])
  }

  /** `perimeter(*coordinates)`: TypeError unless all are coordinates, else the pairwise distance sum. */
  function Perimeter(cs: seq<Arg<Point>>, sqrt: real -> real): (r: Result<real>)
    ensures r.Err? <==> exists i :: 0 <= i < |cs| && cs[i].Mistyped?
    ensures r.Err? ==> r.error == TypeError
  {
    if AllTyped(cs) then Ok(PairSum(Values(cs), sqrt)) else Err(TypeError)
  }

  /** For three coordinates the pairwise sum is the sum of the triangle's sides. */
  lemma PerimeterOfTriangle(a: Point, b: Point, c: Point, sqrt: real -> real)
    ensures Perimeter([Typed(a), Typed(b), Typed(c)], sqrt)
         == Ok(Dist(a, b, sqrt) + Dist(a, c, sqrt) + Dist(b, c, sqrt))
  {
    var cs := [Typed(a), Typed(b), Typed(c)];
    assert Values(cs) == [a, b, c];
    assert [a, b, c][1..] == [b, c] && [b, c][1..] == [c];
    assert SumFrom(a, [b, c], sqrt) == Dist(a, b, sqrt) + Dist(a, c, sqrt) by {
      assert SumFrom(a, [c], sqrt) == Dist(a, c, sqrt) + SumFrom(a, [], sqrt);
    }
    assert PairSum([b, c], sqrt) == Dist(b, c, sqrt) by {
      assert SumFrom(b, [c], sqrt) == Dist(b, c, sqrt) + SumFrom(b, [], sqrt);
      assert PairSum([c], sqrt) == SumFrom(c, [], sqrt) + PairSum([], sqrt);
    }
  }

  /**
    For four coordinates the pairwise sum is the polygon's side sum plus both
    diagonals, so it is not the perimeter of a quadrilateral.
   */
  lemma PerimeterOfQuadrilateral(a: Point, b: Point, c: Point, d: Point, sqrt: real -> real)
    ensures PairSum([a, b, c, d], sqrt)
         == (Dist(a, b, sqrt) + Dist(b, c, sqrt) + Dist(c, d, sqrt) + Dist(a, d, sqrt))
          + (Dist(a, c, sqrt) + Dist(b, d, sqrt))
  {
    assert [a, b, c, d][1..] == [b, c, d] && [b, c, d][1..] == [c, d] && [c, d][1..] == [d];
    assert SumFrom(a, [b, c, d], sqrt) == Dist(a, b, sqrt) + Dist(a, c, sqrt) + Dist(a, d, sqrt) by {
      assert SumFrom(a, [d], sqrt) == Dist(a, d, sqrt) + SumFrom(a, [], sqrt);
    }
    assert SumFrom(b, [c, d], sqrt) == Dist(b, c, sqrt) + Dist(b, d, sqrt) by {
      assert SumFrom(b, [d], sqrt) == Dist(b, d, sqrt) + SumFrom(b, [], sqrt);
    }
    assert PairSum([c, d], sqrt) == Dist(c, d, sqrt) by {
      assert SumFrom(c, [d], sqrt) == Dist(c, d, sqrt) + SumFrom(c, [], sqrt);
      assert PairSum([d], sqrt) == SumFrom(d, [], sqrt) + PairSum([], sqrt);
    }
  }
}
