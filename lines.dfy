/**
  Lines and segments through two coordinates (`core/lines.py`). A line keeps
  its two defining points and a lazily filled slope cache that the setters
  clear; a segment is a line that also caches its length and only reports
  intersections inside both operands' endpoint ranges.
 */
module Lines {
  import opened Common
  import opened MathLib
  import opened Plane
  import Operations

  /** The run `1e-14` that stands in for a zero x displacement when computing a slope. */
  const VerticalRun: real := 0.00000000000001

  /** `slope`: rise over run, with `VerticalRun` as the run of a vertical line. */
  function Slope(a: Point, b: Point): (m: real)
    ensures b.x - a.x != 0.0 ==> m * (b.x - a.x) == b.y - a.y
    ensures b.x - a.x == 0.0 ==> m * VerticalRun == b.y - a.y
  {
    if b.x - a.x == 0.0 then (b.y - a.y) / VerticalRun else (b.y - a.y) / (b.x - a.x)
  }

  /** p lies on the line through `anchor` with slope m, the equation `intersect` solves. */
  predicate OnLine(p: Point, anchor: Point, m: real) {
    p.y == m * (p.x - anchor.x) + anchor.y
  }

  /**
    `Line.intersect` on the defining points (a1, b1) of self and (a2, b2) of
    the argument: `None` for equal slopes, otherwise the point whose x solves
    the two line equations anchored at b1 and b2, with y taken from the first.
   */
  function Intersection(a1: Point, b1: Point, a2: Point, b2: Point): (r: Option<Point>)
    ensures r.None? <==> Slope(a1, b1) == Slope(a2, b2)
  {
    var m1, m2 := Slope(a1, b1), Slope(a2, b2);
    if m1 == m2 then None
    else
      var x := (b2.y - b1.y + m1 * b1.x - m2 * b2.x) / (m1 - m2);
      Some(Point(x, m1 * (x - b1.x) + b1.y))
  }

  /** The intersection point satisfies both line equations. */
  lemma IntersectionOnBoth(a1: Point, b1: Point, a2: Point, b2: Point)
    requires Intersection(a1, b1, a2, b2).Some?
    ensures var p := Intersection(a1, b1, a2, b2).value;
      OnLine(p, b1, Slope(a1, b1)) && OnLine(p, b2, Slope(a2, b2))
  {
    var m1, m2 := Slope(a1, b1), Slope(a2, b2);
    var n := b2.y - b1.y + m1 * b1.x - m2 * b2.x;
    var x := n / (m1 - m2);
    assert x * (m1 - m2) == n;
    assert x * (m1 - m2) == m1 * x - m2 * x;
    assert m1 * (x - b1.x) == m1 * x - m1 * b1.x;
    assert m2 * (x - b2.x) == m2 * x - m2 * b2.x;
  }

  /** Any point on both lines is the one `intersect` returns. */
  lemma IntersectionUnique(a1: Point, b1: Point, a2: Point, b2: Point, q: Point)
    requires Slope(a1, b1) != Slope(a2, b2)
    requires OnLine(q, b1, Slope(a1, b1)) && OnLine(q, b2, Slope(a2, b2))
    ensures Intersection(a1, b1, a2, b2) == Some(q)
  {
    var m1, m2 := Slope(a1, b1), Slope(a2, b2);
    var n := b2.y - b1.y + m1 * b1.x - m2 * b2.x;
    assert q.x * (m1 - m2) == m1 * q.x - m2 * q.x;
    assert m1 * (q.x - b1.x) == m1 * q.x - m1 * b1.x;
    assert m2 * (q.x - b2.x) == m2 * q.x - m2 * b2.x;
    assert q.x * (m1 - m2) == n;
    assert q.x == n / (m1 - m2);
    var p := Intersection(a1, b1, a2, b2).value;
    assert p.x == q.x;
    assert p.y == q.y;
  }

  /** Intersecting l1 with l2 or l2 with l1 gives the same answer. */
  lemma IntersectionSymmetric(a1: Point, b1: Point, a2: Point, b2: Point)
    ensures Intersection(a1, b1, a2, b2) == Intersection(a2, b2, a1, b1)
  {
    if Intersection(a1, b1, a2, b2).Some? {
      var p := Intersection(a1, b1, a2, b2).value;
      IntersectionOnBoth(a1, b1, a2, b2);
      IntersectionUnique(a2, b2, a1, b1, p);
    }
  }

  /** For a non-vertical line, both defining points satisfy its equation. */
  lemma DefiningPointsOnLine(a: Point, b: Point)
    requires b.x != a.x
    ensures OnLine(a, b, Slope(a, b)) && OnLine(b, b, Slope(a, b))
  {
  }

  lemma LineIntersectionExample()
    ensures Intersection(Point(0.0, 0.0), Point(1.0, 1.0), Point(-1.0, -1.0), Point(-2.0, 0.0))
         == Some(Point(-1.0, -1.0))
  {
    assert Slope(Point(0.0, 0.0), Point(1.0, 1.0)) == 1.0;
    assert Slope(Point(-1.0, -1.0), Point(-2.0, 0.0)) == -1.0;
    assert (0.0 - 1.0 + 1.0 * 1.0 - (-1.0) * (-2.0)) / (1.0 - (-1.0)) == -1.0;
  }

  // ---------------------------------------------------------------------------
  // Segments

  /** `lo <= v <= hi or hi <= v <= lo`: v is in the closed range between two endpoints. */
  predicate InRange(v: real, e1: real, e2: real) {
    (e1 <= v <= e2) || (e2 <= v <= e1)
  }

  /** p is in the closed x range and the closed y range of the endpoints a and b. */
  predicate WithinBox(p: Point, a: Point, b: Point) {
    InRange(p.x, a.x, b.x) && InRange(p.y, a.y, b.y)
  }

  /** `Segment.intersect`: the line intersection, kept only inside both operands' boxes. */
  function SegmentIntersection(a1: Point, b1: Point, a2: Point, b2: Point): (r: Option<Point>)
    ensures r.Some? <==>
      Intersection(a1, b1, a2, b2).Some? &&
      WithinBox(Intersection(a1, b1, a2, b2).value, a1, b1) &&
      WithinBox(Intersection(a1, b1, a2, b2).value, a2, b2)
    ensures r.Some? ==> r == Intersection(a1, b1, a2, b2)
  {
    match Intersection(a1, b1, a2, b2)
    case None => None
    case Some(p) => if WithinBox(p, a1, b1) && WithinBox(p, a2, b2) then Some(p) else None
  }

  /** A point in the box of a non-vertical segment and on its line is on the segment itself. */
  lemma BoxedPointOnSegment(a: Point, b: Point, p: Point)
    requires b.x != a.x && WithinBox(p, a, b) && OnLine(p, b, Slope(a, b))
    ensures var t := (p.x - a.x) / (b.x - a.x);
      0.0 <= t <= 1.0 && p == Point(a.x + t * (b.x - a.x), a.y + t * (b.y - a.y))
  {
    var dx := b.x - a.x;
    var m := Slope(a, b);
    var t := (p.x - a.x) / dx;
    assert t * dx == p.x - a.x;
    assert p.y - a.y == m * (p.x - a.x);
    assert m * dx == b.y - a.y;
    assert p.y - a.y == t * (b.y - a.y) by {
      assert m * (p.x - a.x) == m * (t * dx) == t * (m * dx);
    }
    if dx > 0.0 {
      assert a.x <= p.x <= b.x;
      Fraction(p.x - a.x, dx);
    } else {
      assert b.x <= p.x <= a.x;
      Fraction(a.x - p.x, -dx);
      assert t == (a.x - p.x) / (-dx);
    }
    assert p.x == a.x + t * dx && p.y == a.y + t * (b.y - a.y);
  }

  /** A share of a positive whole lies between 0 and 1. */
  lemma Fraction(n: real, d: real)
    requires 0.0 <= n <= d && d > 0.0
    ensures 0.0 <= n / d <= 1.0
  {
    assert n / d * d == n;
  }

  /** A non-vertical segment intersection lies on both segments, between their endpoints. */
  lemma SegmentIntersectionOnSegments(a1: Point, b1: Point, a2: Point, b2: Point)
    requires b1.x != a1.x && b2.x != a2.x
    requires SegmentIntersection(a1, b1, a2, b2).Some?
    ensures var p := SegmentIntersection(a1, b1, a2, b2).value;
      var t1, t2 := (p.x - a1.x) / (b1.x - a1.x), (p.x - a2.x) / (b2.x - a2.x);
      0.0 <= t1 <= 1.0 && p == Point(a1.x + t1 * (b1.x - a1.x), a1.y + t1 * (b1.y - a1.y)) &&
      0.0 <= t2 <= 1.0 && p == Point(a2.x + t2 * (b2.x - a2.x), a2.y + t2 * (b2.y - a2.y))
  {
    var p := SegmentIntersection(a1, b1, a2, b2).value;
    IntersectionOnBoth(a1, b1, a2, b2);
    BoxedPointOnSegment(a1, b1, p);
    BoxedPointOnSegment(a2, b2, p);
  }

  lemma SegmentIntersectionExample()
    ensures SegmentIntersection(Point(0.0, 0.0), Point(1.0, 1.0), Point(0.0, 0.0), Point(-1.0, 1.0))
         == Some(Point(0.0, 0.0))
  {
    assert Slope(Point(0.0, 0.0), Point(1.0, 1.0)) == 1.0;
    assert Slope(Point(0.0, 0.0), Point(-1.0, 1.0)) == -1.0;
  }

  // ---------------------------------------------------------------------------
  // Equality and hashing

  /** `{self.a, self.b} == {value.a, value.b}`: the same endpoints in either order. */
  predicate SameEndpoints(a1: Point, b1: Point, a2: Point, b2: Point) {
    {a1, b1} == {a2, b2}
  }

  lemma SameEndpointsMeaning(a1: Point, b1: Point, a2: Point, b2: Point)
    ensures SameEndpoints(a1, b1, a2, b2)
        <==> (a1 == a2 && b1 == b2) || (a1 == b2 && b1 == a2)
  {
    if SameEndpoints(a1, b1, a2, b2) {
      assert a1 in {a2, b2} && b1 in {a2, b2} && a2 in {a1, b1} && b2 in {a1, b1};
    }
  }

  /**
    `Segment.__hash__`, `hash(hash(a) + hash(b))`, over the element hash
    `hashPoint` of a coordinate and the hash `hashInt` of an integer.
   */
  function SegmentHash(a: Point, b: Point, hashPoint: Point -> int, hashInt: int -> int): int {
    hashInt(hashPoint(a) + hashPoint(b))
  }

  /** Segments that compare equal hash equally, whatever the element hashes are. */
  lemma SegmentHashConsistent(a1: Point, b1: Point, a2: Point, b2: Point,
                              hashPoint: Point -> int, hashInt: int -> int)
    requires SameEndpoints(a1, b1, a2, b2)
    ensures SegmentHash(a1, b1, hashPoint, hashInt) == SegmentHash(a2, b2, hashPoint, hashInt)
  {
    SameEndpointsMeaning(a1, b1, a2, b2);
  }

  // ---------------------------------------------------------------------------
  // The Line object

  class Line {
    var a: Point
    var b: Point
    /** `_properties["slope"]`, filled by `slope` and cleared by the setters. */
    var slopeCache: Option<real>

    ghost predicate Valid()
      reads this
    {
      slopeCache.Some? ==> slopeCache.value == Slope(a, b)
    }

    /** The object `__init__` leaves once both setters have accepted their coordinates. */
    constructor Init(a: Point, b: Point)
      ensures this.a == a && this.b == b && slopeCache == None && Valid()
    {
      this.a, this.b := a, b;
      slopeCache := None;
    }

    /**
      `Line(a, b)`: an empty cache, then the `a` and `b` setters, either of
      which raises TypeError for a non-coordinate.
     */
    static method Create(a: Arg<Point>, b: Arg<Point>) returns (r: Result<Line>)
      ensures r.Err? <==> a.Mistyped? || b.Mistyped?
      ensures r.Err? ==> r.error == TypeError
      ensures r.Ok? ==>
        fresh(r.value) && r.value.a == a.value && r.value.b == b.value &&
        r.value.slopeCache == None && r.value.Valid()
    {
      if a.Mistyped? || b.Mistyped? {
        return Err(TypeError);
      }
      var l := new Line.Init(a.value, b.value);
      return Ok(l);
    }

    /** The `a` setter: TypeError for a non-coordinate, else store and clear the cache. */
    method SetA(value: Arg<Point>) returns (o: Outcome)
      requires Valid()
      modifies this
      ensures value.Mistyped? ==> o == Raised(TypeError) && unchanged(this)
      ensures value.Typed? ==> o == Done && a == value.value && b == old(b) && slopeCache == None
      ensures Valid()
    {
      if value.Mistyped? {
        return Raised(TypeError);
      }
      a := value.value;
      slopeCache := None;
      return Done;
    }

    /** The `b` setter. */
    method SetB(value: Arg<Point>) returns (o: Outcome)
      requires Valid()
      modifies this
      ensures value.Mistyped? ==> o == Raised(TypeError) && unchanged(this)
      ensures value.Typed? ==> o == Done && b == value.value && a == old(a) && slopeCache == None
      ensures Valid()
    {
      if value.Mistyped? {
        return Raised(TypeError);
      }
      b := value.value;
      slopeCache := None;
      return Done;
    }

    /** The `slope` property: compute and cache on first use. */
    method GetSlope() returns (m: real)
      requires Valid()
      modifies this`slopeCache
      ensures m == Slope(a, b) && slopeCache == Some(m) && Valid()
    {
      if slopeCache.None? {
        slopeCache := Some(Slope(a, b));
      }
      m := slopeCache.value;
    }

    /** `intersect` (and `*`): TypeError for a non-line, else `Intersection`; fills both slope caches. */
    method Intersect(line: Arg<Line>) returns (r: Result<Option<Point>>)
      requires Valid() && (line.Typed? ==> line.value.Valid())
      modifies this`slopeCache, if line.Typed? then {line.value} else {}
      ensures line.Mistyped? ==> r == Err(TypeError)
      ensures line.Typed? ==> r == Ok(Intersection(a, b, line.value.a, line.value.b))
      ensures line.Typed? ==> line.value.a == old(line.value.a) && line.value.b == old(line.value.b)
      ensures Valid() && (line.Typed? ==> line.value.Valid())
    {
      if line.Mistyped? {
        return Err(TypeError);
      }
      var other := line.value;
      var m1 := GetSlope();
      var m2 := other.GetSlope();
      if m1 == m2 {
        return Ok(None);
      }
      var x := (other.b.y - b.y + m1 * b.x - m2 * other.b.x) / (m1 - m2);
      var y := m1 * (x - b.x) + b.y;
      assert m1 == Slope(a, b) && m2 == Slope(other.a, other.b);
      assert Intersection(a, b, other.a, other.b).Some?;
      assert Intersection(a, b, other.a, other.b).value.x == x;
      assert Intersection(a, b, other.a, other.b).value.y == y;
      return Ok(Some(Point(x, y)));
    }

    /** `==`: TypeError for a non-line, else equal endpoint sets. */
    function Equals(value: Arg<Line>): (r: Result<bool>)
      reads this, if value.Typed? then {value.value} else {}
      ensures value.Mistyped? <==> r == Err(TypeError)
      ensures value.Typed? ==> r == Ok(SameEndpoints(a, b, value.value.a, value.value.b))
    {
      if value.Mistyped? then Err(TypeError)
      else Ok(SameEndpoints(a, b, value.value.a, value.value.b))
    }

    /** `!=`: the negation of `==`, with the same TypeError. */
    function NotEquals(value: Arg<Line>): (r: Result<bool>)
      reads this, if value.Typed? then {value.value} else {}
      ensures r.Err? <==> Equals(value).Err?
      ensures r.Ok? ==> r.value == !Equals(value).value
    {
      if value.Mistyped? then Err(TypeError)
      else Ok({a, b} != {value.value.a, value.value.b})
    }

    /** `line[index]`: a for 0, b for 1, IndexError otherwise. */
    function GetItem(index: int): (r: Result<Point>)
      reads this
      ensures r.Ok? <==> index == 0 || index == 1
      ensures r.Ok? ==> r.value == Iter()[index]
      ensures r.Err? ==> r.error == IndexError
    {
      if index == 0 then Ok(a) else if index == 1 then Ok(b) else Err(IndexError)
    }

    /** `line[index] = value`: through the validating setters; IndexError for another index. */
    method SetItem(index: int, value: Arg<Point>) returns (o: Outcome)
      requires Valid()
      modifies this
      ensures index != 0 && index != 1 ==> o == Raised(IndexError) && unchanged(this)
      ensures (index == 0 || index == 1) && value.Mistyped? ==>
        o == Raised(TypeError) && unchanged(this)
      ensures (index == 0 || index == 1) && value.Typed? ==>
        o == Done && slopeCache == None && GetItem(index) == Ok(value.value) &&
        GetItem(1 - index) == old(GetItem(1 - index))
      ensures Valid()
    {
      if index == 0 {
        o := SetA(value);
      } else if index == 1 {
        o := SetB(value);
      } else {
        o := Raised(IndexError);
      }
    }

    /** `iter(line)`: a then b. */
    function Iter(): (s: seq<Point>)
      reads this
      ensures s == [a, b]
    {
      [a, b]
    }

    /** `reversed(line)`: the iteration order backwards. */
    function Reversed(): (s: seq<Point>)
      reads this
      ensures |s| == |Iter()| && forall i :: 0 <= i < |s| ==> s[i] == Iter()[|s| - 1 - i]
    {
      [b, a]
    }
  }

  // ---------------------------------------------------------------------------
  // The Segment object

  /**
    A `Segment` is a `Line` (its `line`) whose shared property cache also
    holds the segment length; the setters clear both entries.
   */
  class Segment {
    const line: Line
    /** `_properties["distance"]`. */
    var distanceCache: Option<real>
    const sqrt: real -> real

    ghost predicate Valid()
      reads this, line
    {
      line.Valid() &&
      (distanceCache.Some? ==> distanceCache.value == Operations.Dist(line.a, line.b, sqrt))
    }

    /** The object `__init__` leaves once the inherited setters have accepted both endpoints. */
    constructor Init(a: Point, b: Point, sqrt: real -> real)
      ensures line.a == a && line.b == b && line.slopeCache == None && distanceCache == None
      ensures this.sqrt == sqrt && fresh(line) && Valid()
    {
      line := new Line.Init(a, b);
      distanceCache := None;
      this.sqrt := sqrt;
    }

    /**
      `Segment(a, b)`: `super().__init__(a, b)`, whose setters raise TypeError
      for a non-coordinate endpoint.
     */
    static method Create(a: Arg<Point>, b: Arg<Point>, sqrt: real -> real) returns (r: Result<Segment>)
      ensures r.Err? <==> a.Mistyped? || b.Mistyped?
      ensures r.Err? ==> r.error == TypeError
      ensures r.Ok? ==>
        fresh(r.value) && fresh(r.value.line) && r.value.line.a == a.value && r.value.line.b == b.value &&
        r.value.line.slopeCache == None && r.value.distanceCache == None &&
        r.value.sqrt == sqrt && r.value.Valid()
    {
      if a.Mistyped? || b.Mistyped? {
        return Err(TypeError);
      }
      var g := new Segment.Init(a.value, b.value, sqrt);
      return Ok(g);
    }

    /** The inherited `a` setter, which clears the whole property cache. */
    method SetA(value: Arg<Point>) returns (o: Outcome)
      requires Valid()
      modifies this, line
      ensures value.Mistyped? ==> o == Raised(TypeError) && unchanged(this, line)
      ensures value.Typed? ==>
        o == Done && line.a == value.value && line.b == old(line.b) &&
        line.slopeCache == None && distanceCache == None
      ensures Valid()
    {
      o := line.SetA(value);
      if o == Done {
        distanceCache := None;
      }
    }

    /** The inherited `b` setter. */
    method SetB(value: Arg<Point>) returns (o: Outcome)
      requires Valid()
      modifies this, line
      ensures value.Mistyped? ==> o == Raised(TypeError) && unchanged(this, line)
      ensures value.Typed? ==>
        o == Done && line.b == value.value && line.a == old(line.a) &&
        line.slopeCache == None && distanceCache == None
      ensures Valid()
    {
      o := line.SetB(value);
      if o == Done {
        distanceCache := None;
      }
    }

    /** `Segment.x`: the x displacement from a to b. */
    function X(): (dx: real)
      reads this, line
      ensures line.a.x + dx == line.b.x
    {
      line.b.x - line.a.x
    }

    /** `Segment.y`: the y displacement from a to b. */
    function Y(): (dy: real)
      reads this, line
      ensures line.a.y + dy == line.b.y
    {
      line.b.y - line.a.y
    }

    /** The `distance` property: computed once, then served from the cache. */
    method Distance() returns (d: real)
      requires Valid()
      modifies this`distanceCache
      ensures d == Operations.Dist(line.a, line.b, sqrt) && distanceCache == Some(d) && Valid()
    {
      if distanceCache.None? {
        distanceCache := Some(Operations.Dist(line.a, line.b, sqrt));
      }
      d := distanceCache.value;
    }

    /** `Segment.intersect`: the line intersection, if it lies inside both endpoint boxes. */
    method Intersect(other: Arg<Line>) returns (r: Result<Option<Point>>)
      requires Valid() && (other.Typed? ==> other.value.Valid())
      modifies line`slopeCache, if other.Typed? then {other.value} else {}
      ensures other.Mistyped? ==> r == Err(TypeError)
      ensures other.Typed? ==>
        r == Ok(SegmentIntersection(line.a, line.b, other.value.a, other.value.b))
      ensures other.Typed? ==> other.value.a == old(other.value.a) && other.value.b == old(other.value.b)
      ensures line.a == old(line.a) && line.b == old(line.b)
      ensures Valid() && (other.Typed? ==> other.value.Valid())
    {
      r := line.Intersect(other);
      if r.Ok? && r.value.Some? {
        var p := r.value.value;
        var o := other.value;
        if !(WithinBox(p, line.a, line.b) && WithinBox(p, o.a, o.b)) {
          r := Ok(None);
        }
      }
    }

    /** `==`: TypeError unless the argument is a segment, else equal endpoint sets. */
    function Equals(value: Arg<Segment>): (r: Result<bool>)
      reads this, line, if value.Typed? then {value.value, value.value.line} else {}
      ensures value.Mistyped? <==> r == Err(TypeError)
      ensures value.Typed? ==>
        r == Ok(SameEndpoints(line.a, line.b, value.value.line.a, value.value.line.b))
    {
      if value.Mistyped? then Err(TypeError)
      else Ok(SameEndpoints(line.a, line.b, value.value.line.a, value.value.line.b))
    }

    /** `!=`: accepts any line (a segment is passed as its `line`), unlike `==`. */
    function NotEquals(value: Arg<Line>): (r: Result<bool>)
      reads this, line, if value.Typed? then {value.value} else {}
      ensures value.Mistyped? <==> r == Err(TypeError)
      ensures value.Typed? ==> r == Ok(!SameEndpoints(line.a, line.b, value.value.a, value.value.b))
    {
      if value.Mistyped? then Err(TypeError)
      else Ok({line.a, line.b} != {value.value.a, value.value.b})
    }

    /** `__hash__`: symmetric in the endpoints, hence equal for equal segments. */
    function Hash(hashPoint: Point -> int, hashInt: int -> int): (h: int)
      reads this, line
      ensures h == SegmentHash(line.b, line.a, hashPoint, hashInt)
    {
      hashInt(hashPoint(line.a) + hashPoint(line.b))
    }
  }
}
