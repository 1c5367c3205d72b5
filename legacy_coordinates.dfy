/**
  The earlier coordinate module, `bidimensional/coordinates.py`. Its
  `Coordinate` is the core value type of `core/coordinates.py` with two
  differences: the arithmetic operators also accept a tuple, list or set of
  exactly two numbers, converted to a coordinate first, and the ordering
  operators compare both components. The same file holds an early `Line`
  whose slope has no vertical guard and whose equality is ordered.

  Equality, truthiness, indexing, iteration, the unary operators and the
  mutable object are the same code as in the core module and are used from
  there (`CoreCoordinates`).
 */
module LegacyCoordinates {
  import opened Common
  import opened Plane
  import CoreCoordinates
  import Lines

  /** What an arithmetic operator may receive. */
  datatype Operand =
    | Coord(point: Point)
      /** A tuple, list or set, with its numbers in iteration order. */
    | Sequential(items: seq<real>)
    | Other

  /**
    The conversion every arithmetic operator performs first: a coordinate is
    kept, a two-element sequence becomes `Coordinate(*value)`, and anything
    else is left for the `isinstance` check to reject.
   */
  function Coerce(v: Operand): (a: Arg<Point>)
    ensures a.Typed? <==> v.Coord? || (v.Sequential? && |v.items| == 2)
    ensures v.Coord? ==> a == Typed(v.point)
    ensures v.Sequential? && |v.items| == 2 ==> a == Typed(Point(v.items[0], v.items[1]))
  {
    match v
    case Coord(p) => Typed(p)
    case Sequential(items) => if |items| == 2 then Typed(Point(items[0], items[1])) else Mistyped
    case Other => Mistyped
  }

  /** `+`: the core sum, after the conversion. */
  function Add(p: Point, v: Operand): (r: Result<Point>)
  {
    CoreCoordinates.Add(p, Coerce(v))
  }

  /** `-`: the core difference, after the conversion. */
  function Sub(p: Point, v: Operand): (r: Result<Point>)
  {
    CoreCoordinates.Sub(p, Coerce(v))
  }

  /** `*`: the core product, after the conversion. */
  function Mul(p: Point, v: Operand): (r: Result<Point>)
  {
    CoreCoordinates.Mul(p, Coerce(v))
  }

  /** `/`: the same multiplication by (v.x, -v.y) as the core module, after the conversion. */
  function DivAsWritten(p: Point, v: Operand): (r: Result<Point>)
  {
    CoreCoordinates.DivAsWritten(p, Coerce(v))
  }

  /** `//`: the floor of `/` as written, after the conversion. */
  function FloorDivAsWritten(p: Point, v: Operand): (r: Result<Point>)
  {
    CoreCoordinates.FloorDivAsWritten(p, Coerce(v))
  }

  /** `%`: `(self / v - self // v) * v` on the operators as written, after the conversion. */
  function ModAsWritten(p: Point, v: Operand): (r: Result<Point>)
  {
    CoreCoordinates.ModAsWritten(p, Coerce(v))
  }

  /**
    A two-element sequence behaves exactly as the coordinate built from it,
    under every arithmetic operator.
   */
  lemma SequenceActsAsCoordinate(p: Point, items: seq<real>)
    requires |items| == 2
    ensures var c := Coord(Point(items[0], items[1]));
      var s := Sequential(items);
      Add(p, s) == Add(p, c) && Sub(p, s) == Sub(p, c) && Mul(p, s) == Mul(p, c) &&
      DivAsWritten(p, s) == DivAsWritten(p, c) &&
      FloorDivAsWritten(p, s) == FloorDivAsWritten(p, c) &&
      ModAsWritten(p, s) == ModAsWritten(p, c)
  {
  }

  /** Any other operand, including a sequence of another length, raises TypeError. */
  lemma OtherOperandsRejected(p: Point, v: Operand)
    requires v.Other? || (v.Sequential? && |v.items| != 2)
    ensures Add(p, v) == Err(TypeError) && Sub(p, v) == Err(TypeError)
    ensures Mul(p, v) == Err(TypeError) && DivAsWritten(p, v) == Err(TypeError)
    ensures FloorDivAsWritten(p, v) == Err(TypeError) && ModAsWritten(p, v) == Err(TypeError)
  {
  }

  /** (1, 1) / (1, 2) given as a tuple is (1, -2): the same multiplication as the core `/`. */
  lemma TupleDivExample()
    ensures DivAsWritten(Point(1.0, 1.0), Sequential([1.0, 2.0])) == Ok(Point(1.0, -2.0))
    ensures CoreCoordinates.TrueDiv(Point(1.0, 1.0), Coerce(Sequential([1.0, 2.0]))) == Ok(Point(1.0, 0.5))
  {
  }

  // ---------------------------------------------------------------------------
  // Ordering

  /** `<`: TypeError for a non-coordinate, else true when every component is smaller. */
  function Lt(p: Point, v: Arg<Point>): (r: Result<bool>)
    ensures r.Err? <==> v.Mistyped?
    ensures r.Err? ==> r.error == TypeError
    ensures r.Ok? ==> (r.value <==> forall i :: 0 <= i < 2 ==>
      CoreCoordinates.Iter(p)[i] < CoreCoordinates.Iter(v.value)[i])
  {
    if v.Mistyped? then Err(TypeError)
    else
      var ps, vs := CoreCoordinates.Iter(p), CoreCoordinates.Iter(v.value);
      assert ps[0] == p.x && ps[1] == p.y && vs[0] == v.value.x && vs[1] == v.value.y;
      Ok(p.x < v.value.x && p.y < v.value.y)
  }

  /** `<=`: TypeError for a non-coordinate, else true when no component is larger. */
  function Le(p: Point, v: Arg<Point>): (r: Result<bool>)
    ensures r.Err? <==> v.Mistyped?
    ensures r.Err? ==> r.error == TypeError
    ensures r.Ok? ==> (r.value <==> forall i :: 0 <= i < 2 ==>
      CoreCoordinates.Iter(p)[i] <= CoreCoordinates.Iter(v.value)[i])
  {
    if v.Mistyped? then Err(TypeError)
    else
      var ps, vs := CoreCoordinates.Iter(p), CoreCoordinates.Iter(v.value);
      assert ps[0] == p.x && ps[1] == p.y && vs[0] == v.value.x && vs[1] == v.value.y;
      Ok(p.x <= v.value.x && p.y <= v.value.y)
  }

  /** `>`: TypeError for a non-coordinate, else true when every component is larger. */
  function Gt(p: Point, v: Arg<Point>): (r: Result<bool>)
    ensures r.Err? <==> v.Mistyped?
    ensures r.Ok? ==> r == Lt(v.value, Typed(p))
  {
    if v.Mistyped? then Err(TypeError) else Ok(p.x > v.value.x && p.y > v.value.y)
  }

  /** `>=`: TypeError for a non-coordinate, else true when no component is smaller. */
  function Ge(p: Point, v: Arg<Point>): (r: Result<bool>)
    ensures r.Err? <==> v.Mistyped?
    ensures r.Ok? ==> r == Le(v.value, Typed(p))
  {
    if v.Mistyped? then Err(TypeError) else Ok(p.x >= v.value.x && p.y >= v.value.y)
  }

  /**
    `<=` is a partial order (reflexive, antisymmetric, transitive) that
    contains `<`, and `<` is irreflexive.
   */
  lemma ComponentwiseOrder(p: Point, q: Point, s: Point)
    ensures Le(p, Typed(p)) == Ok(true) && Lt(p, Typed(p)) == Ok(false)
    ensures Lt(p, Typed(q)) == Ok(true) ==> Le(p, Typed(q)) == Ok(true)
    ensures Le(p, Typed(q)) == Ok(true) && Le(q, Typed(p)) == Ok(true) ==> p == q
    ensures Le(p, Typed(q)) == Ok(true) && Le(q, Typed(s)) == Ok(true) ==> Le(p, Typed(s)) == Ok(true)
  {
  }

  /** The order is not total: (0, 1) and (1, 0) are incomparable. */
  lemma OrderNotTotal()
    ensures Le(Point(0.0, 1.0), Typed(Point(1.0, 0.0))) == Ok(false)
    ensures Ge(Point(0.0, 1.0), Typed(Point(1.0, 0.0))) == Ok(false)
  {
  }

  // ---------------------------------------------------------------------------
  // The early Line

  /** `Line.slope`: rise over run, ZeroDivisionError for a vertical line. */
  function Slope(a: Point, b: Point): (r: Result<real>)
    ensures r.Err? <==> b.x == a.x
    ensures r.Err? ==> r.error == ZeroDivisionError
    ensures r.Ok? ==> r.value * (b.x - a.x) == b.y - a.y
  {
    if b.x - a.x == 0.0 then Err(ZeroDivisionError) else Ok((b.y - a.y) / (b.x - a.x))
  }

  /**
    `Line.intersect` on the defining points (a1, b1) of self and (a2, b2) of
    the argument: the slope error of either line, `None` for equal slopes,
    otherwise the point on both lines anchored at b1 and b2.
   */
  function Intersection(a1: Point, b1: Point, a2: Point, b2: Point): (r: Result<Option<Point>>)
    ensures r.Err? <==> b1.x == a1.x || b2.x == a2.x
    ensures r.Err? ==> r.error == ZeroDivisionError
    ensures r.Ok? ==> (r.value.None? <==> Slope(a1, b1) == Slope(a2, b2))
  {
    match Slope(a1, b1)
    case Err(e) => Err(e)
    case Ok(m1) =>
      match Slope(a2, b2)
      case Err(e) => Err(e)
      case Ok(m2) =>
        if m1 == m2 then Ok(None)
        else
          var x := (b2.y - b1.y + m1 * b1.x - m2 * b2.x) / (m1 - m2);
          Ok(Some(Point(x, m1 * (x - b1.x) + b1.y)))
  }

  /** The crossing point `Intersection` computes from two different slopes. */
  lemma CrossingPoint(a1: Point, b1: Point, a2: Point, b2: Point, m1: real, m2: real, x: real)
    requires Slope(a1, b1) == Ok(m1) && Slope(a2, b2) == Ok(m2) && m1 != m2
    requires x == (b2.y - b1.y + m1 * b1.x - m2 * b2.x) / (m1 - m2)
    ensures Intersection(a1, b1, a2, b2) == Ok(Some(Point(x, m1 * (x - b1.x) + b1.y)))
  {
    var r := Intersection(a1, b1, a2, b2);
    assert r.Ok? && r.value.Some?;
    assert r.value.value == Point(x, m1 * (x - b1.x) + b1.y);
    assert r.value == Some(Point(x, m1 * (x - b1.x) + b1.y));
  }

  /**
    For two non-vertical lines the early `intersect` agrees with the one in
    `core/lines.py`, so its point lies on both lines.
   */
  lemma IntersectionAgreesWithCore(a1: Point, b1: Point, a2: Point, b2: Point)
    requires b1.x != a1.x && b2.x != a2.x
    ensures Intersection(a1, b1, a2, b2) == Ok(Lines.Intersection(a1, b1, a2, b2))
    ensures Intersection(a1, b1, a2, b2).value.Some? ==>
      var p := Intersection(a1, b1, a2, b2).value.value;
      Lines.OnLine(p, b1, Slope(a1, b1).value) && Lines.OnLine(p, b2, Slope(a2, b2).value)
  {
    assert Slope(a1, b1) == Ok(Lines.Slope(a1, b1));
    assert Slope(a2, b2) == Ok(Lines.Slope(a2, b2));
    if Lines.Intersection(a1, b1, a2, b2).Some? {
      var p := Lines.Intersection(a1, b1, a2, b2).value;
      var q := Intersection(a1, b1, a2, b2).value.value;
      assert p.x == q.x && p.y == q.y;
      Lines.IntersectionOnBoth(a1, b1, a2, b2);
    }
  }

  /** A vertical line has no slope here, where `core/lines.py` substitutes a tiny run. */
  lemma VerticalLineRaises()
    ensures Slope(Point(1.0, 0.0), Point(1.0, 2.0)) == Err(ZeroDivisionError)
    ensures Lines.Slope(Point(1.0, 0.0), Point(1.0, 2.0)) == 2.0 / Lines.VerticalRun
  {
  }

  class Line {
    var a: Point
    var b: Point
    /** `_properties["slope"]`, filled by `slope` and cleared by the setters. */
    var slopeCache: Option<real>

    ghost predicate Valid()
      reads this
    {
      slopeCache.Some? ==> Slope(a, b) == Ok(slopeCache.value)
    }

    /** The object `__init__` leaves once both setters have accepted their coordinates. */
    constructor Init(a: Point, b: Point)
      ensures this.a == a && this.b == b && slopeCache == None && Valid()
    {
      this.a, this.b := a, b;
      slopeCache := None;
    }

    /**
      `Line(a, b)`: an empty cache, then the `a` and `b` setters, either of
      which raises TypeError for a non-coordinate.
     */
    static method Create(a: Arg<Point>, b: Arg<Point>) returns (r: Result<Line>)
      ensures r.Err? <==> a.Mistyped? || b.Mistyped?
      ensures r.Err? ==> r.error == TypeError
      ensures r.Ok? ==>
        fresh(r.value) && r.value.a == a.value && r.value.b == b.value &&
        r.value.slopeCache == None && r.value.Valid()
    {
      if a.Mistyped? || b.Mistyped? {
        return Err(TypeError);
      }
      var l := new Line.Init(a.value, b.value);
      return Ok(l);
    }

    /** The `a` setter: TypeError for a non-coordinate, else store and clear the cache. */
    method SetA(value: Arg<Point>) returns (o: Outcome)
      requires Valid()
      modifies this
      ensures value.Mistyped? ==> o == Raised(TypeError) && unchanged(this)
      ensures value.Typed? ==> o == Done && a == value.value && b == old(b) && slopeCache == None
      ensures Valid()
    {
      if value.Mistyped? {
        return Raised(TypeError);
      }
      a := value.value;
      slopeCache := None;
      return Done;
    }

    /** The `b` setter: TypeError for a non-coordinate, else store and clear the cache. */
    method SetB(value: Arg<Point>) returns (o: Outcome)
      requires Valid()
      modifies this
      ensures value.Mistyped? ==> o == Raised(TypeError) && unchanged(this)
      ensures value.Typed? ==> o == Done && b == value.value && a == old(a) && slopeCache == None
      ensures Valid()
    {
      if value.Mistyped? {
        return Raised(TypeError);
      }
      b := value.value;
      slopeCache := None;
      return Done;
    }

    /**
      The `slope` property: the cached value if there is one, otherwise
      compute it, cache it and return it; a vertical line raises and caches
      nothing.
     */
    method GetSlope() returns (r: Result<real>)
      requires Valid()
      modifies this`slopeCache
      ensures r == Slope(a, b) && Valid()
      ensures r.Ok? ==> slopeCache == Some(r.value)
      ensures r.Err? ==> slopeCache == old(slopeCache)
    {
      if slopeCache.None? {
        var m := Slope(a, b);
        if m.Err? {
          return m;
        }
        slopeCache := Some(m.value);
      }
      r := Ok(slopeCache.value);
    }

    /** `intersect` (and `*`): TypeError for a non-line, else `Intersection`. */
    method Intersect(line: Arg<Line>) returns (r: Result<Option<Point>>)
      requires Valid() && (line.Typed? ==> line.value.Valid())
      modifies this`slopeCache, if line.Typed? then {line.value} else {}
      ensures line.Mistyped? ==> r == Err(TypeError)
      ensures line.Typed? ==> r == Intersection(a, b, line.value.a, line.value.b)
      ensures line.Typed? ==> line.value.a == old(line.value.a) && line.value.b == old(line.value.b)
      ensures Valid() && (line.Typed? ==> line.value.Valid())
    {
      if line.Mistyped? {
        return Err(TypeError);
      }
      var other := line.value;
      var s1 := GetSlope();
      if s1.Err? {
        return Err(s1.error);
      }
      var s2 := other.GetSlope();
      if s2.Err? {
        return Err(s2.error);
      }
      var m1, m2 := s1.value, s2.value;
      if m1 == m2 {
        return Ok(None);
      }
      var a1, b1, a2, b2 := a, b, other.a, other.b;
      var x := (b2.y - b1.y + m1 * b1.x - m2 * b2.x) / (m1 - m2);
      CrossingPoint(a1, b1, a2, b2, m1, m2, x);
      r := Ok(Some(Point(x, m1 * (x - b1.x) + b1.y)));
    }

    /** `==`: TypeError for a non-line, else the same a and the same b, in order. */
    function Equals(value: Arg<Line>): (r: Result<bool>)
      reads this, if value.Typed? then {value.value} else {}
      ensures value.Mistyped? <==> r == Err(TypeError)
      ensures value.Typed? ==> r == Ok(Iter() == value.value.Iter())
    {
      if value.Mistyped? then Err(TypeError)
      else Ok(a == value.value.a && b == value.value.b)
    }

    /** `!=`: the negation of `==`, with the same TypeError. */
    function NotEquals(value: Arg<Line>): (r: Result<bool>)
      reads this, if value.Typed? then {value.value} else {}
      ensures r.Err? <==> Equals(value).Err?
      ensures r.Ok? ==> r.value == !Equals(value).value
    {
      if value.Mistyped? then Err(TypeError)
      else Ok(a != value.value.a || b != value.value.b)
    }

    /** `line[index]`: a for 0, b for 1, IndexError otherwise. */
    function GetItem(index: int): (r: Result<Point>)
      reads this
      ensures r.Ok? <==> index == 0 || index == 1
      ensures r.Ok? ==> r.value == Iter()[index]
      ensures r.Err? ==> r.error == IndexError
    {
      if index == 0 then Ok(a) else if index == 1 then Ok(b) else Err(IndexError)
    }

    /** `line[index] = value`: through the validating setters; IndexError for another index. */
    method SetItem(index: int, value: Arg<Point>) returns (o: Outcome)
      requires Valid()
      modifies this
      ensures index != 0 && index != 1 ==> o == Raised(IndexError) && unchanged(this)
      ensures (index == 0 || index == 1) && value.Mistyped? ==>
        o == Raised(TypeError) && unchanged(this)
      ensures (index == 0 || index == 1) && value.Typed? ==>
        o == Done && slopeCache == None && GetItem(index) == Ok(value.value) &&
        GetItem(1 - index) == old(GetItem(1 - index))
      ensures Valid()
    {
      if index == 0 {
        o := SetA(value);
      } else if index == 1 {
        o := SetB(value);
      } else {
        o := Raised(IndexError);
      }
    }

    /** `iter(line)`: a then b. */
    function Iter(): seq<Point>
      reads this
    {
      [a, b]
    }

    /** `reversed(line)`: the iteration order backwards. */
    function Reversed(): (s: seq<Point>)
      reads this
      ensures |s| == |Iter()| && forall i :: 0 <= i < |s| ==> s[i] == Iter()[|s| - 1 - i]
    {
      [b, a]
    }
  }

  /**
    Equality of the early line is ordered: a line and the same line with its
    points given the other way round are unequal, while `core/lines.py`
    treats them as the same endpoints.
   */
  method OrderedEquality(p: Point, q: Point) returns (same: Result<bool>)
    requires p != q
    ensures same == Ok(false)
    ensures Lines.SameEndpoints(p, q, q, p)
  {
    var l1 := new Line.Init(p, q);
    var l2 := new Line.Init(q, p);
    same := l1.Equals(Typed(l2));
  }
}
