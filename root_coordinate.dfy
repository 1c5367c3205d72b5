/**
  `Coordinate2D` of `coordinate.py`: the same pair of numbers, but `*`,
  `/`, `//` and `%` take a scalar applied to both components, the stored
  values are not converted to float, and `__setitem__` goes through the
  validating setters.

  Sum, difference, equality, truthiness, indexing and iteration are the same
  code as in `core/coordinates.py` (`CoreCoordinates`), and the ordering
  operators the same as in `coordinates.py` (`LegacyCoordinates`).
 */
module RootCoordinate {
  import opened Common
  import opened MathLib
  import opened Plane
  import CoreCoordinates

  /** `*` by a scalar: both components scaled; TypeError for a non-number. */
  function Scale(p: Point, s: Arg<real>): (r: Result<Point>)
    ensures r.Err? <==> s.Mistyped?
    ensures r.Err? ==> r.error == TypeError
  {
    if s.Mistyped? then Err(TypeError) else Ok(Point(p.x * s.value, p.y * s.value))
  }

  /** `/` by a scalar: TypeError for a non-number, ZeroDivisionError for 0. */
  function Div(p: Point, s: Arg<real>): (r: Result<Point>)
    ensures r.Err? <==> s.Mistyped? || s.value == 0.0
    ensures r.Err? ==> r.error == (if s.Mistyped? then TypeError else ZeroDivisionError)
  {
    if s.Mistyped? then Err(TypeError)
    else if s.value == 0.0 then Err(ZeroDivisionError)
    else Ok(Point(p.x / s.value, p.y / s.value))
  }

  /** Dividing undoes scaling and scaling undoes dividing, for a non-zero scalar. */
  lemma ScaleDivInverse(p: Point, s: real)
    requires s != 0.0
    ensures Div(Scale(p, Typed(s)).value, Typed(s)) == Ok(p)
    ensures Scale(Div(p, Typed(s)).value, Typed(s)) == Ok(p)
  {
    var m := Scale(p, Typed(s)).value;
    assert m.x == p.x * s && m.y == p.y * s;
    var d := Div(m, Typed(s)).value;
    assert d.x == p.x && d.y == p.y;
    var q := Div(p, Typed(s)).value;
    var n := Scale(q, Typed(s)).value;
    assert n.x == q.x * s && n.y == q.y * s;
    assert q.x * s == p.x && q.y * s == p.y;
  }

  /** `//` by a scalar: the floor of each quotient. */
  function FloorDiv(p: Point, s: Arg<real>): (r: Result<Point>)
    ensures r.Err? <==> Div(p, s).Err?
    ensures r.Err? ==> r.error == Div(p, s).error
    ensures r.Ok? ==> r.value == CoreCoordinates.FloorPoint(Div(p, s).value)
  {
    if s.Mistyped? then Err(TypeError)
    else if s.value == 0.0 then Err(ZeroDivisionError)
    else Ok(Point(Floor(p.x / s.value), Floor(p.y / s.value)))
  }

  /** `%` by a scalar: Python's float remainder `x - s * floor(x / s)` of each component. */
  function Mod(p: Point, s: Arg<real>): (r: Result<Point>)
    ensures r.Err? <==> Div(p, s).Err?
    ensures r.Err? ==> r.error == Div(p, s).error
  {
    if s.Mistyped? then Err(TypeError)
    else if s.value == 0.0 then Err(ZeroDivisionError)
    else Ok(Point(p.x - s.value * Floor(p.x / s.value), p.y - s.value * Floor(p.y / s.value)))
  }

  /**
    The division identity of `//` and `%`: quotient times s plus remainder
    is p, and each remainder has the sign of s and is smaller in size.
   */
  lemma DivModIdentity(p: Point, s: real)
    requires s != 0.0
    ensures var f := FloorDiv(p, Typed(s)).value;
      var m := Mod(p, Typed(s)).value;
      f.x * s + m.x == p.x && f.y * s + m.y == p.y &&
      CoreCoordinates.Remainder(m.x, s) && CoreCoordinates.Remainder(m.y, s)
  {
    var f := FloorDiv(p, Typed(s)).value;
    var m := Mod(p, Typed(s)).value;
    assert f == Point(Floor(p.x / s), Floor(p.y / s));
    assert m == Point(p.x - s * f.x, p.y - s * f.y);
    ComponentDivMod(p.x, s);
    ComponentDivMod(p.y, s);
  }

  lemma ComponentDivMod(x: real, s: real)
    requires s != 0.0
    ensures Floor(x / s) * s + (x - s * Floor(x / s)) == x
    ensures CoreCoordinates.Remainder(x - s * Floor(x / s), s)
  {
    var q := x / s;
    var f := Floor(q);
    assert q * s == x;
    CoreCoordinates.FloorSplit(q, s);
    assert f * s == s * f;
    assert (q - f) * s == q * s - f * s;
  }

  /** `int()`: the sum of the components, each truncated toward zero. */
  function Int(p: Point): (n: int)
    ensures n as real == Trunc(p.x) + Trunc(p.y)
  {
    var t := CoreCoordinates.TruncPoint(p);
    var a, b := t.x.Floor, t.y.Floor;
    assert a as real == Trunc(p.x) && b as real == Trunc(p.y);
    a + b
  }

  /** `float()`: the sum of the components. */
  function Float(p: Point): (f: real)
    ensures f == CoreCoordinates.Iter(p)[0] + CoreCoordinates.Iter(p)[1]
  {
    p.x + p.y
  }

  /** `int()` and `float()` differ by less than 2, and agree on whole components. */
  lemma IntNearFloat(p: Point)
    ensures -2.0 < Int(p) as real - Float(p) < 2.0
    ensures CoreCoordinates.Integral(p.x) && CoreCoordinates.Integral(p.y) ==> Int(p) as real == Float(p)
  {
    var t := CoreCoordinates.TruncPoint(p);
    if CoreCoordinates.Integral(p.x) && CoreCoordinates.Integral(p.y) {
      CoreCoordinates.IntegralFloor(p.x);
      CoreCoordinates.IntegralFloor(p.y);
    }
  }

  class Coordinate2D {
    var x: real
    var y: real

    function Value(): Point
      reads this
    {
      Point(x, y)
    }

    /** The raw object, before the setters validate anything. */
    constructor Init(xValue: real, yValue: real)
      ensures Value() == Point(xValue, yValue)
    {
      x, y := xValue, yValue;
    }

    /**
      `Coordinate2D(x, y)`: both values through the setters, so a non-number
      raises TypeError and no object results.
     */
    static method Create(xValue: Arg<real>, yValue: Arg<real>) returns (r: Result<Coordinate2D>)
      ensures r.Err? <==> xValue.Mistyped? || yValue.Mistyped?
      ensures r.Err? ==> r.error == TypeError
      ensures r.Ok? ==> fresh(r.value) && r.value.Value() == Point(xValue.value, yValue.value)
    {
      if xValue.Mistyped? || yValue.Mistyped? {
        return Err(TypeError);
      }
      var c := new Coordinate2D.Init(xValue.value, yValue.value);
      return Ok(c);
    }

    /** The `x` setter: TypeError for a non-number, else replace x only. */
    method SetX(value: Arg<real>) returns (o: Outcome)
      modifies this
      ensures value.Mistyped? ==> o == Raised(TypeError) && unchanged(this)
      ensures value.Typed? ==> o == Done && Value() == Point(value.value, old(y))
    {
      if value.Mistyped? {
        return Raised(TypeError);
      }
      x := value.value;
      return Done;
    }

    /** The `y` setter: TypeError for a non-number, else replace y only. */
    method SetY(value: Arg<real>) returns (o: Outcome)
      modifies this
      ensures value.Mistyped? ==> o == Raised(TypeError) && unchanged(this)
      ensures value.Typed? ==> o == Done && Value() == Point(old(x), value.value)
    {
      if value.Mistyped? {
        return Raised(TypeError);
      }
      y := value.value;
      return Done;
    }

    /**
      `p[index] = value`: IndexError for an index other than 0 or 1, else the
      matching setter, which rejects a non-number with TypeError.
     */
    method SetItem(index: int, value: Arg<real>) returns (o: Outcome)
      modifies this
      ensures index != 0 && index != 1 ==> o == Raised(IndexError) && unchanged(this)
      ensures (index == 0 || index == 1) && value.Mistyped? ==> o == Raised(TypeError) && unchanged(this)
      ensures (index == 0 || index == 1) && value.Typed? ==>
        o == Done && CoreCoordinates.GetItem(Value(), index) == Ok(value.value) &&
        CoreCoordinates.GetItem(Value(), 1 - index) == old(CoreCoordinates.GetItem(Value(), 1 - index))
    {
      if index == 0 {
        o := SetX(value);
      } else if index == 1 {
        o := SetY(value);
      } else {
        o := Raised(IndexError);
      }
    }
  }
}
