/**
  The coordinate value type of `core/coordinates.py`: a pair of floats with
  componentwise arithmetic, equality, truthiness, indexing and iteration.
  The operators build new values and are functions on `Point`; the object
  whose `x`/`y` setters, `__setitem__` and `__delattr__` change it in place
  is the class `Coordinate`.

  The source's `/` multiplies (by x and by the negated y); `DivAsWritten`,
  `FloorDivAsWritten` and `ModAsWritten` model that, and `TrueDiv`,
  `FloorDiv` and `Mod` are the division the operators are documented to be.
 */
module CoreCoordinates {
  import opened Common
  import opened MathLib
  import opened Plane

  const Origin: Point := Point(0.0, 0.0)

  /** r has no fractional part (what `floor`, `ceil` and `trunc` return). */
  predicate Integral(r: real) {
    r.Floor as real == r
  }

  // ---------------------------------------------------------------------------
  // Arithmetic with another coordinate

  /** `+`: componentwise sum; TypeError for an operand that is not a coordinate. */
  function Add(p: Point, v: Arg<Point>): (r: Result<Point>)
    ensures r.Err? <==> v.Mistyped?
    ensures r.Err? ==> r.error == TypeError
  {
    if v.Mistyped? then Err(TypeError) else Ok(Point(p.x + v.value.x, p.y + v.value.y))
  }

  /** `-`: componentwise difference; TypeError for an operand that is not a coordinate. */
  function Sub(p: Point, v: Arg<Point>): (r: Result<Point>)
    ensures r.Err? <==> v.Mistyped?
    ensures r.Err? ==> r.error == TypeError
  {
    if v.Mistyped? then Err(TypeError) else Ok(Point(p.x - v.value.x, p.y - v.value.y))
  }

  /** `*`: componentwise product; TypeError for an operand that is not a coordinate. */
  function Mul(p: Point, v: Arg<Point>): (r: Result<Point>)
    ensures r.Err? <==> v.Mistyped?
    ensures r.Err? ==> r.error == TypeError
  {
    if v.Mistyped? then Err(TypeError) else Ok(Point(p.x * v.value.x, p.y * v.value.y))
  }

  /** Subtracting what was added gives back the original, and the other way round. */
  lemma AddSubInverse(p: Point, v: Point)
    ensures Sub(Add(p, Typed(v)).value, Typed(v)) == Ok(p)
    ensures Add(Sub(p, Typed(v)).value, Typed(v)) == Ok(p)
  {
  }

  /** `+` and `*` do not depend on the order of their operands. */
  lemma AddMulCommute(p: Point, q: Point)
    ensures Add(p, Typed(q)) == Add(q, Typed(p))
    ensures Mul(p, Typed(q)) == Mul(q, Typed(p))
  {
    assert Mul(p, Typed(q)).value.x == Mul(q, Typed(p)).value.x;
    assert Mul(p, Typed(q)).value.y == Mul(q, Typed(p)).value.y;
  }

  /** (1, 1) is the unit of `*` and the origin the unit of `+`. */
  lemma Units(p: Point)
    ensures Mul(p, Typed(Point(1.0, 1.0))) == Ok(p)
    ensures Add(p, Typed(Origin)) == Ok(p)
  {
  }

  // ---------------------------------------------------------------------------
  // Division as written

  /** `/` as written: x times v.x and y times the negated v.y. */
  function DivAsWritten(p: Point, v: Arg<Point>): (r: Result<Point>)
    ensures r.Err? <==> v.Mistyped?
    ensures r.Err? ==> r.error == TypeError
  {
    if v.Mistyped? then Err(TypeError) else Ok(Point(p.x * v.value.x, p.y * -v.value.y))
  }

  /** `/` as written is `*` by the operand reflected in the x axis. */
  lemma DivAsWrittenIsMul(p: Point, v: Point)
    ensures DivAsWritten(p, Typed(v)) == Mul(p, Typed(Point(v.x, -v.y)))
  {
    assert DivAsWritten(p, Typed(v)).value.x == Mul(p, Typed(Point(v.x, -v.y))).value.x;
    assert DivAsWritten(p, Typed(v)).value.y == Mul(p, Typed(Point(v.x, -v.y))).value.y;
  }

  /** `//` as written: the floor of `/` as written. */
  function FloorDivAsWritten(p: Point, v: Arg<Point>): (r: Result<Point>)
    ensures r.Err? <==> v.Mistyped?
    ensures r.Ok? ==> r.value == FloorPoint(DivAsWritten(p, v).value)
  {
    if v.Mistyped? then Err(TypeError) else Ok(FloorPoint(DivAsWritten(p, v).value))
  }

  /** `%` as written: `(self / v - self // v) * v` on the operators as written. */
  function ModAsWritten(p: Point, v: Arg<Point>): (r: Result<Point>)
    ensures r.Err? <==> v.Mistyped?
  {
    if v.Mistyped? then Err(TypeError)
    else
      var d := DivAsWritten(p, v).value;
      var f := FloorDivAsWritten(p, v).value;
      Mul(Sub(d, Typed(f)).value, v)
  }

  /**
    `//` and `%` as written split `(self / v) * v`, not `self`: the quotient
    times v plus the remainder is the as-written quotient scaled by v, and
    each remainder component lies between 0 and that component of v.
   */
  lemma DivModAsWritten(p: Point, v: Point)
    ensures var d := DivAsWritten(p, Typed(v)).value;
      var f := FloorDivAsWritten(p, Typed(v)).value;
      var m := ModAsWritten(p, Typed(v)).value;
      f.x * v.x + m.x == d.x * v.x && f.y * v.y + m.y == d.y * v.y &&
      Remainder(m.x, v.x) && Remainder(m.y, v.y)
  {
    var d := DivAsWritten(p, Typed(v)).value;
    var f := FloorDivAsWritten(p, Typed(v)).value;
    var m := ModAsWritten(p, Typed(v)).value;
    assert f == FloorPoint(d) && m == Point((d.x - f.x) * v.x, (d.y - f.y) * v.y);
    SplitComponent(d.x, v.x, f.x, m.x);
    SplitComponent(d.y, v.y, f.y, m.y);
  }

  /** One component of a floor/remainder split: f is the floor of q and m the scaled fraction. */
  lemma SplitComponent(q: real, s: real, f: real, m: real)
    requires f == Floor(q) && m == (q - f) * s
    ensures f * s + m == q * s && Remainder(m, s)
  {
    FloorSplit(q, s);
    assert m == (q - Floor(q)) * s;
    assert f * s + m == Floor(q) * s + (q - Floor(q)) * s;
  }

  /**
    (1, 1) / (2, 2) is (2, -2) instead of (0.5, 0.5): multiplying back by
    (2, 2) does not return (1, 1), and the quotient and remainder of `//`
    and `%` do not recombine to (1, 1) either.
   */
  lemma DivAsWrittenCounterexample()
    ensures DivAsWritten(Point(1.0, 1.0), Typed(Point(2.0, 2.0))) == Ok(Point(2.0, -2.0))
    ensures Mul(Point(2.0, -2.0), Typed(Point(2.0, 2.0))) != Ok(Point(1.0, 1.0))
    ensures FloorDivAsWritten(Point(1.0, 1.0), Typed(Point(2.0, 2.0))) == Ok(Point(2.0, -2.0))
    ensures ModAsWritten(Point(1.0, 1.0), Typed(Point(2.0, 2.0))) == Ok(Origin)
    ensures TrueDiv(Point(1.0, 1.0), Typed(Point(2.0, 2.0))) == Ok(Point(0.5, 0.5))
  {
    assert FloorPoint(Point(2.0, -2.0)) == Point(2.0, -2.0);
  }

  // ---------------------------------------------------------------------------
  // Division as documented

  /**
    `/` as documented: componentwise quotient; TypeError for an operand that
    is not a coordinate and ZeroDivisionError for a zero component.
   */
  function TrueDiv(p: Point, v: Arg<Point>): (r: Result<Point>)
    ensures r.Err? <==> v.Mistyped? || v.value.x == 0.0 || v.value.y == 0.0
    ensures r.Err? ==> r.error == (if v.Mistyped? then TypeError else ZeroDivisionError)
  {
    if v.Mistyped? then Err(TypeError)
    else if v.value.x == 0.0 || v.value.y == 0.0 then Err(ZeroDivisionError)
    else Ok(Point(p.x / v.value.x, p.y / v.value.y))
  }

  /** `/` undoes `*` and `*` undoes `/`: q is p / v exactly when q * v is p. */
  lemma TrueDivInverse(p: Point, v: Point, q: Point)
    requires v.x != 0.0 && v.y != 0.0
    ensures TrueDiv(p, Typed(v)) == Ok(q) <==> Mul(q, Typed(v)) == Ok(p)
  {
    var m := Mul(q, Typed(v)).value;
    assert m.x == q.x * v.x && m.y == q.y * v.y;
    if m == p {
      DivExact(p.x, v.x, q.x);
      DivExact(p.y, v.y, q.y);
    }
    if TrueDiv(p, Typed(v)) == Ok(q) {
      assert m.x == p.x && m.y == p.y;
    }
  }

  lemma DivExact(a: real, b: real, c: real)
    requires b != 0.0 && a == c * b
    ensures a / b == c
  {
  }

  /** `//` as documented: the floor of the quotient. */
  function FloorDiv(p: Point, v: Arg<Point>): (r: Result<Point>)
    ensures r.Err? <==> TrueDiv(p, v).Err?
    ensures r.Err? ==> r.error == TrueDiv(p, v).error
  {
    match TrueDiv(p, v)
    case Err(e) => Err(e)
    case Ok(q) => Ok(FloorPoint(q))
  }

  /** `%` as documented: `(self / v - self // v) * v`. */
  function Mod(p: Point, v: Arg<Point>): (r: Result<Point>)
    ensures r.Err? <==> TrueDiv(p, v).Err?
    ensures r.Err? ==> r.error == TrueDiv(p, v).error
  {
    match TrueDiv(p, v)
    case Err(e) => Err(e)
    case Ok(q) => Mul(Sub(q, Typed(FloorPoint(q))).value, v)
  }

  /** m is a Python float remainder for divisor s: it has the sign of s and is smaller. */
  predicate Remainder(m: real, s: real) {
    (s > 0.0 ==> 0.0 <= m < s) && (s < 0.0 ==> s < m <= 0.0)
  }

  /** Splitting q into its floor and fraction, scaled by s. */
  lemma FloorSplit(q: real, s: real)
    ensures Floor(q) * s + (q - Floor(q)) * s == q * s
    ensures Remainder((q - Floor(q)) * s, s)
  {
    var t := q - Floor(q);
    var m := t * s;
    assert Floor(q) * s + m == (Floor(q) + t) * s;
    MulSign(t, s, m);
    MulSign(1.0 - t, s, s - m);
  }

  /**
    The division identity of `//` and `%` as documented: quotient times v
    plus remainder is p, each remainder component has the sign of v's and
    is smaller in size.
   */
  lemma DivModIdentity(p: Point, v: Point)
    requires v.x != 0.0 && v.y != 0.0
    ensures var f := FloorDiv(p, Typed(v)).value;
      var m := Mod(p, Typed(v)).value;
      f.x * v.x + m.x == p.x && f.y * v.y + m.y == p.y &&
      Remainder(m.x, v.x) && Remainder(m.y, v.y)
  {
    var q := TrueDiv(p, Typed(v)).value;
    var f := FloorDiv(p, Typed(v)).value;
    var m := Mod(p, Typed(v)).value;
    assert q.x * v.x == p.x && q.y * v.y == p.y;
    assert f == FloorPoint(q) && m == Point((q.x - f.x) * v.x, (q.y - f.y) * v.y);
    SplitComponent(q.x, v.x, f.x, m.x);
    SplitComponent(q.y, v.y, f.y, m.y);
  }

  // ---------------------------------------------------------------------------
  // Unary operators

  /** Unary `-`: the additive inverse. */
  function Neg(p: Point): (r: Point)
    ensures Add(r, Typed(p)) == Ok(Origin)
  {
    Point(-p.x, -p.y)
  }

  /** Unary `+`: the same value. */
  function Pos(p: Point): (r: Point)
    ensures Add(r, Typed(Origin)) == Ok(p)
  {
    Point(p.x, p.y)
  }

  lemma NegInvolution(p: Point)
    ensures Neg(Neg(p)) == p
    ensures Sub(p, Typed(p)) == Ok(Origin)
  {
  }

  /** `abs`: componentwise magnitude. */
  function AbsPoint(p: Point): (r: Point)
    ensures r.x >= 0.0 && r.y >= 0.0
    ensures (r.x == p.x || r.x == -p.x) && (r.y == p.y || r.y == -p.y)
  {
    Point(Abs(p.x), Abs(p.y))
  }

  lemma AbsOfNeg(p: Point)
    ensures AbsPoint(Neg(p)) == AbsPoint(p)
    ensures AbsPoint(AbsPoint(p)) == AbsPoint(p)
  {
  }

  /** `math.floor`: the greatest whole coordinate at or below p in each component. */
  function FloorPoint(p: Point): (r: Point)
    ensures Integral(r.x) && Integral(r.y)
    ensures r.x <= p.x < r.x + 1.0 && r.y <= p.y < r.y + 1.0
  {
    Point(Floor(p.x), Floor(p.y))
  }

  /** `math.ceil`: the least whole coordinate at or above p in each component. */
  function CeilPoint(p: Point): (r: Point)
    ensures Integral(r.x) && Integral(r.y)
    ensures r.x - 1.0 < p.x <= r.x && r.y - 1.0 < p.y <= r.y
  {
    CeilIntegral(p.x);
    CeilIntegral(p.y);
    Point(Ceil(p.x), Ceil(p.y))
  }

  /** `math.trunc`: each component rounded toward zero. */
  function TruncPoint(p: Point): (r: Point)
    ensures Integral(r.x) && Integral(r.y)
    ensures Abs(r.x) <= Abs(p.x) < Abs(r.x) + 1.0 && Abs(r.y) <= Abs(p.y) < Abs(r.y) + 1.0
    ensures r.x * p.x >= 0.0 && r.y * p.y >= 0.0
  {
    CeilIntegral(p.x);
    CeilIntegral(p.y);
    var r := Point(Trunc(p.x), Trunc(p.y));
    MulSign(r.x, p.x, r.x * p.x);
    MulSign(r.y, p.y, r.y * p.y);
    r
  }

  /** Whole numbers are whole. */
  lemma IntegralFloor(r: real)
    requires Integral(r)
    ensures Floor(r) == r && Ceil(r) == r
  {
  }

  /** Ceiling is floor seen through negation, and all three leave whole coordinates alone. */
  lemma RoundingRelations(p: Point)
    ensures CeilPoint(p) == Neg(FloorPoint(Neg(p)))
    ensures FloorPoint(FloorPoint(p)) == FloorPoint(p)
    ensures p.x >= 0.0 && p.y >= 0.0 ==> TruncPoint(p) == FloorPoint(p)
    ensures p.x <= 0.0 && p.y <= 0.0 ==> TruncPoint(p) == CeilPoint(p)
  {
    var f := FloorPoint(Neg(p));
    assert CeilPoint(p).x == -f.x by {
      CeilOfNeg(p.x);
    }
    assert CeilPoint(p).y == -f.y by {
      CeilOfNeg(p.y);
    }
    IntegralFloor(FloorPoint(p).x);
    IntegralFloor(FloorPoint(p).y);
  }

  lemma CeilIntegral(r: real)
    ensures Integral(Ceil(r))
  {
    if r.Floor as real != r {
      assert Ceil(r) == (r.Floor + 1) as real;
    }
  }

  /** Only one whole number c satisfies c - 1 < r <= c. */
  lemma CeilUnique(r: real, c: real, d: real)
    requires Integral(c) && Integral(d)
    requires c - 1.0 < r <= c && d - 1.0 < r <= d
    ensures c == d
  {
    var ci, di := c.Floor, d.Floor;
    assert ci as real == c && di as real == d;
    assert (ci - di) as real == c - d;
  }

  lemma CeilOfNeg(r: real)
    ensures Ceil(r) == -Floor(-r)
  {
    var n := (-r).Floor;
    assert Floor(-r) == n as real;
    assert (-n) as real == -Floor(-r);
    CeilIntegral(r);
    CeilUnique(r, Ceil(r), (-n) as real);
  }

  /**
    `round(p, n)`: TypeError when n is not an int, otherwise the given
    float rounding `round` applied to each component.
   */
  function Round(p: Point, n: Arg<int>, round: (real, int) -> real): (r: Result<Point>)
    ensures r.Err? <==> n.Mistyped?
    ensures r.Err? ==> r.error == TypeError
    ensures r.Ok? ==> forall i :: 0 <= i < 2 ==> Iter(r.value)[i] == round(Iter(p)[i], n.value)
  {
    if n.Mistyped? then Err(TypeError) else Ok(Point(round(p.x, n.value), round(p.y, n.value)))
  }

  // ---------------------------------------------------------------------------
  // Comparison, truthiness and the sequence protocol

  /** `==`: TypeError for a non-coordinate, else both components equal. */
  function Eq(p: Point, v: Arg<Point>): (r: Result<bool>)
    ensures r.Err? <==> v.Mistyped?
    ensures r.Err? ==> r.error == TypeError
    ensures r.Ok? ==> (r.value <==> p == v.value)
  {
    if v.Mistyped? then Err(TypeError) else Ok(p.x == v.value.x && p.y == v.value.y)
  }

  /** `!=`: TypeError for a non-coordinate, else some component differs. */
  function Ne(p: Point, v: Arg<Point>): (r: Result<bool>)
    ensures r.Err? <==> Eq(p, v).Err?
    ensures r.Err? ==> r.error == TypeError
    ensures r.Ok? ==> r.value == !Eq(p, v).value
  {
    if v.Mistyped? then Err(TypeError) else Ok(p.x != v.value.x || p.y != v.value.y)
  }

  lemma EqualityExamples()
    ensures Eq(Origin, Typed(Point(0.0, 0.0))) == Ok(true)
    ensures Ne(Point(0.0, 0.00001), Typed(Origin)) == Ok(true)
  {
  }

  /** `bool`: false exactly for the origin. */
  function Truthy(p: Point): (b: bool)
    ensures b <==> p != Origin
  {
    p.x != 0.0 || p.y != 0.0
  }

  /** `iter`: x then y. */
  function Iter(p: Point): seq<real> {
    [p.x, p.y]
  }

  /** `len`: the number of components iteration yields. */
  function Len(p: Point): (n: nat)
    ensures n == |Iter(p)|
  {
    2
  }

  /** `reversed`: the iteration order backwards. */
  function Reversed(p: Point): (s: seq<real>)
    ensures |s| == |Iter(p)| && forall i :: 0 <= i < |s| ==> s[i] == Iter(p)[|s| - 1 - i]
  {
    [p.y, p.x]
  }

  /** `p[index]`: x for 0, y for 1, IndexError otherwise. */
  function GetItem(p: Point, index: int): (r: Result<real>)
    ensures r.Ok? <==> index == 0 || index == 1
    ensures r.Ok? ==> r.value == Iter(p)[index]
    ensures r.Err? ==> r.error == IndexError
  {
    if index == 0 then Ok(p.x) else if index == 1 then Ok(p.y) else Err(IndexError)
  }

  /** Indexing agrees with the named components, and a value is determined by its items. */
  lemma ItemsDetermineValue(p: Point, q: Point)
    ensures GetItem(p, 0) == Ok(p.x) && GetItem(p, 1) == Ok(p.y)
    ensures (GetItem(p, 0) == GetItem(q, 0) && GetItem(p, 1) == GetItem(q, 1)) <==> p == q
  {
  }

  // ---------------------------------------------------------------------------
  // The mutable object

  class Coordinate {
    var x: real
    var y: real

    function Value(): Point
      reads this
    {
      Point(x, y)
    }

    /** `Coordinate(x, y)`: both components, converted to float, through the setters. */
    constructor(xValue: real, yValue: real)
      ensures Value() == Point(xValue, yValue)
    {
      x, y := xValue, yValue;
    }

    /** The `x` setter: TypeError for a non-number, else replace x only. */
    method SetX(value: Arg<real>) returns (o: Outcome)
      modifies this
      ensures value.Mistyped? ==> o == Raised(TypeError) && unchanged(this)
      ensures value.Typed? ==> o == Done && Value() == Point(value.value, old(y))
    {
      if value.Mistyped? {
        return Raised(TypeError);
      }
      x := value.value;
      return Done;
    }

    /** The `y` setter: TypeError for a non-number, else replace y only. */
    method SetY(value: Arg<real>) returns (o: Outcome)
      modifies this
      ensures value.Mistyped? ==> o == Raised(TypeError) && unchanged(this)
      ensures value.Typed? ==> o == Done && Value() == Point(old(x), value.value)
    {
      if value.Mistyped? {
        return Raised(TypeError);
      }
      y := value.value;
      return Done;
    }

    /**
      `p[index] = value`: writes the stored component directly (no type
      check); IndexError for an index other than 0 or 1. The value is a real
      here, so the unchecked store of a non-number is not expressible.
     */
    method SetItem(index: int, value: real) returns (o: Outcome)
      modifies this
      ensures index != 0 && index != 1 ==> o == Raised(IndexError) && unchanged(this)
      ensures index == 0 || index == 1 ==>
        o == Done && GetItem(Value(), index) == Ok(value) &&
        GetItem(Value(), 1 - index) == old(GetItem(Value(), 1 - index))
    {
      if index == 0 {
        x := value;
      } else if index == 1 {
        y := value;
      } else {
        return Raised(IndexError);
      }
      return Done;
    }

    /**
      `del p.name`: for x and y the method deletes the private field with
      `del`, which enters this same method with the private name and raises
      there; every other name raises directly. So it always raises
      AttributeError and deletes nothing.
     */
    method DelAttr(name: string) returns (o: Outcome)
      ensures o == Raised(AttributeError)
      decreases if name == "x" || name == "y" then 1 else 0
    {
      if name == "x" {
        o := DelAttr("_x");
      } else if name == "y" {
        o := DelAttr("_y");
      } else {
        o := Raised(AttributeError);
      }
    }
  }
}
