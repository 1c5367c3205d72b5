/**
  The unguarded `Circumcenter` of the top-level `circumcenter.py`: no
  collinearity check and no relabelling; the vertices keep the caller's order,
  and every setter recalculates.
 */
module RootCircumcenter {
  import opened Common
  import opened MathLib
  import opened Plane
  import opened CircumKernel

  class Circumcenter {
    var a: Point
    var b: Point
    var c: Point
    var circumcenter: Point
    var circumradius: real
    const sqrt: real -> real

    /** `circumcenter` and `circumradius` are those the construction gives for the stored vertices. */
    ghost predicate Current()
      reads this
    {
      Circumscribe(a, b, c, sqrt) == Ok(Circle(circumcenter, circumradius))
    }

    /**
      The effect of `_calculate` on the current vertices: Done with fresh
      values exactly when the construction succeeds, otherwise the
      ZeroDivisionError it raises and the old values kept.
     */
    twostate predicate Recalculated(o: Outcome)
      reads this
    {
      (o == Done <==> Circumscribe(a, b, c, sqrt).Ok?) &&
      (o == Done ==> Current()) &&
      (o != Done ==>
        o == Raised(ZeroDivisionError) && circumcenter == old(circumcenter) && circumradius == old(circumradius))
    }

    /** The raw field writes at the start of `__init__`, before any check. */
    constructor Init(a: Point, b: Point, c: Point, sqrt: real -> real)
      ensures this.a == a && this.b == b && this.c == c && this.sqrt == sqrt
    {
      this.a, this.b, this.c := a, b, c;
      this.sqrt := sqrt;
      circumcenter, circumradius := Point(0.0, 0.0), 0.0;
    }

    /**
      `Circumcenter(a, b, c)`: the raw writes, then the three setters in turn,
      each of which recalculates. A non-coordinate `a` fails its setter's check;
      a non-coordinate `b` or `c` is first read by the calculation the `a`
      setter starts, whose attribute access fails. Every mistyped `b` or `c` is
      taken to lack `.x`/`.y`; an object that has them (a core `Coordinate`)
      would pass the calculation and fail later with TypeError in its own
      setter, which the model does not distinguish.
     */
    static method Create(a: Arg<Point>, b: Arg<Point>, c: Arg<Point>, sqrt: real -> real)
      returns (r: Result<Circumcenter>)
      ensures a.Mistyped? ==> r == Err(TypeError)
      ensures a.Typed? && (b.Mistyped? || c.Mistyped?) ==> r == Err(AttributeError)
      ensures a.Typed? && b.Typed? && c.Typed? ==>
        (r.Ok? <==> Circumscribe(a.value, b.value, c.value, sqrt).Ok?) &&
        (r.Err? ==> r.error == ZeroDivisionError)
      ensures r.Ok? ==>
        fresh(r.value) && r.value.sqrt == sqrt && r.value.Current() &&
        (r.value.a, r.value.b, r.value.c) == (a.value, b.value, c.value)
    {
      if a.Mistyped? {
        return Err(TypeError);
      }
      if b.Mistyped? || c.Mistyped? {
        return Err(AttributeError);
      }
      var k := new Circumcenter.Init(a.value, b.value, c.value, sqrt);
      var o := k.SetA(a);
      if o.Raised? {
        return Err(o.error);
      }
      // the b and c setters recalculate on the vertices the a setter accepted, and succeed
      o := k.SetB(b);
      o := k.SetC(c);
      return Ok(k);
    }

    /** `_calculate`: the construction on the vertices as stored. */
    method Calculate() returns (o: Outcome)
      modifies this`circumcenter, this`circumradius
      ensures Recalculated(o)
      ensures o == Done ==> Circumscribes(Circle(circumcenter, circumradius), {a, b, c}, sqrt)
    {
      var k := Circumscribe(a, b, c, sqrt);
      if k.Err? {
        return Raised(k.error);
      }
      ConstructionCircumscribes(a, b, c, sqrt);
      circumcenter, circumradius := k.value.center, k.value.radius;
      return Done;
    }

    /** The `a` setter: TypeError for a non-coordinate; else store and recalculate. */
    method SetA(value: Arg<Point>) returns (o: Outcome)
      modifies this
      ensures value.Mistyped? ==> o == Raised(TypeError) && unchanged(this)
      ensures value.Typed? ==> a == value.value && b == old(b) && c == old(c) && Recalculated(o)
      ensures value.Typed? && o == Done ==> Circumscribes(Circle(circumcenter, circumradius), {a, b, c}, sqrt)
    {
      if value.Mistyped? {
        return Raised(TypeError);
      }
      a := value.value;
      o := Calculate();
    }

    /** The `b` setter. */
    method SetB(value: Arg<Point>) returns (o: Outcome)
      modifies this
      ensures value.Mistyped? ==> o == Raised(TypeError) && unchanged(this)
      ensures value.Typed? ==> b == value.value && a == old(a) && c == old(c) && Recalculated(o)
      ensures value.Typed? && o == Done ==> Circumscribes(Circle(circumcenter, circumradius), {a, b, c}, sqrt)
    {
      if value.Mistyped? {
        return Raised(TypeError);
      }
      b := value.value;
      o := Calculate();
    }

    /** The `c` setter. */
    method SetC(value: Arg<Point>) returns (o: Outcome)
      modifies this
      ensures value.Mistyped? ==> o == Raised(TypeError) && unchanged(this)
      ensures value.Typed? ==> c == value.value && a == old(a) && b == old(b) && Recalculated(o)
      ensures value.Typed? && o == Done ==> Circumscribes(Circle(circumcenter, circumradius), {a, b, c}, sqrt)
    {
      if value.Mistyped? {
        return Raised(TypeError);
      }
      c := value.value;
      o := Calculate();
    }
  }

  /**
    Without the gate and the relabelling, the construction succeeds exactly
    when neither ab nor ac is vertical and the vertices are not collinear;
    every failure is a ZeroDivisionError, collinear input included.
   */
  lemma UnguardedDomain(a: Point, b: Point, c: Point, sqrt: real -> real)
    requires IsSqrt(sqrt)
    ensures Circumscribe(a, b, c, sqrt).Ok? <==> b.x != a.x && c.x != a.x && Det(a, b, c) != 0.0
    ensures Circumscribe(a, b, c, sqrt).Err? ==> Circumscribe(a, b, c, sqrt).error == ZeroDivisionError
    ensures Circumscribe(a, b, c, sqrt).Ok? ==> Circumscribes(Circumscribe(a, b, c, sqrt).value, {a, b, c}, sqrt)
  {
    CircumscribeDefined(a, b, c, sqrt);
    if Circumscribe(a, b, c, sqrt).Ok? {
      ConstructionCircumscribes(a, b, c, sqrt);
    }
  }

  /**
    A triangle with a vertical side ab, such as (0,0), (0,1), (1,0), is
    rejected here with ZeroDivisionError, while the relabelling revisions
    accept it and find its circumcircle.
   */
  lemma VerticalSideRejected(a: Point, b: Point, c: Point, sqrt: real -> real)
    requires IsSqrt(sqrt) && a.x == b.x && Det(a, b, c) != 0.0
    ensures Circumscribe(a, b, c, sqrt) == Err(ZeroDivisionError)
    ensures GatedCircle(a, b, c, sqrt).Ok?
  {
    UnguardedDomain(a, b, c, sqrt);
    GatedCircleCircumscribes(a, b, c, sqrt);
  }
}
