/**
  The stand-alone `Circumcircle` of `bidimensional/circumcircle.py`: a
  determinant gate, the in-place relabelling, and setters guarded by the
  `_initial_setting` flag. The `Circumcenter` of `src/circumcenter.py` is the
  same code over `Coordinate2D`, with `center` and `radius` named
  `circumcenter` and `circumradius`; this class models both.
 */
module LegacyCircumcircle {
  import opened Common
  import opened MathLib
  import opened Plane
  import opened CircumKernel

  class Circumcircle {
    var a: Point
    var b: Point
    var c: Point
    var center: Point
    var radius: real
    /** `_initial_setting`: while it is true the setters store a vertex without recalculating. */
    var initialSetting: bool
    const sqrt: real -> real

    /** Centre and radius are those the construction gives for the stored vertices. */
    ghost predicate Current()
      reads this
    {
      Circumscribe(a, b, c, sqrt) == Ok(Circle(center, radius))
    }

    /**
      The effect of `_calculate` started on (a0, b0, c0): ValueError and nothing
      touched for a zero determinant; otherwise the vertices relabelled in place
      and, unless the construction divides by zero, centre and radius recomputed.
     */
    twostate predicate Recalculated(a0: Point, b0: Point, c0: Point, o: Outcome)
      reads this
    {
      initialSetting == old(initialSetting) &&
      if Det(a0, b0, c0) == 0.0 then
        o == Raised(ValueError) && a == a0 && b == b0 && c == c0 &&
        center == old(center) && radius == old(radius)
      else
        (a, b, c) == Relabel(a0, b0, c0) &&
        (o == Done <==> Circumscribe(a, b, c, sqrt).Ok?) &&
        (o == Done ==> Current()) &&
        (o != Done ==> o == Raised(ZeroDivisionError) && center == old(center) && radius == old(radius))
    }

    /** The field writes of `__init__`: the flag cleared, the raw vertices, the flag set. */
    constructor Init(a: Point, b: Point, c: Point, sqrt: real -> real)
      ensures this.a == a && this.b == b && this.c == c && this.sqrt == sqrt && initialSetting
    {
      initialSetting := false;
      this.a, this.b, this.c := a, b, c;
      this.sqrt := sqrt;
      center, radius := Point(0.0, 0.0), 0.0;
      new;
      initialSetting := true;
    }

    /** `Circumcircle(a, b, c)` as written: the raw writes, then one calculation; the flag stays set. */
    static method Create(a: Point, b: Point, c: Point, sqrt: real -> real) returns (r: Result<Circumcircle>)
      ensures r.Ok? <==> GatedCircle(a, b, c, sqrt).Ok?
      ensures r.Err? ==> r.error == GatedCircle(a, b, c, sqrt).error
      ensures r.Ok? ==>
        fresh(r.value) && r.value.sqrt == sqrt && r.value.initialSetting && r.value.Current() &&
        (r.value.a, r.value.b, r.value.c) == Relabel(a, b, c) &&
        GatedCircle(a, b, c, sqrt) == Ok(Circle(r.value.center, r.value.radius))
    {
      var k := new Circumcircle.Init(a, b, c, sqrt);
      var o := k.Calculate();
      if o.Raised? {
        return Err(o.error);
      }
      return Ok(k);
    }

    /**
      The evident intent of `__init__`: the flag set only while the vertices are
      first stored, and cleared once the initial calculation is done, so that
      later setters recalculate.
     */
    static method CreateIntended(a: Point, b: Point, c: Point, sqrt: real -> real) returns (r: Result<Circumcircle>)
      ensures r.Ok? <==> GatedCircle(a, b, c, sqrt).Ok?
      ensures r.Err? ==> r.error == GatedCircle(a, b, c, sqrt).error
      ensures r.Ok? ==>
        fresh(r.value) && r.value.sqrt == sqrt && !r.value.initialSetting && r.value.Current() &&
        (r.value.a, r.value.b, r.value.c) == Relabel(a, b, c) &&
        GatedCircle(a, b, c, sqrt) == Ok(Circle(r.value.center, r.value.radius))
    {
      var k := new Circumcircle.Init(a, b, c, sqrt);
      var o := k.Calculate();
      if o.Raised? {
        return Err(o.error);
      }
      k.initialSetting := false;
      return Ok(k);
    }

    /** `_ensure_non_collinear`: ValueError exactly when the determinant is zero. */
    method EnsureNonCollinear() returns (o: Outcome)
      ensures o == Done <==> Det(a, b, c) != 0.0
      ensures o != Done ==> o == Raised(ValueError)
    {
      if a.x * (b.y - c.y) + b.x * (c.y - a.y) + c.x * (a.y - b.y) == 0.0 {
        return Raised(ValueError);
      }
      return Done;
    }

    /** `_calculate`: the gate, the two in-place swaps, then centre and radius. */
    method Calculate() returns (o: Outcome)
      modifies this
      ensures Recalculated(old(a), old(b), old(c), o)
      ensures IsSqrt(sqrt) && Det(old(a), old(b), old(c)) != 0.0 ==>
        o == Done && Circumscribes(Circle(center, radius), {old(a), old(b), old(c)}, sqrt)
    {
      ghost var a0, b0, c0 := a, b, c;
      o := EnsureNonCollinear();
      if o != Done {
        return;
      }
      if a != b || a != c || b != c {
        if b.x - a.x == 0.0 {
          a, c := c, a;
        }
        if c.x - a.x == 0.0 {
          a, b := b, a;
        }
      }
      assert (a, b, c) == Relabel(a0, b0, c0);
      if IsSqrt(sqrt) {
        RelabelledCircumscribes(a0, b0, c0, sqrt);
      }
      var k := Circumscribe(a, b, c, sqrt);
      if k.Err? {
        o := Raised(k.error);
        return;
      }
      center, radius := k.value.center, k.value.radius;
    }

    /** The `a` setter: TypeError for a non-coordinate; else store, and recalculate unless the flag is set. */
    method SetA(value: Arg<Point>) returns (o: Outcome)
      modifies this
      ensures value.Mistyped? ==> o == Raised(TypeError) && unchanged(this)
      ensures value.Typed? && old(initialSetting) ==>
        o == Done && a == value.value && b == old(b) && c == old(c) &&
        center == old(center) && radius == old(radius) && initialSetting
      ensures value.Typed? && !old(initialSetting) ==> Recalculated(value.value, old(b), old(c), o)
      ensures value.Typed? && !old(initialSetting) && IsSqrt(sqrt) && Det(value.value, old(b), old(c)) != 0.0 ==>
        o == Done && Circumscribes(Circle(center, radius), {value.value, old(b), old(c)}, sqrt)
    {
      if value.Mistyped? {
        return Raised(TypeError);
      }
      a := value.value;
      o := Done;
      if !initialSetting {
        o := Calculate();
      }
    }

    /** The `b` setter. */
    method SetB(value: Arg<Point>) returns (o: Outcome)
      modifies this
      ensures value.Mistyped? ==> o == Raised(TypeError) && unchanged(this)
      ensures value.Typed? && old(initialSetting) ==>
        o == Done && b == value.value && a == old(a) && c == old(c) &&
        center == old(center) && radius == old(radius) && initialSetting
      ensures value.Typed? && !old(initialSetting) ==> Recalculated(old(a), value.value, old(c), o)
      ensures value.Typed? && !old(initialSetting) && IsSqrt(sqrt) && Det(old(a), value.value, old(c)) != 0.0 ==>
        o == Done && Circumscribes(Circle(center, radius), {old(a), value.value, old(c)}, sqrt)
    {
      if value.Mistyped? {
        return Raised(TypeError);
      }
      b := value.value;
      o := Done;
      if !initialSetting {
        o := Calculate();
      }
    }

    /** The `c` setter. */
    method SetC(value: Arg<Point>) returns (o: Outcome)
      modifies this
      ensures value.Mistyped? ==> o == Raised(TypeError) && unchanged(this)
      ensures value.Typed? && old(initialSetting) ==>
        o == Done && c == value.value && a == old(a) && b == old(b) &&
        center == old(center) && radius == old(radius) && initialSetting
      ensures value.Typed? && !old(initialSetting) ==> Recalculated(old(a), old(b), value.value, o)
      ensures value.Typed? && !old(initialSetting) && IsSqrt(sqrt) && Det(old(a), old(b), value.value) != 0.0 ==>
        o == Done && Circumscribes(Circle(center, radius), {old(a), old(b), value.value}, sqrt)
    {
      if value.Mistyped? {
        return Raised(TypeError);
      }
      c := value.value;
      o := Done;
      if !initialSetting {
        o := Calculate();
      }
    }
  }

  /**
    As written: on a circle just built from three non-collinear vertices whose
    relabelling moves `b` to the front, the setter of `a` replaces that vertex
    and leaves centre and radius those of the old triangle.
   */
  method StaleAfterSet(p: Point, q: Point, s: Point, v: Point, sqrt: real -> real) returns (k: Circumcircle)
    requires Det(p, q, s) != 0.0 && Relabel(p, q, s) == (q, p, s)
    requires IsSqrt(sqrt)
    ensures k.a == v && k.b == p && k.c == s
    ensures Circumscribes(Circle(k.center, k.radius), {p, q, s}, sqrt)
  {
    GatedCircleCircumscribes(p, q, s, sqrt);
    var r := Circumcircle.Create(p, q, s, sqrt);
    k := r.value;
    ghost var circle := Circle(k.center, k.radius);
    var o := k.SetA(Typed(v));
    assert Circle(k.center, k.radius) == circle;
  }

  /**
    The inputs that make `StaleAfterSet` wrong: p = (0,0), q = (2,0), s = (0,2)
    and v = (4,4) meet its requirements (see `ExampleInputs`); its circle passes
    through p, q and s, so (by `CircumscribedEquidistant`) its centre is equally
    far from them, which puts it at (1,1), off every circle through v, p and s.
   */
  lemma StaleWitness(p: Point, q: Point, s: Point, v: Point, k: Circle, sqrt: real -> real)
    requires p == Point(0.0, 0.0) && q == Point(2.0, 0.0) && s == Point(0.0, 2.0) && v == Point(4.0, 4.0)
    requires IsSqrt(sqrt)
    requires DistSq(p, k.center) == DistSq(q, k.center) && DistSq(p, k.center) == DistSq(s, k.center)
    ensures k.center == Point(1.0, 1.0)
    ensures !Circumscribes(k, {v, p, s}, sqrt)
  {
    ExampleEquidistant(p, q, s, k.center);
    ExampleFar(p, v, k, {v, p, s}, sqrt);
  }

  /**
    Corrected: the same steps on an object from `CreateIntended` recalculate,
    and the circle passes through the stored vertices.
   */
  method RecomputedAfterSet(p: Point, q: Point, s: Point, v: Point, sqrt: real -> real) returns (k: Circumcircle)
    requires Det(p, q, s) != 0.0 && Relabel(p, q, s) == (q, p, s) && Det(v, p, s) != 0.0
    requires IsSqrt(sqrt)
    ensures multiset{k.a, k.b, k.c} == multiset{v, p, s}
    ensures Circumscribes(Circle(k.center, k.radius), {v, p, s}, sqrt)
  {
    GatedCircleCircumscribes(p, q, s, sqrt);
    var r := Circumcircle.CreateIntended(p, q, s, sqrt);
    k := r.value;
    var o := k.SetA(Typed(v));
  }

  /** The witness inputs meet the requirements of `StaleAfterSet` and `RecomputedAfterSet`. */
  lemma ExampleInputs(p: Point, q: Point, s: Point, v: Point)
    requires p == Point(0.0, 0.0) && q == Point(2.0, 0.0) && s == Point(0.0, 2.0) && v == Point(4.0, 4.0)
    ensures Det(p, q, s) != 0.0 && Relabel(p, q, s) == (q, p, s) && Det(v, p, s) != 0.0
  {
    assert Det(p, q, s) == 4.0 && Det(v, p, s) == -8.0;
  }
}
