/**
  Values shared by every module: optional results, the Python exceptions the
  library raises, and the outcome of an `isinstance` check on an argument.
 */
module Common {

  datatype Option<+T> = None | Some(value: T)

  /** The built-in Python exceptions raised by the library (or by the runtime under it). */
  datatype PyError =
    | TypeError
    | ValueError
    | IndexError
    | ZeroDivisionError
    | AttributeError

  /** A value, or the exception raised instead of returning one. */
  datatype Result<+T> = Ok(value: T) | Err(error: PyError)

  /** A call that returns `None` normally, or raises. */
  datatype Outcome = Done | Raised(error: PyError)

  /**
    An argument as far as the source's `isinstance` checks can tell: either it
    has the expected class (and then its value is known), or it does not.
   */
  datatype Arg<+T> = Typed(value: T) | Mistyped

  /** Python's `abs` on a float. */
  function Abs(r: real): (a: real)
    ensures a >= 0.0 && (a == r || a == -r)
  {
    if r < 0.0 then -r else r
  }

  /** `math.floor` as a real (the source converts the result back to float). */
  function Floor(r: real): (f: real)
    ensures f.Floor as real == f
    ensures f <= r < f + 1.0
  {
    r.Floor as real
  }

  /** `math.ceil` as a real. */
  function Ceil(r: real): (c: real)
    ensures c.Floor as real == c
    ensures c - 1.0 < r <= c
  {
    if r.Floor as real == r then r
    else
      assert r.Floor as real + 1.0 == (r.Floor + 1) as real;
      (r.Floor + 1) as real
  }

  /** `math.trunc` as a real: rounds toward zero. */
  function Trunc(r: real): (t: real)
    ensures Abs(t) <= Abs(r) < Abs(t) + 1.0
    ensures t == (if r >= 0.0 then Floor(r) else Ceil(r))
  {
    if r >= 0.0 then Floor(r) else Ceil(r)
  }
}

/**
  The floating-point routines the library imports from `math` and `numpy`
  (`sqrt`, `hypot`) stay abstract: every operation that needs one takes it as
  a function argument, and the properties that depend on it state what they
  assume of it. The lemmas here are the sign facts about products that the
  geometric proofs rest on; each names the product it talks about, which
  keeps the solver's nonlinear reasoning out of the callers.
 */
module MathLib {

  /** `sqrt` returns the non-negative square root of a non-negative argument. */
  ghost predicate IsSqrt(sqrt: real -> real) {
    forall s :: 0.0 <= s ==> 0.0 <= sqrt(s) && sqrt(s) * sqrt(s) == s
  }

  lemma MulSign(a: real, b: real, m: real)
    requires m == a * b
    ensures (a > 0.0 && b > 0.0) || (a < 0.0 && b < 0.0) ==> m > 0.0
    ensures (a > 0.0 && b < 0.0) || (a < 0.0 && b > 0.0) ==> m < 0.0
    ensures m == 0.0 <==> a == 0.0 || b == 0.0
  {
    if a < 0.0 && b < 0.0 {
      assert m == (-a) * (-b);
    } else if a < 0.0 && b > 0.0 {
      assert -m == (-a) * b;
    } else if a > 0.0 && b < 0.0 {
      assert -m == a * (-b);
    }
  }

  lemma Square(r: real, x: real)
    requires x == r * r
    ensures x >= 0.0 && (x == 0.0 <==> r == 0.0)
  {
    MulSign(r, r, x);
  }

  /** A square root never maps two different non-negative numbers to the same root. */
  lemma SqrtInjective(sqrt: real -> real, s: real, t: real)
    requires IsSqrt(sqrt) && 0.0 <= s && 0.0 <= t
    ensures sqrt(s) == sqrt(t) <==> s == t
  {
  }

  lemma SqrtFacts(sqrt: real -> real, s: real)
    requires IsSqrt(sqrt) && 0.0 <= s
    ensures sqrt(s) >= 0.0
    ensures sqrt(s) == 0.0 <==> s == 0.0
  {
    Square(sqrt(s), s);
  }
}

/** The plane: the pair of reals every coordinate class of the library stores. */
module Plane {
  import opened MathLib

  datatype Point = Point(x: real, y: real)

  /** Twice the signed area of the triangle abc (zero exactly when a, b, c are collinear). */
  function Det(a: Point, b: Point, c: Point): real {
    a.x * (b.y - c.y) + b.x * (c.y - a.y) + c.x * (a.y - b.y)
  }

  /** Squared Euclidean distance. */
  function DistSq(p: Point, q: Point): real {
    (p.x - q.x) * (p.x - q.x) + (p.y - q.y) * (p.y - q.y)
  }

  lemma DistSqFacts(p: Point, q: Point)
    ensures DistSq(p, q) == DistSq(q, p) && DistSq(p, q) >= 0.0
    ensures DistSq(p, q) == 0.0 <==> p == q
  {
    var dx, dy := p.x - q.x, p.y - q.y;
    Square(dx, dx * dx);
    Square(dy, dy * dy);
  }
}
