/** Transcendental functions and error outcomes shared by the whole model.

    The flight code takes sin, cos, tan, atan, sqrt, exp, log10, x^(2/3) and pi from
    Python's `math` and numpy. They are left uninterpreted here: a `Transcendentals`
    record carries one function per operation, and each property a proof relies on
    is a small named predicate that the caller must supply as a precondition. */
module RealMath {

  /** One value per uninterpreted operation; `pi` stands for `math.pi`. */
  datatype Transcendentals = Transcendentals(
    pi: real,
    sin: real -> real,
    cos: real -> real,
    tan: real -> real,
    atan: real -> real,
    sqrt: real -> real,
    exp: real -> real,
    log10: real -> real,
    pow23: real -> real)

  /* Every use of an operation goes through one of these functions, so that the model
     and its proofs always name an application the same way. */
  function Sin(m: Transcendentals, x: real): real { m.sin(x) }
  function Cos(m: Transcendentals, x: real): real { m.cos(x) }
  function Tan(m: Transcendentals, x: real): real { m.tan(x) }
  function Atan(m: Transcendentals, x: real): real { m.atan(x) }
  function Sqrt(m: Transcendentals, x: real): real { m.sqrt(x) }
  function Exp(m: Transcendentals, x: real): real { m.exp(x) }
  function Log10(m: Transcendentals, x: real): real { m.log10(x) }
  function Pow23(m: Transcendentals, x: real): real { m.pow23(x) }

  /** sin 0 = 0 and cos 0 = 1. */
  predicate TrigAtZero(m: Transcendentals)
  {
    Sin(m, 0.0) == 0.0 && Cos(m, 0.0) == 1.0
  }

  /** sin pi = 0 and cos pi = -1, with pi a positive number. */
  predicate TrigAtHalfTurn(m: Transcendentals)
  {
    m.pi > 0.0 && Sin(m, m.pi) == 0.0 && Cos(m, m.pi) == -1.0
  }

  /** exp 0 = 1, exp is positive and exp is monotone. */
  ghost predicate ExpLaws(m: Transcendentals)
  {
    && Exp(m, 0.0) == 1.0
    && (forall x :: Exp(m, x) > 0.0)
    && forall x, y :: x <= y ==> Exp(m, x) <= Exp(m, y)
  }

  /** log10 1 = 0, log10 10 = 1, and log10 is monotone on the positive reals. */
  ghost predicate LogLaws(m: Transcendentals)
  {
    && Log10(m, 1.0) == 0.0
    && Log10(m, 10.0) == 1.0
    && forall x, y :: 0.0 < x <= y ==> Log10(m, x) <= Log10(m, y)
  }

  /** sqrt returns the non-negative square root of a non-negative number. */
  ghost predicate SqrtLaws(m: Transcendentals)
  {
    forall x :: x >= 0.0 ==> Sqrt(m, x) >= 0.0 && Sqrt(m, x) * Sqrt(m, x) == x
  }

  /** x^(2/3) of a non-negative number is the non-negative real whose cube is x². */
  ghost predicate Pow23Laws(m: Transcendentals)
  {
    forall x :: x >= 0.0 ==> Pow23(m, x) >= 0.0 && Pow23(m, x) * Pow23(m, x) * Pow23(m, x) == x * x
  }

  /** Dividing by a positive number keeps the order. */
  lemma DivMonotone(a: real, b: real, d: real)
    requires d > 0.0 && a <= b
    ensures a / d <= b / d
  {
    assert b / d - a / d == (b - a) / d;
  }

  function Abs(x: real): (r: real)
    ensures r >= 0.0
    ensures r == x || r == -x
  {
    if x < 0.0 then -x else x
  }

  function Min(a: real, b: real): (r: real)
    ensures r <= a && r <= b
    ensures r == a || r == b
  {
    if a <= b then a else b
  }

  function Max(a: real, b: real): (r: real)
    ensures r >= a && r >= b
    ensures r == a || r == b
  {
    if a <= b then b else a
  }
}

/** The failure cases the flight code raises, and the wrappers that carry them. */
module Outcomes {

  datatype Error =
    | GeometryViolation   // homing: chaser orbit above target orbit
    | InvalidDirection    // node helper: direction string not recognised
    | UnboundReference    // homing: control attempted before any reference was assigned

  datatype Result<+T> = Ok(value: T) | Err(error: Error)

  datatype Option<+T> = None | Some(value: T)
}
