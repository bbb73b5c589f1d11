/**
 * What the browser and the JavaScript runtime hand to the simulation: an optional
 * value, the arithmetic helpers of `Math`, `Math`'s transcendental functions (kept
 * abstract), `Math.random` as an explicit stream, and a snapshot of the input devices.
 */
module Host {

  datatype Option<+T> = None | Some(value: T)

  /** `Math.PI` is a double, hence this exact rational number. */
  const Pi: real := 3.141592653589793

  /** `Math.max` and `Math.min` of two numbers. */
  function Max(a: real, b: real): (r: real)
    ensures r >= a && r >= b && (r == a || r == b)
  {
    if a >= b then a else b
  }

  function Min(a: real, b: real): (r: real)
    ensures r <= a && r <= b && (r == a || r == b)
  {
    if a <= b then a else b
  }

  /** `Math.abs`. */
  function Abs(a: real): (r: real)
    ensures r >= 0.0 && (r == a || r == -a)
  {
    if a < 0.0 then -a else a
  }

  /** `Math.sign`: -1, 0 or 1. */
  function Sign(a: real): (r: real)
    ensures (r == -1.0 <==> a < 0.0) && (r == 0.0 <==> a == 0.0) && (r == 1.0 <==> a > 0.0)
  {
    if a < 0.0 then -1.0 else if a == 0.0 then 0.0 else 1.0
  }

  /**
   * `Math.hypot`, `Math.cos`, `Math.sin` and `Math.atan2`. They have no exact
   * counterpart over the reals that the verifier can compute, so the model takes
   * them from the host and states, where a proof needs one, the law it relies on.
   */
  datatype MathHost = MathHost(
    hypot: (real, real) -> real,
    cos: real -> real,
    sin: real -> real,
    atan2: (real, real) -> real)

  /** `hypot(x, y)` is the length of the vector (x, y). */
  ghost predicate HypotAt(m: MathHost, x: real, y: real)
  {
    m.hypot(x, y) >= 0.0 && m.hypot(x, y) * m.hypot(x, y) == x * x + y * y
  }

  /**
   * `(cos a, sin a)` is a unit vector, and it points up the screen (negative y)
   * for every angle strictly between -Pi and 0.
   */
  ghost predicate TrigAt(m: MathHost, a: real)
  {
    && m.cos(a) * m.cos(a) + m.sin(a) * m.sin(a) == 1.0
    && (-Pi < a < 0.0 ==> m.sin(a) < 0.0)
  }

  /** The laws above at every point. */
  ghost predicate Lawful(m: MathHost)
  {
    && (forall x, y :: HypotAt(m, x, y))
    && (forall a :: TrigAt(m, a))
  }

  /** A value `Math.random` can return. */
  type Unit = u: real | 0.0 <= u < 1.0

  /**
   * The values successive calls of `Math.random` return, and how many of them
   * have been consumed.
   */
  datatype Random = Random(stream: nat -> Unit, pos: nat)
  {
    /** One call of `Math.random`: the value and the advanced stream. */
    function Draw(): (r: (Unit, Random))
      ensures r.0 == stream(pos) && r.1 == Random(stream, pos + 1)
    {
      (stream(pos), Random(stream, pos + 1))
    }
  }

  /**
   * The input devices as the game reads them: the key codes held down, whether
   * the pointer is over the canvas and its x position (null until it first
   * moves), and whether a pointer press is pending.
   */
  datatype Input = Input(held: set<string>, pointerActive: bool, pointerX: Option<real>, pointerDown: bool)
  {
    predicate IsDown(code: string)
    {
      code in held
    }
  }
}
