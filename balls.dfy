/**
 * The ball of src/entities/Ball.js: serving from the paddle, launching, free
 * flight with wall reflection and a speed cap, and the bounded trail of samples.
 */
module Balls {
  import opened Host
  import opened Collisions
  import opened Paddles

  /** One trail entry: position and velocity just after integration. */
  datatype Sample = Sample(x: real, y: real, vx: real, vy: real)

  /**
   * `maxSpeed`, `minSpeed` and `trailMax`: the constructor gives every ball these
   * values and nothing ever changes them.
   */
  const MaxSpeed: real := 760.0
  const MinSpeed: real := 420.0
  const TrailMax: nat := 22

  /** The fields of a ball that change; `stuck` is `stuckToPaddle`. */
  datatype BallState = BallState(x: real, y: real, radius: real, vx: real, vy: real, stuck: bool, trail: seq<Sample>)
  {
    /** `resetOnPaddle(paddle)`: held just above the paddle's centre, at rest. */
    function ResetOnPaddle(p: PaddleState): (r: BallState)
      ensures r.stuck && r.vx == 0.0 && r.vy == 0.0
      ensures r.x == p.CenterX() && r.y == p.y - radius - 2.0
      ensures r == this.(stuck := r.stuck, vx := r.vx, vy := r.vy, x := r.x, y := r.y)
    {
      this.(stuck := true, vx := 0.0, vy := 0.0, x := p.CenterX(), y := p.y - radius - 2.0)
    }

    /**
     * `launch()` with `u` the value `Math.random` returns: a free ball is left as it
     * is; a stuck one is freed and sent off at the minimum speed in the launch cone.
     */
    function Launch(u: Unit, m: MathHost): (r: BallState)
      ensures !stuck ==> r == this
      ensures stuck ==> !r.stuck && r == this.(stuck := false, vx := r.vx, vy := r.vy)
      ensures stuck ==> r.vx == m.cos(LaunchAngle(u)) * MinSpeed && r.vy == m.sin(LaunchAngle(u)) * MinSpeed
    {
      if !stuck then this
      else
        var angle := LaunchAngle(u);
        this.(stuck := false, vx := m.cos(angle) * MinSpeed, vy := m.sin(angle) * MinSpeed)
    }

    /** Free flight for `dt` seconds. */
    function Integrate(dt: real): (r: BallState)
      ensures r == this.(x := x + vx * dt, y := y + vy * dt)
    {
      this.(x := x + vx * dt, y := y + vy * dt)
    }

    /** Appends the current sample to the trail and keeps only the newest `trailMax`. */
    function Record(): (r: BallState)
      ensures r == this.(trail := r.trail)
      ensures |r.trail| == if |trail| + 1 > TrailMax then TrailMax else |trail| + 1
      ensures r.trail[|r.trail| - 1] == Sample(x, y, vx, vy)
      ensures r.trail == (trail + [Sample(x, y, vx, vy)])[|trail| + 1 - |r.trail|..]
    {
      this.(trail := Keep(trail + [Sample(x, y, vx, vy)], TrailMax))
    }

    /**
     * The walls: past the left wall the ball is put back against it, else past the
     * right wall likewise, each turning vx round; past the top it is put back and vy
     * turns round. The bottom is open.
     */
    function ReflectWalls(arenaW: real): (r: BallState)
      ensures r == this.(x := r.x, y := r.y, vx := r.vx, vy := r.vy)
      ensures x - radius < 0.0 ==> r.x == radius && r.vx == -vx
      ensures x - radius >= 0.0 && x + radius > arenaW ==> r.x == arenaW - radius && r.vx == -vx
      ensures x - radius >= 0.0 && x + radius <= arenaW ==> r.x == x && r.vx == vx
      ensures y - radius < 0.0 ==> r.y == radius && r.vy == -vy
      ensures y - radius >= 0.0 ==> r.y == y && r.vy == vy
    {
      var b1 :=
        if x - radius < 0.0 then this.(x := radius, vx := -vx)
        else if x + radius > arenaW then this.(x := arenaW - radius, vx := -vx)
        else this;
      if b1.y - radius < 0.0 then b1.(y := radius, vy := -vy) else b1
    }

    /**
     * The speed cap shared by the ball and the world: a velocity faster than
     * `limit` is scaled down by `limit / speed`.
     */
    function CapSpeed(limit: real, m: MathHost): (r: BallState)
      requires limit >= 0.0
      ensures r == this.(vx := r.vx, vy := r.vy)
      ensures m.hypot(vx, vy) <= limit ==> r == this
      ensures m.hypot(vx, vy) > limit ==>
                r.vx == vx * (limit / m.hypot(vx, vy)) && r.vy == vy * (limit / m.hypot(vx, vy))
    {
      var sp := m.hypot(vx, vy);
      if sp > limit then
        var s := limit / sp;
        this.(vx := vx * s, vy := vy * s)
      else this
    }

    /**
     * `update(dt, env)`: a stuck ball rides on the paddle and its trail is emptied;
     * a free one flies, records a trail sample, meets the walls and is capped at
     * its maximum speed, in that order.
     */
    function Update(dt: real, arenaW: real, p: PaddleState, m: MathHost): (r: BallState)
      ensures stuck ==> r == this.(x := p.CenterX(), y := p.y - radius - 2.0, trail := [])
      ensures !stuck ==> r == Integrate(dt).Record().ReflectWalls(arenaW).CapSpeed(MaxSpeed, m)
      ensures r.radius == radius && r.stuck == stuck
      ensures |r.trail| <= TrailMax
    {
      if stuck then this.(x := p.CenterX(), y := p.y - radius - 2.0, trail := [])
      else Integrate(dt).Record().ReflectWalls(arenaW).CapSpeed(MaxSpeed, m)
    }
  }

  /** The launch direction: straight up, give or take 0.225 rad. */
  function LaunchAngle(u: Unit): (a: real)
    ensures -Pi / 2.0 - 0.225 <= a < -Pi / 2.0 + 0.225
  {
    -Pi / 2.0 + (u * 0.45 - 0.225)
  }

  /** `trail.splice(0, trail.length - max)` when the trail is too long: the newest `max` entries. */
  function Keep(t: seq<Sample>, max: nat): (r: seq<Sample>)
    ensures |r| == if |t| > max then max else |t|
    ensures r == t[|t| - |r|..]
  {
    if |t| > max then t[|t| - max..] else t
  }

  /** The constructor: a stuck ball at rest with an empty trail and the default speed bounds. */
  function NewBall(x: real, y: real, radius: real): (b: BallState)
    ensures b.stuck && b.vx == 0.0 && b.vy == 0.0 && b.trail == []
    ensures b.x == x && b.y == y && b.radius == radius
  {
    BallState(x, y, radius, 0.0, 0.0, true, [])
  }

  /** The squared speed of a ball. */
  function SpeedSq(b: BallState): real
  {
    b.vx * b.vx + b.vy * b.vy
  }

  /** Scaling a vector by s scales its squared length by s squared. */
  lemma ScaleSq(vx: real, vy: real, s: real)
    ensures (vx * s) * (vx * s) + (vy * s) * (vy * s) == (s * s) * (vx * vx + vy * vy)
  {
    var a, b, ss := vx * vx, vy * vy, s * s;
    assert (vx * s) * (vx * s) == ss * a;
    assert (vy * s) * (vy * s) == ss * b;
    assert ss * a + ss * b == ss * (a + b);
  }

  /** Division undone: (l / h) squared times h squared is l squared. */
  lemma RatioSq(l: real, h: real)
    requires h != 0.0
    ensures (l / h) * (l / h) * (h * h) == l * l
  {
    var s := l / h;
    assert s * h == l;
    var sh := s * h;
    assert (s * s) * (h * h) == sh * sh;
  }

  /** The factor the cap scales both velocity components by. */
  function CapFactor(b: BallState, limit: real, m: MathHost): real
    requires limit >= 0.0
  {
    var sp := m.hypot(b.vx, b.vy);
    if sp > limit then limit / sp else 1.0
  }

  /** Scaling (vx, vy) of length sp down by limit / sp gives length limit. */
  lemma ScaledToLimit(vx: real, vy: real, sp: real, limit: real)
    requires 0.0 <= limit < sp && sp * sp == vx * vx + vy * vy
    ensures (vx * (limit / sp)) * (vx * (limit / sp)) + (vy * (limit / sp)) * (vy * (limit / sp)) == limit * limit
  {
    var s := limit / sp;
    ScaleSq(vx, vy, s);
    RatioSq(limit, sp);
    var ss, spsq := s * s, sp * sp;
    assert ss * spsq == limit * limit;
  }

  /**
   * The cap keeps direction (one factor in [0, 1] on both components) and, with
   * an exact `hypot`, leaves the speed at most `limit`.
   */
  lemma CapSpeedBounds(b: BallState, limit: real, m: MathHost)
    requires limit >= 0.0 && HypotAt(m, b.vx, b.vy)
    ensures var r := b.CapSpeed(limit, m);
            var s := CapFactor(b, limit, m);
            && SpeedSq(r) <= limit * limit
            && 0.0 <= s <= 1.0 && r.vx == b.vx * s && r.vy == b.vy * s
  {
    var sp := m.hypot(b.vx, b.vy);
    HypotSquared(m, b.vx, b.vy, sp);
    if sp > limit {
      ScaledToLimit(b.vx, b.vy, sp, limit);
    } else {
      SquareMonotone(sp, limit);
    }
  }

  /** The walls keep a ball that fits the arena between them and below the top, and keep its speed. */
  lemma WallsKeepBallInside(b: BallState, arenaW: real)
    requires b.radius >= 0.0 && arenaW >= 2.0 * b.radius
    ensures var r := b.ReflectWalls(arenaW);
            && b.radius <= r.x <= arenaW - b.radius
            && r.y >= b.radius && r.y >= b.y
            && SpeedSq(r) == SpeedSq(b)
  {
    var r := b.ReflectWalls(arenaW);
    assert r.vx * r.vx == b.vx * b.vx;
    assert r.vy * r.vy == b.vy * b.vy;
  }

  /**
   * A free ball's `update` ends no faster than its maximum speed, however fast it
   * started, and its trail ends with the sample taken right after integration.
   */
  lemma FreeFlightBounds(b: BallState, dt: real, arenaW: real, p: PaddleState, m: MathHost)
    requires !b.stuck
    requires var w := b.Integrate(dt).Record().ReflectWalls(arenaW); HypotAt(m, w.vx, w.vy)
    ensures var r := b.Update(dt, arenaW, p, m);
            && SpeedSq(r) <= MaxSpeed * MaxSpeed
            && r.trail[|r.trail| - 1] == Sample(b.x + b.vx * dt, b.y + b.vy * dt, b.vx, b.vy)
  {
    var w := b.Integrate(dt).Record().ReflectWalls(arenaW);
    CapSpeedBounds(w, MaxSpeed, m);
  }

  /**
   * A launched ball leaves at exactly its minimum speed and, given sine and cosine
   * obey their laws at the launch angle, heads up the screen.
   */
  lemma LaunchSpeed(b: BallState, u: Unit, m: MathHost)
    requires b.stuck && TrigAt(m, LaunchAngle(u))
    ensures var r := b.Launch(u, m);
            SpeedSq(r) == MinSpeed * MinSpeed && r.vy < 0.0 && !r.stuck
  {
    var a := LaunchAngle(u);
    var c, s := m.cos(a), m.sin(a);
    var r := b.Launch(u, m);
    ScaleSq(c, s, MinSpeed);
    var cs := c * c + s * s;
    assert cs == 1.0;
    assert -Pi < a < 0.0;
    assert s < 0.0;
    assert r.vy == s * MinSpeed;
  }

  /** The ball of src/entities/Ball.js as an object whose methods update its fields in place. */
  class Ball {
    var x: real
    var y: real
    const radius: real
    var vx: real
    var vy: real
    var stuck: bool
    var trail: seq<Sample>

    function State(): BallState
      reads this
    {
      BallState(x, y, radius, vx, vy, stuck, trail)
    }

    constructor (x0: real, y0: real, radius0: real)
      ensures State() == NewBall(x0, y0, radius0)
    {
      x, y, radius := x0, y0, radius0;
      vx, vy := 0.0, 0.0;
      stuck := true;
      trail := [];
    }

    method ResetOnPaddle(paddle: Paddle)
      modifies this
      ensures State() == old(State()).ResetOnPaddle(paddle.State())
    {
      stuck := true;
      vx := 0.0;
      vy := 0.0;
      x := paddle.x + paddle.width / 2.0;
      y := paddle.y - radius - 2.0;
    }

    /** `launch()`, with the value of `Math.random` passed in. */
    method Launch(u: Unit, m: MathHost)
      modifies this
      ensures State() == old(State()).Launch(u, m)
    {
      if !stuck {
        return;
      }
      stuck := false;
      var angle := -Pi / 2.0 + (u * 0.45 - 0.225);
      var speed := MinSpeed;
      vx := m.cos(angle) * speed;
      vy := m.sin(angle) * speed;
    }

    method Update(dt: real, arenaW: real, paddle: Paddle, m: MathHost)
      modifies this
      ensures State() == old(State()).Update(dt, arenaW, paddle.State(), m)
    {
      if stuck {
        x := paddle.x + paddle.width / 2.0;
        y := paddle.y - radius - 2.0;
        trail := [];
        return;
      }
      ghost var s0 := State();
      x := x + vx * dt;
      y := y + vy * dt;
      assert State() == s0.Integrate(dt);
      Record();
      assert State() == s0.Integrate(dt).Record();
      ReflectWalls(arenaW);
      assert State() == s0.Integrate(dt).Record().ReflectWalls(arenaW);
      CapSpeed(MaxSpeed, m);
    }

    /** The trail history step of `update`. */
    method Record()
      modifies this
      ensures State() == old(State()).Record()
    {
      trail := trail + [Sample(x, y, vx, vy)];
      if |trail| > TrailMax {
        trail := trail[|trail| - TrailMax..];
      }
    }

    /** The walls step of `update`. */
    method ReflectWalls(arenaW: real)
      modifies this
      ensures State() == old(State()).ReflectWalls(arenaW)
    {
      if x - radius < 0.0 {
        x := radius;
        vx := vx * -1.0;
      } else if x + radius > arenaW {
        x := arenaW - radius;
        vx := vx * -1.0;
      }
      if y - radius < 0.0 {
        y := radius;
        vy := vy * -1.0;
      }
    }

    /** The speed clamp step of `update`. */
    method CapSpeed(limit: real, m: MathHost)
      requires limit >= 0.0
      modifies this
      ensures State() == old(State()).CapSpeed(limit, m)
    {
      var sp := m.hypot(vx, vy);
      if sp > limit {
        var s := limit / sp;
        vx := vx * s;
        vy := vy * s;
      }
    }
  }
}
