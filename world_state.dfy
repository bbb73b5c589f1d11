/**
 * The per-tick algorithm of src/game/World.js as functions on values: each phase
 * of `update` in its source order, and the properties of each.
 *
 * The callbacks the world is given (`onScore`, `onWin`, `onLifeLost`, `onSfx`)
 * become the events a tick returns, in the order the source calls them, and
 * `Math.random` is a stream threaded through the tick in call order.
 */
module Worlds {
  import opened Host
  import opened Collisions
  import opened Blocks
  import opened Paddles
  import opened Balls
  import opened Powerups

  /** `aabbOverlap`: the boxes overlap on both axes; touching edges do not count. */
  function AabbOverlap(a: Aabb, b: Aabb): (r: bool)
    ensures a.x + a.w == b.x || b.x + b.w == a.x || a.y + a.h == b.y || b.y + b.h == a.y ==> !r
    ensures a.w <= 0.0 && b.w <= 0.0 ==> !r
  {
    a.x < b.x + b.w && a.x + a.w > b.x && a.y < b.y + b.h && a.y + a.h > b.y
  }

  /** The point lies strictly inside the box. */
  ghost predicate StrictlyIn(px: real, py: real, a: Aabb)
  {
    a.x < px < a.x + a.w && a.y < py < a.y + a.h
  }

  /** For boxes of positive size, `aabbOverlap` means exactly that they share an interior point. */
  lemma AabbOverlapMeansSharedPoint(a: Aabb, b: Aabb)
    requires a.w > 0.0 && a.h > 0.0 && b.w > 0.0 && b.h > 0.0
    ensures AabbOverlap(a, b) <==> exists px, py :: StrictlyIn(px, py, a) && StrictlyIn(px, py, b)
  {
    if AabbOverlap(a, b) {
      var px := (Max(a.x, b.x) + Min(a.x + a.w, b.x + b.w)) / 2.0;
      var py := (Max(a.y, b.y) + Min(a.y + a.h, b.y + b.h)) / 2.0;
      assert StrictlyIn(px, py, a) && StrictlyIn(px, py, b);
    }
  }

  // ----- effects and juice -----

  /** The timers of the wide, slow and sticky effects, in seconds. */
  datatype Effects = Effects(wide: real, slow: real, sticky: real)

  /** Screen shake and flash, consumed only by rendering. */
  datatype Juice = Juice(shakeT: real, shakeMag: real, flashT: real)

  /** One running timer counts down to zero; a timer at or below zero is left alone. */
  function DecayTimer(t: real, dt: real): (r: real)
    ensures t > 0.0 ==> r == Max(0.0, t - dt)
    ensures t <= 0.0 ==> r == t
    ensures t >= 0.0 && dt >= 0.0 ==> 0.0 <= r <= t
  {
    if t > 0.0 then Max(0.0, t - dt) else t
  }

  /** The timer part of `_applyPowerup`: each effect's timer is raised to its duration, never lowered. */
  function ApplyTimer(e: Effects, kind: PowerupType): (r: Effects)
    ensures r.wide >= e.wide && r.slow >= e.slow && r.sticky >= e.sticky
    ensures kind == Wide ==> r.wide >= 12.0 && r.slow == e.slow && r.sticky == e.sticky
    ensures kind == Slow ==> r.slow >= 10.0 && r.wide == e.wide && r.sticky == e.sticky
    ensures kind == Sticky ==> r.sticky >= 10.0 && r.wide == e.wide && r.slow == e.slow
    ensures kind == Multiball ==> r == e
  {
    match kind
    case Wide => e.(wide := Max(e.wide, 12.0))
    case Slow => e.(slow := Max(e.slow, 10.0))
    case Sticky => e.(sticky := Max(e.sticky, 10.0))
    case Multiball => e
  }

  /**
   * Picking up an effect power-up sets its timer to the larger of what is left and
   * its duration (12 s wide, 10 s slow and sticky): never additive, never
   * shorter, the other timers untouched, and picking it up twice is picking it up once.
   */
  lemma ApplyTimerIsMaxMerge(e: Effects, kind: PowerupType)
    ensures var r := ApplyTimer(e, kind);
            && r.wide == (if kind == Wide then Max(e.wide, 12.0) else e.wide)
            && r.slow == (if kind == Slow then Max(e.slow, 10.0) else e.slow)
            && r.sticky == (if kind == Sticky then Max(e.sticky, 10.0) else e.sticky)
            && r.wide >= e.wide && r.slow >= e.slow && r.sticky >= e.sticky
            && ApplyTimer(r, kind) == r
  {
  }

  /** `_juice`: each field is raised to the requested value, never lowered. */
  function Bump(j: Juice, shakeT: real, shakeMag: real, flashT: real): (r: Juice)
    ensures r.shakeT >= j.shakeT && r.shakeT >= shakeT && (r.shakeT == j.shakeT || r.shakeT == shakeT)
    ensures r.shakeMag >= j.shakeMag && r.shakeMag >= shakeMag && (r.shakeMag == j.shakeMag || r.shakeMag == shakeMag)
    ensures r.flashT >= j.flashT && r.flashT >= flashT && (r.flashT == j.flashT || r.flashT == flashT)
  {
    Juice(Max(j.shakeT, shakeT), Max(j.shakeMag, shakeMag), Max(j.flashT, flashT))
  }

  /** The order of `_juice` calls within a tick does not matter. */
  lemma BumpCommutes(j: Juice, a: (real, real, real), b: (real, real, real))
    ensures Bump(Bump(j, a.0, a.1, a.2), b.0, b.1, b.2) == Bump(Bump(j, b.0, b.1, b.2), a.0, a.1, a.2)
  {
  }

  /** What the callbacks would have been told, in order. */
  datatype Event = OnScore(points: int) | OnWin | OnLifeLost | OnSfx(cue: string)

  /** Only scores and sound cues: what every phase but the last emits. */
  predicate Routine(evs: seq<Event>)
  {
    forall k :: 0 <= k < |evs| ==> evs[k].OnScore? || evs[k].OnSfx?
  }

  /** The world's fixed surroundings: the arena, whether an `onSfx` was given, and `Math`. */
  datatype Env = Env(arenaW: real, arenaH: real, hasSfx: bool, math: MathHost)

  /** `onSfx(name)` when an `onSfx` callback was given. */
  function Cue(env: Env, name: string): (r: seq<Event>)
    ensures Routine(r) && |r| <= 1
  {
    if env.hasSfx then [OnSfx(name)] else []
  }

  /** Everything of a world that a tick changes. */
  datatype WorldState = WorldState(
    paddle: PaddleState, balls: seq<BallState>, blocks: seq<BlockState>,
    powerups: seq<PowerupState>, effects: Effects, juice: Juice)

  /** The paddle has a positive width to return to and a positive width now. */
  predicate Valid(w: WorldState)
  {
    w.paddle.baseWidth > 0.0 && w.paddle.width > 0.0
  }

  /** Part-way through a tick: the world, the events so far and the random stream. */
  datatype Step = Step(w: WorldState, events: seq<Event>, rng: Random)

  // ----- 1. effect timers -----

  /** Every timer decays; then a wide timer at zero restores the paddle's base width. */
  function DecayEffects(w: WorldState, dt: real): (r: WorldState)
    ensures r.effects == Effects(DecayTimer(w.effects.wide, dt), DecayTimer(w.effects.slow, dt), DecayTimer(w.effects.sticky, dt))
    ensures r.paddle == if r.effects.wide == 0.0 then w.paddle.ResetSize() else w.paddle
    ensures r == w.(effects := r.effects, paddle := r.paddle)
    ensures Valid(w) ==> Valid(r)
  {
    var e := Effects(DecayTimer(w.effects.wide, dt), DecayTimer(w.effects.slow, dt), DecayTimer(w.effects.sticky, dt));
    w.(effects := e, paddle := if e.wide == 0.0 then w.paddle.ResetSize() else w.paddle)
  }

  // ----- 3. launching -----

  /** `b.launch()`, drawing from the stream only when the ball is stuck. */
  function LaunchOne(b: BallState, rng: Random, m: MathHost): (r: (BallState, Random))
    ensures b.stuck ==> r == (b.Launch(rng.stream(rng.pos), m), rng.(pos := rng.pos + 1))
    ensures !b.stuck ==> r == (b, rng)
  {
    if b.stuck then
      var d := rng.Draw();
      (b.Launch(d.0, m), d.1)
    else (b, rng)
  }

  /** How many of the balls are stuck. */
  function CountStuck(bs: seq<BallState>): nat
  {
    if bs == [] then 0 else CountStuck(bs[..|bs| - 1]) + (if bs[|bs| - 1].stuck then 1 else 0)
  }

  /**
   * `for (const b of this.balls) b.launch()`: the i-th stuck ball takes the i-th
   * value drawn, the free ones draw nothing.
   */
  function LaunchAll(bs: seq<BallState>, rng: Random, m: MathHost): (r: (seq<BallState>, Random))
    ensures |r.0| == |bs|
    ensures r.1 == rng.(pos := rng.pos + CountStuck(bs))
  {
    if bs == [] then ([], rng)
    else
      var done := LaunchAll(bs[..|bs| - 1], rng, m);
      var last := LaunchOne(bs[|bs| - 1], done.1, m);
      (done.0 + [last.0], last.1)
  }

  /**
   * One more ball of the launch loop: launching ball i of a list whose first i
   * balls have been through the pass gives the pass over the first i + 1.
   */
  lemma LaunchPrefix(bs: seq<BallState>, i: nat, rng: Random, m: MathHost, cur: seq<BallState>)
    requires i < |bs| && cur == LaunchAll(bs[..i], rng, m).0 + bs[i..]
    ensures cur[i] == bs[i]
    ensures var one := LaunchOne(bs[i], LaunchAll(bs[..i], rng, m).1, m);
            && cur[i := one.0] == LaunchAll(bs[..i + 1], rng, m).0 + bs[i + 1..]
            && one.1 == LaunchAll(bs[..i + 1], rng, m).1
    ensures !bs[i].stuck ==> cur == LaunchAll(bs[..i + 1], rng, m).0 + bs[i + 1..]
  {
    assert bs[..i + 1][..i] == bs[..i];
    var one := LaunchOne(bs[i], LaunchAll(bs[..i], rng, m).1, m);
    assert cur[i := one.0] == LaunchAll(bs[..i], rng, m).0 + [one.0] + bs[i + 1..];
    if !bs[i].stuck {
      assert cur[i := one.0] == cur;
    }
  }

  /**
   * The launch pass, ball by ball: the i-th stuck ball takes the draw after those
   * of the stuck balls before it; a free ball is left as it is.
   */
  lemma {:induction false} LaunchAllPointwise(bs: seq<BallState>, rng: Random, m: MathHost)
    ensures forall i :: 0 <= i < |bs| ==>
              LaunchAll(bs, rng, m).0[i] == if bs[i].stuck then bs[i].Launch(rng.stream(rng.pos + CountStuck(bs[..i])), m) else bs[i]
  {
    if bs != [] {
      var init := bs[..|bs| - 1];
      LaunchAllPointwise(init, rng, m);
      assert forall i :: 0 <= i < |init| ==> init[..i] == bs[..i];
      assert bs[..|bs| - 1] == init;
    }
  }

  /** After the launch pass no ball is stuck. */
  lemma LaunchFreesEveryBall(bs: seq<BallState>, rng: Random, m: MathHost)
    ensures forall i :: 0 <= i < |bs| ==> !LaunchAll(bs, rng, m).0[i].stuck
  {
    LaunchAllPointwise(bs, rng, m);
  }

  // ----- 4. free flight -----

  /** `ball.update(dt, env)` for every ball, against the paddle as just moved. */
  function StepBalls(bs: seq<BallState>, dt: real, arenaW: real, p: PaddleState, m: MathHost): (r: seq<BallState>)
    ensures |r| == |bs|
    ensures forall i :: 0 <= i < |bs| ==> r[i] == bs[i].Update(dt, arenaW, p, m)
  {
    seq(|bs|, i requires 0 <= i < |bs| => bs[i].Update(dt, arenaW, p, m))
  }

  // ----- 5. power-ups -----

  /** `p.update(dt)` for every power-up. */
  function FallAll(ps: seq<PowerupState>, dt: real): (r: seq<PowerupState>)
    ensures |r| == |ps|
    ensures forall i :: 0 <= i < |ps| ==> r[i] == ps[i].Fall(dt)
  {
    seq(|ps|, i requires 0 <= i < |ps| => ps[i].Fall(dt))
  }

  /** `balls.find((b) => !b.stuckToPaddle)`: the index of the first free ball. */
  function FirstFree(bs: seq<BallState>): (r: Option<nat>)
    ensures r.Some? ==> r.value < |bs| && !bs[r.value].stuck
    ensures r.Some? ==> forall j :: 0 <= j < r.value ==> bs[j].stuck
    ensures r.None? ==> forall j :: 0 <= j < |bs| ==> bs[j].stuck
  {
    if bs == [] then None
    else if !bs[0].stuck then Some(0)
    else
      match FirstFree(bs[1..])
      case None => None
      case Some(j) => Some(j + 1)
  }

  /** The reference ball of a multi-ball: the first free one, else the first. */
  function RefIndex(bs: seq<BallState>): (k: nat)
    requires |bs| > 0
    ensures k < |bs|
  {
    match FirstFree(bs)
    case Some(j) => j
    case None => 0
  }

  /** One extra ball of a multi-ball: free, at the reference's place and size, heading at angle `a`. */
  function Twin(ref: BallState, a: real, speed: real, m: MathHost): (b: BallState)
    ensures !b.stuck && b.x == ref.x && b.y == ref.y && b.radius == ref.radius && b.trail == []
    ensures b.vx == m.cos(a) * speed && b.vy == m.sin(a) * speed
  {
    NewBall(ref.x, ref.y, ref.radius).(stuck := false, vx := m.cos(a) * speed, vy := m.sin(a) * speed)
  }

  /**
   * `_spawnMultiBall`: nothing without balls; otherwise the reference ball is
   * launched if it was stuck, and two balls are appended that share its place
   * and speed (at least the minimum) at 0.35 rad either side of its heading.
   */
  function SpawnMultiBall(bs: seq<BallState>, rng: Random, m: MathHost): (r: (seq<BallState>, Random))
    ensures |bs| == 0 ==> r == (bs, rng)
    ensures |bs| > 0 ==> |r.0| == |bs| + 2
    ensures |bs| > 0 ==>
              var k := RefIndex(bs);
              var ref := LaunchOne(bs[k], rng, m);
              && r.0[..|bs|] == bs[k := ref.0]
              && r.1 == ref.1
  {
    if |bs| == 0 then (bs, rng)
    else
      var k := RefIndex(bs);
      var launched := LaunchOne(bs[k], rng, m);
      var ref := launched.0;
      var base := m.atan2(ref.vy, ref.vx);
      var speed := Max(MinSpeed, m.hypot(ref.vx, ref.vy));
      (bs[k := ref] + [Twin(ref, base + 0.35, speed, m), Twin(ref, base - 0.35, speed, m)], launched.1)
  }

  /**
   * The two balls a multi-ball adds are free, sit where the reference ball is,
   * head 0.35 rad either side of its heading, and both move at s, the reference's
   * speed or the minimum speed, whichever is larger.
   */
  lemma MultiBallTwins(bs: seq<BallState>, rng: Random, m: MathHost)
    requires |bs| > 0 && Lawful(m)
    ensures var r := SpawnMultiBall(bs, rng, m).0;
            var ref := r[RefIndex(bs)];
            var s := Max(MinSpeed, m.hypot(ref.vx, ref.vy));
            var base := m.atan2(ref.vy, ref.vx);
            && !ref.stuck
            && r[|bs|] == Twin(ref, base + 0.35, s, m)
            && r[|bs| + 1] == Twin(ref, base - 0.35, s, m)
            && forall t :: |bs| <= t < |bs| + 2 ==>
                 && !r[t].stuck && r[t].x == ref.x && r[t].y == ref.y && r[t].radius == ref.radius
                 && SpeedSq(r[t]) == s * s >= MinSpeed * MinSpeed
  {
    var r := SpawnMultiBall(bs, rng, m).0;
    var k := RefIndex(bs);
    var ref := r[k];
    assert ref == LaunchOne(bs[k], rng, m).0;
    var speed := Max(MinSpeed, m.hypot(ref.vx, ref.vy));
    var base := m.atan2(ref.vy, ref.vx);
    TwinSpeed(ref, base + 0.35, speed, m);
    TwinSpeed(ref, base - 0.35, speed, m);
  }

  /** A twin moves at exactly the speed it is given, when sine and cosine obey their laws. */
  lemma TwinSpeed(ref: BallState, a: real, speed: real, m: MathHost)
    requires TrigAt(m, a) && speed >= MinSpeed
    ensures SpeedSq(Twin(ref, a, speed, m)) == speed * speed >= MinSpeed * MinSpeed
  {
    var c, s := m.cos(a), m.sin(a);
    ScaleSq(c, s, speed);
    var cs := c * c + s * s;
    assert cs == 1.0;
    SquareMonotone(MinSpeed, speed);
  }

  /**
   * `_applyPowerup(type)`: wide, slow and sticky raise their timer, wide also
   * widens the paddle to 1.6 times its base width, and multi-ball spawns balls.
   */
  function ApplyPowerup(st: Step, kind: PowerupType, m: MathHost): (r: Step)
    ensures r.w.effects == ApplyTimer(st.w.effects, kind)
    ensures r.events == st.events
    ensures r.w.powerups == st.w.powerups && r.w.blocks == st.w.blocks && r.w.juice == st.w.juice
    ensures r.w.paddle == if kind == Wide then st.w.paddle.SetWidth(st.w.paddle.baseWidth * 1.6) else st.w.paddle
    ensures kind == Multiball ==> (r.w.balls, r.rng) == SpawnMultiBall(st.w.balls, st.rng, m)
    ensures kind != Multiball ==> r.w.balls == st.w.balls && r.rng == st.rng
    ensures Valid(st.w) ==> Valid(r.w)
  {
    var e := ApplyTimer(st.w.effects, kind);
    match kind
    case Wide => st.(w := st.w.(effects := e, paddle := st.w.paddle.SetWidth(st.w.paddle.baseWidth * 1.6)))
    case Slow => st.(w := st.w.(effects := e))
    case Sticky => st.(w := st.w.(effects := e))
    case Multiball =>
      var spawned := SpawnMultiBall(st.w.balls, st.rng, m);
      Step(st.w.(balls := spawned.0), st.events, spawned.1)
  }

  /**
   * The body of the collection loop for power-up i: a dead one is skipped; one
   * overlapping the paddle is marked dead, bumps the juice, cues "powerup" and is
   * applied; one that has fallen 30 below the arena is marked dead.
   */
  function CollectOne(st: Step, i: nat, env: Env): (r: Step)
    requires i < |st.w.powerups|
    ensures |r.w.powerups| == |st.w.powerups|
    ensures forall k :: 0 <= k < |st.w.powerups| && k != i ==> r.w.powerups[k] == st.w.powerups[k]
    ensures r.w.blocks == st.w.blocks
    ensures Routine(st.events) ==> Routine(r.events)
    ensures Valid(st.w) ==> Valid(r.w)
  {
    var p := st.w.powerups[i];
    if p.dead then st
    else
      var st1 :=
        if AabbOverlap(p.Box(), st.w.paddle.Box()) then
          var w1 := st.w.(powerups := st.w.powerups[i := p.(dead := true)], juice := Bump(st.w.juice, 0.08, 5.0, 0.06));
          ApplyPowerup(Step(w1, st.events + Cue(env, "powerup"), st.rng), p.kind, env.math)
        else st;
      var p1 := st1.w.powerups[i];
      if p1.y - p1.size / 2.0 > env.arenaH + 30.0 then
        st1.(w := st1.w.(powerups := st1.w.powerups[i := p1.(dead := true)]))
      else st1
  }

  /**
   * What the collection loop does with power-up i: a dead one is skipped; a live
   * one overlapping the paddle is picked up (marked dead, its effect applied, the
   * juice bumped and "powerup" cued); a live one clear of the paddle only falls
   * out, marked dead, once its top is more than 30 below the arena.
   */
  lemma CollectRule(st: Step, i: nat, env: Env)
    requires i < |st.w.powerups|
    ensures var p := st.w.powerups[i];
            var r := CollectOne(st, i, env);
            && (p.dead ==> r == st)
            && (!p.dead && AabbOverlap(p.Box(), st.w.paddle.Box()) ==>
                  var applied := ApplyPowerup(st, p.kind, env.math);
                  && r.w.powerups[i].dead
                  && r.w.effects == ApplyTimer(st.w.effects, p.kind)
                  && r.w.paddle == applied.w.paddle && r.w.balls == applied.w.balls && r.rng == applied.rng
                  && r.w.juice == Bump(st.w.juice, 0.08, 5.0, 0.06)
                  && r.events == st.events + Cue(env, "powerup"))
            && (!p.dead && !AabbOverlap(p.Box(), st.w.paddle.Box()) ==>
                  && r.w == st.w.(powerups := r.w.powerups) && r.events == st.events && r.rng == st.rng
                  && r.w.powerups[i] == p.(dead := p.y - p.size / 2.0 > env.arenaH + 30.0))
  {
    var p := st.w.powerups[i];
    if !p.dead && AabbOverlap(p.Box(), st.w.paddle.Box()) {
      var w1 := st.w.(powerups := st.w.powerups[i := p.(dead := true)], juice := Bump(st.w.juice, 0.08, 5.0, 0.06));
      var st1 := ApplyPowerup(Step(w1, st.events + Cue(env, "powerup"), st.rng), p.kind, env.math);
      assert st1.w.powerups[i].dead;
    }
  }

  /** The collection loop over the first n power-ups. */
  function CollectUpTo(st: Step, n: nat, env: Env): (r: Step)
    requires n <= |st.w.powerups|
    ensures |r.w.powerups| == |st.w.powerups|
    ensures forall k :: n <= k < |st.w.powerups| ==> r.w.powerups[k] == st.w.powerups[k]
    ensures r.w.blocks == st.w.blocks
    ensures Routine(st.events) ==> Routine(r.events)
    ensures Valid(st.w) ==> Valid(r.w)
  {
    if n == 0 then st else CollectOne(CollectUpTo(st, n - 1, env), n - 1, env)
  }

  /** No power-up in the list is dead. */
  predicate AllLive(ps: seq<PowerupState>)
  {
    forall k :: 0 <= k < |ps| ==> !ps[k].dead
  }

  /** `powerups.filter((p) => !p.dead)`. */
  function LivePowerups(ps: seq<PowerupState>): (r: seq<PowerupState>)
    ensures |r| <= |ps|
    ensures forall k :: 0 <= k < |r| ==> !r[k].dead
    ensures forall p :: p in ps && !p.dead <==> p in r
  {
    if ps == [] then []
    else
      var init := LivePowerups(ps[..|ps| - 1]);
      var last := ps[|ps| - 1];
      assert ps == ps[..|ps| - 1] + [last];
      if last.dead then init else init + [last]
  }

  /**
   * The sweep keeps the live power-ups in their order and each as often as it
   * occurs: sweeping a list in two parts is sweeping each part.
   */
  lemma {:induction false} LivePowerupsSplits(a: seq<PowerupState>, b: seq<PowerupState>)
    ensures LivePowerups(a + b) == LivePowerups(a) + LivePowerups(b)
  {
    if b == [] {
      assert a + b == a;
      assert LivePowerups(a) + LivePowerups(b) == LivePowerups(a);
    } else {
      var init := b[..|b| - 1];
      var last := b[|b| - 1];
      var t: seq<PowerupState> := if last.dead then [] else [last];
      LivePowerupsSplits(a, init);
      assert (a + b)[..|a + b| - 1] == a + init;
      assert (a + b)[|a + b| - 1] == last;
      calc {
        LivePowerups(a + b);
        LivePowerups(a + init) + t;
        (LivePowerups(a) + LivePowerups(init)) + t;
        LivePowerups(a) + (LivePowerups(init) + t);
        LivePowerups(a) + LivePowerups(b);
      }
    }
  }

  /** Sweeping one power-up keeps it exactly when it is live. */
  lemma LivePowerupsOne(p: PowerupState)
    ensures LivePowerups([p]) == if p.dead then [] else [p]
  {
    assert [p][..0] == [];
  }

  // ----- 6. juice decay -----

  function DecayJuice(j: Juice, dt: real): (r: Juice)
    ensures r == j.(shakeT := DecayTimer(j.shakeT, dt), flashT := DecayTimer(j.flashT, dt))
  {
    j.(shakeT := DecayTimer(j.shakeT, dt), flashT := DecayTimer(j.flashT, dt))
  }

  // ----- 7. paddle collisions -----

  /** Where on the paddle the ball struck, from -1 (left end) to 1 (right end). */
  function StrikeOffset(b: BallState, p: PaddleState): (r: real)
    requires p.width != 0.0
    ensures -1.0 <= r <= 1.0
  {
    Max(-1.0, Min(1.0, (b.x - p.CenterX()) / (p.width / 2.0)))
  }

  /** The heading after a paddle bounce: straight up, tilted by up to 0.4 Pi towards the struck side. */
  function BounceAngle(b: BallState, p: PaddleState): (a: real)
    requires p.width != 0.0
    ensures -Pi / 2.0 - Pi * 0.40 <= a <= -Pi / 2.0 + Pi * 0.40
  {
    -Pi / 2.0 + StrikeOffset(b, p) * (Pi * 0.40)
  }

  /** `Math.sign(vx || clamped || 1)`: the first non-zero of the three decides. */
  function StallSign(vx: real, clamped: real): (r: real)
    ensures r == 1.0 || r == -1.0
  {
    Sign(if vx != 0.0 then vx else if clamped != 0.0 then clamped else 1.0)
  }

  /**
   * The non-sticky paddle bounce: the ball is put just above the paddle and leaves
   * at the bounce angle at no less than the minimum speed; a near-vertical result
   * gets a horizontal speed of 60.
   */
  function Bounce(b: BallState, p: PaddleState, m: MathHost): (r: BallState)
    requires p.width != 0.0
    ensures r == b.(y := p.y - b.radius - 0.5, vx := r.vx, vy := r.vy)
    ensures Abs(r.vx) >= 60.0
  {
    var vy1 := -Abs(b.vy);
    var clamped := StrikeOffset(b, p);
    var speed := Max(MinSpeed, m.hypot(b.vx, vy1));
    var angle := BounceAngle(b, p);
    var vx2 := m.cos(angle) * speed;
    var vy2 := m.sin(angle) * speed;
    var vx3 := if Abs(vx2) < 60.0 then 60.0 * StallSign(vx2, clamped) else vx2;
    b.(y := p.y - b.radius - 0.5, vx := vx3, vy := vy2)
  }

  /**
   * Given sine and cosine obey their laws at the bounce angle, a bounced ball heads
   * up the screen, sideways at 60 or more, at no less than the minimum speed.
   */
  lemma BounceSendsBallUp(b: BallState, p: PaddleState, m: MathHost)
    requires p.width != 0.0 && TrigAt(m, BounceAngle(b, p))
    ensures var r := Bounce(b, p, m);
            r.vy < 0.0 && Abs(r.vx) >= 60.0 && SpeedSq(r) >= MinSpeed * MinSpeed
  {
    var r := Bounce(b, p, m);
    var angle := BounceAngle(b, p);
    var speed := Max(MinSpeed, m.hypot(b.vx, -Abs(b.vy)));
    var c, s := m.cos(angle), m.sin(angle);
    assert -Pi < angle < 0.0;
    UpwardAtSpeed(c, s, speed, r.vx, r.vy);
  }

  /**
   * A heading (c, s) on the unit circle pointing up the screen, taken at a speed of
   * at least the minimum, with its horizontal part raised to 60 when smaller, keeps
   * heading up at no less than the minimum speed.
   */
  lemma UpwardAtSpeed(c: real, s: real, speed: real, vx: real, vy: real)
    requires c * c + s * s == 1.0 && s < 0.0 && speed >= MinSpeed
    requires vy == s * speed
    requires Abs(c * speed) < 60.0 ==> vx == 60.0 || vx == -60.0
    requires Abs(c * speed) >= 60.0 ==> vx == c * speed
    ensures vy < 0.0 && vx * vx + vy * vy >= MinSpeed * MinSpeed
  {
    ScaleSq(c, s, speed);
    var cs := c * c + s * s;
    assert cs == 1.0;
    SquareMonotone(MinSpeed, speed);
    var vx2 := c * speed;
    if Abs(vx2) < 60.0 {
      SquareMonotone(Abs(vx2), 60.0);
      assert vx * vx == 3600.0;
      assert Abs(vx2) * Abs(vx2) == vx2 * vx2;
    }
  }

  /**
   * The body of the paddle loop for ball i: a free ball touching the paddle is
   * reattached while sticky is active and bounced otherwise; either way the juice
   * is bumped and "paddle" cued.
   */
  function PaddleOne(st: Step, i: nat, env: Env): (r: Step)
    requires i < |st.w.balls| && st.w.paddle.width > 0.0
    ensures |r.w.balls| == |st.w.balls|
    ensures forall k :: 0 <= k < |st.w.balls| && k != i ==> r.w.balls[k] == st.w.balls[k]
    ensures r.w == st.w.(balls := r.w.balls, juice := r.w.juice)
    ensures r.rng == st.rng
    ensures Routine(st.events) ==> Routine(r.events)
  {
    var b := st.w.balls[i];
    var p := st.w.paddle;
    if b.stuck || !CircleVsAabb(b.x, b.y, b.radius, p.Box()) then st
    else
      var b1 := if st.w.effects.sticky > 0.0 then b.ResetOnPaddle(p) else Bounce(b, p, env.math);
      Step(st.w.(balls := st.w.balls[i := b1], juice := Bump(st.w.juice, 0.04, 3.0, 0.04)),
           st.events + Cue(env, "paddle"), st.rng)
  }

  /**
   * What the paddle does to ball i: a stuck ball, or one clear of the paddle, is
   * left alone and nothing happens. A ball touching it bumps the juice and cues
   * "paddle"; while sticky runs it is reattached, stuck and still, centred 2 above
   * the paddle, and otherwise it is bounced, which sends it up the screen from
   * just above the paddle when sine and cosine obey their laws.
   */
  lemma PaddleContact(st: Step, i: nat, env: Env)
    requires i < |st.w.balls| && st.w.paddle.width > 0.0
    ensures var b := st.w.balls[i];
            var p := st.w.paddle;
            var r := PaddleOne(st, i, env);
            && (b.stuck || !CircleVsAabb(b.x, b.y, b.radius, p.Box()) ==> r == st)
            && (!b.stuck && CircleVsAabb(b.x, b.y, b.radius, p.Box()) ==>
                  && r.events == st.events + Cue(env, "paddle")
                  && r.w.juice == Bump(st.w.juice, 0.04, 3.0, 0.04)
                  && (st.w.effects.sticky > 0.0 ==>
                        && r.w.balls[i] == b.ResetOnPaddle(p)
                        && r.w.balls[i].stuck && r.w.balls[i].vx == 0.0 && r.w.balls[i].vy == 0.0
                        && r.w.balls[i].x == p.CenterX() && r.w.balls[i].y == p.y - b.radius - 2.0)
                  && (st.w.effects.sticky <= 0.0 ==> r.w.balls[i] == Bounce(b, p, env.math))
                  && (st.w.effects.sticky <= 0.0 && TrigAt(env.math, BounceAngle(b, p)) ==>
                        r.w.balls[i].vy < 0.0 && r.w.balls[i].y == p.y - b.radius - 0.5))
  {
    var b := st.w.balls[i];
    var p := st.w.paddle;
    if !b.stuck && CircleVsAabb(b.x, b.y, b.radius, p.Box()) && st.w.effects.sticky <= 0.0 && TrigAt(env.math, BounceAngle(b, p)) {
      BounceSendsBallUp(b, p, env.math);
    }
  }

  /** The paddle loop over the first n balls. */
  function PaddleUpTo(st: Step, n: nat, env: Env): (r: Step)
    requires n <= |st.w.balls| && st.w.paddle.width > 0.0
    ensures |r.w.balls| == |st.w.balls|
    ensures forall k :: n <= k < |st.w.balls| ==> r.w.balls[k] == st.w.balls[k]
    ensures r.w == st.w.(balls := r.w.balls, juice := r.w.juice)
    ensures r.rng == st.rng
    ensures Routine(st.events) ==> Routine(r.events)
  {
    if n == 0 then st else PaddleOne(PaddleUpTo(st, n - 1, env), n - 1, env)
  }

  // ----- 8. block collisions -----

  /** A live block the ball's circle overlaps. */
  predicate Touches(b: BallState, k: BlockState)
    ensures Touches(b, k) ==> !k.dead
    ensures !k.dead && k.Box().x <= b.x <= k.Box().x + k.Box().w && k.Box().y <= b.y <= k.Box().y + k.Box().h ==> Touches(b, k)
  {
    !k.dead && CircleVsAabb(b.x, b.y, b.radius, k.Box())
  }

  /** The first live block the ball overlaps, in list order. */
  function FirstContact(b: BallState, blocks: seq<BlockState>): (r: Option<nat>)
    ensures r.Some? ==> r.value < |blocks| && Touches(b, blocks[r.value])
    ensures r.Some? ==> forall j :: 0 <= j < r.value ==> !Touches(b, blocks[j])
    ensures r.None? ==> forall j :: 0 <= j < |blocks| ==> !Touches(b, blocks[j])
  {
    if blocks == [] then None
    else if Touches(b, blocks[0]) then Some(0)
    else
      match FirstContact(b, blocks[1..])
      case None => None
      case Some(j) => Some(j + 1)
  }

  /**
   * The ball's response to a block: moved as the resolver leaves it, vx turned
   * round for an x-axis contact and vy turned round otherwise, null resolution included.
   */
  function Deflect(b: BallState, box: Aabb, m: MathHost): (r: BallState)
    ensures var res := ResolveCircleAabb(Circle(b.x, b.y, b.radius), box, m);
            && r.x == res.circle.x && r.y == res.circle.y
            && (res.contact.Some? && res.contact.value.axis == X ==> r.vx == -b.vx && r.vy == b.vy)
            && (!(res.contact.Some? && res.contact.value.axis == X) ==> r.vx == b.vx && r.vy == -b.vy)
            && r == b.(x := r.x, y := r.y, vx := r.vx, vy := r.vy)
  {
    var res := ResolveCircleAabb(Circle(b.x, b.y, b.radius), box, m);
    var b1 := b.(x := res.circle.x, y := res.circle.y);
    if res.contact.Some? && res.contact.value.axis == X then b1.(vx := -b1.vx) else b1.(vy := -b1.vy)
  }

  /** A block the explosion centred on grid cell (r0, c0) hits: live, breakable, in a neighbouring cell. */
  predicate InBlast(k: BlockState, r0: int, c0: int)
    ensures InBlast(k, r0, c0) ==> !k.dead && k.IsBreakable() && k.row.Some? && k.col.Some?
    ensures k.row == Some(r0) && k.col == Some(c0) ==> !InBlast(k, r0, c0)
    ensures InBlast(k, r0, c0) ==> r0 - 1 <= k.row.value <= r0 + 1 && c0 - 1 <= k.col.value <= c0 + 1
  {
    && !k.dead && k.IsBreakable() && k.row.Some? && k.col.Some?
    && var dr := AbsInt(k.row.value - r0);
       var dc := AbsInt(k.col.value - c0);
       !(dr == 0 && dc == 0) && dr <= 1 && dc <= 1
  }

  function AbsInt(a: int): nat
  {
    if a < 0 then -a else a
  }

  /** The explosion's effect on one block: one hit if it is in the blast, and its score if that destroyed it. */
  function BlastOne(k: BlockState, r0: int, c0: int): (r: (BlockState, seq<Event>))
    ensures !InBlast(k, r0, c0) ==> r == (k, [])
    ensures InBlast(k, r0, c0) ==> r.0.hp == k.hp - 1 && r.0 == k.(hp := r.0.hp, dead := r.0.dead)
    ensures InBlast(k, r0, c0) ==> (r.1 == [OnScore(k.score)] <==> k.hp - 1 <= 0) && (r.1 == [] <==> k.hp - 1 > 0)
  {
    if InBlast(k, r0, c0) then
      var hr := k.Hit();
      (hr.block, if hr.destroyed then [OnScore(k.score)] else [])
    else (k, [])
  }

  /**
   * The explosion loop of `_onBlockDestroyed`: every block in the blast is hit
   * exactly once, in list order, with its score reported when that destroys it;
   * nothing else changes and nothing chains.
   */
  function Blast(bs: seq<BlockState>, r0: int, c0: int): (r: (seq<BlockState>, seq<Event>))
    ensures |r.0| == |bs|
    ensures forall k :: 0 <= k < |r.1| ==> r.1[k].OnScore?
  {
    if bs == [] then ([], [])
    else
      var init := Blast(bs[..|bs| - 1], r0, c0);
      var last := BlastOne(bs[|bs| - 1], r0, c0);
      (init.0 + [last.0], init.1 + last.1)
  }

  /**
   * One more block of the explosion loop: hitting block k of a list whose first k
   * blocks have had the blast gives the blast of the first k + 1.
   */
  lemma BlastPrefix(bs: seq<BlockState>, k: nat, r0: int, c0: int, cur: seq<BlockState>)
    requires k < |bs| && cur == Blast(bs[..k], r0, c0).0 + bs[k..]
    ensures cur[k] == bs[k]
    ensures cur[k := BlastOne(bs[k], r0, c0).0] == Blast(bs[..k + 1], r0, c0).0 + bs[k + 1..]
    ensures Blast(bs[..k + 1], r0, c0).1 == Blast(bs[..k], r0, c0).1 + BlastOne(bs[k], r0, c0).1
  {
    assert bs[..k + 1][..k] == bs[..k];
    var done := Blast(bs[..k], r0, c0).0;
    assert cur[k := BlastOne(bs[k], r0, c0).0] == done + [BlastOne(bs[k], r0, c0).0] + bs[k + 1..];
  }

  /**
   * No chain reactions: after an explosion each block is as it was or has taken
   * exactly one hit, and only blocks in the blast have changed.
   */
  lemma {:induction false} BlastHitsOnce(bs: seq<BlockState>, r0: int, c0: int)
    ensures forall i :: 0 <= i < |bs| ==>
              var after := Blast(bs, r0, c0).0[i];
              && (InBlast(bs[i], r0, c0) ==> after == bs[i].Hit().block && after.hp == bs[i].hp - 1)
              && (!InBlast(bs[i], r0, c0) ==> after == bs[i])
  {
    if bs != [] {
      BlastHitsOnce(bs[..|bs| - 1], r0, c0);
    }
  }

  /** `pool[Math.floor(u * pool.length)]` with the pool wide, slow, sticky, multi-ball. */
  function PoolPick(u: Unit): (k: PowerupType)
    ensures k == Wide <==> u < 0.25
    ensures k == Slow <==> 0.25 <= u < 0.5
    ensures k == Sticky <==> 0.5 <= u < 0.75
    ensures k == Multiball <==> 0.75 <= u
  {
    var i := (u * 4.0).Floor;
    if i == 0 then Wide else if i == 1 then Slow else if i == 2 then Sticky else Multiball
  }

  /** `_spawnPowerup(x, y)`: one draw picks the kind; a live power-up of size 22 falling at 170 is appended. */
  function SpawnPowerup(st: Step, x: real, y: real): (r: Step)
    ensures r.w == st.w.(powerups := st.w.powerups + [NewPowerup(x, y, 22.0, PoolPick(st.rng.stream(st.rng.pos)), 170.0)])
    ensures r.rng == st.rng.(pos := st.rng.pos + 1) && r.events == st.events
  {
    var d := st.rng.Draw();
    st.(w := st.w.(powerups := st.w.powerups + [NewPowerup(x, y, 22.0, PoolPick(d.0), 170.0)]), rng := d.1)
  }

  /**
   * `_onBlockDestroyed(block)`: an explosive bumps the juice and, when it knows its
   * grid cell, blasts its neighbours; a splitter then always spawns a power-up at
   * its centre; any other breakable block spawns one with a draw below 0.12.
   */
  function OnBlockDestroyed(st: Step, block: BlockState): (r: Step)
    ensures AllLive(st.w.powerups) ==> AllLive(r.w.powerups)
    ensures r.w.balls == st.w.balls && r.w.paddle == st.w.paddle && r.w.effects == st.w.effects
    ensures |r.w.blocks| == |st.w.blocks|
  {
    var st1 :=
      if block.kind == Explosive then
        var w1 := st.w.(juice := Bump(st.w.juice, 0.10, 10.0, 0.10));
        if block.row.Some? && block.col.Some? then
          var blast := Blast(w1.blocks, block.row.value, block.col.value);
          Step(w1.(blocks := blast.0), st.events + blast.1, st.rng)
        else st.(w := w1)
      else st;
    var cx := block.x + block.w / 2.0;
    var cy := block.y + block.h / 2.0;
    if block.kind == Splitter then SpawnPowerup(st1, cx, cy)
    else if block.IsBreakable() then
      var d := st1.rng.Draw();
      if d.0 < 0.12 then SpawnPowerup(st1.(rng := d.1), cx, cy) else st1.(rng := d.1)
    else st1
  }

  /**
   * A destroyed splitter spawns exactly one power-up and skips the random drop:
   * the only draw is the one that picks the power-up's kind.
   */
  lemma SplitterAlwaysDrops(st: Step, block: BlockState)
    requires block.kind == Splitter
    ensures var r := OnBlockDestroyed(st, block);
            && r.w.powerups == st.w.powerups + [NewPowerup(block.x + block.w / 2.0, block.y + block.h / 2.0, 22.0, PoolPick(st.rng.stream(st.rng.pos)), 170.0)]
            && r.rng.pos == st.rng.pos + 1
            && r.w.blocks == st.w.blocks && r.w.balls == st.w.balls && r.events == st.events
  {
  }

  /**
   * A destroyed normal or strong block takes the drop roll and does nothing else:
   * one draw, and when it is below 0.12 a power-up of the kind the next draw
   * picks is appended at the block's centre.
   */
  lemma OrdinaryBlockRolls(st: Step, block: BlockState)
    requires block.kind == Normal || block.kind == Strong
    ensures var r := OnBlockDestroyed(st, block);
            var u := st.rng.stream(st.rng.pos);
            && r.w.blocks == st.w.blocks && r.w.balls == st.w.balls && r.w.juice == st.w.juice
            && r.events == st.events && r.rng.stream == st.rng.stream
            && (u < 0.12 ==>
                  && r.rng.pos == st.rng.pos + 2
                  && r.w.powerups == st.w.powerups + [NewPowerup(block.x + block.w / 2.0, block.y + block.h / 2.0, 22.0,
                                                                 PoolPick(st.rng.stream(st.rng.pos + 1)), 170.0)])
            && (u >= 0.12 ==> r.rng.pos == st.rng.pos + 1 && r.w.powerups == st.w.powerups)
  {
  }

  /**
   * A destroyed explosive that knows its cell blasts exactly its neighbours, then
   * takes the ordinary drop roll: one draw, and a second only when the drop happens.
   */
  lemma ExplosiveBlastsThenRolls(st: Step, block: BlockState)
    requires block.kind == Explosive && block.row.Some? && block.col.Some?
    ensures var r := OnBlockDestroyed(st, block);
            var blast := Blast(st.w.blocks, block.row.value, block.col.value);
            && r.w.blocks == blast.0
            && r.events == st.events + blast.1
            && r.w.balls == st.w.balls
            && (st.rng.stream(st.rng.pos) < 0.12 ==>
                  && r.rng.pos == st.rng.pos + 2
                  && r.w.powerups == st.w.powerups + [NewPowerup(block.x + block.w / 2.0, block.y + block.h / 2.0, 22.0,
                                                                 PoolPick(st.rng.stream(st.rng.pos + 1)), 170.0)])
            && (st.rng.stream(st.rng.pos) >= 0.12 ==> r.rng.pos == st.rng.pos + 1 && r.w.powerups == st.w.powerups)
  {
  }

  /**
   * The body of the block loop for ball i: a free ball deflects off the first live
   * block it overlaps and hits it; a destroying hit reports the block's score and
   * runs the destruction side effects; any contact cues "block". At most one block
   * per ball per tick.
   */
  function BlockOne(st: Step, i: nat, env: Env): (r: Step)
    requires i < |st.w.balls|
    ensures |r.w.balls| == |st.w.balls|
    ensures forall k :: 0 <= k < |st.w.balls| && k != i ==> r.w.balls[k] == st.w.balls[k]
    ensures |r.w.blocks| == |st.w.blocks|
    ensures r.w.paddle == st.w.paddle && r.w.effects == st.w.effects
    ensures Routine(st.events) ==> Routine(r.events)
    ensures AllLive(st.w.powerups) ==> AllLive(r.w.powerups)
  {
    var b := st.w.balls[i];
    if b.stuck then st
    else
      match FirstContact(b, st.w.blocks)
      case None => st
      case Some(j) => StrikeBlock(st, i, j, env)
  }

  /**
   * Ball i strikes block j: the ball is deflected, the block takes a hit, and a
   * destroyed block scores, has its destruction handled and bumps the juice;
   * either way "block" is cued.
   */
  function StrikeBlock(st: Step, i: nat, j: nat, env: Env): (r: Step)
    requires i < |st.w.balls| && j < |st.w.blocks|
    ensures |r.w.balls| == |st.w.balls|
    ensures forall k :: 0 <= k < |st.w.balls| && k != i ==> r.w.balls[k] == st.w.balls[k]
    ensures |r.w.blocks| == |st.w.blocks|
    ensures r.w.paddle == st.w.paddle && r.w.effects == st.w.effects
    ensures Routine(st.events) ==> Routine(r.events)
    ensures AllLive(st.w.powerups) ==> AllLive(r.w.powerups)
  {
    var b := st.w.balls[i];
    var block := st.w.blocks[j];
    var hr := block.Hit();
    var w1 := st.w.(balls := st.w.balls[i := Deflect(b, block.Box(), env.math)], blocks := st.w.blocks[j := hr.block]);
    var st2 :=
      if hr.destroyed then
        var s := OnBlockDestroyed(Step(w1, st.events + [OnScore(block.score)], st.rng), hr.block);
        s.(w := s.w.(juice := Bump(s.w.juice, 0.07, 7.0, 0.06)))
      else Step(w1, st.events, st.rng);
    st2.(events := st2.events + Cue(env, "block"))
  }

  /**
   * A ball that destroys an explosive which knows its cell: the struck block is
   * marked destroyed first, then the blast hits its neighbours in that list, and
   * the events are the block's score, the blast's scores and the "block" cue.
   */
  lemma ExplosiveStrikeBlasts(st: Step, i: nat, j: nat, env: Env)
    requires i < |st.w.balls| && j < |st.w.blocks|
    requires st.w.blocks[j].kind == Explosive && st.w.blocks[j].Hit().destroyed
    requires st.w.blocks[j].row.Some? && st.w.blocks[j].col.Some?
    ensures var block := st.w.blocks[j];
            var blast := Blast(st.w.blocks[j := block.Hit().block], block.row.value, block.col.value);
            var r := StrikeBlock(st, i, j, env);
            && r.w.blocks == blast.0
            && r.events == st.events + [OnScore(block.score)] + blast.1 + Cue(env, "block")
  {
    var block := st.w.blocks[j];
    var hr := block.Hit();
    assert hr.block.kind == Explosive && hr.block.row == block.row && hr.block.col == block.col;
  }

  /** A stuck ball, or a free one touching no live block, leaves the block pass's step as it was. */
  lemma BlockMissLeavesStep(st: Step, i: nat, env: Env)
    requires i < |st.w.balls|
    requires st.w.balls[i].stuck || forall j :: 0 <= j < |st.w.blocks| ==> !Touches(st.w.balls[i], st.w.blocks[j])
    ensures BlockOne(st, i, env) == st
  {
  }

  /**
   * A ball's block contact touches only the first live block it overlaps: when
   * the block survives, or is not an explosive, no other block changes, and a
   * score is reported exactly when the hit destroyed the block.
   */
  lemma OneBlockPerBall(st: Step, i: nat, env: Env)
    requires i < |st.w.balls| && !st.w.balls[i].stuck
    requires FirstContact(st.w.balls[i], st.w.blocks).Some?
    ensures var j := FirstContact(st.w.balls[i], st.w.blocks).value;
            var block := st.w.blocks[j];
            var r := BlockOne(st, i, env);
            && r.w.blocks[j] == block.Hit().block
            && r.w.balls[i] == Deflect(st.w.balls[i], block.Box(), env.math)
            && (block.kind != Explosive || !block.Hit().destroyed ==>
                  forall k :: 0 <= k < |st.w.blocks| && k != j ==> r.w.blocks[k] == st.w.blocks[k])
            && (block.Hit().destroyed <==> |r.events| > |st.events| && r.events[|st.events|] == OnScore(block.score))
  {
    var j := FirstContact(st.w.balls[i], st.w.blocks).value;
    var block := st.w.blocks[j];
    var hr := block.Hit();
    if hr.destroyed && block.kind == Explosive && hr.block.row.Some? && hr.block.col.Some? {
      var blast := Blast(st.w.blocks[j := hr.block], hr.block.row.value, hr.block.col.value);
      BlastHitsOnce(st.w.blocks[j := hr.block], hr.block.row.value, hr.block.col.value);
      assert !InBlast(hr.block, hr.block.row.value, hr.block.col.value);
      assert blast.0[j] == hr.block;
    }
  }

  /** The block loop over the first n balls. */
  function BlockUpTo(st: Step, n: nat, env: Env): (r: Step)
    requires n <= |st.w.balls|
    ensures |r.w.balls| == |st.w.balls|
    ensures forall k :: n <= k < |st.w.balls| ==> r.w.balls[k] == st.w.balls[k]
    ensures |r.w.blocks| == |st.w.blocks|
    ensures r.w.paddle == st.w.paddle && r.w.effects == st.w.effects
    ensures Routine(st.events) ==> Routine(r.events)
    ensures AllLive(st.w.powerups) ==> AllLive(r.w.powerups)
  {
    if n == 0 then st else BlockOne(BlockUpTo(st, n - 1, env), n - 1, env)
  }

  /** `blocks.filter((b) => !b.dead)`. */
  function LiveBlocks(bs: seq<BlockState>): (r: seq<BlockState>)
    ensures |r| <= |bs|
    ensures forall k :: 0 <= k < |r| ==> !r[k].dead
    ensures forall b :: b in bs && !b.dead <==> b in r
  {
    if bs == [] then []
    else
      var init := LiveBlocks(bs[..|bs| - 1]);
      var last := bs[|bs| - 1];
      assert bs == bs[..|bs| - 1] + [last];
      if last.dead then init else init + [last]
  }

  /**
   * The sweep keeps the live blocks in their order and each as often as it
   * occurs: sweeping a list in two parts is sweeping each part.
   */
  lemma {:induction false} LiveBlocksSplits(a: seq<BlockState>, b: seq<BlockState>)
    ensures LiveBlocks(a + b) == LiveBlocks(a) + LiveBlocks(b)
  {
    if b == [] {
      assert a + b == a;
      assert LiveBlocks(a) + LiveBlocks(b) == LiveBlocks(a);
    } else {
      var init := b[..|b| - 1];
      var last := b[|b| - 1];
      var t: seq<BlockState> := if last.dead then [] else [last];
      LiveBlocksSplits(a, init);
      assert (a + b)[..|a + b| - 1] == a + init;
      assert (a + b)[|a + b| - 1] == last;
      calc {
        LiveBlocks(a + b);
        LiveBlocks(a + init) + t;
        (LiveBlocks(a) + LiveBlocks(init)) + t;
        LiveBlocks(a) + (LiveBlocks(init) + t);
        LiveBlocks(a) + LiveBlocks(b);
      }
    }
  }

  /** Sweeping one block keeps it exactly when it is live. */
  lemma LiveBlocksOne(k: BlockState)
    ensures LiveBlocks([k]) == if k.dead then [] else [k]
  {
    assert [k][..0] == [];
  }

  // ----- 10. speed cap -----

  /** The cap of the slow effect: the first ball's maximum speed (760 without balls), times 0.72 while slow runs. */
  function SpeedLimit(w: WorldState): (r: real)
    ensures r == (if w.effects.slow > 0.0 then 0.72 * MaxSpeed else MaxSpeed)
  {
    var speedMul := if w.effects.slow > 0.0 then 0.72 else 1.0;
    var maxSp := if |w.balls| > 0 then MaxSpeed else 760.0;
    maxSp * speedMul
  }

  /** The cap applied to every ball. */
  function CapAll(bs: seq<BallState>, limit: real, m: MathHost): (r: seq<BallState>)
    requires limit >= 0.0
    ensures |r| == |bs|
    ensures forall i :: 0 <= i < |bs| ==> r[i] == bs[i].CapSpeed(limit, m)
  {
    seq(|bs|, i requires 0 <= i < |bs| => bs[i].CapSpeed(limit, m))
  }

  // ----- 11. lost balls, life lost, win -----

  /** `balls.filter((b) => b.y - b.radius <= arenaH + 40)`. */
  function InPlay(bs: seq<BallState>, arenaH: real): (r: seq<BallState>)
    ensures |r| <= |bs|
    ensures forall k :: 0 <= k < |r| ==> r[k].y - r[k].radius <= arenaH + 40.0
    ensures forall b :: b in bs && b.y - b.radius <= arenaH + 40.0 <==> b in r
  {
    if bs == [] then []
    else
      var init := InPlay(bs[..|bs| - 1], arenaH);
      var last := bs[|bs| - 1];
      assert bs == bs[..|bs| - 1] + [last];
      if last.y - last.radius <= arenaH + 40.0 then init + [last] else init
  }

  /**
   * The lost-ball filter keeps the balls in play in their order and each as often
   * as it occurs: filtering a list in two parts is filtering each part.
   */
  lemma {:induction false} InPlaySplits(a: seq<BallState>, b: seq<BallState>, arenaH: real)
    ensures InPlay(a + b, arenaH) == InPlay(a, arenaH) + InPlay(b, arenaH)
  {
    if b == [] {
      assert a + b == a;
      assert InPlay(a, arenaH) + InPlay(b, arenaH) == InPlay(a, arenaH);
    } else {
      var init := b[..|b| - 1];
      var last := b[|b| - 1];
      var t: seq<BallState> := if last.y - last.radius > arenaH + 40.0 then [] else [last];
      InPlaySplits(a, init, arenaH);
      assert (a + b)[..|a + b| - 1] == a + init;
      assert (a + b)[|a + b| - 1] == last;
      calc {
        InPlay(a + b, arenaH);
        InPlay(a + init, arenaH) + t;
        (InPlay(a, arenaH) + InPlay(init, arenaH)) + t;
        InPlay(a, arenaH) + (InPlay(init, arenaH) + t);
        InPlay(a, arenaH) + InPlay(b, arenaH);
      }
    }
  }

  /** Filtering one ball keeps it exactly when it is in play. */
  lemma InPlayOne(b: BallState, arenaH: real)
    ensures InPlay([b], arenaH) == if b.y - b.radius <= arenaH + 40.0 then [b] else []
  {
    assert [b][..0] == [];
  }

  /** `blocks.some((b) => b.isBreakable())`. */
  predicate AnyBreakable(bs: seq<BlockState>)
  {
    exists k :: 0 <= k < |bs| && bs[k].IsBreakable()
  }

  /** The end of the tick: lost balls go; no ball left loses a life, else no breakable block left wins. */
  function Finish(st: Step, env: Env): (r: Step)
    ensures r.w == st.w.(balls := InPlay(st.w.balls, env.arenaH)) && r.rng == st.rng
    ensures r.events == st.events + (if |r.w.balls| == 0 then [OnLifeLost] else if !AnyBreakable(r.w.blocks) then [OnWin] else [])
  {
    var balls := InPlay(st.w.balls, env.arenaH);
    var w := st.w.(balls := balls);
    if |balls| == 0 then Step(w, st.events + [OnLifeLost], st.rng)
    else if !AnyBreakable(w.blocks) then Step(w, st.events + [OnWin], st.rng)
    else Step(w, st.events, st.rng)
  }

  // ----- the whole tick -----

  /** Effect decay, paddle, launch and ball flight: the phases before the power-ups. */
  function EarlyPhases(w: WorldState, env: Env, dt: real, input: Input, rng: Random): (r: Step)
    ensures r.events == []
    ensures Valid(w) ==> Valid(r.w)
  {
    var w1 := DecayEffects(w, dt);
    var w2 := w1.(paddle := w1.paddle.Update(dt, input));
    var launched := if input.IsDown("Space") then LaunchAll(w2.balls, rng, env.math) else (w2.balls, rng);
    var w3 := w2.(balls := StepBalls(launched.0, dt, env.arenaW, w2.paddle, env.math));
    Step(w3, [], launched.1)
  }

  /** Power-ups fall, are collected and swept; then the juice decays. */
  function PowerupPhases(st: Step, env: Env, dt: real): (r: Step)
    ensures Routine(st.events) ==> Routine(r.events)
    ensures Valid(st.w) ==> Valid(r.w)
    ensures AllLive(r.w.powerups)
  {
    var st1 := st.(w := st.w.(powerups := FallAll(st.w.powerups, dt)));
    var st2 := CollectUpTo(st1, |st1.w.powerups|, env);
    var st3 := st2.(w := st2.w.(powerups := LivePowerups(st2.w.powerups)));
    st3.(w := st3.w.(juice := DecayJuice(st3.w.juice, dt)))
  }

  /** Paddle and block collisions, the sweep of dead blocks and the speed cap. */
  function CollisionPhases(st: Step, env: Env): (r: Step)
    requires Valid(st.w)
    ensures Routine(st.events) ==> Routine(r.events)
    ensures Valid(r.w)
    ensures forall k :: 0 <= k < |r.w.blocks| ==> !r.w.blocks[k].dead
    ensures AllLive(st.w.powerups) ==> AllLive(r.w.powerups)
  {
    var st1 := PaddleUpTo(st, |st.w.balls|, env);
    var st2 := BlockUpTo(st1, |st1.w.balls|, env);
    var st3 := st2.(w := st2.w.(blocks := LiveBlocks(st2.w.blocks)));
    st3.(w := st3.w.(balls := CapAll(st3.w.balls, SpeedLimit(st3.w), env.math)))
  }

  /** `update(dt)`: every phase in source order. */
  function Tick(w: WorldState, env: Env, dt: real, input: Input, rng: Random): (r: Step)
    requires Valid(w)
    ensures Valid(r.w)
    ensures AllLive(r.w.powerups)
  {
    var st1 := EarlyPhases(w, env, dt, input, rng);
    var st2 := PowerupPhases(st1, env, dt);
    var st3 := CollisionPhases(st2, env);
    Finish(st3, env)
  }

  /**
   * The end of a tick: a life is lost exactly when no ball is left in play, and
   * the level is won exactly when balls remain but no breakable block does. Each
   * of these is reported at most once, last, and never both.
   */
  lemma TickOutcome(w: WorldState, env: Env, dt: real, input: Input, rng: Random)
    requires Valid(w)
    ensures var r := Tick(w, env, dt, input, rng);
            && Valid(r.w)
            && (OnLifeLost in r.events <==> |r.w.balls| == 0)
            && (OnWin in r.events <==> |r.w.balls| > 0 && !AnyBreakable(r.w.blocks))
            && !(OnLifeLost in r.events && OnWin in r.events)
            && (OnLifeLost in r.events || OnWin in r.events ==> |r.events| > 0 && Routine(r.events[..|r.events| - 1]))
            && (OnLifeLost !in r.events && OnWin !in r.events ==> Routine(r.events))
  {
    var st1 := EarlyPhases(w, env, dt, input, rng);
    var st2 := PowerupPhases(st1, env, dt);
    FinishOutcome(CollisionPhases(st2, env), env);
  }

  /**
   * The end of the tick after routine events only: the outcome event, if any, is
   * the one the remaining balls and blocks call for, and it comes last.
   */
  lemma FinishOutcome(st: Step, env: Env)
    requires Valid(st.w) && Routine(st.events)
    ensures var r := Finish(st, env);
            && Valid(r.w)
            && (OnLifeLost in r.events <==> |r.w.balls| == 0)
            && (OnWin in r.events <==> |r.w.balls| > 0 && !AnyBreakable(r.w.blocks))
            && !(OnLifeLost in r.events && OnWin in r.events)
            && (OnLifeLost in r.events || OnWin in r.events ==> |r.events| > 0 && Routine(r.events[..|r.events| - 1]))
            && (OnLifeLost !in r.events && OnWin !in r.events ==> Routine(r.events))
  {
    var r := Finish(st, env);
    assert OnLifeLost !in st.events && OnWin !in st.events by {
      forall k | 0 <= k < |st.events|
        ensures st.events[k] != OnLifeLost && st.events[k] != OnWin
      {
      }
    }
    if |r.w.balls| == 0 {
      assert r.events == st.events + [OnLifeLost];
      assert r.events[..|r.events| - 1] == st.events;
    } else if !AnyBreakable(r.w.blocks) {
      assert r.events == st.events + [OnWin];
      assert r.events[..|r.events| - 1] == st.events;
    }
  }


  /** After a tick, every block and power-up is live and every ball is in play. */
  lemma TickSweeps(w: WorldState, env: Env, dt: real, input: Input, rng: Random)
    requires Valid(w)
    ensures var r := Tick(w, env, dt, input, rng).w;
            && (forall k :: 0 <= k < |r.blocks| ==> !r.blocks[k].dead)
            && AllLive(r.powerups)
            && (forall k :: 0 <= k < |r.balls| ==> r.balls[k].y - r.balls[k].radius <= env.arenaH + 40.0)
  {
    var st1 := EarlyPhases(w, env, dt, input, rng);
    var st2 := PowerupPhases(st1, env, dt);
    var st3 := CollisionPhases(st2, env);
    assert Tick(w, env, dt, input, rng) == Finish(st3, env);
  }

  // ----- effects summary -----

  /**
   * The text `getEffectsSummary` shows with no effect running, as World.js spells
   * it: the three characters an em dash's UTF-8 bytes become when read as Windows-1252.
   */
  const IdleSummaryAsWritten: string := "\U{00E2}\U{20AC}\U{201D}"

  /** The idle text Game.js shows when there is no world: an em dash. */
  const IdleSummary: string := "\U{2014}"

  /** The names of the running effects, in the order wide, slow, sticky. */
  function RunningEffects(e: Effects): (parts: seq<string>)
    ensures "WIDE" in parts <==> e.wide > 0.0
    ensures "SLOW" in parts <==> e.slow > 0.0
    ensures "STICKY" in parts <==> e.sticky > 0.0
    ensures |parts| <= 3
  {
    (if e.wide > 0.0 then ["WIDE"] else []) + (if e.slow > 0.0 then ["SLOW"] else []) + (if e.sticky > 0.0 then ["STICKY"] else [])
  }

  /** `parts.join(sep)`. */
  function Join(parts: seq<string>, sep: string): string
  {
    if |parts| == 0 then "" else if |parts| == 1 then parts[0] else parts[0] + sep + Join(parts[1..], sep)
  }

  /** The running effects joined by ", ", or the given idle text when none runs. */
  function SummaryWith(e: Effects, idle: string): (r: string)
    ensures e.wide <= 0.0 && e.slow <= 0.0 && e.sticky <= 0.0 ==> r == idle
    ensures e.wide > 0.0 ==> |r| >= 4 && r[..4] == "WIDE"
  {
    var parts := RunningEffects(e);
    if |parts| > 0 then
      JoinStartsWithFirst(parts, ", ");
      Join(parts, ", ")
    else idle
  }

  /** `getEffectsSummary()` as World.js writes it. */
  function GetEffectsSummaryAsWritten(e: Effects): (r: string)
    ensures e.wide <= 0.0 && e.slow <= 0.0 && e.sticky <= 0.0 ==> r == IdleSummaryAsWritten && |r| == 3
    ensures e.wide > 0.0 ==> |r| >= 4 && r[..4] == "WIDE"
  {
    SummaryWith(e, IdleSummaryAsWritten)
  }

  /** `getEffectsSummary()` with the em dash its author evidently meant. */
  function GetEffectsSummary(e: Effects): (r: string)
    ensures e.wide <= 0.0 && e.slow <= 0.0 && e.sticky <= 0.0 ==> r == IdleSummary
    ensures e.wide > 0.0 ==> |r| >= 4 && r[..4] == "WIDE"
  {
    SummaryWith(e, IdleSummary)
  }

  /** With no effect running the summary, as written, is three stray characters rather than the dash shown without a world. */
  lemma IdleSummaryMisencoded()
    ensures GetEffectsSummaryAsWritten(Effects(0.0, 0.0, 0.0)) != IdleSummary
    ensures |GetEffectsSummaryAsWritten(Effects(0.0, 0.0, 0.0))| == 3
  {
    assert RunningEffects(Effects(0.0, 0.0, 0.0)) == [];
  }

  /**
   * The summary is the dash exactly when no effect runs, names each running effect
   * otherwise, and lists all three as "WIDE, SLOW, STICKY".
   */
  lemma SummaryNamesEffects(e: Effects)
    ensures GetEffectsSummary(e) == IdleSummary <==> e.wide <= 0.0 && e.slow <= 0.0 && e.sticky <= 0.0
    ensures e.wide > 0.0 && e.slow > 0.0 && e.sticky > 0.0 ==> GetEffectsSummary(e) == "WIDE, SLOW, STICKY"
    ensures e.wide > 0.0 && e.slow <= 0.0 && e.sticky <= 0.0 ==> GetEffectsSummary(e) == "WIDE"
  {
    var parts := RunningEffects(e);
    if |parts| > 0 {
      assert parts[0] in parts;
      JoinStartsWithFirst(parts, ", ");
    }
    if e.wide > 0.0 && e.slow > 0.0 && e.sticky > 0.0 {
      assert parts == ["WIDE", "SLOW", "STICKY"];
      assert parts[1..][1..] == ["STICKY"];
      assert Join(parts[1..], ", ") == "SLOW, STICKY";
    }
  }

  /** A join of names from the three labels starts with the first name, so it is never the dash. */
  lemma JoinStartsWithFirst(parts: seq<string>, sep: string)
    requires |parts| > 0
    ensures |Join(parts, sep)| >= |parts[0]| && Join(parts, sep)[..|parts[0]|] == parts[0]
  {
    if |parts| > 1 {
      assert Join(parts, sep) == parts[0] + (sep + Join(parts[1..], sep));
    }
  }
}
