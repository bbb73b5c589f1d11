/**
 * The `World` of src/game/World.js as an object: the paddle it owns, the lists it
 * replaces and the timers it updates, each phase of `update` a method proved
 * against the function of the same phase in `Worlds`.
 *
 * The entities in the lists are values (`BallState`, `BlockState`,
 * `PowerupState`) updated by replacing list elements. What the callbacks are
 * told is kept in the outbox `events`, and `rng` is the stream `Math.random`
 * draws from.
 */
module WorldObjects {
  import opened Host
  import opened Collisions
  import opened Blocks
  import opened Paddles
  import opened Balls
  import opened Powerups
  import opened LevelLoader
  import opened BlockLayout
  import opened Worlds

  /** The constructor's paddle: 140 wide, centred, 42 above the arena's bottom. */
  function StartPaddle(arenaW: real, arenaH: real): (p: PaddleState)
    ensures p.width == p.baseWidth == 140.0 && p.CenterX() == arenaW / 2.0 && p.y == arenaH - 42.0
  {
    NewPaddle(arenaW / 2.0 - 70.0, arenaH - 42.0, 140.0, 16.0, 820.0, arenaW)
  }

  /** `resetServe`: a single radius-8 ball waiting on the paddle. */
  function Serve(p: PaddleState): (bs: seq<BallState>)
    ensures |bs| == 1 && bs[0].stuck && bs[0].radius == 8.0 && bs[0].vx == 0.0 && bs[0].vy == 0.0
    ensures bs[0].x == p.CenterX() && bs[0].y == p.y - 8.0 - 2.0 && bs[0].trail == []
  {
    [NewBall(0.0, 0.0, 8.0).ResetOnPaddle(p)]
  }

  /**
   * The world a level starts with: the start paddle, one ball on it, the level's
   * blocks, no power-ups, no effect running and no juice.
   */
  function NewWorld(arenaW: real, arenaH: real, l: Level): (w: WorldState)
    ensures Valid(w)
    ensures w.paddle == StartPaddle(arenaW, arenaH) && w.balls == Serve(w.paddle)
    ensures w.blocks == LevelBlocks(l, arenaW) && w.powerups == []
    ensures w.effects == Effects(0.0, 0.0, 0.0) && w.juice == Juice(0.0, 0.0, 0.0)
  {
    var p := StartPaddle(arenaW, arenaH);
    WorldState(p, [NewBall(p.CenterX(), p.y - 10.0, 8.0).ResetOnPaddle(p)], LevelBlocks(l, arenaW), [],
               Effects(0.0, 0.0, 0.0), Juice(0.0, 0.0, 0.0))
  }

  class World {
    const arenaW: real
    const arenaH: real
    const hasSfx: bool
    const math: MathHost
    const paddle: Paddle
    var balls: seq<BallState>
    var blocks: seq<BlockState>
    var powerups: seq<PowerupState>
    var effects: Effects
    var juice: Juice
    var events: seq<Event>
    var rng: Random

    function Surroundings(): Env
      reads this
    {
      Env(arenaW, arenaH, hasSfx, math)
    }

    function State(): WorldState
      reads this, paddle
    {
      WorldState(paddle.State(), balls, blocks, powerups, effects, juice)
    }

    /** The world, the outbox and the random stream together. */
    function Run(): Step
      reads this, paddle
    {
      Step(State(), events, rng)
    }

    constructor (arenaW0: real, arenaH0: real, level: Level, hasSfx0: bool, math0: MathHost, rng0: Random)
      ensures State() == NewWorld(arenaW0, arenaH0, level)
      ensures Surroundings() == Env(arenaW0, arenaH0, hasSfx0, math0)
      ensures events == [] && rng == rng0
      ensures fresh(paddle)
    {
      var p := new Paddle(arenaW0 / 2.0 - 70.0, arenaH0 - 42.0, 140.0, 16.0, 820.0, arenaW0);
      var ball := NewBall(p.x + p.width / 2.0, p.y - 10.0, 8.0);
      var built := BuildBlocksFromLevel(level, arenaW0);
      arenaW, arenaH, hasSfx, math := arenaW0, arenaH0, hasSfx0, math0;
      paddle := p;
      balls := [ball.ResetOnPaddle(p.State())];
      blocks := built;
      powerups := [];
      effects := Effects(0.0, 0.0, 0.0);
      juice := Juice(0.0, 0.0, 0.0);
      events := [];
      rng := rng0;
    }

    /** `resetServe()`: the balls are replaced by one waiting on the paddle. */
    method ResetServe()
      modifies this
      ensures Run() == old(Run()).(w := old(State()).(balls := Serve(paddle.State())))
    {
      balls := [NewBall(0.0, 0.0, 8.0).ResetOnPaddle(paddle.State())];
    }

    /** `update(dt)`: the outbox starts empty and collects what the callbacks are told. */
    method Update(dt: real, input: Input, rng0: Random) returns (rng1: Random)
      requires Valid(State())
      modifies this, paddle
      ensures Run() == Tick(old(State()), Surroundings(), dt, input, rng0)
      ensures rng1 == rng
    {
      events := [];
      rng := rng0;
      Prepare(dt, input);
      Settle();
      rng1 := rng;
    }

    /** The phases up to and including the power-ups. */
    method Prepare(dt: real, input: Input)
      requires events == [] && Valid(State())
      modifies this, paddle
      ensures Run() == Worlds.PowerupPhases(Worlds.EarlyPhases(old(State()), Surroundings(), dt, input, old(rng)), Surroundings(), dt)
      ensures Valid(State())
    {
      EarlyPhases(dt, input);
      PowerupPhases(dt);
    }

    /** The collision phases and the end of the tick. */
    method Settle()
      requires Valid(State())
      modifies this
      ensures Run() == Finish(Worlds.CollisionPhases(old(Run()), Surroundings()), Surroundings())
    {
      CollisionPhases();
      EndOfTick();
    }

    /** Effect decay, paddle movement, launching and ball flight. */
    method EarlyPhases(dt: real, input: Input)
      requires events == []
      modifies this, paddle
      ensures Run() == Worlds.EarlyPhases(old(State()), Surroundings(), dt, input, old(rng))
    {
      DecayTimers(dt);
      paddle.Update(dt, input);
      if input.IsDown("Space") {
        LaunchBalls();
      }
      MoveBalls(dt);
    }

    /** The effect timers count down; the paddle returns to its base width once wide has run out. */
    method DecayTimers(dt: real)
      modifies this, paddle
      ensures Run() == old(Run()).(w := Worlds.DecayEffects(old(State()), dt))
    {
      if effects.wide > 0.0 {
        effects := effects.(wide := Max(0.0, effects.wide - dt));
      }
      if effects.slow > 0.0 {
        effects := effects.(slow := Max(0.0, effects.slow - dt));
      }
      if effects.sticky > 0.0 {
        effects := effects.(sticky := Max(0.0, effects.sticky - dt));
      }
      if effects.wide == 0.0 {
        paddle.ResetSize();
      }
    }

    /** `for (const b of this.balls) b.launch()`. */
    method LaunchBalls()
      modifies this
      ensures Run() == old(Run()).(w := old(State()).(balls := LaunchAll(old(balls), old(rng), math).0),
                                   rng := LaunchAll(old(balls), old(rng), math).1)
    {
      var i := 0;
      while i < |balls|
        invariant 0 <= i <= |balls| == |old(balls)|
        invariant balls == LaunchAll(old(balls)[..i], old(rng), math).0 + old(balls)[i..]
        invariant rng == LaunchAll(old(balls)[..i], old(rng), math).1
        invariant blocks == old(blocks) && powerups == old(powerups) && effects == old(effects)
        invariant juice == old(juice) && events == old(events)
      {
        LaunchPrefix(old(balls), i, old(rng), math, balls);
        LaunchAt(i);
        i := i + 1;
      }
      assert old(balls)[..i] == old(balls);
    }

    /** `b.launch()` for ball i: a stuck ball takes the next draw. */
    method LaunchAt(i: nat)
      requires i < |balls|
      modifies this
      ensures balls == old(balls)[i := LaunchOne(old(balls)[i], old(rng), math).0]
      ensures rng == LaunchOne(old(balls)[i], old(rng), math).1
      ensures blocks == old(blocks) && powerups == old(powerups) && effects == old(effects)
      ensures juice == old(juice) && events == old(events)
    {
      if balls[i].stuck {
        var d := rng.Draw();
        balls := balls[i := balls[i].Launch(d.0, math)];
        rng := d.1;
      } else {
        assert balls[i := balls[i]] == balls;
      }
    }

    /** `ball.update(dt, ...)` for every ball. */
    method MoveBalls(dt: real)
      modifies this
      ensures Run() == old(Run()).(w := old(State()).(balls := StepBalls(old(balls), dt, arenaW, paddle.State(), math)))
    {
      var i := 0;
      while i < |balls|
        invariant 0 <= i <= |balls| == |old(balls)|
        invariant forall k :: 0 <= k < i ==> balls[k] == old(balls)[k].Update(dt, arenaW, paddle.State(), math)
        invariant forall k :: i <= k < |balls| ==> balls[k] == old(balls)[k]
        invariant blocks == old(blocks) && powerups == old(powerups) && effects == old(effects)
        invariant juice == old(juice) && events == old(events) && rng == old(rng)
      {
        balls := balls[i := balls[i].Update(dt, arenaW, paddle.State(), math)];
        i := i + 1;
      }
    }

    /** Power-ups fall, are collected and swept; the juice decays. */
    method PowerupPhases(dt: real)
      modifies this, paddle
      ensures Run() == Worlds.PowerupPhases(old(Run()), Surroundings(), dt)
    {
      MovePowerups(dt);
      CollectPowerups();
      powerups := LivePowerups(powerups);
      FadeJuice(dt);
    }

    /** The shake and flash timers count down to zero. */
    method FadeJuice(dt: real)
      modifies this
      ensures Run() == old(Run()).(w := old(State()).(juice := DecayJuice(old(juice), dt)))
    {
      if juice.shakeT > 0.0 {
        juice := juice.(shakeT := Max(0.0, juice.shakeT - dt));
      }
      if juice.flashT > 0.0 {
        juice := juice.(flashT := Max(0.0, juice.flashT - dt));
      }
    }

    /** The collection loop over every power-up. */
    method CollectPowerups()
      modifies this, paddle
      ensures Run() == CollectUpTo(old(Run()), |old(powerups)|, Surroundings())
    {
      ghost var st := Run();
      var i := 0;
      while i < |powerups|
        invariant |powerups| == |st.w.powerups|
        invariant 0 <= i <= |powerups|
        invariant Run() == CollectUpTo(st, i, Surroundings())
      {
        CollectAt(i);
        i := i + 1;
      }
    }

    /** `p.update(dt)` for every power-up. */
    method MovePowerups(dt: real)
      modifies this
      ensures Run() == old(Run()).(w := old(State()).(powerups := FallAll(old(powerups), dt)))
    {
      var i := 0;
      while i < |powerups|
        invariant 0 <= i <= |powerups| == |old(powerups)|
        invariant forall k :: 0 <= k < i ==> powerups[k] == old(powerups)[k].Fall(dt)
        invariant forall k :: i <= k < |powerups| ==> powerups[k] == old(powerups)[k]
        invariant balls == old(balls) && blocks == old(blocks) && effects == old(effects)
        invariant juice == old(juice) && events == old(events) && rng == old(rng)
      {
        powerups := powerups[i := powerups[i].Fall(dt)];
        i := i + 1;
      }
    }

    /** The collection loop's body for power-up i. */
    method CollectAt(i: nat)
      requires i < |powerups|
      modifies this, paddle
      ensures Run() == CollectOne(old(Run()), i, Surroundings())
    {
      var p := powerups[i];
      if p.dead {
        return;
      }
      if AabbOverlap(p.Box(), paddle.State().Box()) {
        powerups := powerups[i := p.(dead := true)];
        AddJuice(0.08, 5.0, 0.06);
        Sfx("powerup");
        ApplyPowerup(p.kind);
      }
      var p1 := powerups[i];
      if p1.y - p1.size / 2.0 > arenaH + 30.0 {
        powerups := powerups[i := p1.(dead := true)];
      }
    }

    /** `_juice(shakeT, shakeMag, flashT)`. */
    method AddJuice(shakeT: real, shakeMag: real, flashT: real)
      modifies this
      ensures Run() == old(Run()).(w := old(State()).(juice := Bump(old(juice), shakeT, shakeMag, flashT)))
    {
      juice := juice.(shakeT := Max(juice.shakeT, shakeT));
      juice := juice.(shakeMag := Max(juice.shakeMag, shakeMag));
      juice := juice.(flashT := Max(juice.flashT, flashT));
    }

    /** `if (this.onSfx) this.onSfx(name)`. */
    method Sfx(name: string)
      modifies this
      ensures Run() == old(Run()).(events := old(events) + Cue(Surroundings(), name))
    {
      if hasSfx {
        events := events + [OnSfx(name)];
      }
    }

    /** `_applyPowerup(type)`. */
    method ApplyPowerup(kind: PowerupType)
      modifies this, paddle
      ensures Run() == Worlds.ApplyPowerup(old(Run()), kind, math)
    {
      match kind
      case Wide =>
        effects := effects.(wide := Max(effects.wide, 12.0));
        paddle.SetWidth(paddle.baseWidth * 1.6);
      case Slow =>
        effects := effects.(slow := Max(effects.slow, 10.0));
      case Sticky =>
        effects := effects.(sticky := Max(effects.sticky, 10.0));
      case Multiball =>
        SpawnMultiBall();
    }

    /** `_spawnMultiBall()`. */
    method SpawnMultiBall()
      modifies this
      ensures Run() == old(Run()).(w := old(State()).(balls := Worlds.SpawnMultiBall(old(balls), old(rng), math).0),
                                   rng := Worlds.SpawnMultiBall(old(balls), old(rng), math).1)
    {
      if |balls| == 0 {
        return;
      }
      var k := RefIndex(balls);
      if balls[k].stuck {
        var d := rng.Draw();
        balls := balls[k := balls[k].Launch(d.0, math)];
        rng := d.1;
      }
      var ref := balls[k];
      var base := math.atan2(ref.vy, ref.vx);
      var speed := Max(MinSpeed, math.hypot(ref.vx, ref.vy));
      var angles := [base + 0.35, base - 0.35];
      ghost var launched := balls;
      AddTwins(ref, angles, speed);
      assert balls[|launched| + 0] == Twin(ref, angles[0], speed, math);
      assert balls[|launched| + 1] == Twin(ref, angles[1], speed, math);
      assert balls == launched + [Twin(ref, base + 0.35, speed, math), Twin(ref, base - 0.35, speed, math)];
    }

    /** The loop of `_spawnMultiBall` over its angles: one new free ball per angle. */
    method AddTwins(ref: BallState, angles: seq<real>, speed: real)
      modifies this
      ensures |balls| == |old(balls)| + |angles| && balls[..|old(balls)|] == old(balls)
      ensures forall t :: 0 <= t < |angles| ==> balls[|old(balls)| + t] == Twin(ref, angles[t], speed, math)
      ensures blocks == old(blocks) && powerups == old(powerups) && effects == old(effects)
      ensures juice == old(juice) && events == old(events) && rng == old(rng)
    {
      var j := 0;
      while j < |angles|
        invariant 0 <= j <= |angles|
        invariant |balls| == |old(balls)| + j && balls[..|old(balls)|] == old(balls)
        invariant forall t :: 0 <= t < j ==> balls[|old(balls)| + t] == Twin(ref, angles[t], speed, math)
        invariant blocks == old(blocks) && powerups == old(powerups) && effects == old(effects)
        invariant juice == old(juice) && events == old(events) && rng == old(rng)
      {
        var b := NewBall(ref.x, ref.y, ref.radius);
        b := b.(stuck := false);
        b := b.(vx := math.cos(angles[j]) * speed);
        b := b.(vy := math.sin(angles[j]) * speed);
        balls := balls + [b];
        j := j + 1;
      }
    }

    /** Paddle and block collisions, the sweep of dead blocks and the speed cap. */
    method CollisionPhases()
      requires Valid(State())
      modifies this
      ensures Run() == Worlds.CollisionPhases(old(Run()), Surroundings())
    {
      PaddlePass();
      BlockPass();
      blocks := LiveBlocks(blocks);
      ApplySpeedCap();
    }

    /** `for (const b of this.balls)` against the paddle. */
    method PaddlePass()
      requires Valid(State())
      modifies this
      ensures Run() == PaddleUpTo(old(Run()), |old(balls)|, Surroundings())
    {
      ghost var st := Run();
      var i := 0;
      while i < |balls|
        invariant |balls| == |st.w.balls|
        invariant 0 <= i <= |balls|
        invariant Run() == PaddleUpTo(st, i, Surroundings())
      {
        PaddleAt(i);
        i := i + 1;
      }
    }

    /** `for (const b of this.balls)` against the blocks. */
    method BlockPass()
      modifies this
      ensures Run() == BlockUpTo(old(Run()), |old(balls)|, Surroundings())
    {
      ghost var st := Run();
      var i := 0;
      while i < |balls|
        invariant |balls| == |st.w.balls|
        invariant 0 <= i <= |balls|
        invariant Run() == BlockUpTo(st, i, Surroundings())
      {
        BlockAt(i);
        i := i + 1;
      }
    }

    /** The paddle loop's body for ball i. */
    method PaddleAt(i: nat)
      requires i < |balls| && paddle.width > 0.0
      modifies this
      ensures Run() == PaddleOne(old(Run()), i, Surroundings())
    {
      var b := balls[i];
      if b.stuck {
        return;
      }
      if CircleVsAabb(b.x, b.y, b.radius, paddle.State().Box()) {
        if effects.sticky > 0.0 {
          balls := balls[i := b.ResetOnPaddle(paddle.State())];
        } else {
          balls := balls[i := Bounce(b, paddle.State(), math)];
        }
        AddJuice(0.04, 3.0, 0.04);
        Sfx("paddle");
      }
    }

    /** The block loop's body for ball i: the scan for the first live block it overlaps, and the response. */
    method BlockAt(i: nat)
      requires i < |balls|
      modifies this
      ensures Run() == BlockOne(old(Run()), i, Surroundings())
    {
      var b := balls[i];
      if b.stuck {
        return;
      }
      var j := ScanBlocks(b);
      if j == |blocks| {
        return;
      }
      StrikeAt(i, j);
    }

    /** The scan for the first live block the ball overlaps; |blocks| when there is none. */
    method ScanBlocks(b: BallState) returns (j: nat)
      ensures j <= |blocks|
      ensures FirstContact(b, blocks) == if j == |blocks| then None else Some(j)
    {
      j := 0;
      while j < |blocks| && !Touches(b, blocks[j])
        invariant 0 <= j <= |blocks|
        invariant forall t :: 0 <= t < j ==> !Touches(b, blocks[t])
      {
        j := j + 1;
      }
    }

    /** Ball i strikes block j. */
    method StrikeAt(i: nat, j: nat)
      requires i < |balls| && j < |blocks|
      modifies this
      ensures Run() == StrikeBlock(old(Run()), i, j, Surroundings())
    {
      var block := blocks[j];
      DeflectAt(i, block.Box());
      var hr := block.Hit();
      blocks := blocks[j := hr.block];
      if hr.destroyed {
        events := events + [OnScore(block.score)];
        OnBlockDestroyed(hr.block);
        AddJuice(0.07, 7.0, 0.06);
      }
      Sfx("block");
    }

    /** Ball i is pushed out of the box and turned round on the contact's axis. */
    method DeflectAt(i: nat, box: Aabb)
      requires i < |balls|
      modifies this
      ensures balls == old(balls)[i := Deflect(old(balls)[i], box, math)]
      ensures blocks == old(blocks) && powerups == old(powerups) && effects == old(effects)
      ensures juice == old(juice) && events == old(events) && rng == old(rng)
    {
      var b := balls[i];
      var res := ResolveCircleAabb(Circle(b.x, b.y, b.radius), box, math);
      var moved := b.(x := res.circle.x, y := res.circle.y);
      if res.contact.Some? {
        if res.contact.value.axis == X {
          moved := moved.(vx := -moved.vx);
        } else {
          moved := moved.(vy := -moved.vy);
        }
      } else {
        moved := moved.(vy := -moved.vy);
      }
      balls := balls[i := moved];
    }

    /** `_onBlockDestroyed(block)`. */
    method OnBlockDestroyed(block: BlockState)
      modifies this
      ensures Run() == Worlds.OnBlockDestroyed(old(Run()), block)
    {
      if block.kind == Explosive {
        AddJuice(0.10, 10.0, 0.10);
        if block.row.Some? && block.col.Some? {
          Explode(block.row.value, block.col.value);
        }
      }
      var cx := block.x + block.w / 2.0;
      var cy := block.y + block.h / 2.0;
      if block.kind == Splitter {
        SpawnPowerup(cx, cy);
        return;
      }
      if block.IsBreakable() {
        var d := rng.Draw();
        rng := d.1;
        if d.0 < 0.12 {
          SpawnPowerup(cx, cy);
        }
      }
    }

    /** The explosion loop: each live breakable neighbour of cell (r0, c0) is hit once. */
    method Explode(r0: int, c0: int)
      modifies this
      ensures Run() == old(Run()).(w := old(State()).(blocks := Blast(old(blocks), r0, c0).0),
                                   events := old(events) + Blast(old(blocks), r0, c0).1)
    {
      var k := 0;
      while k < |blocks|
        invariant 0 <= k <= |blocks| == |old(blocks)|
        invariant blocks == Blast(old(blocks)[..k], r0, c0).0 + old(blocks)[k..]
        invariant events == old(events) + Blast(old(blocks)[..k], r0, c0).1
        invariant balls == old(balls) && powerups == old(powerups) && effects == old(effects)
        invariant juice == old(juice) && rng == old(rng)
      {
        BlastPrefix(old(blocks), k, r0, c0, blocks);
        BlastAt(k, r0, c0);
        k := k + 1;
      }
      assert old(blocks)[..k] == old(blocks);
    }

    /** The explosion loop's body for block k. */
    method BlastAt(k: nat, r0: int, c0: int)
      requires k < |blocks|
      modifies this
      ensures blocks == old(blocks)[k := BlastOne(old(blocks)[k], r0, c0).0]
      ensures events == old(events) + BlastOne(old(blocks)[k], r0, c0).1
      ensures balls == old(balls) && powerups == old(powerups) && effects == old(effects)
      ensures juice == old(juice) && rng == old(rng)
    {
      var other := blocks[k];
      if !other.dead && other.IsBreakable() && other.row.Some? && other.col.Some? {
        var dr := AbsInt(other.row.value - r0);
        var dc := AbsInt(other.col.value - c0);
        if !(dr == 0 && dc == 0) && dr <= 1 && dc <= 1 {
          var hr := other.Hit();
          blocks := blocks[k := hr.block];
          if hr.destroyed {
            events := events + [OnScore(other.score)];
          }
        }
      }
    }

    /** `_spawnPowerup(x, y)`. */
    method SpawnPowerup(x: real, y: real)
      modifies this
      ensures Run() == Worlds.SpawnPowerup(old(Run()), x, y)
    {
      var pool := [Wide, Slow, Sticky, Multiball];
      var d := rng.Draw();
      rng := d.1;
      var index := (d.0 * (|pool| as real)).Floor;
      assert 0 <= index < 4;
      powerups := powerups + [NewPowerup(x, y, 22.0, pool[index], 170.0)];
    }

    /** The slow effect's cap applied to every ball. */
    method ApplySpeedCap()
      modifies this
      ensures Run() == old(Run()).(w := old(State()).(balls := CapAll(old(balls), SpeedLimit(old(State())), math)))
    {
      var speedMul := if effects.slow > 0.0 then 0.72 else 1.0;
      var maxSp := if |balls| > 0 then MaxSpeed else 760.0;
      var cap := maxSp * speedMul;
      var i := 0;
      while i < |balls|
        invariant 0 <= i <= |balls| == |old(balls)|
        invariant forall k :: 0 <= k < i ==> balls[k] == old(balls)[k].CapSpeed(cap, math)
        invariant forall k :: i <= k < |balls| ==> balls[k] == old(balls)[k]
        invariant blocks == old(blocks) && powerups == old(powerups) && effects == old(effects)
        invariant juice == old(juice) && events == old(events) && rng == old(rng)
      {
        balls := balls[i := balls[i].CapSpeed(cap, math)];
        i := i + 1;
      }
    }

    /** Lost balls go; then a life is lost, or the level won. */
    method EndOfTick()
      modifies this
      ensures Run() == Finish(old(Run()), Surroundings())
    {
      balls := InPlay(balls, arenaH);
      if |balls| == 0 {
        events := events + [OnLifeLost];
        return;
      }
      if !AnyBreakable(blocks) {
        events := events + [OnWin];
      }
    }

    /** `getEffectsSummary()`, with the idle text the em dash Game.js shows for "no world". */
    function GetEffectsSummary(): (r: string)
      reads this
      ensures effects.wide <= 0.0 && effects.slow <= 0.0 && effects.sticky <= 0.0 ==> r == IdleSummary
      ensures effects.wide > 0.0 ==> |r| >= 4 && r[..4] == "WIDE"
    {
      Worlds.GetEffectsSummary(effects)
    }
  }
}
