/**
 * The player's paddle of src/entities/Paddle.js: keyboard-over-pointer control,
 * clamping to the arena and temporary widening.
 */
module Paddles {
  import opened Host
  import opened Collisions

  /** Every field of a paddle; only `x` and `width` ever change after construction. */
  datatype PaddleState = PaddleState(
    x: real, y: real, width: real, height: real, speed: real,
    arenaWidth: real, maxWidth: real, baseWidth: real)
  {
    /** The `centerX` getter. */
    function CenterX(): (c: real)
      ensures c - x == (x + width) - c
    {
      x + width / 2.0
    }

    /** The `aabb` getter. */
    function Box(): (b: Aabb)
      ensures b.x == x && b.y == y && b.w == width && b.h == height
    {
      Aabb(x, y, width, height)
    }

    /** The paddle lies within the arena horizontally. */
    predicate InArena()
    {
      0.0 <= x <= arenaWidth - width
    }

    /**
     * `_clamp`: x limited to [0, arenaWidth - width], the lower bound winning when
     * the paddle is wider than the arena.
     */
    function ClampX(): (r: PaddleState)
      ensures r == this.(x := r.x)
      ensures width <= arenaWidth ==> r.InArena()
      ensures InArena() ==> r == this
      ensures width > arenaWidth ==> r.x == 0.0
    {
      this.(x := Max(0.0, Min(arenaWidth - width, x)))
    }

    /** `resetSize`: back to the width the paddle was built with; x stays. */
    function ResetSize(): (r: PaddleState)
      ensures r.width == baseWidth
      ensures r == this.(width := r.width)
    {
      this.(width := baseWidth)
    }

    /**
     * `setWidth(newWidth)`: the width is bounded to [40, maxWidth] (40 winning),
     * the paddle is re-centred on its old centre and then clamped.
     */
    function SetWidth(newWidth: real): (r: PaddleState)
      ensures r.width == Max(40.0, Min(maxWidth, newWidth))
      ensures r == this.(x := r.x, width := r.width)
      ensures r.width <= arenaWidth ==> r.InArena()
      ensures var w := r.width;
              0.0 <= CenterX() - w / 2.0 <= arenaWidth - w ==> r.CenterX() == CenterX()
    {
      var w := Max(40.0, Min(maxWidth, newWidth));
      var cx := CenterX();
      this.(width := w, x := cx - w / 2.0).ClampX()
    }

    /**
     * `update(dt, input)`: a held direction key moves the paddle and the pointer is
     * ignored; with no net direction, an active pointer with a known x centres the
     * paddle on it; either way the result is clamped. Only x changes.
     */
    function Update(dt: real, input: Input): (r: PaddleState)
      ensures r == this.(x := r.x)
      ensures Dir(input) != 0 ==> r.x == Max(0.0, Min(arenaWidth - width, x + Dir(input) as real * speed * dt))
      ensures Dir(input) == 0 && input.pointerActive && input.pointerX.Some? ==>
                r.x == Max(0.0, Min(arenaWidth - width, input.pointerX.value - width / 2.0))
      ensures Dir(input) == 0 && !(input.pointerActive && input.pointerX.Some?) ==> r == this
    {
      var dir := Dir(input);
      if dir != 0 then
        this.(x := x + dir as real * speed * dt).ClampX()
      else if input.pointerActive && input.pointerX.Some? then
        this.(x := input.pointerX.value - width / 2.0).ClampX()
      else
        this
    }
  }

  /**
   * The direction the keys ask for: -1 for ArrowLeft or KeyA, +1 for ArrowRight
   * or KeyD, both together cancelling out.
   */
  function Dir(input: Input): (d: int)
    ensures -1 <= d <= 1
    ensures d == -1 <==> (input.IsDown("ArrowLeft") || input.IsDown("KeyA")) && !(input.IsDown("ArrowRight") || input.IsDown("KeyD"))
    ensures d == 1 <==> !(input.IsDown("ArrowLeft") || input.IsDown("KeyA")) && (input.IsDown("ArrowRight") || input.IsDown("KeyD"))
  {
    var left := if input.IsDown("ArrowLeft") || input.IsDown("KeyA") then -1 else 0;
    var right := if input.IsDown("ArrowRight") || input.IsDown("KeyD") then 1 else 0;
    left + right
  }

  /** The constructor: the base width is the given one and the widest allowed is 1.8 times it. */
  function NewPaddle(x: real, y: real, width: real, height: real, speed: real, arenaWidth: real): (p: PaddleState)
    ensures p.baseWidth == p.width == width && p.maxWidth == 1.8 * width
    ensures p.Box() == Aabb(x, y, width, height) && p.speed == speed && p.arenaWidth == arenaWidth
  {
    PaddleState(x, y, width, height, speed, arenaWidth, width * 1.8, width)
  }

  /** An update keeps a paddle that fits the arena inside it. */
  lemma UpdateStaysInArena(p: PaddleState, dt: real, input: Input)
    requires p.InArena()
    ensures p.Update(dt, input).InArena()
  {
  }

  /**
   * Keys take priority over the pointer: while a direction is held, the pointer's
   * state makes no difference.
   */
  lemma KeysOverridePointer(p: PaddleState, dt: real, a: Input, b: Input)
    requires a.held == b.held && Dir(a) != 0
    ensures p.Update(dt, a) == p.Update(dt, b)
  {
  }

  /** With both directions held the paddle follows the pointer as if no key were down. */
  lemma OpposingKeysCancel(p: PaddleState, dt: real, input: Input)
    requires input.IsDown("ArrowLeft") && input.IsDown("ArrowRight")
    ensures p.Update(dt, input) == p.Update(dt, input.(held := {}))
  {
  }

  /**
   * Widening to 1.6 times the base width, as the wide power-up does, leaves a paddle
   * of at most 1.8 times its base width (at least 40) inside an arena it fits.
   */
  lemma WidenStaysInArena(p: PaddleState)
    requires p.baseWidth >= 0.0 && p.maxWidth == 1.8 * p.baseWidth && p.maxWidth <= p.arenaWidth && 40.0 <= p.arenaWidth
    ensures var r := p.SetWidth(p.baseWidth * 1.6);
            r.InArena() && 40.0 <= r.width <= p.arenaWidth && r.width == Max(40.0, 1.6 * p.baseWidth)
  {
  }

  /** The paddle of src/entities/Paddle.js as an object whose methods update `x` and `width`. */
  class Paddle {
    var x: real
    var width: real
    const y: real
    const height: real
    const speed: real
    const arenaWidth: real
    const maxWidth: real
    const baseWidth: real

    function State(): PaddleState
      reads this
    {
      PaddleState(x, y, width, height, speed, arenaWidth, maxWidth, baseWidth)
    }

    constructor (x0: real, y0: real, width0: real, height0: real, speed0: real, arenaWidth0: real)
      ensures State() == NewPaddle(x0, y0, width0, height0, speed0, arenaWidth0)
    {
      x := x0;
      y := y0;
      width := width0;
      height := height0;
      speed := speed0;
      arenaWidth := arenaWidth0;
      maxWidth := width0 * 1.8;
      baseWidth := width0;
    }

    method ResetSize()
      modifies this
      ensures State() == old(State()).ResetSize()
    {
      width := baseWidth;
    }

    method SetWidth(newWidth: real)
      modifies this
      ensures State() == old(State()).SetWidth(newWidth)
    {
      var w := Max(40.0, Min(maxWidth, newWidth));
      var cx := x + width / 2.0;
      width := w;
      x := cx - width / 2.0;
      ClampX();
    }

    method Update(dt: real, input: Input)
      modifies this
      ensures State() == old(State()).Update(dt, input)
    {
      var dir := 0;
      if input.IsDown("ArrowLeft") || input.IsDown("KeyA") {
        dir := dir - 1;
      }
      if input.IsDown("ArrowRight") || input.IsDown("KeyD") {
        dir := dir + 1;
      }
      if dir != 0 {
        x := x + dir as real * speed * dt;
        ClampX();
        return;
      }
      if input.pointerActive && input.pointerX.Some? {
        x := input.pointerX.value - width / 2.0;
        ClampX();
      }
    }

    /** `_clamp`. */
    method ClampX()
      modifies this
      ensures State() == old(State()).ClampX()
    {
      x := Max(0.0, Min(arenaWidth - width, x));
    }
  }
}
