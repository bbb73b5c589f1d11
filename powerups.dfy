/** The falling capsules of src/entities/Powerup.js. */
module Powerups {
  import opened Host
  import opened Collisions

  /** The four kinds of power-up, in the order of the drop pool. */
  datatype PowerupType = Wide | Slow | Sticky | Multiball

  /** Every field of a power-up; (x, y) is its centre. */
  datatype PowerupState = PowerupState(x: real, y: real, size: real, kind: PowerupType, vy: real, dead: bool)
  {
    /** The `aabb` getter: a size-by-size square centred on (x, y). */
    function Box(): (b: Aabb)
      ensures b.w == size && b.h == size
      ensures b.x + b.w / 2.0 == x && b.y + b.h / 2.0 == y
    {
      Aabb(x - size / 2.0, y - size / 2.0, size, size)
    }

    /** `update(dt)`: falls at its own speed; nothing but y changes. */
    function Fall(dt: real): (r: PowerupState)
      ensures r == this.(y := r.y)
      ensures r.y - y == vy * dt
    {
      this.(y := y + vy * dt)
    }
  }

  /** The constructor: a live power-up. */
  function NewPowerup(x: real, y: real, size: real, kind: PowerupType, vy: real): (p: PowerupState)
    ensures !p.dead && p.x == x && p.y == y && p.size == size && p.kind == kind && p.vy == vy
  {
    PowerupState(x, y, size, kind, vy, false)
  }

  /** The four kinds are distinct and there are no others. */
  lemma FourKinds(k: PowerupType)
    ensures k in {Wide, Slow, Sticky, Multiball}
    ensures |{Wide, Slow, Sticky, Multiball}| == 4
  {
  }

  /** The power-up of src/entities/Powerup.js as an object; `update` moves it, the world marks it dead. */
  class Powerup {
    const x: real
    var y: real
    const size: real
    const kind: PowerupType
    const vy: real
    var dead: bool

    function State(): PowerupState
      reads this
    {
      PowerupState(x, y, size, kind, vy, dead)
    }

    constructor (x0: real, y0: real, size0: real, kind0: PowerupType, vy0: real)
      ensures State() == NewPowerup(x0, y0, size0, kind0, vy0)
    {
      x, y, size, kind, vy := x0, y0, size0, kind0, vy0;
      dead := false;
    }

    method Update(dt: real)
      modifies this
      ensures State() == old(State()).Fall(dt)
    {
      y := y + vy * dt;
    }
  }
}
