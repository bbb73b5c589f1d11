/** The bricks of src/entities/Block.js: their kinds, hit points and the `hit` rule. */
module Blocks {
  import opened Host
  import opened Collisions

  datatype BlockType = Normal | Strong | Unbreakable | Explosive | Splitter

  /** The outcome of `hit()`: whether it destroyed the block, and the block afterwards. */
  datatype HitResult = HitResult(destroyed: bool, block: BlockState)

  /** Every field of a block; grid row and column are optional. */
  datatype BlockState = BlockState(
    x: real, y: real, w: real, h: real, kind: BlockType,
    hp: int, maxHp: int, score: int, dead: bool,
    row: Option<int>, col: Option<int>)
  {
    /** The `aabb` getter. */
    function Box(): (b: Aabb)
      ensures b.x == x && b.y == y && b.w == w && b.h == h
    {
      Aabb(x, y, w, h)
    }

    /** `isBreakable()`. */
    predicate IsBreakable()
      ensures IsBreakable() <==> kind in {Normal, Strong, Explosive, Splitter}
    {
      kind != Unbreakable
    }

    /**
     * `hit()`: an unbreakable block shrugs it off; any other loses one hit point
     * and is destroyed, and marked dead, once it has none left. Nothing but `hp`
     * and `dead` ever changes.
     */
    function Hit(): (r: HitResult)
      ensures r.block == this.(hp := r.block.hp, dead := r.block.dead)
      ensures !IsBreakable() ==> r == HitResult(false, this)
      ensures IsBreakable() ==> r.block.hp == hp - 1 && (r.destroyed <==> hp - 1 <= 0)
      ensures r.destroyed ==> r.block.dead
      ensures !r.destroyed ==> r.block.dead == dead
    {
      if kind == Unbreakable then HitResult(false, this)
      else
        var left := hp - 1;
        if left <= 0 then HitResult(true, this.(hp := left, dead := true))
        else HitResult(false, this.(hp := left))
    }
  }

  /** The constructor: full health, alive, everything else as given. */
  function NewBlock(x: real, y: real, w: real, h: real, kind: BlockType, hp: int, score: int,
                    row: Option<int>, col: Option<int>): (b: BlockState)
    ensures b.hp == b.maxHp == hp && !b.dead
    ensures b.Box() == Aabb(x, y, w, h) && b.kind == kind && b.score == score && b.row == row && b.col == col
  {
    BlockState(x, y, w, h, kind, hp, hp, score, false, row, col)
  }

  /** The block after `n` successive hits. */
  function Hits(b: BlockState, n: nat): BlockState
  {
    if n == 0 then b else Hits(b, n - 1).Hit().block
  }

  /** Each hit on a breakable block costs exactly one hit point; nothing else but `dead` changes. */
  lemma {:induction false} HitsCount(b: BlockState, n: nat)
    requires b.IsBreakable()
    ensures Hits(b, n).hp == b.hp - n
    ensures Hits(b, n) == b.(hp := Hits(b, n).hp, dead := Hits(b, n).dead)
  {
    if n > 0 {
      HitsCount(b, n - 1);
    }
  }

  /**
   * A breakable block with k hit points survives its first k - 1 hits and is
   * destroyed by the k-th: the hit after `j` others destroys it exactly when
   * `j` + 1 reaches its hit points.
   */
  lemma {:induction false} DestroyedByItsHitPoints(b: BlockState, j: nat)
    requires b.IsBreakable()
    ensures Hits(b, j).Hit().destroyed <==> j + 1 >= b.hp
  {
    HitsCount(b, j);
    var bj := Hits(b, j);
    assert bj.kind == b.kind && bj.hp == b.hp - j;
  }

  /** No number of hits destroys or changes an unbreakable block. */
  lemma {:induction false} UnbreakableNeverChanges(b: BlockState, n: nat)
    requires !b.IsBreakable()
    ensures Hits(b, n) == b
  {
    if n > 0 {
      UnbreakableNeverChanges(b, n - 1);
    }
  }

  /** The block of src/entities/Block.js as an object whose `hit` updates `hp` and `dead`. */
  class Block {
    const x: real
    const y: real
    const w: real
    const h: real
    const kind: BlockType
    var hp: int
    const maxHp: int
    const score: int
    var dead: bool
    const row: Option<int>
    const col: Option<int>

    function State(): BlockState
      reads this
    {
      BlockState(x, y, w, h, kind, hp, maxHp, score, dead, row, col)
    }

    constructor (x0: real, y0: real, w0: real, h0: real, kind0: BlockType, hp0: int, score0: int,
                 row0: Option<int>, col0: Option<int>)
      ensures State() == NewBlock(x0, y0, w0, h0, kind0, hp0, score0, row0, col0)
    {
      x, y, w, h := x0, y0, w0, h0;
      kind := kind0;
      hp := hp0;
      maxHp := hp0;
      score := score0;
      dead := false;
      row, col := row0, col0;
    }

    method Hit() returns (destroyed: bool)
      modifies this
      ensures HitResult(destroyed, State()) == old(State()).Hit()
    {
      if kind == Unbreakable {
        return false;
      }
      hp := hp - 1;
      if hp <= 0 {
        dead := true;
        return true;
      }
      return false;
    }
  }
}
