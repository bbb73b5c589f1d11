/**
 * `buildBlocksFromLevel` of src/game/World.js: how a level's grid becomes the
 * world's blocks, as a specification function and the nested loop that meets it.
 */
module BlockLayout {
  import opened Host
  import opened Blocks
  import opened LevelLoader

  const Margin: real := 30.0
  const Top: real := 66.0
  const Gap: real := 8.0
  const BlockH: real := 22.0

  /** `grid[0]?.length ?? 0`: the column count is the first row's length. */
  function Cols(l: Level): nat
  {
    if |l.grid| == 0 then 0 else |l.grid[0]|
  }

  /**
   * The block width: the arena less two margins and the gaps, shared by the
   * columns and rounded down. Without columns no block is built and the width is unused.
   */
  function BlockW(l: Level, arenaW: real): (w: real)
    ensures Cols(l) > 0 ==> w * (Cols(l) as real) <= arenaW - 2.0 * Margin - Gap * (Cols(l) - 1) as real
  {
    var cols := Cols(l);
    if cols == 0 then 0.0
    else
      var share := (arenaW - 2.0 * Margin - Gap * (cols - 1) as real) / cols as real;
      FloorTimes(share, cols as real);
      share.Floor as real
  }

  /** Rounding a share down and multiplying it back never exceeds the whole. */
  lemma FloorTimes(share: real, n: real)
    requires n > 0.0
    ensures (share.Floor as real) * n <= share * n
  {
    var f := share.Floor as real;
    var d := share - f;
    assert d >= 0.0;
    assert share * n == f * n + d * n;
  }

  /** Hit points when the legend gives none: 2 for strong blocks, 1 otherwise. */
  function DefaultHp(k: BlockType): (hp: int)
    ensures hp >= 1 && (hp == 2 <==> k == Strong)
  {
    if k == Strong then 2 else 1
  }

  /** Score when the legend gives none: strong 40, unbreakable 0, explosive 60, splitter 50, else 20. */
  function DefaultScore(k: BlockType): (s: int)
    ensures s == 0 <==> k == Unbreakable
    ensures k != Unbreakable ==> s >= 20
    ensures k == Explosive <==> s == 60
  {
    match k
    case Strong => 40
    case Unbreakable => 0
    case Explosive => 60
    case Splitter => 50
    case Normal => 20
  }

  /** The legend entry for cell (r, c), if the row reaches that column and the character has one. */
  function DefAt(l: Level, r: nat, c: nat): (d: Option<BlockDef>)
    requires r < |l.grid|
    ensures d.Some? <==> c < |l.grid[r]| && l.grid[r][c] in l.legend
  {
    if c < |l.grid[r]| && l.grid[r][c] in l.legend then Some(l.legend[l.grid[r][c]]) else None
  }

  /** The block the loop builds for cell (r, c), if any. */
  function CellBlock(l: Level, arenaW: real, r: nat, c: nat): (b: Option<BlockState>)
    requires r < |l.grid|
    ensures b.Some? <==> DefAt(l, r, c).Some? && DefAt(l, r, c).value.cell.Solid?
    ensures b.Some? ==>
              var def := DefAt(l, r, c).value;
              && b.value.kind == def.cell.kind
              && b.value.hp == b.value.maxHp == (if def.hp.Some? then def.hp.value else DefaultHp(def.cell.kind))
              && b.value.score == (if def.score.Some? then def.score.value else DefaultScore(def.cell.kind))
              && !b.value.dead && b.value.row == Some(r) && b.value.col == Some(c)
              && b.value.x == Margin + (c as real) * (BlockW(l, arenaW) + Gap)
              && b.value.y == Top + (r as real) * (BlockH + Gap)
              && b.value.w == BlockW(l, arenaW) && b.value.h == BlockH
  {
    match DefAt(l, r, c)
    case None => None
    case Some(def) =>
      match def.cell
      case Empty => None
      case Solid(kind) =>
        var w := BlockW(l, arenaW);
        var hp := if def.hp.Some? then def.hp.value else DefaultHp(kind);
        var score := if def.score.Some? then def.score.value else DefaultScore(kind);
        Some(NewBlock(Margin + (c as real) * (w + Gap), Top + (r as real) * (BlockH + Gap), w, BlockH,
                      kind, hp, score, Some(r), Some(c)))
  }

  /** The blocks of row r from its first n columns, in column order. */
  function RowBlocks(l: Level, arenaW: real, r: nat, n: nat): (bs: seq<BlockState>)
    requires r < |l.grid|
    ensures |bs| <= n
    ensures forall k :: 0 <= k < |bs| ==> !bs[k].dead && bs[k].hp == bs[k].maxHp && bs[k].row == Some(r)
  {
    if n == 0 then []
    else
      var init := RowBlocks(l, arenaW, r, n - 1);
      match CellBlock(l, arenaW, r, n - 1)
      case None => init
      case Some(b) => init + [b]
  }

  /** The blocks of the first n rows, row by row. */
  function GridBlocks(l: Level, arenaW: real, n: nat): (bs: seq<BlockState>)
    requires n <= |l.grid|
    ensures forall k :: 0 <= k < |bs| ==> !bs[k].dead && bs[k].hp == bs[k].maxHp
  {
    if n == 0 then [] else GridBlocks(l, arenaW, n - 1) + RowBlocks(l, arenaW, n - 1, Cols(l))
  }

  /**
   * Everything `buildBlocksFromLevel` returns: every block fresh (alive, at full
   * health), in strictly increasing row-major cell order, so at most one per cell.
   */
  function LevelBlocks(l: Level, arenaW: real): (bs: seq<BlockState>)
    ensures forall k :: 0 <= k < |bs| ==> !bs[k].dead && bs[k].hp == bs[k].maxHp
    ensures InCellOrder(bs)
  {
    GridBlocksInCellOrder(l, arenaW, |l.grid|);
    GridBlocks(l, arenaW, |l.grid|)
  }

  /** A block built for cell (r, c) with c among the columns scanned. */
  ghost predicate BuiltAt(l: Level, arenaW: real, b: BlockState, r: nat, c: nat)
  {
    r < |l.grid| && c < Cols(l) && CellBlock(l, arenaW, r, c) == Some(b)
  }

  /** Every block of a row comes from a cell of that row, and every such cell gives a block. */
  lemma {:induction false} RowBlocksAreCells(l: Level, arenaW: real, r: nat, n: nat)
    requires r < |l.grid| && n <= Cols(l)
    ensures forall b :: b in RowBlocks(l, arenaW, r, n) <==>
              exists c :: 0 <= c < n && CellBlock(l, arenaW, r, c) == Some(b)
  {
    if n > 0 {
      RowBlocksAreCells(l, arenaW, r, n - 1);
      var init := RowBlocks(l, arenaW, r, n - 1);
      forall b
        ensures b in RowBlocks(l, arenaW, r, n) <==> exists c :: 0 <= c < n && CellBlock(l, arenaW, r, c) == Some(b)
      {
        if b in RowBlocks(l, arenaW, r, n) && b !in init {
          assert CellBlock(l, arenaW, r, n - 1) == Some(b);
        }
        if exists c :: 0 <= c < n && CellBlock(l, arenaW, r, c) == Some(b) {
          var c :| 0 <= c < n && CellBlock(l, arenaW, r, c) == Some(b);
          if c < n - 1 {
            assert b in init;
          }
        }
      }
    }
  }

  /**
   * The built blocks are exactly the blocks of the non-empty cells with a legend
   * entry, over the first row's columns.
   */
  lemma {:induction false} GridBlocksAreCells(l: Level, arenaW: real, n: nat)
    requires n <= |l.grid|
    ensures forall b :: b in GridBlocks(l, arenaW, n) <==>
              exists r, c :: 0 <= r < n && BuiltAt(l, arenaW, b, r, c)
  {
    if n > 0 {
      GridBlocksAreCells(l, arenaW, n - 1);
      RowBlocksAreCells(l, arenaW, n - 1, Cols(l));
      forall b
        ensures b in GridBlocks(l, arenaW, n) <==> exists r, c :: 0 <= r < n && BuiltAt(l, arenaW, b, r, c)
      {
        if b in RowBlocks(l, arenaW, n - 1, Cols(l)) {
          var c :| 0 <= c < Cols(l) && CellBlock(l, arenaW, n - 1, c) == Some(b);
          assert BuiltAt(l, arenaW, b, n - 1, c);
        }
        if exists r, c :: 0 <= r < n && BuiltAt(l, arenaW, b, r, c) {
          var r, c :| 0 <= r < n && BuiltAt(l, arenaW, b, r, c);
          if r == n - 1 {
            assert b in RowBlocks(l, arenaW, n - 1, Cols(l));
          } else {
            assert b in GridBlocks(l, arenaW, n - 1);
          }
        }
      }
    }
  }

  /** Block a comes from a cell before block b's, row by row and column by column within a row. */
  predicate CellBefore(a: BlockState, b: BlockState)
  {
    && a.row.Some? && a.col.Some? && b.row.Some? && b.col.Some?
    && (a.row.value < b.row.value || (a.row.value == b.row.value && a.col.value < b.col.value))
  }

  /** Every block comes from a cell strictly after the cells of the blocks before it. */
  predicate InCellOrder(bs: seq<BlockState>)
  {
    forall i, j :: 0 <= i < j < |bs| ==> CellBefore(bs[i], bs[j])
  }

  /**
   * A row's blocks carry that row and a column among the first n, in strictly
   * increasing column order: one block per cell, left to right.
   */
  lemma {:induction false} RowBlocksInCellOrder(l: Level, arenaW: real, r: nat, n: nat)
    requires r < |l.grid|
    ensures var bs := RowBlocks(l, arenaW, r, n);
            && (forall k :: 0 <= k < |bs| ==> bs[k].row == Some(r) && bs[k].col.Some? && 0 <= bs[k].col.value < n)
            && InCellOrder(bs)
  {
    if n > 0 {
      RowBlocksInCellOrder(l, arenaW, r, n - 1);
    }
  }

  /**
   * The blocks of the first n rows carry a row below n, and come in strictly
   * increasing (row, column) order: one block per cell, row-major, as the nested
   * loop pushes them.
   */
  lemma {:induction false} GridBlocksInCellOrder(l: Level, arenaW: real, n: nat)
    requires n <= |l.grid|
    ensures var bs := GridBlocks(l, arenaW, n);
            && (forall k :: 0 <= k < |bs| ==> bs[k].row.Some? && bs[k].col.Some? && 0 <= bs[k].row.value < n)
            && InCellOrder(bs)
  {
    if n > 0 {
      GridBlocksInCellOrder(l, arenaW, n - 1);
      RowBlocksInCellOrder(l, arenaW, n - 1, Cols(l));
      var front := GridBlocks(l, arenaW, n - 1);
      var row := RowBlocks(l, arenaW, n - 1, Cols(l));
      var bs := front + row;
      forall i, j | 0 <= i < j < |bs|
        ensures CellBefore(bs[i], bs[j])
      {
        if j < |front| {
          assert CellBefore(front[i], front[j]);
        } else if i >= |front| {
          assert CellBefore(row[i - |front|], row[j - |front|]);
        } else {
          assert bs[i] == front[i] && bs[j] == row[j - |front|];
        }
      }
    }
  }

  /**
   * Each level of the table, laid out in any arena, starts with a breakable block,
   * so no level is won before it is played.
   */
  lemma EveryLevelStartsBreakable(i: nat, arenaW: real)
    requires i < |Levels|
    ensures exists b :: b in LevelBlocks(Levels[i], arenaW) && b.IsBreakable()
  {
    AllLevelsWellFormed();
    WellFormedStartsBreakable(Levels[i], arenaW);
  }

  /** A well-formed level's layout holds a block for its breakable cell. */
  lemma WellFormedStartsBreakable(l: Level, arenaW: real)
    requires WellFormed(l)
    ensures exists b :: b in LevelBlocks(l, arenaW) && b.IsBreakable()
  {
    var r, c :| 0 <= r < |l.grid| && 0 <= c < |l.grid[r]| && BreakableAt(l, r, c);
    assert |l.grid[r]| == 14 == |l.grid[0]|;
    var b := CellBlock(l, arenaW, r, c).value;
    assert BuiltAt(l, arenaW, b, r, c);
    GridBlocksAreCells(l, arenaW, |l.grid|);
    assert b in LevelBlocks(l, arenaW) && b.IsBreakable();
  }

  /**
   * Blocks from different cells never overlap: columns are a block width plus the
   * gap apart and rows 30 apart, more than a block's height.
   */
  lemma CellsDoNotOverlap(l: Level, arenaW: real, r1: nat, c1: nat, r2: nat, c2: nat)
    requires r1 < |l.grid| && r2 < |l.grid| && (r1, c1) != (r2, c2)
    requires BlockW(l, arenaW) >= 0.0
    requires CellBlock(l, arenaW, r1, c1).Some? && CellBlock(l, arenaW, r2, c2).Some?
    ensures var a := CellBlock(l, arenaW, r1, c1).value;
            var b := CellBlock(l, arenaW, r2, c2).value;
            a.x + a.w <= b.x || b.x + b.w <= a.x || a.y + a.h <= b.y || b.y + b.h <= a.y
  {
    var w := BlockW(l, arenaW);
    if r1 == r2 {
      if c1 < c2 {
        ColumnsApart(c1, c2, w);
      } else {
        ColumnsApart(c2, c1, w);
      }
    } else if r1 < r2 {
      ColumnsApart(r1, r2, BlockH);
    } else {
      ColumnsApart(r2, r1, BlockH);
    }
  }

  /** Two slots of size s with gap 8 in a row, the later one starting after the earlier one ends. */
  lemma ColumnsApart(i: nat, j: nat, s: real)
    requires i < j && s >= 0.0
    ensures (i as real) * (s + Gap) + s <= (j as real) * (s + Gap)
  {
    var d := (j - i) as real;
    assert d >= 1.0;
    assert (j as real) * (s + Gap) - (i as real) * (s + Gap) == d * (s + Gap);
    assert d * (s + Gap) >= s + Gap;
  }

  /**
   * `buildBlocksFromLevel(level, arenaW)`: row by row, column by column over the
   * first row's width, one new block per cell whose character has a non-empty legend entry.
   */
  method BuildBlocksFromLevel(l: Level, arenaW: real) returns (blocks: seq<BlockState>)
    ensures blocks == LevelBlocks(l, arenaW)
  {
    var rows := |l.grid|;
    var cols := Cols(l);
    var blockW := BlockW(l, arenaW);
    blocks := [];
    var r := 0;
    while r < rows
      invariant 0 <= r <= rows
      invariant blocks == GridBlocks(l, arenaW, r)
    {
      var c := 0;
      while c < cols
        invariant 0 <= c <= cols
        invariant blocks == GridBlocks(l, arenaW, r) + RowBlocks(l, arenaW, r, c)
      {
        var cell := BuildCell(l, arenaW, blockW, r, c);
        if cell.Some? {
          blocks := blocks + [cell.value];
        }
        c := c + 1;
      }
      r := r + 1;
    }
  }

  /** The inner loop's body for cell (r, c): `continue` without a non-empty legend entry, else the new block. */
  method BuildCell(l: Level, arenaW: real, blockW: real, r: nat, c: nat) returns (cell: Option<BlockState>)
    requires r < |l.grid| && blockW == BlockW(l, arenaW)
    ensures cell == CellBlock(l, arenaW, r, c)
  {
    if !(c < |l.grid[r]| && l.grid[r][c] in l.legend) {
      assert DefAt(l, r, c) == None;
      return None;
    }
    var def := l.legend[l.grid[r][c]];
    assert DefAt(l, r, c) == Some(def);
    if def.cell.Empty? {
      return None;
    }
    var kind := def.cell.kind;
    var x := Margin + (c as real) * (blockW + Gap);
    var y := Top + (r as real) * (BlockH + Gap);
    var hp := if def.hp.Some? then def.hp.value else DefaultHp(kind);
    var score := if def.score.Some? then def.score.value else DefaultScore(kind);
    cell := Some(NewBlock(x, y, blockW, BlockH, kind, hp, score, Some(r), Some(c)));
    assert CellBlock(l, arenaW, r, c) == cell by {
      assert CellBlock(l, arenaW, r, c).value.x == x && CellBlock(l, arenaW, r, c).value.hp == hp;
    }
  }
}
