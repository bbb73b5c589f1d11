/** The level table of src/game/LevelLoader.js and its wrap-around lookup. */
module LevelLoader {
  import opened Host
  import opened Blocks

  /** What a legend entry asks for: nothing, or a block of some kind. */
  datatype CellKind = Empty | Solid(kind: BlockType)

  /** A legend entry, with optional explicit hit points and score. */
  datatype BlockDef = BlockDef(cell: CellKind, hp: Option<int>, score: Option<int>)

  /** A level: its name, the rows of its grid, and what each grid character means. */
  datatype Level = Level(name: string, grid: seq<string>, legend: map<char, BlockDef>)

  const EmptyDef: BlockDef := BlockDef(Empty, None, None)

  function Plain(k: BlockType): BlockDef
  {
    BlockDef(Solid(k), None, None)
  }

  function WithHp(k: BlockType, hp: int): BlockDef
  {
    BlockDef(Solid(k), Some(hp), None)
  }

  const Intro: Level := Level("Intro", [
    "..............",
    "....111111....",
    "....111111....",
    "....111111....",
    ".............."
  ], map['.' := EmptyDef, '1' := Plain(Normal)])

  const Stagger: Level := Level("Stagger", [
    "..............",
    "..1111111111..",
    "...11111111...",
    "....111111....",
    "...11111111...",
    "..1111111111..",
    ".............."
  ], map['.' := EmptyDef, '1' := Plain(Normal)])

  const Reinforced: Level := Level("Reinforced", [
    "..............",
    "..2222222222..",
    "..2111111112..",
    "..2111111112..",
    "..2222222222..",
    ".............."
  ], map['.' := EmptyDef, '1' := Plain(Normal), '2' := WithHp(Strong, 2)])

  const ShieldWall: Level := Level("Shield Wall", [
    "..............",
    ".XXXXXXXXXXXX.",
    ".X1111111111X.",
    ".X1222222221X.",
    ".X1111111111X.",
    ".XXXXXEXXXXXX."
  ], map['.' := EmptyDef, '1' := Plain(Normal), '2' := WithHp(Strong, 3),
         'X' := Plain(Unbreakable), 'E' := Plain(Explosive)])

  const ZigZag: Level := Level("Zig Zag", [
    "..............",
    "..1111111111..",
    "...211111112..",
    "....22111122..",
    "...211111112..",
    "..1111111111..",
    ".............."
  ], map['.' := EmptyDef, '1' := Plain(Normal), '2' := WithHp(Strong, 2)])

  const Detonators: Level := Level("Detonators", [
    "..............",
    "..1E11S11E11..",
    "..1111111111..",
    "..12E1111E21..",
    "..1111111111..",
    "..1E11S11E11.."
  ], map['.' := EmptyDef, '1' := Plain(Normal), '2' := WithHp(Strong, 2),
         'E' := Plain(Explosive), 'S' := Plain(Splitter)])

  /** The table, in play order. */
  const Levels: seq<Level> := [Intro, Stagger, Reinforced, ShieldWall, ZigZag, Detonators]

  /** JavaScript's `%`: the remainder takes the sign of the dividend. */
  function JsRem(i: int, n: int): (r: int)
    requires n > 0
    ensures 0 <= i ==> r == i % n
    ensures i < 0 ==> -n < r <= 0 && r == -((-i) % n)
  {
    if i >= 0 then i % n else -((-i) % n)
  }

  /** `getLevelCount()`. */
  function GetLevelCount(): (n: nat)
    ensures n == |Levels| == 6
  {
    |Levels|
  }

  /**
   * `getLevel(index)`: the entry at `index % count`; a negative remainder indexes
   * past the array and yields undefined (`None`).
   */
  function GetLevel(index: int): (r: Option<Level>)
    ensures 0 <= index ==> r == Some(Levels[index % 6])
    ensures index < 0 ==> (r.Some? <==> index % 6 == 0)
    ensures r.Some? ==> r.value in Levels
  {
    var k := JsRem(index, |Levels|);
    if 0 <= k then Some(Levels[k]) else None
  }

  /** The lookup wraps round with period 6 for non-negative indexes. */
  lemma GetLevelWraps(index: nat)
    ensures GetLevel(index + GetLevelCount()) == GetLevel(index)
  {
  }

  /** Negative indexes: -6 wraps to the first level, -1 finds nothing. */
  lemma GetLevelNegative()
    ensures GetLevel(-6) == Some(Intro)
    ensures GetLevel(-1) == None
  {
  }

  /** Every row of every grid has 14 characters. */
  predicate Rectangular(l: Level)
  {
    forall r :: 0 <= r < |l.grid| ==> |l.grid[r]| == 14
  }

  /** Every character of the grid has a legend entry. */
  predicate LegendCovers(l: Level)
  {
    forall r, c :: 0 <= r < |l.grid| && 0 <= c < |l.grid[r]| ==> l.grid[r][c] in l.legend
  }

  /** Some cell of the grid asks for a block that can be broken. */
  predicate HasBreakableCell(l: Level)
  {
    exists r, c :: 0 <= r < |l.grid| && 0 <= c < |l.grid[r]| && BreakableAt(l, r, c)
  }

  predicate BreakableAt(l: Level, r: nat, c: nat)
  {
    && r < |l.grid| && c < |l.grid[r]|
    && l.grid[r][c] in l.legend
    && l.legend[l.grid[r][c]].cell.Solid?
    && l.legend[l.grid[r][c]].cell.kind != Unbreakable
  }

  /** Strong blocks carry explicit hit points of 2 or 3. */
  predicate StrongHasHp(l: Level)
  {
    forall ch :: ch in l.legend && l.legend[ch].cell == Solid(Strong) ==>
      l.legend[ch].hp == Some(2) || l.legend[ch].hp == Some(3)
  }

  /** One level's table facts. */
  predicate WellFormed(l: Level)
  {
    Rectangular(l) && LegendCovers(l) && HasBreakableCell(l) && StrongHasHp(l)
  }

  lemma IntroWellFormed()
    ensures WellFormed(Intro)
  {
    assert BreakableAt(Intro, 1, 4);
  }

  lemma StaggerWellFormed()
    ensures WellFormed(Stagger)
  {
    assert BreakableAt(Stagger, 1, 2);
  }

  lemma ReinforcedWellFormed()
    ensures WellFormed(Reinforced)
  {
    assert BreakableAt(Reinforced, 1, 2);
  }

  lemma ShieldWallWellFormed()
    ensures WellFormed(ShieldWall)
  {
    assert BreakableAt(ShieldWall, 2, 2);
  }

  lemma ZigZagWellFormed()
    ensures WellFormed(ZigZag)
  {
    assert BreakableAt(ZigZag, 1, 2);
  }

  lemma DetonatorsWellFormed()
    ensures WellFormed(Detonators)
  {
    assert BreakableAt(Detonators, 1, 2);
  }

  /**
   * Every level of the table has 14-character rows, a legend entry for each
   * character, a breakable cell, and explicit hit points on its strong blocks.
   */
  lemma AllLevelsWellFormed()
    ensures forall i :: 0 <= i < |Levels| ==> WellFormed(Levels[i])
  {
    IntroWellFormed();
    StaggerWellFormed();
    ReinforcedWellFormed();
    ShieldWallWellFormed();
    ZigZagWellFormed();
    DetonatorsWellFormed();
  }
}
