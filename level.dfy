/** The generator of the only stage, `generateLevel1` (game.js:334-398):
    a 24 x 60 grid of Normal blocks with random hit-points, a fixed "T"
    of walls, and three to five Ball+1 blocks at random cells. The random
    numbers `Math.random()` would return are passed in as draws. */
module Level {
  import opened Blocks

  const Cols: int := 60
  const Rows: int := 24
  /** The grid starts 16 cells below the top of the canvas. */
  const StartRow: int := 16
  const CellCount: int := 1440

  /** The flat index of a grid cell. */
  function Cell(row: int, col: int): int
  {
    row * Cols + col
  }

  function RowOf(i: nat): nat
  {
    i / Cols
  }

  function ColOf(i: nat): nat
  {
    i % Cols
  }

  /** The flat index and the (row, column) position determine each other. */
  lemma CellPosition(row: nat, col: nat)
    requires col < Cols
    ensures RowOf(Cell(row, col)) == row && ColOf(Cell(row, col)) == col
  {
  }

  lemma PositionCell(i: nat)
    ensures Cell(RowOf(i), ColOf(i)) == i && ColOf(i) < Cols
  {
  }

  /** The wall "T": the crossbar on row 6 from column 5 to 54, and the three
      uprights in columns 5, 30 and 54 from row 7 to 17. */
  predicate IsWallCell(row: int, col: int)
  {
    (row == 6 && 5 <= col < 55) || (7 <= row < 18 && (col == 5 || col == 30 || col == 54))
  }

  /** A value `Math.random()` can return. */
  predicate IsDraw(r: real)
  {
    0.0 <= r < 1.0
  }

  /** The two draws that place one Ball+1 block. */
  datatype CellDraw = CellDraw(col: real, row: real)

  /** What the generator consumes: one hit-point draw per cell, one draw for
      the number of Ball+1 blocks, and a column and row draw per Ball+1 block. */
  predicate ValidDraws(hpDraws: seq<real>, countDraw: real, cellDraws: seq<CellDraw>)
  {
    && |hpDraws| == CellCount
    && (forall i | 0 <= i < |hpDraws| :: IsDraw(hpDraws[i]))
    && IsDraw(countDraw)
    && |cellDraws| >= BonusCount(countDraw)
    && (forall k | 0 <= k < |cellDraws| :: IsDraw(cellDraws[k].col) && IsDraw(cellDraws[k].row))
  }

  /** `Math.floor(Math.random() * 3) + 1` */
  function HpFromDraw(r: real): (hp: int)
    requires IsDraw(r)
    ensures 1 <= hp <= 3
  {
    (r * 3.0).Floor + 1
  }

  /** `Math.floor(Math.random() * 3) + 3` */
  function BonusCount(r: real): (n: int)
    ensures IsDraw(r) ==> 3 <= n <= 5
  {
    (r * 3.0).Floor + 3
  }

  /** The cell a Ball+1 draw aims at: column `floor(r * (60 - 20)) + 10`,
      row `floor(r * (24 - 10)) + 5`. */
  function BonusTarget(d: CellDraw): (i: nat)
    requires IsDraw(d.col) && IsDraw(d.row)
    ensures 10 <= ColOf(i) <= 49 && 5 <= RowOf(i) <= 18
  {
    var col := (d.col * 40.0).Floor + 10;
    var row := (d.row * 14.0).Floor + 5;
    CellPosition(row, col);
    Cell(row, col)
  }

  /** The cells aimed at by a sequence of Ball+1 draws, in draw order. */
  function BonusTargets(ds: seq<CellDraw>): (ts: seq<nat>)
    requires forall k | 0 <= k < |ds| :: IsDraw(ds[k].col) && IsDraw(ds[k].row)
    ensures |ts| == |ds|
  {
    if ds == [] then []
    else BonusTargets(ds[..|ds| - 1]) + [BonusTarget(ds[|ds| - 1])]
  }

  function CellX(i: nat): int
  {
    ColOf(i) * BlockSize
  }

  function CellY(i: nat): int
  {
    (StartRow + RowOf(i)) * BlockSize
  }

  function NormalAt(i: nat, hpDraw: real): Block
    requires IsDraw(hpDraw)
  {
    NewBlock(CellX(i), CellY(i), Normal, HpFromDraw(hpDraw))
  }

  function WallAt(i: nat): Block
  {
    NewBlock(CellX(i), CellY(i), Wall, WallHp)
  }

  function BallPlusAt(i: nat): Block
  {
    NewBlock(CellX(i), CellY(i), BallPlus, 1)
  }

  /** Reference definition of cell `i` of the generated board once the Ball+1
      draws `ds` have been applied: the wall shape wins, then any cell aimed at
      by a draw holds a Ball+1 block, and every other cell keeps its Normal
      block. */
  function Level1Cell(i: nat, hpDraws: seq<real>, ds: seq<CellDraw>): Block
    requires i < |hpDraws| && IsDraw(hpDraws[i])
    requires forall k | 0 <= k < |ds| :: IsDraw(ds[k].col) && IsDraw(ds[k].row)
  {
    if IsWallCell(RowOf(i), ColOf(i)) then WallAt(i)
    else if i in BonusTargets(ds) then BallPlusAt(i)
    else NormalAt(i, hpDraws[i])
  }

  /** `bs` is the board `generateLevel1` builds from these draws. */
  ghost predicate IsLevel1(bs: seq<Block>, hpDraws: seq<real>, countDraw: real, cellDraws: seq<CellDraw>)
    requires ValidDraws(hpDraws, countDraw, cellDraws)
  {
    && |bs| == CellCount
    && forall i | 0 <= i < CellCount ::
         bs[i] == Level1Cell(i, hpDraws, cellDraws[..BonusCount(countDraw)])
  }

  /** Row 6 from column 5 up to, not including, column `bar`. */
  predicate InCrossbar(i: nat, bar: int)
  {
    RowOf(i) == 6 && 5 <= ColOf(i) < bar
  }

  /** Column `col` from row 7 down to, not including, row `upTo`. */
  predicate InUpright(i: nat, col: int, upTo: int)
  {
    ColOf(i) == col && 7 <= RowOf(i) < upTo
  }

  /** The nested fill loops: a Normal block in every cell, row by row; the
      k-th block pushed takes the k-th hit-point draw. */
  method FillGrid(hpDraws: seq<real>) returns (blocks: seq<Block>)
    requires |hpDraws| == CellCount && forall i | 0 <= i < |hpDraws| :: IsDraw(hpDraws[i])
    ensures |blocks| == CellCount
    ensures forall i | 0 <= i < CellCount :: blocks[i] == NormalAt(i, hpDraws[i])
  {
    blocks := [];
    var row := 0;
    while row < Rows
      invariant 0 <= row <= Rows
      invariant |blocks| == row * Cols
      invariant forall i | 0 <= i < |blocks| :: blocks[i] == NormalAt(i, hpDraws[i])
    {
      var col := 0;
      while col < Cols
        invariant 0 <= col <= Cols
        invariant |blocks| == row * Cols + col
        invariant forall i | 0 <= i < |blocks| :: blocks[i] == NormalAt(i, hpDraws[i])
      {
        var x := col * BlockSize;
        var y := (StartRow + row) * BlockSize;
        var hp := HpFromDraw(hpDraws[|blocks|]);
        CellPosition(row, col);
        blocks := blocks + [NewBlock(x, y, Normal, hp)];
        col := col + 1;
      }
      row := row + 1;
    }
  }

  /** The crossbar loop: a wall in row 6, columns 5 to 54, each overwriting
      the cell at its index. */
  method LayCrossbar(blocks: seq<Block>) returns (r: seq<Block>)
    requires |blocks| == CellCount
    ensures |r| == CellCount
    ensures forall i | 0 <= i < CellCount :: r[i] == if InCrossbar(i, 55) then WallAt(i) else blocks[i]
  {
    r := blocks;
    var col := 5;
    while col < 55
      invariant 5 <= col <= 55 && |r| == CellCount
      invariant forall i | 0 <= i < CellCount :: r[i] == if InCrossbar(i, col) then WallAt(i) else blocks[i]
    {
      var index := 6 * Cols + col;
      CellPosition(6, col);
      r := r[index := NewBlock(col * BlockSize, (StartRow + 6) * BlockSize, Wall, WallHp)];
      forall i | 0 <= i < CellCount
        ensures r[i] == if InCrossbar(i, col + 1) then WallAt(i) else blocks[i]
      {
        PositionCell(i);
      }
      col := col + 1;
    }
  }

  /** One upright loop: a wall in column `col`, rows 7 to 17, each
      overwriting the cell at its index. */
  method LayUpright(blocks: seq<Block>, col: int) returns (r: seq<Block>)
    requires |blocks| == CellCount && 0 <= col < Cols
    ensures |r| == CellCount
    ensures forall i | 0 <= i < CellCount :: r[i] == if InUpright(i, col, 18) then WallAt(i) else blocks[i]
  {
    r := blocks;
    var row := 7;
    while row < 18
      invariant 7 <= row <= 18 && |r| == CellCount
      invariant forall i | 0 <= i < CellCount :: r[i] == if InUpright(i, col, row) then WallAt(i) else blocks[i]
    {
      var index := row * Cols + col;
      CellPosition(row, col);
      r := r[index := NewBlock(col * BlockSize, (StartRow + row) * BlockSize, Wall, WallHp)];
      forall i | 0 <= i < CellCount
        ensures r[i] == if InUpright(i, col, row + 1) then WallAt(i) else blocks[i]
      {
        PositionCell(i);
      }
      row := row + 1;
    }
  }

  /** The Ball+1 loop: each pair of draws aims at a cell, which becomes a
      Ball+1 block only if it still holds a Normal block. */
  method LayBonuses(blocks: seq<Block>, hpDraws: seq<real>, countDraw: real, cellDraws: seq<CellDraw>)
    returns (r: seq<Block>)
    requires ValidDraws(hpDraws, countDraw, cellDraws) && |blocks| == CellCount
    requires forall i | 0 <= i < CellCount :: blocks[i] == Level1Cell(i, hpDraws, [])
    ensures IsLevel1(r, hpDraws, countDraw, cellDraws)
  {
    r := blocks;
    assert cellDraws[..0] == [];
    var count := BonusCount(countDraw);
    var k := 0;
    while k < count
      invariant 0 <= k <= count && |r| == CellCount
      invariant forall i | 0 <= i < CellCount :: r[i] == Level1Cell(i, hpDraws, cellDraws[..k])
    {
      var bonusCol := (cellDraws[k].col * 40.0).Floor + 10;
      var bonusRow := (cellDraws[k].row * 14.0).Floor + 5;
      var index := bonusRow * Cols + bonusCol;
      CellPosition(bonusRow, bonusCol);
      assert index == BonusTarget(cellDraws[k]);
      assert cellDraws[..k + 1][..k] == cellDraws[..k];
      assert BonusTargets(cellDraws[..k + 1]) == BonusTargets(cellDraws[..k]) + [index];
      if r[index].kind == Normal {
        r := r[index := NewBlock(bonusCol * BlockSize, (StartRow + bonusRow) * BlockSize, BallPlus, 1)];
      }
      k := k + 1;
    }
  }

  /** `generateLevel1`: the fill loops, the four wall loops and the Ball+1
      loop, in this order. */
  method GenerateLevel1(hpDraws: seq<real>, countDraw: real, cellDraws: seq<CellDraw>)
    returns (blocks: seq<Block>)
    requires ValidDraws(hpDraws, countDraw, cellDraws)
    ensures IsLevel1(blocks, hpDraws, countDraw, cellDraws)
  {
    var grid := FillGrid(hpDraws);
    var withBar := LayCrossbar(grid);
    var withLeft := LayUpright(withBar, 5);
    var withMid := LayUpright(withLeft, 30);
    var withWalls := LayUpright(withMid, 54);
    blocks := LayBonuses(withWalls, hpDraws, countDraw, cellDraws);
  }

  /** The generated board: every cell at its grid position, walls on exactly
      the "T" cells with the wall hit-points, Normal blocks with one to three
      hit-points, Ball+1 blocks with one hit-point inside columns 10-49 and
      rows 5-18, and every block's maximum equal to its hit-points. */
  lemma Level1Layout(bs: seq<Block>, hpDraws: seq<real>, countDraw: real, cellDraws: seq<CellDraw>, i: nat)
    requires ValidDraws(hpDraws, countDraw, cellDraws)
    requires IsLevel1(bs, hpDraws, countDraw, cellDraws)
    requires i < CellCount
    ensures bs[i].x == ColOf(i) * BlockSize && bs[i].y == (StartRow + RowOf(i)) * BlockSize
    ensures bs[i].maxHp == bs[i].hp
    ensures bs[i].kind == Wall <==> IsWallCell(RowOf(i), ColOf(i))
    ensures bs[i].kind == Wall ==> bs[i].hp == WallHp
    ensures bs[i].kind == Normal ==> bs[i].hp == HpFromDraw(hpDraws[i])
    ensures bs[i].kind == BallPlus ==> bs[i].hp == 1 && 10 <= ColOf(i) <= 49 && 5 <= RowOf(i) <= 18
  {
    var ds := cellDraws[..BonusCount(countDraw)];
    if bs[i].kind == BallPlus {
      var k :| 0 <= k < |ds| && BonusTargets(ds)[k] == i;
      BonusTargetsAt(ds, k);
    }
  }

  lemma {:induction false} BonusTargetsAt(ds: seq<CellDraw>, k: nat)
    requires forall j | 0 <= j < |ds| :: IsDraw(ds[j].col) && IsDraw(ds[j].row)
    requires k < |ds|
    ensures BonusTargets(ds)[k] == BonusTarget(ds[k])
  {
    var init := ds[..|ds| - 1];
    if k < |ds| - 1 {
      BonusTargetsAt(init, k);
    }
  }

  /** The distinct cells of a sequence of cells. */
  function CellSet(ts: seq<nat>): set<nat>
  {
    set t: nat | t in ts
  }

  /** At most as many cells aimed at as draws, whatever the repeats. */
  lemma {:induction false} DistinctCellsAtMostDraws(ts: seq<nat>)
    ensures |CellSet(ts)| <= |ts|
  {
    if ts != [] {
      var init := ts[..|ts| - 1];
      var last := ts[|ts| - 1];
      DistinctCellsAtMostDraws(init);
      assert CellSet(ts) == CellSet(init) + {last} by {
        assert ts == init + [last];
      }
      if last in CellSet(init) {
        assert CellSet(ts) == CellSet(init);
      }
    }
  }

  /** The cells holding a Ball+1 block. */
  function BonusCells(bs: seq<Block>): set<nat>
  {
    set i: nat | i < |bs| && bs[i].kind == BallPlus
  }

  /** The number of Ball+1 blocks placed is at most the drawn count, which is
      three to five: a draw that lands on a wall or on an earlier Ball+1 block
      places nothing. */
  lemma Level1BonusCount(bs: seq<Block>, hpDraws: seq<real>, countDraw: real, cellDraws: seq<CellDraw>)
    requires ValidDraws(hpDraws, countDraw, cellDraws)
    requires IsLevel1(bs, hpDraws, countDraw, cellDraws)
    ensures |BonusCells(bs)| <= BonusCount(countDraw) <= 5
  {
    var ts := BonusTargets(cellDraws[..BonusCount(countDraw)]);
    assert BonusCells(bs) <= CellSet(ts);
    assert |ts| == BonusCount(countDraw);
    DistinctCellsAtMostDraws(ts);
    SubsetCard(BonusCells(bs), CellSet(ts));
  }

  lemma SubsetCard(a: set<nat>, b: set<nat>)
    requires a <= b
    ensures |a| <= |b|
  {
    assert b == a + (b - a);
  }

  /** Every generated block survives clean-up, and the board has a wall, so
      a generated board can never pass the stage-clear test. */
  lemma Level1NeverClears(bs: seq<Block>, hpDraws: seq<real>, countDraw: real, cellDraws: seq<CellDraw>)
    requires ValidDraws(hpDraws, countDraw, cellDraws)
    requires IsLevel1(bs, hpDraws, countDraw, cellDraws)
    ensures HasWall(bs) && !StageCleared(bs)
    ensures forall b | b in bs :: Survives(b)
  {
    var corner := Cell(6, 5);
    CellPosition(6, 5);
    assert bs[corner].kind == Wall;
    assert bs[corner] in bs;
    WallPreventsClear(bs);
    forall b | b in bs ensures Survives(b) {
      var i :| 0 <= i < |bs| && bs[i] == b;
      Level1Layout(bs, hpDraws, countDraw, cellDraws, i);
    }
  }
}
