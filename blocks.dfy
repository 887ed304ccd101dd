/** Blocks of the board, the per-round board descent and the two filters
    that decide which blocks survive a round (game.js:269-306, 402-434, 477). */
module Blocks {

  /** Side of a square block, in pixels (CONFIG.blockSize). */
  const BlockSize: int := 10
  /** The y coordinate of the collection line: balls, falling bonuses and
      live blocks that reach it are "at the bottom". */
  const CollectionLine: int := 480
  /** Hit-points given to a wall block; walls are never damaged. */
  const WallHp: int := 999999

  datatype Kind = Normal | Wall | BallPlus

  /** A block with the top-left corner of its cell, its type, its current
      hit-points and the hit-points it was created with. */
  datatype Block = Block(x: int, y: int, kind: Kind, hp: int, maxHp: int)

  /** `new Block(x, y, type, hp)`: the maximum starts equal to the current
      hit-points. */
  function NewBlock(x: int, y: int, kind: Kind, hp: int): Block
  {
    Block(x, y, kind, hp, hp)
  }

  /** `Block.moveDown`: one cell height lower on the screen. */
  function MoveDown(b: Block): Block
  {
    b.(y := b.y + BlockSize)
  }

  /** The board after every block has moved down by one cell. */
  function Descended(bs: seq<Block>): (r: seq<Block>)
    ensures |r| == |bs|
  {
    seq(|bs|, i requires 0 <= i < |bs| => MoveDown(bs[i]))
  }

  /** Descent lowers every block by exactly one cell and changes nothing
      else: the board keeps its length, and each block its column, type and
      hit-points. */
  lemma DescentMovesEachBlock(bs: seq<Block>, i: nat)
    requires i < |bs|
    ensures |Descended(bs)| == |bs|
    ensures var d := Descended(bs)[i];
      && d.x == bs[i].x && d.y == bs[i].y + 10
      && d.kind == bs[i].kind && d.hp == bs[i].hp && d.maxHp == bs[i].maxHp
  {
  }

  /** Kept by the clean-up filter after a round: walls, and live blocks. */
  predicate Survives(b: Block)
  {
    b.kind == Wall || b.hp > 0
  }

  /** Counted by the stage-clear filter: walls, and live Ball+1 blocks.
      A live Normal block does not count. */
  predicate Obstructs(b: Block)
  {
    b.kind == Wall || (b.kind == BallPlus && b.hp > 0)
  }

  /** `Array.prototype.filter`: the blocks satisfying `p`, in board order. */
  function Filter(bs: seq<Block>, p: Block -> bool): (r: seq<Block>)
    ensures |r| <= |bs|
  {
    if bs == [] then []
    else (if p(bs[0]) then [bs[0]] else []) + Filter(bs[1..], p)
  }

  /** The filter keeps exactly the blocks that satisfy the predicate. */
  lemma {:induction false} FilterMembers(bs: seq<Block>, p: Block -> bool)
    ensures forall b :: b in Filter(bs, p) <==> b in bs && p(b)
  {
    if bs != [] {
      FilterMembers(bs[1..], p);
      assert forall b :: b in bs <==> b == bs[0] || b in bs[1..];
    }
  }

  /** The game-over test after descent: some live block is at or below the
      collection line. */
  predicate ReachedBottom(bs: seq<Block>)
  {
    exists b | b in bs :: b.hp > 0 && b.y >= CollectionLine
  }

  /** The stage-clear test: the stage-clear filter keeps nothing. */
  predicate StageCleared(bs: seq<Block>)
  {
    |Filter(bs, Obstructs)| == 0
  }

  predicate HasWall(bs: seq<Block>)
  {
    exists b | b in bs :: b.kind == Wall
  }

  /** Filtering distributes over concatenation: the filter keeps the board's
      order. */
  lemma {:induction false} FilterAppend(a: seq<Block>, b: seq<Block>, p: Block -> bool)
    ensures Filter(a + b, p) == Filter(a, p) + Filter(b, p)
  {
    if a == [] {
      assert a + b == b;
    } else {
      assert (a + b)[0] == a[0] && (a + b)[1..] == a[1..] + b;
      FilterAppend(a[1..], b, p);
      var head := if p(a[0]) then [a[0]] else [];
      assert Filter(a + b, p) == head + Filter(a[1..] + b, p);
    }
  }

  /** A filter that every block passes returns the board unchanged. */
  lemma {:induction false} FilterKeepsAll(bs: seq<Block>, p: Block -> bool)
    requires forall b | b in bs :: p(b)
    ensures Filter(bs, p) == bs
  {
    if bs != [] {
      assert forall b | b in bs[1..] :: b in bs;
      FilterKeepsAll(bs[1..], p);
    }
  }

  /** A filter that no block passes returns the empty board. */
  lemma {:induction false} FilterKeepsNone(bs: seq<Block>, p: Block -> bool)
    requires forall b | b in bs :: !p(b)
    ensures Filter(bs, p) == []
  {
    if bs != [] {
      assert forall b | b in bs[1..] :: b in bs;
      FilterKeepsNone(bs[1..], p);
    }
  }

  /** The filter drops nothing exactly when every block passes it. */
  lemma {:induction false} FilterDropsFailing(bs: seq<Block>, p: Block -> bool)
    ensures |Filter(bs, p)| == |bs| <==> forall b | b in bs :: p(b)
  {
    if bs != [] {
      FilterDropsFailing(bs[1..], p);
      assert forall b | b in bs :: b == bs[0] || b in bs[1..];
      if !p(bs[0]) {
        assert |Filter(bs, p)| == |Filter(bs[1..], p)| <= |bs[1..]|;
      }
    }
  }

  /** Moving the board down and then removing destroyed blocks gives the
      same board as removing them first and then moving it down: descent
      changes neither type nor hit-points. */
  lemma {:induction false} DescentCommutesWithCleanUp(bs: seq<Block>)
    ensures Filter(Descended(bs), Survives) == Descended(Filter(bs, Survives))
  {
    if bs != [] {
      var d := Descended(bs);
      assert d[0] == MoveDown(bs[0]) && d[1..] == Descended(bs[1..]);
      DescentCommutesWithCleanUp(bs[1..]);
      var tail := Filter(bs[1..], Survives);
      if Survives(bs[0]) {
        assert Descended([bs[0]] + tail) == [MoveDown(bs[0])] + Descended(tail);
      }
    }
  }

  /** Descent and clean-up never remove a wall, so a board that has a wall
      still has one after a round. */
  lemma WallsOutlastRound(bs: seq<Block>)
    requires HasWall(bs)
    ensures HasWall(Filter(Descended(bs), Survives))
  {
    var w :| w in bs && w.kind == Wall;
    var i :| 0 <= i < |bs| && bs[i] == w;
    assert Descended(bs)[i] == MoveDown(w);
    FilterMembers(Descended(bs), Survives);
  }

  /** A board with a wall is never cleared: walls always pass the stage-clear
      filter. */
  lemma WallPreventsClear(bs: seq<Block>)
    requires HasWall(bs)
    ensures !StageCleared(bs)
  {
    var w :| w in bs && w.kind == Wall;
    FilterMembers(bs, Obstructs);
  }

  /** The stage-clear test passes exactly when the board holds no wall and
      no Ball+1 block with hit-points left; the hit-points of Normal blocks
      do not matter. */
  lemma StageClearedIff(bs: seq<Block>)
    ensures StageCleared(bs) <==> forall b | b in bs :: !Obstructs(b)
  {
    FilterMembers(bs, Obstructs);
    var r := Filter(bs, Obstructs);
    if |r| > 0 {
      assert r[0] in r;
    }
  }

  /** Live Normal blocks do not prevent a clear: a board of Normal blocks
      only, whatever their hit-points, passes the stage-clear test. */
  lemma NormalBlocksDoNotObstruct(bs: seq<Block>)
    requires forall b | b in bs :: b.kind == Normal
    ensures StageCleared(bs)
  {
    FilterKeepsNone(bs, Obstructs);
  }

  /** A wall one row above the collection line ends the game at the next
      descent, since walls keep their hit-points. */
  lemma WallReachingLineEndsGame(bs: seq<Block>, i: nat)
    requires i < |bs| && bs[i].kind == Wall && bs[i].hp > 0
    requires bs[i].y + BlockSize >= CollectionLine
    ensures ReachedBottom(Descended(bs))
  {
    assert Descended(bs)[i] in Descended(bs);
  }

  /** Destroyed blocks that descend past the collection line do not end the
      game: only live blocks are tested. */
  lemma DestroyedBlocksNeverEndGame(bs: seq<Block>)
    requires forall b | b in bs :: b.hp <= 0
    ensures !ReachedBottom(Descended(bs))
  {
    forall b | b in Descended(bs) ensures b.hp <= 0 {
      var i :| 0 <= i < |bs| && Descended(bs)[i] == b;
      assert bs[i] in bs;
    }
  }
}
