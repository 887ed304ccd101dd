/** The per-tick rules of a ball and of a falling bonus, stated on their
    field values: motion and wall reflection (game.js:147-174), the sweep
    over the board that applies the block-hit rules (game.js:176-221,
    232-236) and the fall of a bonus (game.js:86-95). The classes in module
    Game are proved to update their fields as these functions say. */
module Physics {
  import opened Blocks

  const CanvasWidth: real := 600.0
  const BallRadius: real := 6.0
  /** The collection line as a coordinate of the ball and bonus centres. */
  const ReturnLine: real := 480.0
  /** Acceleration of a falling bonus, per tick. */
  const FallAcceleration: real := 0.2

  /** The fields of a `Ball`. */
  datatype BallState = BallState(x: real, y: real, vx: real, vy: real, radius: real, active: bool)

  /** Where a bonus is to appear: the centre of the Ball+1 block that was hit. */
  datatype Spawn = Spawn(x: real, y: real)

  function Abs(r: real): real
  {
    if r < 0.0 then -r else r
  }

  function Max(a: real, b: real): real
  {
    if a < b then b else a
  }

  function Min(a: real, b: real): real
  {
    if a < b then a else b
  }

  /** A velocity component after a reflection step: kept, or negated. */
  predicate KeptOrNegated(after: real, before: real)
  {
    after == before || after == -before
  }

  /** One motion step: move by the velocity, bounce off the side walls
      (clamping the centre back inside) and off the ceiling. */
  function Advance(s: BallState): BallState
  {
    var x, y := s.x + s.vx, s.y + s.vy;
    var hitSide := x - s.radius <= 0.0 || x + s.radius >= CanvasWidth;
    var x', vx' := if hitSide then Max(s.radius, Min(CanvasWidth - s.radius, x)) else x,
                   if hitSide then -s.vx else s.vx;
    var hitTop := y - s.radius <= 0.0;
    var y', vy' := if hitTop then s.radius else y, if hitTop then -s.vy else s.vy;
    s.(x := x', y := y', vx := vx', vy := vy')
  }

  /** A motion step keeps the speed on each axis, the radius and the
      activity, never leaves the centre above one radius from the ceiling,
      and keeps a ball narrower than the canvas inside the side walls. */
  lemma AdvanceKeeps(s: BallState)
    ensures var r := Advance(s);
      && KeptOrNegated(r.vx, s.vx) && KeptOrNegated(r.vy, s.vy)
      && Abs(r.vx) == Abs(s.vx) && Abs(r.vy) == Abs(s.vy)
      && r.radius == s.radius && r.active == s.active
      && r.y >= s.radius
      && (s.radius <= CanvasWidth / 2.0 ==> s.radius <= r.x <= CanvasWidth - s.radius)
  {
  }

  /** The point of the block's square nearest to the ball centre, as an
      offset from that point to the centre. */
  function OffsetX(s: BallState, b: Block): real
  {
    s.x - Max(b.x as real, Min(s.x, (b.x + BlockSize) as real))
  }

  function OffsetY(s: BallState, b: Block): real
  {
    s.y - Max(b.y as real, Min(s.y, (b.y + BlockSize) as real))
  }

  /** An offset shorter than the radius, compared on squares instead of
      through a square root. */
  predicate Within(dx: real, dy: real, radius: real)
  {
    dx * dx + dy * dy < radius * radius
  }

  /** `isCollidingWith`: the nearest point of the block is closer to the
      ball centre than the radius. */
  predicate Intersects(s: BallState, b: Block)
  {
    Within(OffsetX(s, b), OffsetY(s, b), s.radius)
  }

  /** The velocity part of `reflectFrom`: exactly one component is negated,
      the horizontal one when the horizontal offset strictly dominates. */
  function Reflect(s: BallState, b: Block): BallState
  {
    if Abs(OffsetX(s, b)) > Abs(OffsetY(s, b)) then s.(vx := -s.vx) else s.(vy := -s.vy)
  }

  /** A reflection keeps the position and negates exactly one velocity
      component, the horizontal one only when the horizontal offset
      strictly dominates. */
  lemma ReflectFlipsOne(s: BallState, b: Block)
    ensures var r := Reflect(s, b);
      && r.x == s.x && r.y == s.y && r.radius == s.radius && r.active == s.active
      && ((r.vx == -s.vx && r.vy == s.vy) || (r.vx == s.vx && r.vy == -s.vy))
      && (r.vx == -s.vx && s.vx != 0.0 ==> Abs(OffsetX(s, b)) > Abs(OffsetY(s, b)))
    ensures Abs(OffsetX(s, b)) > Abs(OffsetY(s, b)) ==>
      Reflect(s, b).vx == -s.vx && Reflect(s, b).vy == s.vy
    ensures !(Abs(OffsetX(s, b)) > Abs(OffsetY(s, b))) ==>
      Reflect(s, b).vx == s.vx && Reflect(s, b).vy == -s.vy
  {
  }

  /** The effect of one ball-block pair: the ball, the block, the score and
      combo gained, and the bonus to spawn. */
  datatype Hit = Hit(ball: BallState, block: Block, score: int, combo: int, spawns: seq<Spawn>)

  /** A block the ball is tested against: one with hit-points left that the
      ball overlaps. */
  predicate Struck(s: BallState, b: Block)
  {
    b.hp > 0 && Intersects(s, b)
  }

  /** One iteration of the sweep in `checkBlockCollision`. */
  function Strike(s: BallState, b: Block): Hit
  {
    if !Struck(s, b) then Hit(s, b, 0, 0, [])
    else match b.kind
      case Wall => Hit(Reflect(s, b), b, 0, 0, [])
      case BallPlus =>
        Hit(Reflect(s, b), b.(hp := 0), 100, 1,
            [Spawn(b.x as real + (BlockSize / 2) as real, b.y as real + (BlockSize / 2) as real)])
      case Normal =>
        var hp := b.hp - 1;
        Hit(Reflect(s, b), b.(hp := hp), 10, if hp > 0 then 1 else 0, [])
  }

  /** The block-hit rules. */
  lemma StrikeRules(s: BallState, b: Block)
    ensures var h := Strike(s, b);
      // Only the velocity of the ball changes, by one reflection at most.
      && h.ball.x == s.x && h.ball.y == s.y && h.ball.radius == s.radius && h.ball.active == s.active
      && Abs(h.ball.vx) == Abs(s.vx) && Abs(h.ball.vy) == Abs(s.vy)
      // Position, type and maximum of the block never change.
      && h.block.x == b.x && h.block.y == b.y && h.block.kind == b.kind && h.block.maxHp == b.maxHp
      // A block without hit-points, or not touched, is skipped.
      && (!Struck(s, b) ==> h == Hit(s, b, 0, 0, []))
      // A wall only reflects.
      && (Struck(s, b) && b.kind == Wall ==> h == Hit(Reflect(s, b), b, 0, 0, []))
      // A Ball+1 block is destroyed for 100 points, one combo step and a bonus at its centre.
      && (Struck(s, b) && b.kind == BallPlus ==>
            h.ball == Reflect(s, b) && h.block.hp == 0 && h.score == 100 && h.combo == 1
            && h.spawns == [Spawn(b.x as real + 5.0, b.y as real + 5.0)])
      // A Normal block loses one hit-point for 10 points; the combo only grows while it survives.
      && (Struck(s, b) && b.kind == Normal ==>
            h.ball == Reflect(s, b) && h.block.hp == b.hp - 1 && h.score == 10
            && h.combo == (if b.hp - 1 > 0 then 1 else 0) && h.spawns == [])
  {
    ReflectFlipsOne(s, b);
  }

  /** The result of sweeping a ball over the whole board. */
  datatype Sweep = Sweep(ball: BallState, blocks: seq<Block>, score: int, combo: int, spawns: seq<Spawn>)

  /** `checkBlockCollision`: the blocks are visited in board order, each
      with the ball as the earlier blocks left it. */
  function Collide(s: BallState, bs: seq<Block>): (r: Sweep)
    ensures |r.blocks| == |bs|
    decreases |bs|
  {
    if bs == [] then Sweep(s, [], 0, 0, [])
    else
      var c := Collide(s, bs[..|bs| - 1]);
      var h := Strike(c.ball, bs[|bs| - 1]);
      Sweep(h.ball, c.blocks + [h.block], c.score + h.score, c.combo + h.combo, c.spawns + h.spawns)
  }

  /** The sweep moves the ball nowhere and keeps its speed on each axis;
      the score and the combo never drop, and each block adds at most one
      combo step and one bonus. The position clause holds only because a
      reflection here keeps the ball's position; the game's push-out moves
      it. */
  lemma {:induction false} CollideKeeps(s: BallState, bs: seq<Block>)
    decreases |bs|
    ensures var r := Collide(s, bs);
      && r.ball.x == s.x && r.ball.y == s.y && r.ball.radius == s.radius && r.ball.active == s.active
      && Abs(r.ball.vx) == Abs(s.vx) && Abs(r.ball.vy) == Abs(s.vy)
      && 0 <= r.score && 0 <= r.combo <= |bs| && |r.spawns| <= |bs|
  {
    if bs != [] {
      var c := Collide(s, bs[..|bs| - 1]);
      CollideKeeps(s, bs[..|bs| - 1]);
      StrikeRules(c.ball, bs[|bs| - 1]);
    }
  }

  /** What a block becomes depends only on the ball's position, not on the
      reflections caused by the blocks before it. This holds because a
      reflection here keeps the ball's position; the overlap push-out that
      moves the ball after a reflection is not part of this model. */
  lemma StrikeIgnoresVelocity(s: BallState, t: BallState, b: Block)
    requires s.x == t.x && s.y == t.y && s.radius == t.radius
    ensures Strike(s, b).block == Strike(t, b).block
    ensures Strike(s, b).score == Strike(t, b).score && Strike(s, b).combo == Strike(t, b).combo
    ensures Strike(s, b).spawns == Strike(t, b).spawns
  {
    assert OffsetX(s, b) == OffsetX(t, b) && OffsetY(s, b) == OffsetY(t, b);
  }

  /** After the sweep each block is exactly what the hit rules make of it
      alone, with the ball where the sweep started: no block other than one
      the ball overlaps changes. Like `StrikeIgnoresVelocity`, this rests on
      reflections keeping the ball's position. */
  lemma {:induction false} CollideBlockwise(s: BallState, bs: seq<Block>, j: nat)
    requires j < |bs|
    ensures Collide(s, bs).blocks[j] == Strike(s, bs[j]).block
  {
    var init := bs[..|bs| - 1];
    if j < |bs| - 1 {
      CollideBlockwise(s, init, j);
      assert init[j] == bs[j];
    } else {
      CollideKeeps(s, init);
      StrikeIgnoresVelocity(Collide(s, init).ball, s, bs[j]);
    }
  }

  /** The points a ball earns on a board, block by block. */
  function Points(s: BallState, bs: seq<Block>): int
  {
    if bs == [] then 0 else Points(s, bs[..|bs| - 1]) + Strike(s, bs[|bs| - 1]).score
  }

  /** The score gained by the sweep is the sum of the points of each block
      on its own: 100 per Ball+1 block struck, 10 per Normal block struck
      (again resting on reflections keeping the ball's position). */
  lemma {:induction false} CollideScore(s: BallState, bs: seq<Block>)
    ensures Collide(s, bs).score == Points(s, bs)
  {
    if bs != [] {
      var init := bs[..|bs| - 1];
      CollideScore(s, init);
      CollideKeeps(s, init);
      StrikeIgnoresVelocity(Collide(s, init).ball, s, bs[|bs| - 1]);
    }
  }

  /** Walls come through the sweep unchanged and hit-points never grow.
      Blocks the ball does not strike also come through unchanged; that
      clause holds only because a reflection here keeps the ball's
      position, while the game's push-out can carry the ball into a block
      it did not overlap before. */
  lemma SweepSparesWalls(s: BallState, bs: seq<Block>, j: nat)
    requires j < |bs|
    ensures Collide(s, bs).blocks[j].hp <= bs[j].hp
    ensures bs[j].kind == Wall ==> Collide(s, bs).blocks[j] == bs[j]
    ensures !Struck(s, bs[j]) ==> Collide(s, bs).blocks[j] == bs[j]
  {
    CollideBlockwise(s, bs, j);
    StrikeRules(s, bs[j]);
  }

  /** The part of the game state that a ball's update reads and writes. */
  datatype Arena = Arena(blocks: seq<Block>, score: int, combo: int, returned: int,
                         launchX: real, spawns: seq<Spawn>)

  /** The ball state an active ball is swept with: moved, and marked
      inactive once it has reached the collection line. */
  function Landing(s: BallState): (r: BallState)
    ensures r.active <==> s.active && Advance(s).y < ReturnLine
  {
    var m := Advance(s);
    if m.y >= ReturnLine then m.(active := false) else m
  }

  /** `Ball.update`: an inactive ball does nothing; an active one moves, is
      counted as returned once its centre reaches the collection line (and
      moves the launch point to where it landed), and in the same tick is
      still swept over the board. */
  function BallUpdate(s: BallState, a: Arena): (BallState, Arena)
  {
    if !s.active then (s, a)
    else
      var back := Advance(s).y >= ReturnLine;
      var c := Collide(Landing(s), a.blocks);
      (c.ball, Arena(c.blocks, a.score + c.score, a.combo + c.combo,
                     a.returned + (if back then 1 else 0),
                     if back then Advance(s).x else a.launchX, a.spawns + c.spawns))
  }

  /** What one ball update does: an inactive ball and the game are left
      alone; an active ball lands exactly when its move takes it to the
      collection line, and then counts as returned and moves the launch
      point; the speed on each axis, the board size, the score and the
      combo never go down. */
  lemma BallUpdateEffect(s: BallState, a: Arena)
    ensures var r := BallUpdate(s, a);
      && (!s.active ==> r == (s, a))
      && (s.active ==>
        && (r.0.active <==> Advance(s).y < ReturnLine)
        && r.1.returned == a.returned + (if r.0.active then 0 else 1)
        && r.1.launchX == (if r.0.active then a.launchX else Advance(s).x)
        && r.0.x == Advance(s).x && r.0.y == Advance(s).y)
      && Abs(r.0.vx) == Abs(s.vx) && Abs(r.0.vy) == Abs(s.vy) && r.0.radius == s.radius
      && |r.1.blocks| == |a.blocks| && r.1.score >= a.score && r.1.combo >= a.combo
  {
    if s.active {
      AdvanceKeeps(s);
      CollideKeeps(Landing(s), a.blocks);
    }
  }

  /** A ball released from the launch point (y = 750, below the collection
      line) with an upward or level aim lands in its first update: any aim
      the clamp allows gives a vertical speed in [-12, 0], so the first move
      leaves it at y >= 738. It is counted returned at once and never
      reaches the ceiling. */
  lemma LaunchedBallReturnsAtOnce(s: BallState, a: Arena)
    requires s.active && s.y == 750.0 && -12.0 <= s.vy <= 0.0 && s.radius == BallRadius
    ensures !BallUpdate(s, a).0.active
    ensures BallUpdate(s, a).1.returned == a.returned + 1
    ensures BallUpdate(s, a).0.y == 750.0 + s.vy
  {
    CollideKeeps(Landing(s), a.blocks);
  }

  /** `balls.forEach(ball => ball.update())`: the balls in list order, each
      seeing the board as the previous ones left it. */
  function StepBalls(ss: seq<BallState>, a: Arena): (r: (seq<BallState>, Arena))
    ensures |r.0| == |ss|
    decreases |ss|
  {
    if ss == [] then ([], a)
    else
      var p := StepBalls(ss[..|ss| - 1], a);
      var u := BallUpdate(ss[|ss| - 1], p.1);
      (p.0 + [u.0], u.1)
  }

  /** The number of balls that go from active to inactive. */
  function Landed(before: seq<BallState>, after: seq<BallState>): nat
    requires |before| == |after|
  {
    if before == [] then 0
    else
      var n := |before| - 1;
      Landed(before[..n], after[..n]) + (if before[n].active && !after[n].active then 1 else 0)
  }

  /** Across one tick, the returned count grows by exactly the number of
      balls that landed; inactive balls are left alone, no ball becomes
      active again, and every ball keeps its speed on both axes. */
  lemma {:induction false} StepBallsCountsReturns(ss: seq<BallState>, a: Arena)
    ensures StepBalls(ss, a).1.returned == a.returned + Landed(ss, StepBalls(ss, a).0)
    ensures forall k | 0 <= k < |ss| :: !ss[k].active ==> StepBalls(ss, a).0[k] == ss[k]
    ensures forall k | 0 <= k < |ss| :: StepBalls(ss, a).0[k].active ==> ss[k].active
    ensures forall k | 0 <= k < |ss| ::
      Abs(StepBalls(ss, a).0[k].vx) == Abs(ss[k].vx) && Abs(StepBalls(ss, a).0[k].vy) == Abs(ss[k].vy)
    ensures StepBalls(ss, a).1.score >= a.score && |StepBalls(ss, a).1.blocks| == |a.blocks|
  {
    if ss != [] {
      var n := |ss| - 1;
      var init := ss[..n];
      StepBallsCountsReturns(init, a);
      var p := StepBalls(init, a);
      BallUpdateEffect(ss[n], p.1);
      var r := StepBalls(ss, a);
      assert r.0[..n] == p.0;
      assert forall k | 0 <= k < n :: ss[k] == init[k] && r.0[k] == p.0[k];
    }
  }

  /** The fields of a `FallingBall`. */
  datatype FallState = FallState(x: real, y: real, vy: real, collected: bool)

  /** `FallingBall.update`: fall with growing speed; reaching the collection
      line marks the bonus collected and gains one ball. */
  function Fall(f: FallState): (FallState, nat)
  {
    var y := f.y + f.vy;
    var vy := f.vy + FallAcceleration;
    if y >= ReturnLine then (FallState(f.x, y, vy, true), 1) else (FallState(f.x, y, vy, f.collected), 0)
  }

  /** A bonus falls by its speed, which then grows by 0.2; it gains one
      ball exactly when it reaches the collection line, and is collected
      exactly then or if it already was. */
  lemma FallRule(f: FallState)
    ensures var r := Fall(f);
      && r.0.x == f.x && r.0.y == f.y + f.vy && r.0.vy == f.vy + FallAcceleration
      && r.1 == (if r.0.y >= ReturnLine then 1 else 0)
      && (r.0.collected <==> f.collected || r.1 == 1)
  {
  }

  /** `fallingBalls.forEach(ball => ball.update())` with the balls gained. */
  function FallAll(fs: seq<FallState>): (r: (seq<FallState>, nat))
    ensures |r.0| == |fs|
  {
    if fs == [] then ([], 0)
    else
      var p := FallAll(fs[..|fs| - 1]);
      var u := Fall(fs[|fs| - 1]);
      (p.0 + [u.0], p.1 + u.1)
  }

  function CountCollected(fs: seq<FallState>): nat
  {
    if fs == [] then 0 else CountCollected(fs[..|fs| - 1]) + (if fs[|fs| - 1].collected then 1 else 0)
  }

  /** When no bonus was collected before the tick, the balls gained are
      exactly the bonuses collected in it: one ball per bonus, and the
      filter that follows removes each of them. */
  lemma {:induction false} FallGainsOnePerBonus(fs: seq<FallState>)
    requires forall k | 0 <= k < |fs| :: !fs[k].collected
    ensures FallAll(fs).1 == CountCollected(FallAll(fs).0)
  {
    if fs != [] {
      var n := |fs| - 1;
      FallGainsOnePerBonus(fs[..n]);
      FallRule(fs[n]);
      assert FallAll(fs).0[..n] == FallAll(fs[..n]).0;
    }
  }
}
