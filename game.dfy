/** The game state and the rules that change it: the ball and falling-bonus
    objects, the tick (`update`, game.js:567-580), round resolution
    (game.js:402-434, 470-479), the launch sequence (game.js:440-468),
    initialisation (game.js:22-37, 312-332) and the input guards
    (game.js:608-667). Host timers are explicit: a `setInterval` of the
    launch is a `LaunchTimer`, a `setTimeout` of a bonus spawn a `Spawn`,
    and the host fires one of them with `FireLaunchTimer` or
    `FireSpawnTimer`. */
module Game {
  import opened Blocks
  import opened Level
  import opened Physics

  const BallSpeed: real := 12.0
  /** `Math.PI` as a double. */
  const Pi: real := 3.141592653589793
  const StartX: real := 300.0
  const LaunchY: real := 750.0
  const BonusFallSpeed: real := 2.0

  /** The aim limit applied after `atan2`: an angle outside [-pi, 0] is
      brought to -0.1 when positive and to -pi + 0.1 when below -pi. */
  function ClampAim(a: real): (r: real)
    ensures -Pi <= r <= 0.0
    ensures -Pi <= a <= 0.0 ==> r == a
    ensures a > 0.0 ==> r == -0.1
    ensures a < -Pi ==> r == -Pi + 0.1
  {
    if a < -Pi || a > 0.0 then Max(-Pi + 0.1, Min(-0.1, a)) else a
  }

  /** A running launch interval: the velocity it captured and the number of
      balls it has released so far. */
  datatype LaunchTimer = LaunchTimer(vx: real, vy: real, launched: nat)

  /** One firing of a launch interval, given the ball count it reads then. */
  datatype Firing = Cleared | Released(next: LaunchTimer)

  function Fire(t: LaunchTimer, ballCount: int): Firing
  {
    if t.launched >= ballCount then Cleared else Released(t.(launched := t.launched + 1))
  }

  /** `n` firings of an interval while the ball count stays `ballCount`:
      the balls released, and whether the interval cleared itself. */
  function FireTimes(t: LaunchTimer, ballCount: int, n: nat): (nat, bool)
    decreases n
  {
    if n == 0 then (0, false)
    else match Fire(t, ballCount)
      case Cleared => (0, true)
      case Released(next) => var r := FireTimes(next, ballCount, n - 1); (r.0 + 1, r.1)
  }

  /** A launch releases exactly the ball count, one per firing, and clears
      itself at the first firing after that. */
  lemma {:induction false} LaunchReleasesBallCount(t: LaunchTimer, ballCount: int, n: nat)
    requires t.launched <= ballCount
    decreases n
    ensures FireTimes(t, ballCount, n).0 == (if n <= ballCount - t.launched then n else ballCount - t.launched)
    ensures FireTimes(t, ballCount, n).1 <==> n > ballCount - t.launched
  {
    if n > 0 && t.launched < ballCount {
      LaunchReleasesBallCount(t.(launched := t.launched + 1), ballCount, n - 1);
    }
  }

  function RemoveAt<T>(s: seq<T>, k: nat): (r: seq<T>)
    requires k < |s|
    ensures |r| == |s| - 1
  {
    s[..k] + s[k + 1..]
  }

  class Ball {
    var x: real
    var y: real
    var vx: real
    var vy: real
    const radius: real
    var active: bool

    constructor (x: real, y: real, vx: real, vy: real)
      ensures State() == BallState(x, y, vx, vy, BallRadius, true)
    {
      this.x, this.y, this.vx, this.vy := x, y, vx, vy;
      radius := BallRadius;
      active := true;
    }

    function State(): BallState
      reads this
    {
      BallState(x, y, vx, vy, radius, active)
    }

    predicate IsCollidingWith(b: Block)
      reads this
    {
      Intersects(State(), b)
    }

    /** The velocity part of `reflectFrom`. */
    method ReflectFrom(b: Block)
      modifies this
      ensures State() == Reflect(old(State()), b)
    {
      var closestX := Max(b.x as real, Min(x, (b.x + BlockSize) as real));
      var closestY := Max(b.y as real, Min(y, (b.y + BlockSize) as real));
      var distX := x - closestX;
      var distY := y - closestY;
      if Abs(distX) > Abs(distY) {
        vx := -vx;
      } else {
        vy := -vy;
      }
    }

    /** One iteration of `checkBlockCollision`, on block `i` of the board. */
    method HitBlock(g: GameState, i: nat)
      requires i < |g.blocks|
      modifies this, g`blocks, g`score, g`comboCount, g`spawnTimers
      ensures var h := Strike(old(State()), old(g.blocks[i]));
        && State() == h.ball && g.blocks == old(g.blocks)[i := h.block]
        && g.score == old(g.score) + h.score && g.comboCount == old(g.comboCount) + h.combo
        && g.spawnTimers == old(g.spawnTimers) + h.spawns
    {
      var block := g.blocks[i];
      if block.hp > 0 && IsCollidingWith(block) {
        if block.kind == Wall {
          ReflectFrom(block);
        } else if block.kind == BallPlus {
          g.blocks := g.blocks[i := block.(hp := 0)];
          g.score := g.score + 100;
          g.comboCount := g.comboCount + 1;
          g.spawnTimers := g.spawnTimers
            + [Spawn(block.x as real + (BlockSize / 2) as real, block.y as real + (BlockSize / 2) as real)];
          ReflectFrom(block);
        } else {
          g.blocks := g.blocks[i := block.(hp := block.hp - 1)];
          g.score := g.score + 10;
          if block.hp - 1 > 0 {
            g.comboCount := g.comboCount + 1;
          }
          ReflectFrom(block);
        }
      }
    }

    /** `checkBlockCollision`: the board in order, skipping blocks without
        hit-points, applying the hit rules to every block the ball overlaps. */
    method CheckBlockCollision(g: GameState)
      modifies this, g`blocks, g`score, g`comboCount, g`spawnTimers
      ensures var c := Collide(old(State()), old(g.blocks));
        && State() == c.ball && g.blocks == c.blocks
        && g.score == old(g.score) + c.score && g.comboCount == old(g.comboCount) + c.combo
        && g.spawnTimers == old(g.spawnTimers) + c.spawns
    {
      ghost var s0, bs0 := State(), g.blocks;
      ghost var score0, combo0, spawns0 := g.score, g.comboCount, g.spawnTimers;
      var i := 0;
      while i < |g.blocks|
        invariant 0 <= i <= |bs0| == |g.blocks|
        invariant State() == Collide(s0, bs0[..i]).ball
        invariant g.blocks == Collide(s0, bs0[..i]).blocks + bs0[i..]
        invariant g.score == score0 + Collide(s0, bs0[..i]).score
        invariant g.comboCount == combo0 + Collide(s0, bs0[..i]).combo
        invariant g.spawnTimers == spawns0 + Collide(s0, bs0[..i]).spawns
      {
        ghost var c := Collide(s0, bs0[..i]);
        assert g.blocks[i] == bs0[i];
        assert bs0[..i + 1][..i] == bs0[..i];
        ghost var h := Strike(c.ball, bs0[i]);
        HitBlock(g, i);
        assert g.blocks == c.blocks + [h.block] + bs0[i + 1..];
        i := i + 1;
      }
      assert bs0[..i] == bs0;
    }

    /** The motion part of `Ball.update`: move, then bounce off the side
        walls and the ceiling. */
    method Move()
      modifies this
      ensures State() == Advance(old(State()))
    {
      x := x + vx;
      y := y + vy;
      if x - radius <= 0.0 || x + radius >= CanvasWidth {
        vx := -vx;
        x := Max(radius, Min(CanvasWidth - radius, x));
      }
      if y - radius <= 0.0 {
        vy := -vy;
        y := radius;
      }
    }

    /** `Ball.update`. */
    method Update(g: GameState)
      modifies this, g`blocks, g`score, g`comboCount, g`spawnTimers, g`ballsReturned, g`launchX
      ensures (State(), g.BallArena()) == BallUpdate(old(State()), old(g.BallArena()))
    {
      if !active {
        return;
      }
      ghost var s0, a := State(), g.BallArena();
      Move();
      ghost var back := y >= ReturnLine;
      if y >= ReturnLine {
        active := false;
        g.ballsReturned := g.ballsReturned + 1;
        g.launchX := x;
      }
      assert State() == Landing(s0);
      CheckBlockCollision(g);
      ghost var c := Collide(Landing(s0), a.blocks);
      assert g.BallArena() == Arena(c.blocks, a.score + c.score, a.combo + c.combo,
                                    a.returned + (if back then 1 else 0),
                                    if back then Advance(s0).x else a.launchX, a.spawns + c.spawns);
    }
  }

  function BallStates(bs: seq<Ball>): (r: seq<BallState>)
    reads bs
    ensures |r| == |bs| && forall k | 0 <= k < |bs| :: r[k] == bs[k].State()
  {
    if bs == [] then [] else BallStates(bs[..|bs| - 1]) + [bs[|bs| - 1].State()]
  }

  class FallingBall {
    var x: real
    var y: real
    var vy: real
    var collected: bool

    constructor (x: real, y: real)
      ensures State() == FallState(x, y, BonusFallSpeed, false)
    {
      this.x, this.y := x, y;
      vy := BonusFallSpeed;
      collected := false;
    }

    function State(): FallState
      reads this
    {
      FallState(x, y, vy, collected)
    }

    /** `FallingBall.update`. */
    method Update(g: GameState)
      modifies this, g`ballCount
      ensures State() == Fall(old(State())).0
      ensures g.ballCount == old(g.ballCount) + Fall(old(State())).1
    {
      y := y + vy;
      vy := vy + FallAcceleration;
      if y >= ReturnLine {
        collected := true;
        g.ballCount := g.ballCount + 1;
      }
    }
  }

  /** The same mapping as `BallStates`, over falling bonuses: the two
      classes share no supertype, so each list needs its own. */
  function FallStates(fs: seq<FallingBall>): (r: seq<FallState>)
    reads fs
    ensures |r| == |fs| && forall k | 0 <= k < |fs| :: r[k] == fs[k].State()
  {
    if fs == [] then [] else FallStates(fs[..|fs| - 1]) + [fs[|fs| - 1].State()]
  }

  /** `fallingBalls.filter(b => !b.collected)`, given the fields `st` of
      the bonuses `fs`: the bonuses not collected, in list order. */
  function Uncollected(fs: seq<FallingBall>, st: seq<FallState>): (r: seq<FallingBall>)
    requires |st| == |fs|
    ensures |r| + CountCollected(st) == |fs|
  {
    if fs == [] then []
    else
      var n := |fs| - 1;
      assert st[..n] == st[..|st| - 1];
      var init := Uncollected(fs[..n], st[..n]);
      if st[n].collected then init else init + [fs[n]]
  }

  /** The filter keeps exactly the bonuses not collected, each of which is
      one of the original bonuses, and keeps distinct bonuses distinct. */
  lemma {:induction false} UncollectedKeeps(fs: seq<FallingBall>, st: seq<FallState>)
    requires |st| == |fs|
    ensures var r := Uncollected(fs, st);
      && (forall j | 0 <= j < |r| :: exists k | 0 <= k < |fs| :: r[j] == fs[k] && !st[k].collected)
      && (forall k | 0 <= k < |fs| :: !st[k].collected ==> fs[k] in r)
      && ((forall i, j | 0 <= i < j < |fs| :: fs[i] != fs[j]) ==>
            forall i, j | 0 <= i < j < |r| :: r[i] != r[j])
  {
    if fs != [] {
      var n := |fs| - 1;
      var init := Uncollected(fs[..n], st[..n]);
      UncollectedKeeps(fs[..n], st[..n]);
      assert forall j | 0 <= j < |init| :: exists k | 0 <= k < n :: init[j] == fs[k] && !st[k].collected;
    }
  }

  /** All fields of the game state, for stating what an operation changes. */
  datatype Snapshot = Snapshot(
    level: int, score: int, ballCount: int,
    isPlaying: bool, isAiming: bool, isShooting: bool,
    balls: seq<Ball>, blocks: seq<Block>, fallingBalls: seq<FallingBall>,
    angle: real, launchX: real, launchY: real,
    ballsReturned: int, comboCount: int,
    launchTimers: seq<LaunchTimer>, spawnTimers: seq<Spawn>)

  /** The state `initGame` builds around a board; pending host timers
      belong to the host and outlive it. */
  function InitialView(blocks: seq<Block>, launchTimers: seq<LaunchTimer>, spawnTimers: seq<Spawn>): Snapshot
  {
    Snapshot(1, 0, 1, false, false, false, [], blocks, [], Pi / 4.0, StartX, LaunchY, 0, 0,
         launchTimers, spawnTimers)
  }

  /** `gameState`. */
  class GameState {
    var level: int
    var score: int
    var ballCount: int
    var isPlaying: bool
    var isAiming: bool
    var isShooting: bool
    var balls: seq<Ball>
    var blocks: seq<Block>
    var fallingBalls: seq<FallingBall>
    var angle: real
    var launchX: real
    var launchY: real
    var ballsReturned: int
    var comboCount: int
    /** Launch intervals still running. */
    var launchTimers: seq<LaunchTimer>
    /** Bonus spawns scheduled and not yet run. */
    var spawnTimers: seq<Spawn>

    /** Every ball and every falling bonus is a distinct object, no bonus
        in the list has been collected yet (the filter of each tick removes
        them), and the player always has a ball. */
    ghost predicate Valid()
      reads this`ballCount, this`balls, this`fallingBalls, fallingBalls
    {
      && ballCount >= 1
      && (forall i, j | 0 <= i < j < |balls| :: balls[i] != balls[j])
      && (forall i, j | 0 <= i < j < |fallingBalls| :: fallingBalls[i] != fallingBalls[j])
      && (forall k | 0 <= k < |fallingBalls| :: !fallingBalls[k].collected)
    }

    function View(): Snapshot
      reads this
    {
      Snapshot(level, score, ballCount, isPlaying, isAiming, isShooting, balls, blocks, fallingBalls,
           angle, launchX, launchY, ballsReturned, comboCount, launchTimers, spawnTimers)
    }

    function BallArena(): Arena
      reads this
    {
      Arena(blocks, score, comboCount, ballsReturned, launchX, spawnTimers)
    }

    /** The `gameState` literal the page starts with: no board yet. */
    constructor ()
      ensures Valid() && View() == InitialView([], [], [])
    {
      level, score, ballCount := 1, 0, 1;
      isPlaying, isAiming, isShooting := false, false, false;
      balls, blocks, fallingBalls := [], [], [];
      angle, launchX, launchY := Pi / 4.0, StartX, LaunchY;
      ballsReturned, comboCount := 0, 0;
      launchTimers, spawnTimers := [], [];
    }

    /** The `gameState` literal that `initGame` installs, before the board
        is generated. */
    method Reset()
      modifies this
      ensures View() == InitialView([], old(launchTimers), old(spawnTimers))
    {
      ResetCounters();
      ResetObjects();
    }

    /** The first half of the literal: progress and the three modes. */
    method ResetCounters()
      modifies this`level, this`score, this`ballCount, this`isPlaying, this`isAiming, this`isShooting
      ensures level == 1 && score == 0 && ballCount == 1 && !isPlaying && !isAiming && !isShooting
    {
      level, score, ballCount := 1, 0, 1;
      isPlaying, isAiming, isShooting := false, false, false;
    }

    /** The second half of the literal: the objects, the aim and the round. */
    method ResetObjects()
      modifies this`balls, this`blocks, this`fallingBalls, this`angle, this`launchX, this`launchY,
               this`ballsReturned, this`comboCount
      ensures balls == [] && blocks == [] && fallingBalls == []
      ensures angle == Pi / 4.0 && launchX == StartX && launchY == LaunchY
      ensures ballsReturned == 0 && comboCount == 0
    {
      balls, blocks, fallingBalls := [], [], [];
      angle, launchX, launchY := Pi / 4.0, StartX, LaunchY;
      ballsReturned, comboCount := 0, 0;
    }

    /** `initGame`: a fresh state around a newly generated board. */
    method InitGame(hpDraws: seq<real>, countDraw: real, cellDraws: seq<CellDraw>)
      requires ValidDraws(hpDraws, countDraw, cellDraws)
      modifies this
      ensures Valid()
      ensures View() == InitialView(blocks, old(launchTimers), old(spawnTimers))
      ensures IsLevel1(blocks, hpDraws, countDraw, cellDraws)
    {
      Reset();
      blocks := GenerateLevel1(hpDraws, countDraw, cellDraws);
    }

    /** The start, restart and retry buttons: `initGame`, then play. */
    method Start(hpDraws: seq<real>, countDraw: real, cellDraws: seq<CellDraw>)
      requires ValidDraws(hpDraws, countDraw, cellDraws)
      modifies this
      ensures Valid()
      ensures View() == InitialView(blocks, old(launchTimers), old(spawnTimers)).(isPlaying := true)
      ensures IsLevel1(blocks, hpDraws, countDraw, cellDraws)
    {
      InitGame(hpDraws, countDraw, cellDraws);
      isPlaying := true;
    }

    /** `balls.forEach(ball => ball.update())`. */
    method UpdateBalls()
      requires Valid()
      modifies balls, this`blocks, this`score, this`comboCount, this`spawnTimers,
               this`ballsReturned, this`launchX
      ensures Valid()
      ensures var r := StepBalls(old(BallStates(balls)), old(BallArena()));
        BallStates(balls) == r.0 && BallArena() == r.1
    {
      ghost var ss := BallStates(balls);
      ghost var a0 := BallArena();
      var i := 0;
      while i < |balls|
        invariant 0 <= i <= |ss| && Valid() && BallsStepped(ss, a0, i)
      {
        UpdateBall(i, ss, a0);
        i := i + 1;
      }
      assert ss[..i] == ss;
    }

    /** After the first `i` ball updates of a tick that started from the
        ball fields `ss` and the game fields `a0`: the first `i` balls and
        the game are as the first `i` steps leave them, and the other balls
        are untouched. */
    ghost predicate BallsStepped(ss: seq<BallState>, a0: Arena, i: nat)
      requires i <= |ss|
      reads this, balls
    {
      var p := StepBalls(ss[..i], a0);
      && |balls| == |ss|
      && (forall k | 0 <= k < i :: balls[k].State() == p.0[k])
      && (forall k | i <= k < |ss| :: balls[k].State() == ss[k])
      && BallArena() == p.1
    }

    /** `update` of ball `i`, the next one in list order. */
    method UpdateBall(i: nat, ghost ss: seq<BallState>, ghost a0: Arena)
      requires i < |ss| && Valid() && BallsStepped(ss, a0, i)
      modifies balls[i], this`blocks, this`score, this`comboCount, this`spawnTimers,
               this`ballsReturned, this`launchX
      ensures Valid() && BallsStepped(ss, a0, i + 1)
    {
      ghost var p := StepBalls(ss[..i], a0);
      ghost var u := BallUpdate(ss[i], p.1);
      assert StepBalls(ss[..i + 1], a0) == (p.0 + [u.0], u.1) by {
        assert ss[..i + 1][..i] == ss[..i];
      }
      balls[i].Update(this);
    }

    /** `fallingBalls.forEach(ball => ball.update())`. */
    method FallBonuses()
      requires forall i, j | 0 <= i < j < |fallingBalls| :: fallingBalls[i] != fallingBalls[j]
      modifies fallingBalls, this`ballCount
      ensures var r := FallAll(old(FallStates(fallingBalls)));
        && (forall k | 0 <= k < |fallingBalls| :: fallingBalls[k].State() == r.0[k])
        && ballCount == old(ballCount) + r.1
    {
      ghost var fs := FallStates(fallingBalls);
      ghost var count0 := ballCount;
      var i := 0;
      while i < |fallingBalls|
        invariant 0 <= i <= |fs| && BonusesFallen(fs, count0, i)
      {
        UpdateBonus(i, fs, count0);
        i := i + 1;
      }
      assert fs[..i] == fs;
    }

    /** After the first `i` bonus updates of a tick that started from the
        bonus fields `fs` and the ball count `count0`: the first `i` bonuses
        and the ball count are as the first `i` steps leave them, and the
        other bonuses are untouched. */
    ghost predicate BonusesFallen(fs: seq<FallState>, count0: int, i: nat)
      requires i <= |fs|
      reads this, fallingBalls
    {
      var r := FallAll(fs[..i]);
      && |fallingBalls| == |fs|
      && (forall j, k | 0 <= j < k < |fallingBalls| :: fallingBalls[j] != fallingBalls[k])
      && (forall k | 0 <= k < i :: fallingBalls[k].State() == r.0[k])
      && (forall k | i <= k < |fs| :: fallingBalls[k].State() == fs[k])
      && ballCount == count0 + r.1
    }

    /** `update` of falling bonus `i`, the next one in list order. */
    method UpdateBonus(i: nat, ghost fs: seq<FallState>, ghost count0: int)
      requires i < |fs| && BonusesFallen(fs, count0, i)
      modifies fallingBalls[i], this`ballCount
      ensures BonusesFallen(fs, count0, i + 1)
    {
      assert fs[..i + 1][..i] == fs[..i];
      fallingBalls[i].Update(this);
    }

    /** `fallingBalls = fallingBalls.filter(b => !b.collected)`, where `st`
        are the fields of the bonuses. */
    method RemoveCollected(ghost st: seq<FallState>)
      requires |st| == |fallingBalls| && forall k | 0 <= k < |st| :: fallingBalls[k].State() == st[k]
      requires forall i, j | 0 <= i < j < |fallingBalls| :: fallingBalls[i] != fallingBalls[j]
      modifies this`fallingBalls
      ensures fallingBalls == Uncollected(old(fallingBalls), st)
      ensures forall i, j | 0 <= i < j < |fallingBalls| :: fallingBalls[i] != fallingBalls[j]
      ensures forall k | 0 <= k < |fallingBalls| :: !fallingBalls[k].collected
    {
      var cur := FallStates(fallingBalls);
      assert forall k | 0 <= k < |st| :: cur[k] == st[k];
      assert cur == st;
      var kept := Uncollected(fallingBalls, cur);
      UncollectedKeeps(fallingBalls, st);
      forall j | 0 <= j < |kept| ensures !kept[j].collected {
        var k :| 0 <= k < |fallingBalls| && kept[j] == fallingBalls[k] && !st[k].collected;
        assert st[k] == fallingBalls[k].State();
      }
      fallingBalls := kept;
    }

    /** `fallingBalls.forEach(ball => ball.update())` and the filter that
        follows it: every bonus that reached the collection line gains one
        ball and leaves the list. */
    method UpdateFallingBalls()
      requires Valid()
      modifies fallingBalls, this`ballCount, this`fallingBalls
      ensures Valid()
      ensures var r := FallAll(old(FallStates(fallingBalls)));
        && (forall k | 0 <= k < |r.0| :: old(fallingBalls)[k].State() == r.0[k])
        && ballCount == old(ballCount) + r.1
      ensures fallingBalls == Uncollected(old(fallingBalls), FallAll(old(FallStates(fallingBalls))).0)
      ensures ballCount == old(ballCount) + (|old(fallingBalls)| - |fallingBalls|)
    {
      ghost var fs := FallStates(fallingBalls);
      FallBonuses();
      ghost var r := FallAll(fs);
      FallGainsOnePerBonus(fs);
      RemoveCollected(r.0);
    }

    /** `blocks.forEach(block => block.moveDown())`. */
    method DescendBlocks()
      modifies this`blocks
      ensures View() == old(View()).(blocks := Descended(old(blocks)))
    {
      var i := 0;
      while i < |blocks|
        invariant 0 <= i <= |blocks| == |old(blocks)|
        invariant blocks == Descended(old(blocks))[..i] + old(blocks)[i..]
      {
        blocks := blocks[i := MoveDown(blocks[i])];
        i := i + 1;
      }
    }

    /** `gameOver`: the game stops; the final score is only displayed. */
    method GameOver()
      modifies this`isPlaying
      ensures View() == old(View()).(isPlaying := false)
    {
      isPlaying := false;
    }

    /** `moveBlocksDown`: descent, then the game-over test, then the
        stage-clear test (which rebuilds the game), else the next level. */
    method MoveBlocksDown(hpDraws: seq<real>, countDraw: real, cellDraws: seq<CellDraw>)
      requires Valid() && ValidDraws(hpDraws, countDraw, cellDraws)
      modifies this
      ensures Valid()
      ensures var d := Descended(old(blocks));
        if ReachedBottom(d) then View() == old(View()).(blocks := d, isPlaying := false)
        else if StageCleared(d) then
          View() == InitialView(blocks, old(launchTimers), old(spawnTimers))
          && IsLevel1(blocks, hpDraws, countDraw, cellDraws)
        else View() == old(View()).(blocks := d, level := old(level) + 1)
    {
      ghost var d := Descended(blocks);
      DescendBlocks();
      assert blocks == d;
      if exists b | b in blocks :: b.hp > 0 && b.y >= CollectionLine {
        assert ReachedBottom(d);
        GameOver();
        return;
      }
      var remaining := Filter(blocks, Obstructs);
      if |remaining| == 0 {
        assert StageCleared(d);
        InitGame(hpDraws, countDraw, cellDraws);
        return;
      }
      assert !ReachedBottom(d) && !StageCleared(d);
      NextLevel();
    }

    /** The board survived the round: the level number goes up. */
    method NextLevel()
      modifies this`level
      ensures View() == old(View()).(level := old(level) + 1)
    {
      level := level + 1;
    }

    /** `checkAllBallsReturned`: once every ball of the round is back, the
        round ends, the board moves down and destroyed blocks are removed
        (after the descent, so the clean-up sees the moved board). */
    method CheckAllBallsReturned(hpDraws: seq<real>, countDraw: real, cellDraws: seq<CellDraw>)
      requires Valid() && ValidDraws(hpDraws, countDraw, cellDraws)
      modifies this
      ensures Valid()
      ensures !(old(isShooting) && old(ballsReturned) >= old(ballCount)) ==> View() == old(View())
      ensures old(isShooting) && old(ballsReturned) >= old(ballCount) ==>
        var d := Descended(old(blocks));
        var w := old(View()).(isShooting := false, balls := []);
        && (ReachedBottom(d) ==> View() == w.(blocks := Filter(d, Survives), isPlaying := false))
        && (!ReachedBottom(d) && StageCleared(d) ==>
              View() == InitialView(blocks, old(launchTimers), old(spawnTimers))
              && IsLevel1(blocks, hpDraws, countDraw, cellDraws))
        && (!ReachedBottom(d) && !StageCleared(d) ==>
              View() == w.(blocks := Filter(d, Survives), level := old(level) + 1))
    {
      if isShooting && ballsReturned >= ballCount {
        ghost var d := Descended(blocks);
        EndShooting();
        MoveBlocksDown(hpDraws, countDraw, cellDraws);
        if !ReachedBottom(d) && StageCleared(d) {
          Level1NeverClears(blocks, hpDraws, countDraw, cellDraws);
          FilterKeepsAll(blocks, Survives);
        }
        RemoveDestroyed();
      }
    }

    /** The round's shooting phase ends and its balls are discarded. */
    method EndShooting()
      modifies this`isShooting, this`balls
      ensures View() == old(View()).(isShooting := false, balls := [])
    {
      isShooting := false;
      balls := [];
    }

    /** `blocks = blocks.filter(...)`: walls and live blocks stay. */
    method RemoveDestroyed()
      modifies this`blocks
      ensures View() == old(View()).(blocks := Filter(old(blocks), Survives))
    {
      blocks := Filter(blocks, Survives);
    }

    /** `update`: one tick while the game is being played. */
    method Update(hpDraws: seq<real>, countDraw: real, cellDraws: seq<CellDraw>)
      requires Valid() && ValidDraws(hpDraws, countDraw, cellDraws)
      modifies this, balls, fallingBalls
      ensures Valid()
      ensures !old(isPlaying) ==> View() == old(View())
    {
      if !isPlaying {
        return;
      }
      UpdateBalls();
      UpdateFallingBalls();
      CheckAllBallsReturned(hpDraws, countDraw, cellDraws);
    }

    /** `launchBalls`: begin a round and start a launch interval with the
        velocity of the current aim; `cosAngle` and `sinAngle` are the
        cosine and sine of `angle`. */
    method LaunchBalls(cosAngle: real, sinAngle: real)
      modifies this`isShooting, this`isAiming, this`ballsReturned, this`comboCount, this`launchTimers
      ensures isShooting && !isAiming && ballsReturned == 0 && comboCount == 0
      ensures launchTimers == old(launchTimers) + [LaunchTimer(cosAngle * BallSpeed, sinAngle * BallSpeed, 0)]
    {
      isShooting := true;
      isAiming := false;
      ballsReturned := 0;
      comboCount := 0;
      var vx := cosAngle * BallSpeed;
      var vy := sinAngle * BallSpeed;
      launchTimers := launchTimers + [LaunchTimer(vx, vy, 0)];
    }

    /** One firing of launch interval `k`: it clears itself once it has
        released as many balls as the ball count reads now, else releases
        one more ball from the launch point. */
    method FireLaunchTimer(k: nat)
      requires Valid() && k < |launchTimers|
      modifies this`balls, this`launchTimers
      ensures Valid()
      ensures match Fire(old(launchTimers[k]), ballCount)
        case Cleared =>
          balls == old(balls) && launchTimers == RemoveAt(old(launchTimers), k)
        case Released(next) =>
          && |balls| == |old(balls)| + 1 && balls[..|old(balls)|] == old(balls)
          && fresh(balls[|old(balls)|])
          && balls[|old(balls)|].State()
             == BallState(launchX, launchY, old(launchTimers[k]).vx, old(launchTimers[k]).vy, BallRadius, true)
          && launchTimers == old(launchTimers)[k := next]
    {
      var t := launchTimers[k];
      if t.launched >= ballCount {
        launchTimers := RemoveAt(launchTimers, k);   // clearInterval
        return;
      }
      var ball := new Ball(launchX, launchY, t.vx, t.vy);
      balls := balls + [ball];
      launchTimers := launchTimers[k := t.(launched := t.launched + 1)];
    }

    /** Bonus spawn `k` runs: a falling bonus appears where it was scheduled. */
    method FireSpawnTimer(k: nat)
      requires Valid() && k < |spawnTimers|
      modifies this`fallingBalls, this`spawnTimers
      ensures Valid()
      ensures |fallingBalls| == |old(fallingBalls)| + 1 && fallingBalls[..|old(fallingBalls)|] == old(fallingBalls)
      ensures fresh(fallingBalls[|old(fallingBalls)|])
      ensures fallingBalls[|old(fallingBalls)|].State()
              == FallState(old(spawnTimers[k]).x, old(spawnTimers[k]).y, BonusFallSpeed, false)
      ensures spawnTimers == RemoveAt(old(spawnTimers), k)
    {
      var s := spawnTimers[k];
      var bonus := new FallingBall(s.x, s.y);
      fallingBalls := fallingBalls + [bonus];
      spawnTimers := RemoveAt(spawnTimers, k);
    }

    /** mousedown: start aiming, unless the game is stopped or a round is
        being shot. `pointerAngle` is the `atan2` of the pointer seen from
        the launch point. */
    method MouseDown(pointerAngle: real)
      modifies this`isAiming, this`angle
      ensures if old(!isPlaying || isShooting) then isAiming == old(isAiming) && angle == old(angle)
              else isAiming && angle == ClampAim(pointerAngle)
    {
      if !isPlaying || isShooting {
        return;
      }
      isAiming := true;
      angle := pointerAngle;
      if angle < -Pi || angle > 0.0 {
        angle := Max(-Pi + 0.1, Min(-0.1, angle));
      }
    }

    /** mousemove: follow the pointer while aiming. */
    method MouseMove(pointerAngle: real)
      modifies this`angle
      ensures if old(!isPlaying || !isAiming || isShooting) then angle == old(angle)
              else angle == ClampAim(pointerAngle)
    {
      if !isPlaying || !isAiming || isShooting {
        return;
      }
      angle := pointerAngle;
      if angle < -Pi || angle > 0.0 {
        angle := Max(-Pi + 0.1, Min(-0.1, angle));
      }
    }

    /** mouseup: launch, only when playing, aiming and not already shooting. */
    method MouseUp(cosAngle: real, sinAngle: real)
      modifies this`isShooting, this`isAiming, this`ballsReturned, this`comboCount, this`launchTimers
      ensures if old(!isPlaying || !isAiming || isShooting)
              then isShooting == old(isShooting) && isAiming == old(isAiming)
                   && ballsReturned == old(ballsReturned) && comboCount == old(comboCount)
                   && launchTimers == old(launchTimers)
              else isShooting && !isAiming && ballsReturned == 0 && comboCount == 0
                   && launchTimers == old(launchTimers) + [LaunchTimer(cosAngle * BallSpeed, sinAngle * BallSpeed, 0)]
    {
      if !isPlaying || !isAiming || isShooting {
        return;
      }
      LaunchBalls(cosAngle, sinAngle);
    }
  }
}
