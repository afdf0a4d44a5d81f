/**
 * The game session: the mutable state of one game (state machine, score and
 * lives, paddle, balls, bricks, falling power-ups and timed effects) and the
 * operations the frame loop and the player's intents apply to it.
 */
module Session {
  import opened Geometry
  import opened Entities
  import opened Level
  import opened Bricks
  import opened Balls
  import opened PowerUps

  /** The frame step in seconds: the elapsed time since the previous frame, never above MAX_DT. */
  function FrameDt(time: real, lastTime: real): (dt: real)
    ensures dt <= MAX_DT
    ensures (time - lastTime) / 1000.0 <= MAX_DT ==> dt == (time - lastTime) / 1000.0
    ensures (time - lastTime) / 1000.0 > MAX_DT ==> dt == MAX_DT
  {
    Min((time - lastTime) / 1000.0, MAX_DT)
  }

  /** The held keys as a direction: left and right together cancel out. */
  function Direction(keys: Keys): real
  {
    if keys.left == keys.right then 0.0 else if keys.left then -1.0 else 1.0
  }

  /**
   * Where the paddle ends after one frame of keyboard motion: the moved
   * position clamped to the field, so that the whole paddle stays on it.
   */
  function PaddleStep(x: real, width: real, keys: Keys, dt: real): (r: real)
    ensures 0.0 <= width <= CANVAS_WIDTH ==> width / 2.0 <= r <= CANVAS_WIDTH - width / 2.0
    ensures 0.0 <= width <= CANVAS_WIDTH && keys.left == keys.right ==>
              r == Clamp(x, width / 2.0, CANVAS_WIDTH - width / 2.0)
    ensures 0.0 <= width <= CANVAS_WIDTH && width / 2.0 <= x <= CANVAS_WIDTH - width / 2.0 && keys.left == keys.right ==> r == x
    ensures 0.0 <= width <= CANVAS_WIDTH && keys.left && !keys.right ==>
              r == Clamp(x - PADDLE_SPEED * dt, width / 2.0, CANVAS_WIDTH - width / 2.0)
    ensures 0.0 <= width <= CANVAS_WIDTH && keys.right && !keys.left ==>
              r == Clamp(x + PADDLE_SPEED * dt, width / 2.0, CANVAS_WIDTH - width / 2.0)
  {
    Clamp(x + Direction(keys) * PADDLE_SPEED * dt, width / 2.0, CANVAS_WIDTH - width / 2.0)
  }

  /** A ball as the session keeps it: attached exactly when the session says so, standard size and speed. */
  predicate BallOk(b: Ball, attached: bool)
  {
    b.attached == attached && b.radius == BALL_RADIUS && b.speed == BALL_SPEED
  }

  /** The best score after a game ends with `score`: only a higher score replaces it. */
  function KeepBest(best: int, score: int): (r: int)
    ensures r >= best && r >= score
    ensures r == best || r == score
    ensures score <= best ==> r == best
  {
    if score > best then score else best
  }

  /** The target speed of free balls: reduced while SlowMo is active. */
  function BallSpeed(slowMo: bool): real
  {
    if slowMo then BALL_SPEED * SLOWMO_FACTOR else BALL_SPEED
  }

  /** The bricks and the falling power-ups: the part of the session the per-ball pass changes besides the balls. */
  datatype Board = Board(bricks: seq<Brick>, falling: seq<PowerUp>)

  /**
   * The power-up that ball `ball` knocks out of `field`: one, falling from the
   * centre of the brick it strikes, when that hit destroys the brick, drops
   * are switched on and the drop draw `drop` gave a kind; none otherwise.
   */
  function Drop(field: seq<Brick>, ball: Ball, enabled: bool, drop: Option<PowerUpKind>): (r: seq<PowerUp>)
    ensures |r| <= 1
    ensures r != [] ==> enabled && drop.Some? && r[0].kind == drop.value && r[0].vy > 0.0
    ensures r != [] ==> var k := HitIndex(field, ball, |field|); k.Some? && !Hit(field[k.value]).alive
    ensures (var k := HitIndex(field, ball, |field|); k.Some? && !Hit(field[k.value]).alive) && enabled && drop.Some? ==> r != []
  {
    match HitIndex(field, ball, |field|)
    case None => []
    case Some(k) =>
      var brick := field[k];
      if !Hit(brick).alive && enabled && drop.Some?
      then [NewPowerUp(brick.x + brick.width / 2.0, brick.y + brick.height / 2.0, drop.value)]
      else []
  }

  /**
   * Ball `b0` became `b`, and the board `board0` became `board`, in one step
   * of the per-ball pass: an attached ball rides on the paddle and leaves the
   * board alone; a free ball flies, then bounces off the brick it strikes,
   * which takes the hit and may drop a power-up (drop draw `drop`).
   */
  ghost predicate Stepped(b0: Ball, b: Ball, board0: Board, board: Board, paddleX: real, width: real,
                          speed: real, trig: Trig, dt: real, enabled: bool, drop: Option<PowerUpKind>)
  {
    if b0.attached then b == Snap(b0, paddleX) && board == board0
    else
      && width > 0.0
      && var flown := Fly(b0, paddleX, width, speed, trig, dt);
         && b == Rebound(board0.bricks, flown)
         && board == Board(Strike(board0.bricks, flown), board0.falling + Drop(board0.bricks, flown, enabled, drop))
  }

  /**
   * The balls after the loss check on the moved balls `moved`: the ones still
   * in play; when balls existed and none is left, a fresh attached ball if a
   * life remains, and the moved balls untouched when the game is over.
   */
  function BallsLeft(moved: seq<Ball>, lives0: int, paddleX: real): (r: seq<Ball>)
    ensures Survivors(moved) != [] ==> r == Survivors(moved)
    ensures moved != [] && Survivors(moved) == [] && lives0 > 1 ==> r == [CreateBall(paddleX, true)]
    ensures moved == [] || (Survivors(moved) == [] && lives0 <= 1) ==> r == moved
  {
    var active := Survivors(moved);
    if active != [] then active else if moved != [] && lives0 > 1 then [CreateBall(paddleX, true)] else moved
  }

  /** Dropping lost balls keeps every remaining ball as the session keeps it. */
  lemma {:induction false} SurvivorsKeepBallOk(bs: seq<Ball>, attached: bool)
    requires forall i :: 0 <= i < |bs| ==> BallOk(bs[i], attached)
    ensures forall i :: 0 <= i < |Survivors(bs)| ==> BallOk(Survivors(bs)[i], attached)
    ensures |Survivors(bs)| <= |bs|
  {
    if bs != [] {
      SurvivorsKeepBallOk(bs[..|bs| - 1], attached);
    }
  }

  /** n free balls after c MultiBall pickups, each of which triples them. */
  function Tripled(n: nat, c: nat): nat
  {
    if c == 0 then n else 3 * Tripled(n, c - 1)
  }

  /** The fields of a session, as a value: what one frame changes. */
  datatype Snapshot = Snapshot(
    state: GameState, score: int, lives: int, bestScore: int, ballAttached: bool, powerUpsEnabled: bool,
    paddleX: real, paddleWidth: real, balls: seq<Ball>, bricks: seq<Brick>, falling: seq<PowerUp>,
    expandActive: bool, expandEndTime: real, slowMoActive: bool, slowMoEndTime: real)

  /**
   * `s` follows `s0` by the per-ball pass of a frame at ball speed `speed`:
   * ball j steps with drop draw j, `boards` holding the board before each
   * step and after the last; only the balls, the bricks, the score and the
   * falling list change.
   */
  ghost predicate Moved(s0: Snapshot, s: Snapshot, boards: seq<Board>, speed: real, dt: real, trig: Trig,
                        drops: nat -> Option<PowerUpKind>)
  {
    && |s.balls| == |s0.balls| && |boards| == |s.balls| + 1
    && boards[0] == Board(s0.bricks, s0.falling) && boards[|s.balls|] == Board(s.bricks, s.falling)
    && (forall j :: 0 <= j < |s.balls| ==>
          Stepped(s0.balls[j], s.balls[j], boards[j], boards[j + 1], s0.paddleX, s0.paddleWidth, speed, trig, dt,
                  s0.powerUpsEnabled, drops(j)))
    && AllWorn(s0.bricks, s.bricks) && s.score == s0.score + Award(s0.bricks, s.bricks)
    && s0.falling <= s.falling
    && s.state == s0.state && s.lives == s0.lives && s.bestScore == s0.bestScore && s.ballAttached == s0.ballAttached
    && s.paddleX == s0.paddleX && s.paddleWidth == s0.paddleWidth && s.powerUpsEnabled == s0.powerUpsEnabled
    && s.expandActive == s0.expandActive && s.expandEndTime == s0.expandEndTime
    && s.slowMoActive == s0.slowMoActive && s.slowMoEndTime == s0.slowMoEndTime
  }

  /**
   * `s` follows `s0` by the loss check: the balls still in play (`active`)
   * are kept; when balls existed and none is left a life goes, the last one
   * ending the game and recording the best score, any other bringing a fresh
   * attached ball and clearing the effects, the wide paddle and the falling
   * power-ups.
   */
  ghost predicate LossChecked(s0: Snapshot, s: Snapshot, active: seq<Ball>)
  {
    var lost := s0.balls != [] && active == [];
    var reset := lost && s0.lives > 1;
    && active == Survivors(s0.balls)
    && s.balls == BallsLeft(s0.balls, s0.lives, s0.paddleX)
    && s.lives == s0.lives - (if lost then 1 else 0)
    && s.state == (if lost && s0.lives <= 1 then GameState.GameOver else s0.state)
    && s.bestScore == (if lost && s0.lives <= 1 then KeepBest(s0.bestScore, s0.score) else s0.bestScore)
    && s.ballAttached == (reset || s0.ballAttached)
    && s.expandActive == (!reset && s0.expandActive)
    && s.slowMoActive == (!reset && s0.slowMoActive)
    && s.paddleWidth == (if reset then PADDLE_WIDTH else s0.paddleWidth)
    && s.falling == (if reset then [] else s0.falling)
    && s.score == s0.score && s.bricks == s0.bricks && s.paddleX == s0.paddleX && s.powerUpsEnabled == s0.powerUpsEnabled
    && s.expandEndTime == s0.expandEndTime && s.slowMoEndTime == s0.slowMoEndTime
  }

  /**
   * `s` follows `s0` by the ball phase of a frame. Every ball steps in
   * order (ball j with drop draw j), `moved` being the balls after that pass
   * and `boards` the board before each step and after the last; then the lost
   * balls are dropped (`active` are those still in play). When balls existed
   * and none is left a life goes: the last one ends the game and records the
   * best score, any other brings a fresh attached ball and clears the
   * effects, the wide paddle and the falling power-ups.
   */
  ghost predicate BallPass(s0: Snapshot, s: Snapshot, moved: seq<Ball>, active: seq<Ball>, boards: seq<Board>,
                           dt: real, trig: Trig, drops: nat -> Option<PowerUpKind>)
  {
    var lost := moved != [] && active == [];
    var reset := lost && s0.lives > 1;
    && |moved| == |s0.balls| && |boards| == |moved| + 1
    && boards[0] == Board(s0.bricks, s0.falling) && boards[|moved|].bricks == s.bricks
    && (forall j :: 0 <= j < |moved| ==>
          Stepped(s0.balls[j], moved[j], boards[j], boards[j + 1], s0.paddleX, s0.paddleWidth,
                  BallSpeed(s0.slowMoActive), trig, dt, s0.powerUpsEnabled, drops(j)))
    && AllWorn(s0.bricks, s.bricks) && s.score == s0.score + Award(s0.bricks, s.bricks)
    && active == Survivors(moved)
    && s.balls == BallsLeft(moved, s0.lives, s0.paddleX)
    && s.lives == s0.lives - (if lost then 1 else 0)
    && s.state == (if lost && s0.lives <= 1 then GameState.GameOver else s0.state)
    && s.bestScore == (if lost && s0.lives <= 1 then KeepBest(s0.bestScore, s.score) else s0.bestScore)
    && s.ballAttached == (reset || s0.ballAttached)
    && s.expandActive == (!reset && s0.expandActive) && s.expandEndTime == s0.expandEndTime
    && s.slowMoActive == (!reset && s0.slowMoActive) && s.slowMoEndTime == s0.slowMoEndTime
    && s.paddleWidth == (if reset then PADDLE_WIDTH else s0.paddleWidth)
    && s.falling == (if reset then [] else boards[|moved|].falling)
    && s0.falling <= boards[|moved|].falling
    && s.paddleX == s0.paddleX && s.powerUpsEnabled == s0.powerUpsEnabled
  }

  /**
   * `s` follows `s0` by the end of a frame at time `now`: the falling
   * power-ups are swept (`sw`), the picked ones take effect and the effects
   * whose deadline has passed expire; then, when no brick is alive, the game
   * is won and the best score recorded.
   */
  ghost predicate Settled(s0: Snapshot, s: Snapshot, sw: SweepResult, dt: real, now: real)
  {
    var won := forall i :: 0 <= i < |s.bricks| ==> !s.bricks[i].alive;
    && sw == Sweep(s0.falling, dt, s0.paddleX, s0.paddleWidth) && s.falling == sw.kept
    && s.state == (if won then Win else s0.state)
    && s.bestScore == (if won then KeepBest(s0.bestScore, s.score) else s0.bestScore)
    && s.expandActive == (Expand in sw.picked || (s0.expandActive && now < s0.expandEndTime))
    && s.expandEndTime == (if Expand in sw.picked then now + EXPAND_DURATION else s0.expandEndTime)
    && s.slowMoActive == (SlowMo in sw.picked || (s0.slowMoActive && now < s0.slowMoEndTime))
    && s.slowMoEndTime == (if SlowMo in sw.picked then now + SLOWMO_DURATION else s0.slowMoEndTime)
    && s0.balls <= s.balls
    && (s.ballAttached ==> s.balls == s0.balls)
    && (!s.ballAttached ==> |s.balls| == Tripled(|s0.balls|, CountKind(sw.picked, MultiBall)))
    && s.score == s0.score && s.lives == s0.lives && s.ballAttached == s0.ballAttached
    && s.paddleX == s0.paddleX && s.bricks == s0.bricks && s.powerUpsEnabled == s0.powerUpsEnabled
  }

  /**
   * `s` follows `s0` by one playing frame of step `dt` at time `now`: the
   * paddle moves, the balls take their phase (see BallPass), and the frame
   * settles (see Settled) from the falling list `falling` the ball phase left.
   * A win takes precedence in the final state; either a win or the end of
   * the game records the best score.
   */
  ghost predicate Played(s0: Snapshot, s: Snapshot, moved: seq<Ball>, active: seq<Ball>, boards: seq<Board>,
                         falling: seq<PowerUp>, sw: SweepResult, dt: real, now: real, keys: Keys, trig: Trig,
                         drops: nat -> Option<PowerUpKind>)
  {
    var lost := moved != [] && active == [];
    var reset := lost && s0.lives > 1;
    var won := forall i :: 0 <= i < |s.bricks| ==> !s.bricks[i].alive;
    && s.paddleX == PaddleStep(s0.paddleX, s0.paddleWidth, keys, dt)
    && |moved| == |s0.balls| && |boards| == |moved| + 1
    && boards[0] == Board(s0.bricks, s0.falling) && boards[|moved|].bricks == s.bricks
    && (forall j :: 0 <= j < |moved| ==>
          Stepped(s0.balls[j], moved[j], boards[j], boards[j + 1], s.paddleX, s0.paddleWidth,
                  BallSpeed(s0.slowMoActive), trig, dt, s0.powerUpsEnabled, drops(j)))
    && active == Survivors(moved)
    && s.lives == s0.lives - (if lost then 1 else 0)
    && s.state == (if won then Win else if lost && s0.lives <= 1 then GameState.GameOver else s0.state)
    && s.bestScore == (if won || (lost && s0.lives <= 1) then KeepBest(s0.bestScore, s.score) else s0.bestScore)
    && falling == (if reset then [] else boards[|moved|].falling)
    && (!reset ==> s0.falling <= falling)
    && sw == Sweep(falling, dt, s.paddleX, if reset then PADDLE_WIDTH else s0.paddleWidth)
    && s.falling == sw.kept
    && s.ballAttached == (reset || s0.ballAttached)
    && BallsLeft(moved, s0.lives, s.paddleX) <= s.balls
    && (s.ballAttached ==> s.balls == BallsLeft(moved, s0.lives, s.paddleX))
    && (!s.ballAttached ==>
          |s.balls| == Tripled(|BallsLeft(moved, s0.lives, s.paddleX)|, CountKind(sw.picked, MultiBall)))
    && s.expandActive == (Expand in sw.picked || (!reset && s0.expandActive && now < s0.expandEndTime))
    && s.expandEndTime == (if Expand in sw.picked then now + EXPAND_DURATION else s0.expandEndTime)
    && s.slowMoActive == (SlowMo in sw.picked || (!reset && s0.slowMoActive && now < s0.slowMoEndTime))
    && s.slowMoEndTime == (if SlowMo in sw.picked then now + SLOWMO_DURATION else s0.slowMoEndTime)
    && AllWorn(s0.bricks, s.bricks) && s.score == s0.score + Award(s0.bricks, s.bricks) && s.score >= s0.score
    && s.powerUpsEnabled == s0.powerUpsEnabled
  }

  /** The ball phase of a frame is the per-ball pass followed by the loss check. */
  lemma BallPassInSteps(s0: Snapshot, s1: Snapshot, s: Snapshot, active: seq<Ball>, boards: seq<Board>, dt: real,
                        trig: Trig, drops: nat -> Option<PowerUpKind>)
    requires Moved(s0, s1, boards, BallSpeed(s0.slowMoActive), dt, trig, drops)
    requires LossChecked(s1, s, active)
    ensures BallPass(s0, s, s1.balls, active, boards, dt, trig, drops)
  {
  }

  /**
   * A frame is its phases in order: moving the paddle, then the ball phase,
   * then settling, make up a played frame.
   */
  lemma PlayedInPhases(s0: Snapshot, s1: Snapshot, s2: Snapshot, s: Snapshot, moved: seq<Ball>, active: seq<Ball>,
                       boards: seq<Board>, sw: SweepResult, dt: real, now: real, keys: Keys, trig: Trig,
                       drops: nat -> Option<PowerUpKind>)
    requires AllWellFormed(s0.bricks)
    requires s1 == s0.(paddleX := PaddleStep(s0.paddleX, s0.paddleWidth, keys, dt))
    requires BallPass(s1, s2, moved, active, boards, dt, trig, drops)
    requires Settled(s2, s, sw, dt, now)
    ensures Played(s0, s, moved, active, boards, s2.falling, sw, dt, now, keys, trig, drops)
  {
    AwardNonNegative(s0.bricks, s.bricks);
  }

  class GameSession {
    // game
    var state: GameState
    var score: int
    var lives: int
    var bestScore: int
    var ballAttached: bool
    var powerUpsEnabled: bool
    // paddle (its y, height, speed and base width never change: see Entities)
    var paddleX: real
    var paddleWidth: real
    // entity collections
    var balls: seq<Ball>
    var bricks: seq<Brick>
    var fallingPowerUps: seq<PowerUp>
    // effects
    var expandActive: bool
    var expandEndTime: real
    var slowMoActive: bool
    var slowMoEndTime: real
    // the frame loop's previous timestamp
    var lastTime: real

    ghost predicate Valid()
      reads this
    {
      && paddleWidth == (if expandActive then EXPANDED_WIDTH else PADDLE_WIDTH)
      && score >= 0
      && AllWellFormed(bricks)
      && (forall i :: 0 <= i < |balls| ==> BallOk(balls[i], ballAttached))
      && (state == Playing || state == Paused ==> balls != [])
    }

    /** The session's fields as a value. */
    function View(): Snapshot
      reads this
    {
      Snapshot(state, score, lives, bestScore, ballAttached, powerUpsEnabled, paddleX, paddleWidth, balls, bricks,
               fallingPowerUps, expandActive, expandEndTime, slowMoActive, slowMoEndTime)
    }

    /** The state before the first start; the best score comes from storage. */
    constructor (storedBest: int)
      ensures Valid()
      ensures state == Idle && score == 0 && lives == START_LIVES && bestScore == storedBest
      ensures ballAttached && powerUpsEnabled
      ensures paddleX == CANVAS_WIDTH / 2.0 && paddleWidth == PADDLE_WIDTH
      ensures balls == [] && bricks == [] && fallingPowerUps == []
      ensures !expandActive && expandEndTime == 0.0 && !slowMoActive && slowMoEndTime == 0.0
      ensures lastTime == 0.0
    {
      state, score, lives, bestScore := Idle, 0, START_LIVES, storedBest;
      ballAttached, powerUpsEnabled := true, true;
      paddleX, paddleWidth := CANVAS_WIDTH / 2.0, PADDLE_WIDTH;
      balls, bricks, fallingPowerUps := [], [], [];
      expandActive, expandEndTime, slowMoActive, slowMoEndTime := false, 0.0, false, 0.0;
      lastTime := 0.0;
    }

    /** Replace the brick field by the bricks of a layout, row by row. */
    method LoadLevel(layout: seq<seq<int>>)
      modifies this`bricks
      ensures bricks == LevelBricks(layout)
      ensures AllWellFormed(bricks)
    {
      bricks := [];
      var row := 0;
      while row < |layout|
        invariant 0 <= row <= |layout|
        invariant bricks == LevelBricks(layout[..row])
      {
        var col := 0;
        while col < |layout[row]|
          invariant 0 <= col <= |layout[row]|
          invariant bricks == LevelBricks(layout[..row]) + RowBricks(layout[row][..col], row)
        {
          var durability := layout[row][col];
          if durability > 0 {
            bricks := bricks + [BrickAt(row, col, durability)];
          }
          assert layout[row][..col + 1][..col] == layout[row][..col];
          col := col + 1;
        }
        assert layout[row][..col] == layout[row];
        assert layout[..row + 1][..row] == layout[..row];
        row := row + 1;
      }
      assert layout[..row] == layout;
      LevelBricksFresh(layout);
    }

    /** Set every attached ball off upwards; a no-op when no ball is attached. */
    method LaunchBall(heading: nat -> SteepHeading)
      requires Valid()
      modifies this`balls, this`ballAttached
      ensures Valid()
      ensures !ballAttached
      ensures !old(ballAttached) ==> balls == old(balls)
      ensures old(ballAttached) ==> |balls| == |old(balls)|
      ensures old(ballAttached) ==>
                forall i :: 0 <= i < |balls| ==>
                  balls[i] == Launched(old(balls)[i], heading(i), slowMoActive) && balls[i].vy < 0.0
    {
      if !ballAttached {
        return;
      }
      var i := 0;
      while i < |balls|
        modifies this`balls
        invariant 0 <= i <= |balls| == |old(balls)|
        invariant forall j :: 0 <= j < i ==> balls[j] == Launched(old(balls)[j], heading(j), slowMoActive)
        invariant forall j :: i <= j < |balls| ==> balls[j] == old(balls)[j]
      {
        if balls[i].attached {
          balls := balls[i := Launched(balls[i], heading(i), slowMoActive)];
        }
        i := i + 1;
      }
      ballAttached := false;
    }

    /** One fresh ball attached to the paddle. */
    method ResetBall()
      modifies this`balls, this`ballAttached
      ensures balls == [CreateBall(paddleX, true)] && ballAttached
    {
      balls := [CreateBall(paddleX, true)];
      ballAttached := true;
    }

    /** Keyboard motion of the paddle, then the clamp to the field. */
    method UpdatePaddle(keys: Keys, dt: real)
      modifies this`paddleX
      ensures paddleX == PaddleStep(old(paddleX), paddleWidth, keys, dt)
    {
      if keys.left && !keys.right {
        paddleX := paddleX - PADDLE_SPEED * dt;
      }
      if keys.right && !keys.left {
        paddleX := paddleX + PADDLE_SPEED * dt;
      }
      var half := paddleWidth / 2.0;
      paddleX := Max(half, Min(CANVAS_WIDTH - half, paddleX));
    }

    /** Append a falling power-up of the given kind at (x, y). */
    method SpawnPowerUp(x: real, y: real, kind: PowerUpKind)
      modifies this`fallingPowerUps
      ensures fallingPowerUps == old(fallingPowerUps) + [NewPowerUp(x, y, kind)]
    {
      fallingPowerUps := fallingPowerUps + [NewPowerUp(x, y, kind)];
    }

    /**
     * Resolve the ball against the bricks: only the highest-index live brick
     * it overlaps is hit (it loses one durability, and on death pays
     * maxDurability * 10 and may drop a power-up); the ball bounces off it.
     * `drop` is the outcome of the drop roll and type draw.
     */
    method CheckBrickCollisions(ball: Ball, drop: Option<PowerUpKind>) returns (r: Ball)
      requires AllWellFormed(bricks)
      modifies this`bricks, this`score, this`fallingPowerUps
      ensures AllWellFormed(bricks)
      ensures r == Rebound(old(bricks), ball) && bricks == Strike(old(bricks), ball)
      ensures fallingPowerUps == old(fallingPowerUps) + Drop(old(bricks), ball, powerUpsEnabled, drop)
      ensures var k := HitIndex(old(bricks), ball, |old(bricks)|);
              k.None? ==> r == ball && bricks == old(bricks) && score == old(score)
                          && fallingPowerUps == old(fallingPowerUps)
      ensures var k := HitIndex(old(bricks), ball, |old(bricks)|);
              k.Some? ==>
                var brick := old(bricks)[k.value];
                var destroyed := !Hit(brick).alive;
                && r == Deflect(ball, brick)
                && bricks == old(bricks)[k.value := Hit(brick)]
                && score == old(score) + (if destroyed then brick.maxDurability * POINTS_PER_DURABILITY else 0)
                && fallingPowerUps == old(fallingPowerUps) +
                     (if destroyed && powerUpsEnabled && drop.Some?
                      then [NewPowerUp(brick.x + brick.width / 2.0, brick.y + brick.height / 2.0, drop.value)]
                      else [])
    {
      r := ball;
      var i := |bricks|;
      while i > 0
        invariant 0 <= i <= |bricks|
        invariant HitIndex(bricks, ball, |bricks|) == HitIndex(bricks, ball, i)
        invariant bricks == old(bricks) && score == old(score) && fallingPowerUps == old(fallingPowerUps)
      {
        i := i - 1;
        var brick := bricks[i];
        if !brick.alive {
          continue;
        }
        if CircleHitsBrick(ball, brick) {
          r := Deflect(ball, brick);
          var hit := Hit(brick);
          bricks := bricks[i := hit];
          if !hit.alive {
            score := score + brick.maxDurability * POINTS_PER_DURABILITY;
            if powerUpsEnabled && drop.Some? {
              SpawnPowerUp(brick.x + brick.width / 2.0, brick.y + brick.height / 2.0, drop.value);
            }
          }
          break;
        }
      }
    }

    /**
     * The per-ball step of a frame for ball i: an attached ball rides with
     * the paddle; a free ball flies (renormalise, move, walls, paddle) and is
     * then resolved against the bricks with the drop draw `drop`. `base` and
     * `score0` are the bricks and score at the start of the frame.
     */
    method MoveBall(i: nat, dt: real, speed: real, trig: Trig, drop: Option<PowerUpKind>,
                    ghost base: seq<Brick>, ghost score0: int)
      requires Valid() && i < |balls|
      requires AllWorn(base, bricks) && score == score0 + Award(base, bricks)
      modifies this`balls, this`bricks, this`score, this`fallingPowerUps
      ensures Valid()
      ensures |balls| == |old(balls)| && forall j :: 0 <= j < |balls| && j != i ==> balls[j] == old(balls)[j]
      ensures balls[i].attached == old(balls)[i].attached
      ensures Stepped(old(balls)[i], balls[i], Board(old(bricks), old(fallingPowerUps)), Board(bricks, fallingPowerUps),
                      paddleX, paddleWidth, speed, trig, dt, powerUpsEnabled, drop)
      ensures AllWorn(base, bricks) && score == score0 + Award(base, bricks)
      ensures old(fallingPowerUps) <= fallingPowerUps
    {
      var ball := balls[i];
      if ball.attached {
        ball := Snap(ball, paddleX);
      } else {
        ball := Fly(ball, paddleX, paddleWidth, speed, trig, dt);
        ghost var flown := ball;
        ball := CheckBrickCollisions(ball, drop);
        ghost var k := HitIndex(old(bricks), flown, |old(bricks)|);
        if k.Some? {
          HitKeepsWorn(base, old(bricks), k.value);
        }
      }
      balls := balls[i := ball];
    }

    /**
     * The per-ball pass of a frame, ball i using the i-th drop draw; `boards`
     * records the board before each step and after the last.
     */
    method MoveBalls(dt: real, speed: real, trig: Trig, drops: nat -> Option<PowerUpKind>)
      returns (ghost boards: seq<Board>)
      requires Valid()
      modifies this`balls, this`bricks, this`score, this`fallingPowerUps
      ensures Valid()
      ensures |balls| == |old(balls)|
      ensures Moved(old(View()), View(), boards, speed, dt, trig, drops)
    {
      AwardNone(bricks);
      boards := [Board(bricks, fallingPowerUps)];
      var i := 0;
      while i < |balls|
        invariant 0 <= i <= |balls| == |old(balls)|
        invariant Valid()
        invariant forall j :: i <= j < |balls| ==> balls[j] == old(balls)[j]
        invariant forall j :: 0 <= j < i ==> balls[j].attached == old(balls)[j].attached
        invariant |boards| == i + 1 && boards[0] == Board(old(bricks), old(fallingPowerUps))
        invariant boards[i] == Board(bricks, fallingPowerUps)
        invariant forall j :: 0 <= j < i ==>
                    Stepped(old(balls)[j], balls[j], boards[j], boards[j + 1], paddleX, paddleWidth, speed, trig, dt,
                            powerUpsEnabled, drops(j))
        invariant AllWorn(old(bricks), bricks)
        invariant score == old(score) + Award(old(bricks), bricks)
        invariant old(fallingPowerUps) <= fallingPowerUps
      {
        MoveBall(i, dt, speed, trig, drops(i), old(bricks), old(score));
        boards := boards + [Board(bricks, fallingPowerUps)];
        i := i + 1;
      }
      assert Moved(old(View()), View(), boards, speed, dt, trig, drops);
    }

    /**
     * Advance every ball one frame, then drop the lost ones. A life is lost
     * only when balls existed and none is left in play: the last life ends
     * the game, any other brings a fresh attached ball with every effect and
     * falling power-up cleared. `moved` is the ball list after the per-ball
     * pass, before the loss check, and `active` the balls still in play.
     */
    method UpdateBalls(dt: real, trig: Trig, drops: nat -> Option<PowerUpKind>)
      returns (ghost moved: seq<Ball>, ghost active: seq<Ball>, ghost boards: seq<Board>)
      requires Valid()
      modifies this`balls, this`bricks, this`score, this`fallingPowerUps, this`lives, this`state, this`bestScore,
               this`ballAttached, this`expandActive, this`slowMoActive, this`paddleWidth
      ensures Valid()
      ensures BallPass(old(View()), View(), moved, active, boards, dt, trig, drops)
    {
      var speed := if slowMoActive then BALL_SPEED * SLOWMO_FACTOR else BALL_SPEED;
      boards := MoveBalls(dt, speed, trig, drops);
      moved := balls;
      ghost var passed := View();
      active := CheckLoss();
      BallPassInSteps(old(View()), passed, View(), active, boards, dt, trig, drops);
    }

    /** The loss check after the per-ball pass: drop the lost balls, and lose a life when none is left. */
    method CheckLoss() returns (ghost active: seq<Ball>)
      requires Valid()
      modifies this`balls, this`fallingPowerUps, this`lives, this`state, this`bestScore, this`ballAttached,
               this`expandActive, this`slowMoActive, this`paddleWidth
      ensures Valid()
      ensures LossChecked(old(View()), View(), active)
    {
      var survivors := Survivors(balls);
      active := survivors;
      SurvivorsKeepBallOk(balls, ballAttached);
      if |survivors| < |balls| && |survivors| == 0 {
        LoseLife();
      }
      balls := if |survivors| > 0 then survivors else balls;
      if old(balls) != [] && active == [] {
        assert LossChecked(old(View()), View(), active);
      } else {
        assert LossChecked(old(View()), View(), active);
      }
    }

    /** Apply a picked-up power-up at time `now`. */
    method ActivatePowerUp(kind: PowerUpKind, now: real, trig: Trig)
      requires Valid()
      modifies this`balls, this`expandActive, this`expandEndTime, this`paddleWidth, this`slowMoActive, this`slowMoEndTime
      ensures Valid()
      ensures kind == MultiBall ==>
                && balls == old(balls) + Spawned(old(balls), trig)
                && |balls| == |old(balls)| + 2 * FreeCount(old(balls))
                && expandActive == old(expandActive) && expandEndTime == old(expandEndTime)
                && slowMoActive == old(slowMoActive) && slowMoEndTime == old(slowMoEndTime)
                && paddleWidth == old(paddleWidth)
      ensures kind == Expand ==>
                && expandActive && expandEndTime == now + EXPAND_DURATION && paddleWidth == EXPANDED_WIDTH
                && balls == old(balls) && slowMoActive == old(slowMoActive) && slowMoEndTime == old(slowMoEndTime)
      ensures kind == SlowMo ==>
                && slowMoActive && slowMoEndTime == now + SLOWMO_DURATION
                && balls == old(balls) && paddleWidth == old(paddleWidth)
                && expandActive == old(expandActive) && expandEndTime == old(expandEndTime)
    {
      if kind == MultiBall {
        var newBalls: seq<Ball> := [];
        var i := 0;
        while i < |balls|
          invariant 0 <= i <= |balls|
          invariant newBalls == Spawned(balls[..i], trig)
        {
          var ball := balls[i];
          if !ball.attached {
            newBalls := newBalls + [Rotated(ball, trig.sin30, trig.cos30), Rotated(ball, -trig.sin30, trig.cos30)];
          }
          assert balls[..i + 1][..i] == balls[..i];
          i := i + 1;
        }
        assert balls[..i] == balls;
        SpawnedShape(balls, trig);
        forall k | 0 <= k < |newBalls|
          ensures BallOk(newBalls[k], ballAttached)
        {
          var j :| 0 <= j < |balls| && !balls[j].attached && newBalls[k].radius == balls[j].radius
                   && newBalls[k].speed == balls[j].speed;
          assert BallOk(balls[j], ballAttached);
        }
        balls := balls + newBalls;
      } else if kind == Expand {
        expandActive := true;
        expandEndTime := now + EXPAND_DURATION;
        paddleWidth := PADDLE_WIDTH * EXPAND_FACTOR;
      } else {
        slowMoActive := true;
        slowMoEndTime := now + SLOWMO_DURATION;
      }
    }

    /**
     * The effects and balls after the kinds `picked` were picked up in order
     * (starting from the given effects and balls), with the paddle at `width`.
     */
    ghost predicate Picked(picked: seq<PowerUpKind>, width: real, now: real, expand0: bool, expandEnd0: real,
                           slowMo0: bool, slowMoEnd0: real, balls0: seq<Ball>)
      reads this
    {
      && paddleWidth == width
      && expandActive == (Expand in picked || expand0)
      && expandEndTime == (if Expand in picked then now + EXPAND_DURATION else expandEnd0)
      && slowMoActive == (SlowMo in picked || slowMo0)
      && slowMoEndTime == (if SlowMo in picked then now + SLOWMO_DURATION else slowMoEnd0)
      && balls0 <= balls
      && (ballAttached ==> balls == balls0)
      && (!ballAttached ==> |balls| == Tripled(|balls0|, CountKind(picked, MultiBall)))
    }

    /**
     * The session after a sweep reached `sw` over the power-ups behind
     * `prefix` (which are still untouched).
     */
    ghost predicate Swept(prefix: seq<PowerUp>, sw: SweepResult, now: real, expand0: bool, expandEnd0: real,
                          slowMo0: bool, slowMoEnd0: real, balls0: seq<Ball>)
      reads this
    {
      fallingPowerUps == prefix + sw.kept && Picked(sw.picked, sw.width, now, expand0, expandEnd0, slowMo0, slowMoEnd0, balls0)
    }

    /** A pickup within a sweep: the power-up takes effect, and each MultiBall triples the free balls. */
    method PickUp(kind: PowerUpKind, now: real, trig: Trig, ghost picked: seq<PowerUpKind>, ghost width: real,
                  ghost expand0: bool, ghost expandEnd0: real, ghost slowMo0: bool, ghost slowMoEnd0: real,
                  ghost balls0: seq<Ball>)
      requires Valid() && Picked(picked, width, now, expand0, expandEnd0, slowMo0, slowMoEnd0, balls0)
      modifies this`balls, this`expandActive, this`expandEndTime, this`paddleWidth, this`slowMoActive, this`slowMoEndTime
      ensures Valid()
      ensures Picked(picked + [kind], WidthAfter(kind, width), now, expand0, expandEnd0, slowMo0, slowMoEnd0, balls0)
    {
      ghost var before := balls;
      ActivatePowerUp(kind, now, trig);
      assert (picked + [kind])[..|picked|] == picked;
      if kind == MultiBall {
        FreeCountUniform(before, ballAttached);
      }
    }

    /** The handling of the i-th falling power-up within a sweep. */
    method SweepAt(i: nat, dt: real, now: real, trig: Trig, ghost rest: SweepResult, ghost expand0: bool,
                   ghost expandEnd0: real, ghost slowMo0: bool, ghost slowMoEnd0: real, ghost balls0: seq<Ball>)
      requires Valid() && i < |fallingPowerUps|
      requires Swept(fallingPowerUps[..i + 1], rest, now, expand0, expandEnd0, slowMo0, slowMoEnd0, balls0)
      modifies this`balls, this`fallingPowerUps, this`expandActive, this`expandEndTime, this`paddleWidth,
               this`slowMoActive, this`slowMoEndTime
      ensures Valid()
      ensures Swept(old(fallingPowerUps)[..i], SweepStep(rest, old(fallingPowerUps)[i], dt, paddleX), now,
                    expand0, expandEnd0, slowMo0, slowMoEnd0, balls0)
    {
      ghost var prefix := fallingPowerUps[..i];
      assert fallingPowerUps[..i + 1] == prefix + [fallingPowerUps[i]];
      var pu := fallingPowerUps[i];
      pu := pu.(y := pu.y + pu.vy * dt);
      assert pu == Fallen(fallingPowerUps[i], dt);
      if Caught(pu, paddleX, paddleWidth) {
        PickUp(pu.kind, now, trig, rest.picked, rest.width, expand0, expandEnd0, slowMo0, slowMoEnd0, balls0);
        fallingPowerUps := fallingPowerUps[..i] + fallingPowerUps[i + 1..];
        assert fallingPowerUps == prefix + rest.kept;
      } else if Missed(pu) {
        fallingPowerUps := fallingPowerUps[..i] + fallingPowerUps[i + 1..];
        assert fallingPowerUps == prefix + rest.kept;
      } else {
        fallingPowerUps := fallingPowerUps[i := pu];
        assert fallingPowerUps == prefix + ([pu] + rest.kept);
      }
    }

    /**
     * Move the falling power-ups, pick up or drop them (last first), then
     * expire the timed effects whose deadline `now` has reached.
     */
    method UpdatePowerUps(dt: real, now: real, trig: Trig) returns (ghost sw: SweepResult)
      requires Valid()
      modifies this`balls, this`fallingPowerUps, this`expandActive, this`expandEndTime, this`paddleWidth,
               this`slowMoActive, this`slowMoEndTime
      ensures Valid()
      ensures sw == Sweep(old(fallingPowerUps), dt, paddleX, old(paddleWidth))
      ensures && fallingPowerUps == sw.kept
              && expandActive == (Expand in sw.picked || (old(expandActive) && now < old(expandEndTime)))
              && expandEndTime == (if Expand in sw.picked then now + EXPAND_DURATION else old(expandEndTime))
              && slowMoActive == (SlowMo in sw.picked || (old(slowMoActive) && now < old(slowMoEndTime)))
              && slowMoEndTime == (if SlowMo in sw.picked then now + SLOWMO_DURATION else old(slowMoEndTime))
              && old(balls) <= balls
              && (ballAttached ==> balls == old(balls))
              && (!ballAttached ==> |balls| == Tripled(|old(balls)|, CountKind(sw.picked, MultiBall)))
    {
      sw := Sweep(fallingPowerUps, dt, paddleX, paddleWidth);
      SweepAll(dt, now, trig);
      assert fallingPowerUps == sw.kept;
      if expandActive && now >= expandEndTime {
        expandActive := false;
        paddleWidth := PADDLE_WIDTH;
      }
      if slowMoActive && now >= slowMoEndTime {
        slowMoActive := false;
      }
    }

    /** The sweep over the falling list, from its last element to its first. */
    method SweepAll(dt: real, now: real, trig: Trig)
      requires Valid()
      modifies this`balls, this`fallingPowerUps, this`expandActive, this`expandEndTime, this`paddleWidth,
               this`slowMoActive, this`slowMoEndTime
      ensures Valid()
      ensures Swept([], Sweep(old(fallingPowerUps), dt, paddleX, old(paddleWidth)), now, old(expandActive),
                    old(expandEndTime), old(slowMoActive), old(slowMoEndTime), old(balls))
    {
      ghost var fp0, width0, balls0 := fallingPowerUps, paddleWidth, balls;
      ghost var expand0, expandEnd0, slowMo0, slowMoEnd0 := expandActive, expandEndTime, slowMoActive, slowMoEndTime;
      var i := |fallingPowerUps|;
      ghost var acc := Sweep([], dt, paddleX, width0);
      assert fp0[..i] + [] == fp0 && fp0[i..] == [];
      while i > 0
        invariant 0 <= i <= |fp0|
        invariant Valid()
        invariant acc == Sweep(fp0[i..], dt, paddleX, width0)
        invariant i <= |fallingPowerUps| && fallingPowerUps[..i] == fp0[..i]
        invariant Swept(fallingPowerUps[..i], acc, now, expand0, expandEnd0, slowMo0, slowMoEnd0, balls0)
      {
        ghost var before := fallingPowerUps;
        SweepAt(i - 1, dt, now, trig, acc, expand0, expandEnd0, slowMo0, slowMoEnd0, balls0);
        assert fp0[i - 1..][1..] == fp0[i..];
        acc := SweepStep(acc, fp0[i - 1], dt, paddleX);
        assert before[..i - 1] == fp0[..i - 1];
        assert fallingPowerUps[..i - 1] == before[..i - 1];
        i := i - 1;
      }
      assert fp0[0..] == fp0;
    }

    /** One life less; the last one ends the game, any other restarts the ball with effects cleared. */
    method LoseLife()
      requires Valid()
      modifies this`lives, this`state, this`bestScore, this`balls, this`ballAttached, this`expandActive,
               this`slowMoActive, this`paddleWidth, this`fallingPowerUps
      ensures Valid()
      ensures lives == old(lives) - 1
      ensures lives <= 0 ==>
                && state == GameState.GameOver && bestScore == KeepBest(old(bestScore), score)
                && balls == old(balls) && ballAttached == old(ballAttached)
                && expandActive == old(expandActive) && slowMoActive == old(slowMoActive)
                && paddleWidth == old(paddleWidth) && fallingPowerUps == old(fallingPowerUps)
      ensures lives > 0 ==>
                && state == old(state) && bestScore == old(bestScore)
                && balls == [CreateBall(paddleX, true)] && ballAttached
                && !expandActive && !slowMoActive && paddleWidth == PADDLE_WIDTH && fallingPowerUps == []
    {
      lives := lives - 1;
      if lives <= 0 {
        GameOver();
      } else {
        ResetBall();
        expandActive := false;
        slowMoActive := false;
        paddleWidth := PADDLE_WIDTH;
        fallingPowerUps := [];
      }
    }

    /** End the game, keeping the better of the best and the current score. */
    method GameOver()
      requires Valid()
      modifies this`state, this`bestScore
      ensures Valid()
      ensures state == GameState.GameOver
      ensures bestScore == KeepBest(old(bestScore), score)
    {
      state := GameState.GameOver;
      if score > bestScore {
        bestScore := score;
      }
    }

    /** Win when no brick is alive, keeping the better of the best and the current score. */
    method CheckWin()
      requires Valid()
      modifies this`state, this`bestScore
      ensures Valid()
      ensures (forall i :: 0 <= i < |bricks| ==> !bricks[i].alive) ==>
                state == Win && bestScore == KeepBest(old(bestScore), score)
      ensures (exists i :: 0 <= i < |bricks| && bricks[i].alive) ==>
                state == old(state) && bestScore == old(bestScore)
      ensures bestScore >= old(bestScore)
    {
      LiveCountZero(bricks);
      if LiveCount(bricks) == 0 {
        state := Win;
        if score > bestScore {
          bestScore := score;
        }
      }
    }

    /** Start or restart: a fresh game on the first level with one attached ball. */
    method StartGame()
      modifies this`state, this`score, this`lives, this`ballAttached, this`paddleX, this`paddleWidth,
               this`expandActive, this`slowMoActive, this`fallingPowerUps, this`bricks, this`balls
      ensures Valid()
      ensures state == Playing && score == 0 && lives == START_LIVES
      ensures paddleX == CANVAS_WIDTH / 2.0 && paddleWidth == PADDLE_WIDTH
      ensures !expandActive && !slowMoActive && fallingPowerUps == []
      ensures bricks == LevelBricks(LEVEL_1)
      ensures balls == [CreateBall(CANVAS_WIDTH / 2.0, true)] && ballAttached
    {
      state := Playing;
      score := 0;
      lives := START_LIVES;
      ballAttached := true;
      paddleX := CANVAS_WIDTH / 2.0;
      paddleWidth := PADDLE_WIDTH;
      expandActive := false;
      slowMoActive := false;
      fallingPowerUps := [];
      LoadLevel(LEVEL_1);
      ResetBall();
    }

    /** Pause while playing, resume while paused, nothing otherwise. */
    method TogglePause()
      requires Valid()
      modifies this`state
      ensures Valid()
      ensures old(state) == Playing ==> state == Paused
      ensures old(state) == Paused ==> state == Playing
      ensures old(state) != Playing && old(state) != Paused ==> state == old(state)
    {
      if state == Playing {
        state := Paused;
      } else if state == Paused {
        state := Playing;
      }
    }

    /** Switch power-up drops on or off. */
    method TogglePowerUps()
      modifies this`powerUpsEnabled
      ensures powerUpsEnabled == !old(powerUpsEnabled)
    {
      powerUpsEnabled := !powerUpsEnabled;
    }

    /**
     * One animation frame at timestamp `time`: while playing, the paddle,
     * the balls, the power-ups and the win check run in that order with the
     * clamped step; in any other state only the timestamp is recorded.
     * The ghost results describe the playing frame as `Update` does.
     */
    method Frame(time: real, now: real, keys: Keys, trig: Trig, drops: nat -> Option<PowerUpKind>)
      returns (ghost moved: seq<Ball>, ghost active: seq<Ball>, ghost boards: seq<Board>,
               ghost falling: seq<PowerUp>, ghost sw: SweepResult)
      requires Valid()
      modifies this`lastTime, this`paddleX, this`balls, this`bricks, this`score, this`fallingPowerUps, this`lives,
               this`state, this`bestScore, this`ballAttached, this`expandActive, this`expandEndTime, this`paddleWidth,
               this`slowMoActive, this`slowMoEndTime
      ensures Valid()
      ensures lastTime == time
      ensures old(state) != Playing ==> View() == old(View())
      ensures old(state) == Playing ==>
                Played(old(View()), View(), moved, active, boards, falling, sw, FrameDt(time, old(lastTime)), now,
                       keys, trig, drops)
    {
      var dt := FrameDt(time, lastTime);
      lastTime := time;
      if state == Playing {
        moved, active, boards, falling, sw := Update(dt, now, keys, trig, drops);
      } else {
        moved, active, boards, falling, sw := [], [], [], [], SweepResult([], [], paddleWidth, 0);
      }
    }

    /**
     * The updates of a frame while playing, in order: paddle, balls, power-ups,
     * win check. `moved`, `active` and `boards` describe the per-ball pass as
     * `UpdateBalls` does; `falling` is the list the power-up sweep starts from
     * and `sw` its outcome. A lost ball with lives left resets the ball, the
     * effects and the falling list before the sweep; a win or the end of the
     * game records the best score.
     */
    method Update(dt: real, now: real, keys: Keys, trig: Trig, drops: nat -> Option<PowerUpKind>)
      returns (ghost moved: seq<Ball>, ghost active: seq<Ball>, ghost boards: seq<Board>,
               ghost falling: seq<PowerUp>, ghost sw: SweepResult)
      requires Valid()
      modifies this`paddleX, this`balls, this`bricks, this`score, this`fallingPowerUps, this`lives, this`state,
               this`bestScore, this`ballAttached, this`expandActive, this`expandEndTime, this`paddleWidth,
               this`slowMoActive, this`slowMoEndTime
      ensures Valid()
      ensures Played(old(View()), View(), moved, active, boards, falling, sw, dt, now, keys, trig, drops)
    {
      UpdatePaddle(keys, dt);
      ghost var paddled := View();
      moved, active, boards := UpdateBalls(dt, trig, drops);
      falling := fallingPowerUps;
      ghost var bounced := View();
      sw := SettleFrame(dt, now, trig);
      PlayedInPhases(old(View()), paddled, bounced, View(), moved, active, boards, sw, dt, now, keys, trig, drops);
    }

    /**
     * The end of a playing frame: the power-up sweep and effect expiry, then
     * the win check, which records the best score when no brick is left.
     */
    method SettleFrame(dt: real, now: real, trig: Trig) returns (ghost sw: SweepResult)
      requires Valid()
      modifies this`balls, this`fallingPowerUps, this`expandActive, this`expandEndTime, this`paddleWidth,
               this`slowMoActive, this`slowMoEndTime, this`state, this`bestScore
      ensures Valid()
      ensures Settled(old(View()), View(), sw, dt, now)
    {
      sw := UpdatePowerUps(dt, now, trig);
      CheckWin();
    }
  }
}
