# Cyber Breakout simulation core in Dafny

This project models the simulation core of the browser game Cyber Breakout
(`app.js`), which is a Breakout clone. The player moves a paddle along the
bottom of a 480 x 640 field. Balls bounce off the walls and the paddle and
wear down a grid of bricks. A destroyed brick scores ten points per unit of
its original durability. It may also drop a falling power-up:

- MultiBall adds two rotated copies of every free ball.
- Expand widens the paddle by half for ten seconds.
- SlowMo slows the balls to 60% for eight seconds.

Losing every ball costs a life. The game ends when the lives run out and is
won when no brick is left alive.

The model follows the program's imperative shape:

- One class, `Session.GameSession`, holds the program's global state:
  - the `game` record (state, score, lives, best score, attached flag,
    power-up switch);
  - the moving parts of the `paddle` (position and width);
  - the `effects` record (flags and deadlines);
  - the `balls`, `bricks` and `fallingPowerUps` lists, as `seq` fields the
    methods reassign;
  - the frame loop's `lastTime`.
- Each function of the program that changes this state is a method:
  - its `modifies` clause names the fields it touches;
  - its postcondition gives the new state, field by field or as a relation
    between `Snapshot` values of the session before and after (the gaps are
    listed under "Left out");
  - the loops of the program (the brick scan, the level build, the reverse
    sweep over falling power-ups, the per-ball pass, the MultiBall copy)
    are loops here too. Their invariants tie them to recursive
    specification functions.
- Pure pieces are functions in their own modules:
  - `Geometry`: clamps, boxes and the circle-rectangle test;
  - `Entities`: constants, entity datatypes and `createBall`;
  - `Level`: the brick field a layout produces;
  - `Bricks`: which brick a ball hits, the bounce off it, wear and score;
  - `Balls`: riding, flight, walls, paddle bounce, launch, MultiBall copies
    and survivors;
  - `PowerUps`: the fall, pickup and loss of power-ups and the outcome of
    one sweep.

Everything the host supplies is a parameter:

- The clock is a parameter: the animation timestamp `time` and the
  `performance.now()` reading `now`.
- The random draws are parameters:
  - the launch angle is `heading: nat -> SteepHeading`, one per ball;
  - the drop roll and the type draw together are
    `drops: nat -> Option<PowerUpKind>`, one per ball, because a ball hits
    at most one brick per frame.
- Floating-point square roots and trigonometry come from the `Trig` value:
  - the renormalisation factor is any positive real;
  - a paddle-bounce direction is any heading within 60 degrees of straight
    up;
  - the 30-degree rotation uses arbitrary sine and cosine values.

Coordinates are exact `real`s.

## Model

| member | source | states |
|---|---|---|
| Session.GameSession.constructor | app.js:60-87 | The initial session: idle, score 0, three lives, the stored best score, attached, power-ups on, paddle centred at base width, empty lists, no effects. |
| Session.GameSession.LoadLevel | app.js:112-132 | The brick list is replaced by exactly the bricks `LevelBricks(layout)` describes, and every brick is well formed. |
| Level.LevelBricksCount | app.js:116-131 | A level has exactly one brick per positive cell. |
| Level.LevelBricksFresh | app.js:119-128 | Every loaded brick is alive and undamaged: durability == maxDurability > 0. Which cell value it carries is stated by `LevelBricksSound`. |
| Level.LevelBricksComplete | app.js:116-131 | Every positive cell yields its brick, at the cell's column and row position. |
| Level.LevelBricksSound | app.js:116-131 | Every loaded brick is `BrickAt` of a positive cell: at that cell's position, with durability == maxDurability == the cell value. So zero cells create nothing. |
| Level.LevelBricksOrdered | app.js:116-131 | Bricks are listed in row-major order: by row, then by column. |
| Entities.CreateBall | app.js:360-370 | A new ball sits on the paddle's x at the rest height `REST_Y` (paddle y - radius - half the paddle height - 2). It is motionless and has the standard radius and speed. It is above the bottom edge of the field, so it counts as in play. |
| Entities.CreateBallClear | app.js:360-370 | A new ball rests clear of the paddle, whatever the paddle's width. |
| Session.GameSession.LaunchBall | app.js:372-385 | A no-op when no ball is attached. Otherwise every ball is launched with its own heading, at the SlowMo-reduced speed when SlowMo is active, and moves upwards. Afterwards no ball is attached. |
| Balls.Launched | app.js:374-381 | A launched ball is detached and moves upwards, at a position and nominal speed that do not change. Its squared speed is that of the launch speed (the ball's speed, times 0.6 under SlowMo) scaled by sin^2 + cos^2 of its heading, so it is exactly the launch speed for an exact heading. |
| Session.GameSession.ResetBall | app.js:387-391 | The ball list becomes one fresh ball attached to the paddle. |
| Session.GameSession.UpdatePaddle | app.js:395-400 | The new paddle x is `PaddleStep` of the old one. |
| Session.PaddleStep | app.js:395-400 | The paddle ends inside `[width/2, CANVAS_WIDTH - width/2]`. With only the left key held it is the clamp of x - speed * dt, and with only the right key of x + speed * dt. With both keys or neither it only clamps, and a paddle already inside does not move. |
| Session.GameSession.UpdateBalls | app.js:402-443 | The session before and after are related by `BallPass`. Ball j is `Stepped` from the old ball j against `boards[j]`, the bricks and falling list the balls before it left, at the speed SlowMo selects. The bricks end as the last board's, and the score grows by exactly the award. The active balls are the moved ones still in play, and the list becomes `BallsLeft`. When every ball is lost, exactly one life goes. On the last life the state becomes gameOver, the best score max(best, score), and the old list stays. Otherwise one fresh attached ball remains, the effects are off, the paddle has base width and nothing is falling. With no such loss, the falling list is the last board's, which extends the old one, and nothing else changes. |
| Session.BallPassInSteps | app.js:402-443 | The per-ball pass (`Moved`) followed by the loss check (`LossChecked`) makes up the ball phase `BallPass`. |
| Session.GameSession.CheckLoss | app.js:438-442 | The session before and after are related by `LossChecked`. The active balls are the old ones still in play. When balls existed and none is active, lives drop by one: the last life ends the game with max(best, score) as best and the list untouched; any other gives one fresh attached ball and clears the effects, the wide paddle and the falling list. Otherwise the list becomes the active balls and nothing else changes. |
| Session.BallsLeft | app.js:438-442 | The balls after the loss check: the active ones if any; else a fresh attached ball when balls existed and a life remains; else the old list. |
| Session.GameSession.MoveBalls | app.js:405-436 | The session before and after are related by `Moved`. The balls are handled in list order, ball j with the j-th drop draw against `boards[j]`, the bricks and falling list the earlier balls left. An attached ball snaps to the paddle and leaves the board alone. A free ball becomes `Rebound` of its `Fly` step, the bricks become `Strike` of it and the falling list gains its `Drop`. The bricks only wear down, the score grows by exactly the award, the old falling list is a prefix of the new one, and no other field changes. |
| Session.GameSession.MoveBall | app.js:405-436 | Ball i, the bricks and the falling list change exactly as `Stepped` says: `Snap` for an attached ball, which leaves the board alone; for a free one, `Fly`, then the brick check, which appends its `Drop` to the falling list. No other ball changes, the old falling list stays a prefix of the new one, and the worn-field and score-award invariant is kept. |
| Balls.Snap | app.js:406-409 | An attached ball moves to the paddle's x at the rest height `REST_Y`, above the paddle, with its velocity untouched. |
| Balls.SnapClear | app.js:406-409 | An attached ball of at most standard radius never overlaps the paddle. |
| Balls.Rescaled | app.js:412-417 | Renormalisation keeps the direction: the signs of both components and their ratio. |
| Balls.WallBounce | app.js:422-424 | After the wall checks the ball is inside the side walls and below the top. Crossing the left wall gives vx >= 0, the right wall vx <= 0 and the top vy >= 0. Each velocity component is kept or negated, and a ball inside the walls is unchanged. |
| Balls.HitPos | app.js:427 | The hit position lies in [-1, 1], is 0 at the paddle centre, and has the sign of the ball's offset from the centre. |
| Balls.PaddleBounce | app.js:426-433 | A downward ball overlapping the paddle leaves upwards and no longer overlaps it. Any other ball is unchanged. |
| Balls.Fly | app.js:412-433 | A free ball's flight (renormalise, move, walls, paddle) ends between the side walls and below the top. It never heads down while touching the paddle. Its radius, speed and flag are kept. |
| Entities.CheckPaddleCollision | app.js:445-452 | The box test holds exactly when, on each axis, the ball and paddle centres are closer than their half-extents added together. |
| Geometry.CommonPointOverlap | app.js:445-452 | Two boxes that share an interior point overlap. |
| Geometry.OverlapHasCommonPoint | app.js:445-452 | Two overlapping boxes share an interior point. |
| Session.GameSession.CheckBrickCollisions | app.js:454-491 | Only the brick `HitIndex` names, the highest-index live brick the ball touches, is hit. It loses one durability, and every other brick is unchanged. The ball deflects off it. On death the score rises by maxDurability * 10, and the power-up `Drop` gives (one from the brick's centre when enabled and drawn) is appended. With no such brick nothing changes. The ball and brick results are `Rebound` and `Strike` of the old bricks. |
| Session.Drop | app.js:481-486 | At most one power-up drops. It drops only when drops are enabled and the draw gave a kind, and only when the struck brick (`HitIndex`) dies from the hit. Then it always drops, falling with the drawn kind. |
| Bricks.HitIndex | app.js:455-464 | The chosen index is a live brick the ball touches, and no higher index is one. When there is none, no brick is struck. |
| Geometry.CircleHitsRectComplete | app.js:459-464 | The squared-distance test succeeds whenever some point of the brick is closer than the radius. |
| Geometry.CircleHitsRectSound | app.js:459-464 | A successful test is witnessed by the clamped point of the brick. |
| Bricks.Deflect | app.js:465-474 | Exactly one velocity component is negated: vx when overlapX < overlapY, else vy. The ball is pushed to exactly one radius from the brick along that axis. |
| Bricks.Hit | app.js:476-478 | Durability drops by exactly one. The brick dies exactly when durability reaches <= 0, and a well-formed live brick stays well formed. |
| Bricks.HitKeepsWorn | app.js:476-479 | Hitting the struck brick keeps the field worn-down and adds exactly its maxDurability * 10 when it dies, 0 otherwise. |
| Bricks.AwardUpdate | app.js:476-479 | Changing one brick changes the award by that brick's gain alone. |
| Bricks.AwardNonNegative | app.js:476-479 | Destroying bricks never lowers the score. |
| Session.GameSession.SpawnPowerUp | app.js:495-504 | Appends exactly one new falling power-up of the drawn kind at the given point. |
| PowerUps.NewPowerUp | app.js:495-504 | A new power-up falls (vy > 0) from the given point, with the standard size. |
| Session.GameSession.UpdatePowerUps | app.js:506-539 | The falling list becomes what `Sweep` keeps. Expand and SlowMo are active exactly when picked up in this sweep or still before their deadline. A pickup sets the deadline to now + duration, and Expand's expiry restores the base width. The old ball list stays a prefix of the new one. With the ball attached the list is unchanged; with free balls each MultiBall pickup triples the count, so without one the list is unchanged too. |
| Session.GameSession.SweepAll | app.js:507-525 | The reverse loop over the falling list yields the session state `Sweep` predicts. |
| Session.GameSession.SweepAt | app.js:508-524 | One iteration moves the power-up and then picks it up, drops it or keeps it, as `SweepStep` says. |
| Session.GameSession.PickUp | app.js:517-518 | A pickup applies the power-up. The balls before the sweep stay a prefix of the list, and each MultiBall triples the free balls. |
| PowerUps.SweepShape | app.js:506-525 | The outcome counts add up: kept + picked + missed == the list's length. The paddle ends expanded exactly when an Expand was picked up or it already was. Which outcome each power-up gets is stated by `SweepKept`, `SweepPicked`, `SweepStays`, `SweepCaught` and `SweepMissed`. |
| PowerUps.SweepKept | app.js:506-525 | What stays falling is an ordered subsequence of the fallen list. None of it is below the field, and none of it touches the paddle even at the narrower of the sweep's widths. |
| PowerUps.SweepPicked | app.js:511-518 | Every picked kind belongs to a power-up of the list that, once fallen, touched the paddle at its initial or expanded width. |
| PowerUps.SweepStays | app.js:508-524 | Conversely to `SweepKept`: a power-up that, once fallen, is not below the field and does not touch the paddle even at the wider of the sweep's widths stays in the falling list. |
| PowerUps.SweepCaught | app.js:511-518 | Conversely to `SweepPicked`: a power-up that, once fallen, touches the paddle even at the narrower of the sweep's widths has its kind picked up. |
| PowerUps.SweepMissed | app.js:522-524 | The missed count lies between the number of fallen power-ups below the field and clear of the paddle at the wider width, and that number at the narrower width. When the paddle starts at the expanded width the bounds coincide, so it is exactly that number. |
| PowerUps.SubseqMembers | app.js:506-525 | A list with elements removed by `splice` has no more elements than the original, and only elements of it. |
| Session.GameSession.ActivatePowerUp | app.js:541-567 | MultiBall appends exactly `Spawned(balls)`, two per free ball, and changes nothing else. Expand sets the idempotent width and a deadline of now + 10000. SlowMo sets a deadline of now + 8000. |
| Balls.SpawnedShape | app.js:544-557 | MultiBall adds 2 x (number of free balls) balls. Each is free and has the position, radius and speed of a free ball it copies. |
| Balls.FreeCountUniform | app.js:544-557 | With every ball attached MultiBall adds nothing; with none attached it adds two per ball. |
| Balls.Rotated | app.js:547-554 | A rotated copy is free and keeps the position, radius and speed. Its squared speed scales by sin^2 + cos^2, so an exact rotation keeps it. |
| Balls.SurvivorsMembers | app.js:438 | The survivors are exactly the balls still in play, and all survive only when every ball is in play. |
| Balls.SurvivorsAppend | app.js:438 | Removing lost balls keeps their relative order. |
| Session.SurvivorsKeepBallOk | app.js:438 | Removing lost balls keeps every remaining ball's attached flag, radius and speed. |
| Session.GameSession.LoseLife | app.js:571-584 | Lives drop by exactly one. At <= 0 the game is over and the best score is max(best, score). Otherwise there is one fresh attached ball, both effects are off, the paddle has base width and nothing is falling. |
| Session.GameSession.GameOver | app.js:586-596 | The state becomes gameOver and the best score becomes max(best, score). |
| Session.KeepBest | app.js:589-593 | The kept best score is the larger of the two scores. |
| Session.GameSession.CheckWin | app.js:598-610 | The state becomes win (and the best score max(best, score)) exactly when no brick is alive. Otherwise nothing changes. The best score never decreases. |
| Bricks.LiveCountZero | app.js:599 | The filtered live count is 0 exactly when every brick is dead. |
| Session.GameSession.StartGame | app.js:612-627 | The session becomes playing with score 0, three lives, the paddle centred at base width, no effects, no falling power-ups, the first level's bricks and one attached ball. |
| Session.GameSession.TogglePause | app.js:629-639 | Playing and paused swap. Every other state is left alone. |
| Session.GameSession.TogglePowerUps | app.js:648-651 | The power-up switch is flipped. |
| Session.FrameDt | app.js:777 | The frame step is the elapsed time in seconds when that is at most 0.1, and exactly 0.1 otherwise. |
| Session.GameSession.Frame | app.js:776-788 | The timestamp is recorded. In any state but playing no other field changes. While playing, the session before and after are related by `Played` with the clamped step `FrameDt`: the frame `Update` states, including the ball list. |
| Session.GameSession.Update | app.js:779-783 | The session before and after are related by `Played`. The paddle x becomes `PaddleStep` of the old one. The balls step as in `BallPass`, and lives drop by one exactly on a total loss. The sweep runs over the falling list the balls left, at the width they left. That list extends the old one unless a non-fatal loss emptied it. The falling list becomes what the sweep keeps. The attached flag is set by a non-fatal loss, or kept. The final ball list starts with `BallsLeft`, the balls after the loss check. With the ball attached it is exactly that; otherwise each MultiBall pickup triples its count, so without one it is exactly that too. Expand and SlowMo are active when picked or still live, and not reset by a loss. The state is win if no brick is alive, else gameOver after a fatal loss, else unchanged. The best score becomes max(best, score) on a win or a fatal loss and is otherwise kept. The score grows by exactly the award. |
| Session.PlayedInPhases | app.js:779-783 | Moving the paddle, then the ball phase (`BallPass`), then settling (`Settled`) make up a played frame (`Played`). This includes the best score recorded at most once when a fatal loss and a win fall in the same frame. |
| Session.GameSession.SettleFrame | app.js:782-783 | The session before and after are related by `Settled`. The falling list becomes what `Sweep` keeps. The effects follow the pickups and deadlines as `UpdatePowerUps` states. The old ball list stays a prefix of the new one, and MultiBall pickups with a free ball triple its count. Then the state becomes win and the best score max(best, score) exactly when no brick is alive; otherwise both are kept. |

## Left out

- Audio (app.js:134-283), rendering, the HUD and status texts, and button labels are not modelled. They are output only.
- `localStorage` is not modelled. The stored best score is a constructor parameter, and writing it back is omitted.
- Input plumbing is not modelled: the key, touch and on-screen button handlers, including which of start, launch or pause the space key calls. Held keys reach the model as a `Keys` snapshot per frame, and start, launch and pause are separate methods.
- `toggleMute` and `init` are not modelled: they touch only audio and the DOM.
- `requestAnimationFrame` and `performance.now()` are not modelled. Their values are the parameters `time` and `now`. The program reads `performance.now()` separately in each activation and expiry; the model uses one `now` per frame.
- `Math.random()` is not modelled. The 12% drop chance and the uniform type choice become the `drops` parameter, and the launch angle the `heading` parameter. Any outcome is allowed.
- Exact floating-point values from `Math.sqrt`, `Math.sin` and `Math.cos` are not modelled: renormalisation, the bounce angle `hitPos * PI/3`, the launch direction and the 30-degree rotation come from the `Trig` parameter. The `|curSpeed - speed| > 10` test sits inside the renormalisation factor, which is 1 when no rescale is due. The division by zero for a motionless free ball is not modelled, and neither is floating-point rounding.
- Session.GameSession.Update: when a MultiBall is picked up with a free ball, its contract gives the old list as a prefix and the new count, but not which copies were appended. `ActivatePowerUp` states the exact copies for a single pickup.
- Session.GameSession.Frame: the same as for Update, since its playing frame is `Played`. MultiBall copies appended in the frame are bounded by prefix and count, not identified.
- Session.GameSession.SettleFrame: the same as for Update. After MultiBall pickups with a free ball, only the prefix and the count are stated.
- Session.GameSession.UpdatePowerUps: after MultiBall pickups within a sweep, the ball clauses give the old list as a prefix and the count, not which balls were appended.
- Apart from the touch handler, which is left out, the paddle is clamped only by `updatePaddle`. An Expand pickup widens the paddle around its current x without clamping again, so the paddle may stick out past a wall until the next frame. The model follows the program here and states the clamp only as `PaddleStep`'s postcondition.
- After a fatal loss inside `updateBalls`, the rest of the frame still runs: the power-up sweep and `checkWin`. A frame that loses the last ball and destroys the last brick therefore ends in the win state. The model follows the program here.
