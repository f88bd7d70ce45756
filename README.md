# Pong simulation step, modelled in Dafny

This project models the simulation core of a two-player paddle-and-ball game that runs in a browser
(`index.js`). The state is held in module-level objects: the score with its `bestOf` target, the
`gameOver` flag, the ball, and the left and right paddles. Each animation frame, `draw` runs
`checkWin`, then `collisionDetection`, `ballMovement`, and `paddleMovement` for each paddle.
`collisionDetection` handles the wall points, which go through `scoreAdd` and `resetBall`, and the
wall and paddle reflections. `play` clears the score and starts the loop.

The model has three modules:

- `Pong` (`pong.dfy`) holds the state as values and one function per routine. Each function gives
  the state that routine leaves behind. Together these functions are the specification.
- `PongGame` (`game.dfy`) holds a class `Game` whose fields are the module-level objects. Its methods
  update those fields in place, statement by statement, as the source does. Each method's `ensures`
  equates the new state with the `Pong` function applied to the old state.
- `PongProperties` (`properties.dfy`) holds the lemmas: paddle guards and band, the wall and paddle
  rules of a collision pass, the winning tick, and the match invariant. The invariant keeps both
  scores at or below the target.

Coordinates are `real`. The source places ball and paddles at `width / 2` and `height / 2`, which
is fractional on an odd canvas size. Every step is an
addition, a sign flip or a comparison, so the default 800×600 field and the integral constants give
exact values. The canvas size is a `Field` value that stays fixed for the match.

Behaviour kept as the code has it, even where a reader might expect otherwise:

- The top/bottom test compares the ball's top edge (`y - radius`) with both bounds.
- The paddle guards decide whether a step is taken. They do not clamp the result. A paddle can end
  up to one step outside `[0, height - 70]`, and `PaddleCanOvershootTop` shows one input where this
  happens. What holds is the open band of `InBand`, for both paddles of the game over any run of
  frames (`RunKeepsPaddlesInBand`).
- The down guard reads the `y` that the up step may already have changed.
- `resetBall` also replaces both paddles, which clears all four intent flags.
- The tick in which `checkWin` sets `gameOver` still runs the collision pass, the ball move and the
  paddle moves (`WinningTickStillMoves`).
- `play` does not reset the ball or the paddles. It then runs one frame at once through `draw()`.
- The score cap is proved for fields wider than 18 (`TickKeepsInvariant`,
  `ScoreNeverPassesTarget`). On a field exactly 18 wide, the tick that ends the match can give a
  fourth point (`NarrowFieldOvershoots`), so the bound cannot be lowered.
- On a field at most 12 wide, a right-wall hit also scores for player 2 (`CollisionBothWalls`).

## Model

| member | source | states |
|---|---|---|
| `Pong.NewBall` | index.js:120-126 | the reset ball is at the field centre with radius 6 and moves 3 per tick on each axis; the serve picks the signs |
| `Pong.NewPaddle` | index.js:128-145 | a reset paddle is vertically centred (y + height/2 = height/2), at x = 70 or width - 70, with speed 7, size 8×70 and both intent flags false |
| `Pong.Initial` | index.js:22-56 | the start-up state has score 0-0 with target 3, the match is running, and ball and paddles are as a reset leaves them |
| `Pong.WinMessage` | index.js:97-104 | the banner is player 1 exactly when left equals the target, player 2 exactly when only right does, and none otherwise |
| `Pong.CheckWin` | index.js:96-106 | `gameOver` becomes true exactly when a side has exactly `bestOf` points, otherwise it keeps its value; nothing else changes |
| `Pong.ResetBall` | index.js:119-146 | ball and paddles are freshly reset with the given serve; score and `gameOver` are unchanged |
| `Pong.ScoreAdd` | index.js:148-151 | the scoring side gains exactly one point, the other side none, and ball and paddles are reset |
| `Pong.WallScoring` | index.js:155-157 | left scores exactly when the ball's right edge reaches the width; right scores when the left edge reaches 0, tested after a possible first reset; a pass that scores nothing changes nothing |
| `Pong.ReflectVertical` | index.js:159-160 | dirY is negated when the top edge is above 0 or below the height, and kept otherwise; only dirY changes |
| `Pong.ReflectPaddles` | index.js:164-179 | dirX is negated when exactly one paddle test holds and kept when both or neither hold; only dirX changes |
| `Pong.CollisionDetection` | index.js:153-180 | left gains one point exactly on a right-wall hit, right gains at most one, and `gameOver` and the target are unchanged |
| `Pong.BallMovement` | index.js:182-185 | the ball moves by (dirX, dirY) and nothing else changes, including radius, direction, paddles and score |
| `Pong.PaddleMovement` | index.js:187-191 | only y changes, by -velocity, 0 or +velocity; a paddle with positive velocity inside the open band stays inside it |
| `Pong.Tick` | index.js:227-247 | a finished match is left unchanged; otherwise `gameOver` ends as `checkWin` set it, and each score rises by at most one |
| `Pong.Restart` | index.js:250-253 | both scores become 0 and the match runs again; the target, ball and paddles are unchanged |
| `Pong.Play` | index.js:250-257 | after the restart and the first frame, each score is at most 1 and the match is over only when the target is 0 |
| `Pong.WithIntents` | index.js:193-225 | the input handlers set only the four intent flags |
| `Pong.Run` | index.js:227-229 | over any run of frames, scores never decrease and the target stays; a finished match keeps its score and ball |
| `PongProperties.InitialPaddlesInBand` | index.js:39-56 | the start-up paddles move at a positive speed and lie in the band on a field at least 70 high |
| `PongProperties.TickKeepsPaddlesInBand` | index.js:241-244 | whatever intents are set and whatever walls are hit, one frame keeps both paddles in the band |
| `PongProperties.RunKeepsPaddlesInBand` | index.js:227-229 | any run of frames keeps both paddles in the band |
| `PongProperties.PaddleUpOnly` | index.js:188 | with only the up flag, the paddle steps up exactly when y > 0 |
| `PongProperties.PaddleDownOnly` | index.js:189-190 | with only the down flag, the paddle steps down exactly when y < height - paddle height |
| `PongProperties.PaddleBothFlagsCancel` | index.js:187-191 | with both flags set and 0 < y < height - paddle height, y ends unchanged |
| `PongProperties.PaddleBothFlagsAtTop` | index.js:187-191 | with both flags set at the top guard, the up step is skipped and the down step still applies |
| `PongProperties.PaddleBothFlagsAtBottom` | index.js:187-191 | with both flags set at y = height - paddle height > 0, the up step is taken and the down guard, reading the moved y, steps back, so y ends unchanged |
| `PongProperties.PaddleNoFlags` | index.js:187-191 | with neither flag set the paddle does not move |
| `PongProperties.PaddleCanOvershootTop` | index.js:188 | a paddle at y = 6 moving up ends at y = -1, above the field |
| `PongProperties.MovePaddleRepeatedly` | index.js:187-191 | any sequence of paddle moves keeps x, velocity and size, and keeps a paddle inside the open band |
| `PongProperties.NewPaddleInBand` | index.js:128-145 | a reset paddle is inside the band when the field is at least 70 high |
| `PongProperties.CollisionRightWall` | index.js:155 | a right-wall hit gives left exactly one point, leaves right unchanged, and resets ball and paddles when the field is wider than 12 |
| `PongProperties.CollisionLeftWall` | index.js:157 | a left-wall hit alone gives right exactly one point, leaves left unchanged, and resets ball and paddles |
| `PongProperties.CollisionBothWalls` | index.js:155-157 | on a field at most 12 wide, a right-wall hit gives both sides a point |
| `PongProperties.CollisionNoWall` | index.js:153-180 | with no wall hit, position, radius, paddles and score stay; dirY flips by the top-edge rule; dirX flips once per paddle hit, so two hits restore it |
| `PongProperties.TopWallReflection` | index.js:159-160 | a ball above the top moving up is sent down at the same speed |
| `PongProperties.WinningTickStillMoves` | index.js:231-244 | when the ball reaches neither wall, the tick that sets `gameOver`, for either winner, still reflects and moves the ball, keeps its speed, and moves both paddles |
| `PongProperties.InitialSatisfiesInvariant` | index.js:22-56 | the start-up state satisfies the match invariant |
| `PongProperties.TickKeepsInvariant` | index.js:227-247 | on a field wider than 18, a tick keeps both scores at or below the target, and keeps `gameOver` only with a side at the target |
| `PongProperties.EndingTickScoresNothing` | index.js:231-244 | on a field wider than 18, the tick that ends the match leaves both scores unchanged, though it still runs the collision pass |
| `PongProperties.NarrowFieldOvershoots` | index.js:153-157 | on a field 18 wide, the tick that ends the match can take player 1 to 4 points with a target of 3 |
| `PongProperties.RunKeepsInvariant` | index.js:227-229 | any number of frames keeps the match invariant |
| `PongProperties.RestartKeepsInvariant` | index.js:250-253 | the restart establishes the invariant when the target is positive |
| `PongProperties.ScoreNeverPassesTarget` | index.js:250-257 | after `play` and any frames, no score passes the target and the match is over only with a side at the target |
| `PongProperties.MatchEndFreezes` | index.js:245-247 | either side at the target ends the match on the next tick, and later frames change neither ball nor score |
| `PongGame.Game.constructor` | index.js:22-56 | the fields hold the start-up state, which satisfies the invariant |
| `PongGame.Game.CheckWin` | index.js:96-106 | the new state is `Pong.CheckWin` of the old one, and it returns the banner shown |
| `PongGame.Game.ResetBall` | index.js:119-146 | the new state is `Pong.ResetBall` of the old one |
| `PongGame.Game.ScoreAdd` | index.js:148-151 | the new state is `Pong.ScoreAdd` of the old one |
| `PongGame.Game.WallScoring` | index.js:155-157 | the new state is `Pong.WallScoring` of the old one |
| `PongGame.Game.CollisionDetection` | index.js:153-180 | the new state is `Pong.CollisionDetection` of the old one |
| `PongGame.Game.BallMovement` | index.js:182-185 | the new state is `Pong.BallMovement` of the old one |
| `PongGame.Game.PaddleMovement` | index.js:187-191 | only the paddle of the given side changes, as `Pong.PaddleMovement` says |
| `PongGame.Game.Tick` | index.js:227-247 | the new state is `Pong.Tick` of the old one; the invariant is kept on fields wider than 18 |
| `PongGame.Game.Play` | index.js:250-257 | the new state is `Pong.Play` of the old one, and it satisfies the invariant when the target is positive |

## Left out

- Drawing is not modelled: `clearCanvas`, `drawSeparationLine`, `drawBall`, `drawPaddle` and `drawUI` (index.js:58-94, 108-117) only paint. The overlay writes in `checkWin` (index.js:98-99, 102-103) appear only as the banner value that `CheckWin` returns. The write in `play` that hides the overlay (index.js:254) is not modelled.
- Canvas sizing and the resize handler (index.js:11-20, 263-277) read the window size. The field is a fixed `Field` parameter, so a resize during a match is not modelled.
- Floating point is not modelled; numbers are exact reals. The canvas stores its width and height as integers, so the quotient assigned at index.js:13 and index.js:266 is truncated; `Field` takes any real size and does not capture that truncation.
- `Math.random` (index.js:35-36, 124-125) is replaced by a `Serve` value that the caller supplies. Each wall reset in one pass takes its own serve.
- `requestAnimationFrame` scheduling (index.js:229) is modelled as one `Tick` per frame, with `Pong.Run` over a sequence of frames. A loop that has stopped is modelled as frames that change nothing.
- The key and touch listeners (index.js:193-225, 279-303) become the four intent flags that `WithIntents` writes between frames. The repeated listener registration in `play` (index.js:256) is not modelled because it only repeats the same flag writes.
- The time before the first `play` is not a separate state. No frame runs then.
