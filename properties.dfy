/**
 * Properties of the simulation step: what a paddle move, a collision pass and a
 * tick do to the state, and the invariant that keeps the score at or below the
 * match target.
 */
module PongProperties {
  import opened Pong

  // ---------------------------------------------------------------- paddles

  /** Moving up alone: one step up exactly when the paddle is below the top. */
  lemma PaddleUpOnly(p: Paddle, f: Field)
    requires p.movingUp && !p.movingDown
    ensures PaddleMovement(p, f).y == if p.y > 0.0 then p.y - p.velocity else p.y
  {
  }

  /** Moving down alone: one step down exactly when the paddle is above height - paddle height. */
  lemma PaddleDownOnly(p: Paddle, f: Field)
    requires p.movingDown && !p.movingUp
    ensures PaddleMovement(p, f).y == if p.y < f.height - p.height then p.y + p.velocity else p.y
  {
  }

  /** Both flags set away from both guards: the two steps cancel. */
  lemma PaddleBothFlagsCancel(p: Paddle, f: Field)
    requires p.movingUp && p.movingDown && p.velocity >= 0.0
    requires 0.0 < p.y < f.height - p.height
    ensures PaddleMovement(p, f) == p
  {
  }

  /**
   * Both flags set at the top guard: the upward step is skipped, the downward one
   * still applies in the same call.
   */
  lemma PaddleBothFlagsAtTop(p: Paddle, f: Field)
    requires p.movingUp && p.movingDown && p.y <= 0.0 && p.y < f.height - p.height
    ensures PaddleMovement(p, f).y == p.y + p.velocity
  {
  }

  /**
   * Both flags set at the bottom guard, below the top: the upward step is taken, and
   * the downward guard, reading the moved y, lets the paddle step back down.
   */
  lemma PaddleBothFlagsAtBottom(p: Paddle, f: Field)
    requires p.movingUp && p.movingDown && p.velocity > 0.0
    requires p.y == f.height - p.height && p.y > 0.0
    ensures PaddleMovement(p, f).y == p.y
  {
  }

  /** No intent flag set: the paddle does not move. */
  lemma PaddleNoFlags(p: Paddle, f: Field)
    requires !p.movingUp && !p.movingDown
    ensures PaddleMovement(p, f) == p
  {
  }

  /**
   * The guards decide whether to move, they do not clamp: a paddle 6 pixels below
   * the top of an 800 x 600 field, moving up, ends above the field.
   */
  lemma PaddleCanOvershootTop()
    ensures var f := Field(800.0, 600.0);
            var p := NewPaddle(f, Left).(y := 6.0, movingUp := true);
            PaddleMovement(p, f).y == -1.0
  {
  }

  /** From any band position, any sequence of intents keeps the paddle in the band. */
  function MovePaddleRepeatedly(p: Paddle, f: Field, intents: seq<(bool, bool)>): (r: Paddle)
    decreases |intents|
    ensures r.x == p.x && r.velocity == p.velocity && r.height == p.height && r.width == p.width
    ensures p.velocity > 0.0 && InBand(p, f) ==> InBand(r, f)
  {
    if intents == [] then p
    else
      MovePaddleRepeatedly(
        PaddleMovement(p.(movingUp := intents[0].0, movingDown := intents[0].1), f), f, intents[1..])
  }

  /** The reset paddle is in the band whenever the field is at least as tall as a paddle. */
  lemma NewPaddleInBand(f: Field, side: Side)
    requires f.height >= PaddleHeight
    ensures InBand(NewPaddle(f, side), f)
  {
  }

  /** Both paddles of the game move at a positive speed and lie in the band. */
  predicate PaddlesInBand(s: State, f: Field)
  {
    s.leftPaddle.velocity > 0.0 && InBand(s.leftPaddle, f) &&
    s.rightPaddle.velocity > 0.0 && InBand(s.rightPaddle, f)
  }

  /** The start-up paddles are in the band on a field at least as tall as a paddle. */
  lemma InitialPaddlesInBand(f: Field, serve: Serve)
    requires f.height >= PaddleHeight
    ensures PaddlesInBand(Initial(f, serve), f)
  {
  }

  /**
   * Whatever intents the handlers leave and whatever walls are hit, one frame keeps
   * both paddles in the band: a reset puts them back at the centre, and the moves
   * keep them there.
   */
  lemma TickKeepsPaddlesInBand(s: State, f: Field, i: Intents, rightWallServe: Serve, leftWallServe: Serve)
    requires f.height >= PaddleHeight && PaddlesInBand(s, f)
    ensures PaddlesInBand(Tick(WithIntents(s, i), f, rightWallServe, leftWallServe), f)
  {
  }

  /** Any run of frames keeps both paddles in the band. */
  lemma {:induction false} RunKeepsPaddlesInBand(s: State, f: Field, frames: seq<Frame>)
    requires f.height >= PaddleHeight && PaddlesInBand(s, f)
    ensures PaddlesInBand(Run(s, f, frames), f)
    decreases |frames|
  {
    if frames != [] {
      var fr := frames[0];
      TickKeepsPaddlesInBand(s, f, fr.intents, fr.rightWallServe, fr.leftWallServe);
      RunKeepsPaddlesInBand(Tick(WithIntents(s, fr.intents), f, fr.rightWallServe, fr.leftWallServe),
                            f, frames[1..]);
    }
  }

  // ---------------------------------------------------------------- collisions

  /** Ball hits the right wall: player 1 scores and ball and paddles are reset. */
  lemma CollisionRightWall(s: State, f: Field, rightWallServe: Serve, leftWallServe: Serve)
    requires s.ball.x + s.ball.radius >= f.width
    requires f.width > 2.0 * BallRadius
    ensures var r := CollisionDetection(s, f, rightWallServe, leftWallServe);
            r.score == s.score.(left := s.score.left + 1) && r.gameOver == s.gameOver && JustReset(r, f)
  {
  }

  /** Ball hits the left wall only: player 2 scores and ball and paddles are reset. */
  lemma CollisionLeftWall(s: State, f: Field, rightWallServe: Serve, leftWallServe: Serve)
    requires s.ball.x + s.ball.radius < f.width && s.ball.x - s.ball.radius <= 0.0
    ensures var r := CollisionDetection(s, f, rightWallServe, leftWallServe);
            r.score == s.score.(right := s.score.right + 1) && r.gameOver == s.gameOver && JustReset(r, f)
  {
  }

  /** On a narrow field one pass scores for both sides. */
  lemma CollisionBothWalls(s: State, f: Field, rightWallServe: Serve, leftWallServe: Serve)
    requires s.ball.x + s.ball.radius >= f.width && f.width <= 2.0 * BallRadius
    ensures var r := CollisionDetection(s, f, rightWallServe, leftWallServe);
            r.score == s.score.(left := s.score.left + 1, right := s.score.right + 1) && JustReset(r, f)
  {
  }

  /**
   * No wall reached: position, radius, paddles and score stay; the direction only
   * changes sign, dirY by the top-edge rule and dirX once per paddle hit.
   */
  lemma CollisionNoWall(s: State, f: Field, rightWallServe: Serve, leftWallServe: Serve)
    requires s.ball.x + s.ball.radius < f.width && s.ball.x - s.ball.radius > 0.0
    ensures var r := CollisionDetection(s, f, rightWallServe, leftWallServe);
            r == s.(ball := r.ball) &&
            r.ball == s.ball.(dirX := r.ball.dirX, dirY := r.ball.dirY) &&
            Abs(r.ball.dirX) == Abs(s.ball.dirX) && Abs(r.ball.dirY) == Abs(s.ball.dirY) &&
            (r.ball.dirY == if TopEdgeOutside(s.ball, f) then -s.ball.dirY else s.ball.dirY) &&
            (r.ball.dirX == if HitsLeftPaddle(s.ball, s.leftPaddle) != HitsRightPaddle(s.ball, s.rightPaddle)
                            then -s.ball.dirX else s.ball.dirX)
  {
  }

  /** Top edge above the field with the ball going up: one pass sends it down at the same speed. */
  lemma TopWallReflection(s: State, f: Field, rightWallServe: Serve, leftWallServe: Serve)
    requires s.ball.x + s.ball.radius < f.width && s.ball.x - s.ball.radius > 0.0
    requires s.ball.y - s.ball.radius < 0.0 && s.ball.dirY < 0.0
    ensures var r := CollisionDetection(s, f, rightWallServe, leftWallServe);
            r.ball.dirY == -s.ball.dirY > 0.0
  {
  }

  // ---------------------------------------------------------------- ticks

  /**
   * The tick that ends the match, whichever side won, still runs the collision pass
   * and moves the ball and both paddles.
   */
  lemma WinningTickStillMoves(s: State, f: Field, rightWallServe: Serve, leftWallServe: Serve)
    requires !s.gameOver && (s.score.left == s.score.bestOf || s.score.right == s.score.bestOf)
    requires s.ball.x + s.ball.radius < f.width && s.ball.x - s.ball.radius > 0.0
    ensures var r := Tick(s, f, rightWallServe, leftWallServe);
            r.gameOver && r.score == s.score &&
            r.ball.x == s.ball.x + r.ball.dirX && r.ball.y == s.ball.y + r.ball.dirY &&
            Abs(r.ball.dirX) == Abs(s.ball.dirX) && Abs(r.ball.dirY) == Abs(s.ball.dirY) &&
            r.leftPaddle == PaddleMovement(s.leftPaddle, f) &&
            r.rightPaddle == PaddleMovement(s.rightPaddle, f)
  {
  }

  /**
   * What a state reachable from play satisfies: neither score past the target, the
   * match over only with a side at the target, and, while a side sits at the target
   * with the match still running, the ball within one step of the centre line.
   */
  predicate MatchInvariant(s: State, f: Field)
  {
    0 <= s.score.left <= s.score.bestOf && 0 <= s.score.right <= s.score.bestOf &&
    s.ball.radius == BallRadius &&
    (s.gameOver ==> s.score.left == s.score.bestOf || s.score.right == s.score.bestOf) &&
    (!s.gameOver && (s.score.left == s.score.bestOf || s.score.right == s.score.bestOf) ==>
       f.width / 2.0 - BallVelocity <= s.ball.x <= f.width / 2.0 + BallVelocity)
  }

  /** The state the page starts with satisfies the invariant. */
  lemma InitialSatisfiesInvariant(f: Field, serve: Serve)
    ensures MatchInvariant(Initial(f, serve), f)
  {
  }

  /** A tick keeps the invariant on any field wider than 18. */
  lemma TickKeepsInvariant(s: State, f: Field, rightWallServe: Serve, leftWallServe: Serve)
    requires f.width > 2.0 * (BallRadius + BallVelocity)
    requires MatchInvariant(s, f)
    ensures MatchInvariant(Tick(s, f, rightWallServe, leftWallServe), f)
  {
  }

  /**
   * On a field wider than 18, the tick that ends the match scores no point for either
   * side, though it still runs the collision pass.
   */
  lemma EndingTickScoresNothing(s: State, f: Field, rightWallServe: Serve, leftWallServe: Serve)
    requires f.width > 2.0 * (BallRadius + BallVelocity) && MatchInvariant(s, f)
    requires !s.gameOver && (s.score.left == s.score.bestOf || s.score.right == s.score.bestOf)
    ensures Tick(s, f, rightWallServe, leftWallServe).score == s.score
  {
  }

  /**
   * The width bound of TickKeepsInvariant is tight: on a field 18 wide a ball one
   * step right of centre, with player 1 already at the target, scores a fourth point
   * in the tick that ends the match.
   */
  lemma NarrowFieldOvershoots()
    ensures var f := Field(18.0, 600.0);
            var s := State(Score(3, 3, 0), false, Ball(12.0, 300.0, BallRadius, BallVelocity, BallVelocity),
                           NewPaddle(f, Left), NewPaddle(f, Right));
            var r := Tick(s, f, Serve(false, false), Serve(false, false));
            MatchInvariant(s, f) && r.gameOver && r.score.left == 4
  {
  }

  /** Every run of the animation loop keeps the invariant. */
  lemma {:induction false} RunKeepsInvariant(s: State, f: Field, frames: seq<Frame>)
    requires f.width > 2.0 * (BallRadius + BallVelocity)
    requires MatchInvariant(s, f)
    ensures MatchInvariant(Run(s, f, frames), f)
    decreases |frames|
  {
    if frames != [] {
      var fr := frames[0];
      var s1 := WithIntents(s, fr.intents);
      TickKeepsInvariant(s1, f, fr.rightWallServe, fr.leftWallServe);
      RunKeepsInvariant(Tick(s1, f, fr.rightWallServe, fr.leftWallServe), f, frames[1..]);
    }
  }

  /** Restarting a match with a positive target establishes the invariant, whatever came before. */
  lemma RestartKeepsInvariant(s: State, f: Field)
    requires s.score.bestOf > 0 && s.ball.radius == BallRadius
    ensures MatchInvariant(Restart(s), f)
  {
  }

  /**
   * From play on, however many frames follow, no score passes the target, and the
   * match is over only when a side has reached it.
   */
  lemma ScoreNeverPassesTarget(s: State, f: Field, rightWallServe: Serve, leftWallServe: Serve,
                               frames: seq<Frame>)
    requires f.width > 2.0 * (BallRadius + BallVelocity)
    requires s.score.bestOf > 0 && s.ball.radius == BallRadius
    ensures var r := Run(Play(s, f, rightWallServe, leftWallServe), f, frames);
            r.score.left <= r.score.bestOf && r.score.right <= r.score.bestOf &&
            (r.gameOver ==> r.score.left == r.score.bestOf || r.score.right == r.score.bestOf)
  {
    RestartKeepsInvariant(s, f);
    TickKeepsInvariant(Restart(s), f, rightWallServe, leftWallServe);
    RunKeepsInvariant(Play(s, f, rightWallServe, leftWallServe), f, frames);
  }

  /**
   * A side at the target ends the match on the next tick; after that no frame moves
   * the ball or changes the score.
   */
  lemma MatchEndFreezes(s: State, f: Field, rightWallServe: Serve, leftWallServe: Serve,
                        frames: seq<Frame>)
    requires !s.gameOver && (s.score.left == s.score.bestOf || s.score.right == s.score.bestOf)
    ensures var t := Tick(s, f, rightWallServe, leftWallServe);
            var r := Run(t, f, frames);
            t.gameOver && r.gameOver && r.ball == t.ball && r.score == t.score
  {
  }
}
