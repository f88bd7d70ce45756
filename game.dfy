/**
 * The game as index.js runs it: the module-level objects are the fields of one
 * Game, and each routine updates them in place. Every method is specified by the
 * function of module Pong that gives the state it leaves behind.
 *
 * The ball and the paddles are records: resetBall replaces them wholesale, and the
 * in-place writes to one of their fields become record updates of the Game field
 * (no other reference to those objects exists in the source).
 */
module PongGame {
  import opened Pong
  import PongProperties

  class Game {
    const field: Field
    var score: Score
    var gameOver: bool
    var ball: Ball
    var leftPaddle: Paddle
    var rightPaddle: Paddle

    /** The whole game state as a value. */
    function Snapshot(): State
      reads this
    {
      State(score, gameOver, ball, leftPaddle, rightPaddle)
    }

    /** The match invariant of PongProperties holds of the fields (not an object invariant: no method requires it). */
    ghost predicate InvariantHolds()
      reads this
    {
      PongProperties.MatchInvariant(Snapshot(), field)
    }

    /** The state objects as the script creates them on load. */
    constructor (f: Field, serve: Serve)
      ensures field == f && Snapshot() == Pong.Initial(f, serve)
      ensures InvariantHolds()
    {
      field := f;
      score := Score(InitialBestOf, 0, 0);
      gameOver := false;
      ball := NewBall(f, serve);
      leftPaddle := NewPaddle(f, Left);
      rightPaddle := NewPaddle(f, Right);
      new;
      PongProperties.InitialSatisfiesInvariant(f, serve);
    }

    /** checkWin; returns the banner it shows, if any. */
    method CheckWin() returns (shown: Option<Side>)
      modifies this
      ensures Snapshot() == Pong.CheckWin(old(Snapshot()))
      ensures shown == WinMessage(old(score))
    {
      if score.left == score.bestOf {
        shown := Some(Left);
        gameOver := true;
      } else if score.right == score.bestOf {
        shown := Some(Right);
        gameOver := true;
      } else {
        shown := None;
      }
    }

    /** resetBall: new ball, new paddles. */
    method ResetBall(serve: Serve)
      modifies this
      ensures Snapshot() == Pong.ResetBall(old(Snapshot()), field, serve)
    {
      ball := NewBall(field, serve);
      leftPaddle := NewPaddle(field, Left);
      rightPaddle := NewPaddle(field, Right);
    }

    /** scoreAdd. */
    method ScoreAdd(side: Side, serve: Serve)
      modifies this
      ensures Snapshot() == Pong.ScoreAdd(old(Snapshot()), field, side, serve)
    {
      if side == Left {
        score := score.(left := score.left + 1);
      } else {
        score := score.(right := score.right + 1);
      }
      ResetBall(serve);
    }

    /** The two wall tests of collisionDetection; each reset consumes its own serve. */
    method WallScoring(rightWallServe: Serve, leftWallServe: Serve)
      modifies this
      ensures Snapshot() == Pong.WallScoring(old(Snapshot()), field, rightWallServe, leftWallServe)
    {
      if ball.x + ball.radius >= field.width {
        ScoreAdd(Left, rightWallServe);
      }
      if ball.x - ball.radius <= 0.0 {
        ScoreAdd(Right, leftWallServe);
      }
    }

    /** collisionDetection: wall scoring, then the vertical and the two paddle reflections. */
    method CollisionDetection(rightWallServe: Serve, leftWallServe: Serve)
      modifies this
      ensures Snapshot() == Pong.CollisionDetection(old(Snapshot()), field, rightWallServe, leftWallServe)
    {
      WallScoring(rightWallServe, leftWallServe);
      if ball.y - ball.radius < 0.0 || ball.y - ball.radius > field.height {
        ball := ball.(dirY := -ball.dirY);
      }
      if HitsLeftPaddle(ball, leftPaddle) {
        ball := ball.(dirX := -ball.dirX);
      }
      if HitsRightPaddle(ball, rightPaddle) {
        ball := ball.(dirX := -ball.dirX);
      }
    }

    /** ballMovement. */
    method BallMovement()
      modifies this
      ensures Snapshot() == Pong.BallMovement(old(Snapshot()))
    {
      ball := ball.(x := ball.x + ball.dirX);
      ball := ball.(y := ball.y + ball.dirY);
    }

    /** paddleMovement, applied to the paddle of `side`. */
    method PaddleMovement(side: Side)
      modifies this
      ensures side == Left ==>
                Snapshot() == old(Snapshot()).(leftPaddle := Pong.PaddleMovement(old(leftPaddle), field))
      ensures side == Right ==>
                Snapshot() == old(Snapshot()).(rightPaddle := Pong.PaddleMovement(old(rightPaddle), field))
    {
      var paddle := if side == Left then leftPaddle else rightPaddle;
      if paddle.movingUp && paddle.y > 0.0 {
        paddle := paddle.(y := paddle.y - paddle.velocity);
      }
      if paddle.movingDown && paddle.y < field.height - paddle.height {
        paddle := paddle.(y := paddle.y + paddle.velocity);
      }
      if side == Left {
        leftPaddle := paddle;
      } else {
        rightPaddle := paddle;
      }
    }

    /** The simulation half of draw: one frame. Returns the banner checkWin shows, if any. */
    method Tick(rightWallServe: Serve, leftWallServe: Serve) returns (shown: Option<Side>)
      modifies this
      ensures Snapshot() == Pong.Tick(old(Snapshot()), field, rightWallServe, leftWallServe)
      ensures shown == if old(gameOver) then None else WinMessage(old(score))
      ensures old(InvariantHolds()) && field.width > 2.0 * (BallRadius + BallVelocity) ==> InvariantHolds()
    {
      ghost var before := Snapshot();
      if !gameOver {
        shown := CheckWin();
        CollisionDetection(rightWallServe, leftWallServe);
        BallMovement();
        PaddleMovement(Left);
        PaddleMovement(Right);
      } else {
        shown := None;
      }
      if PongProperties.MatchInvariant(before, field) && field.width > 2.0 * (BallRadius + BallVelocity) {
        PongProperties.TickKeepsInvariant(before, field, rightWallServe, leftWallServe);
      }
    }

    /** play: clear the scores, restart the match and run the first frame. */
    method Play(rightWallServe: Serve, leftWallServe: Serve) returns (shown: Option<Side>)
      modifies this
      ensures Snapshot() == Pong.Play(old(Snapshot()), field, rightWallServe, leftWallServe)
      ensures (old(score.bestOf) > 0 && old(ball.radius) == BallRadius &&
               field.width > 2.0 * (BallRadius + BallVelocity)) ==> InvariantHolds()
    {
      score := score.(left := 0);
      score := score.(right := 0);
      gameOver := false;
      if score.bestOf > 0 && ball.radius == BallRadius {
        PongProperties.RestartKeepsInvariant(old(Snapshot()), field);
      }
      shown := Tick(rightWallServe, leftWallServe);
    }
  }
}
