/**
 * The simulation of the two-player paddle game as values: the game state held in
 * index.js's module-level objects, and one function per routine that changes it,
 * giving the state that routine leaves behind. Class PongGame.Game runs the same
 * routines imperatively and is specified by these functions.
 *
 * Positions are `real`: the source places ball and paddles at half the canvas width
 * and height, which is fractional on an odd canvas size, and every step is an
 * addition, a sign flip or a comparison, so no rounding is involved.
 */
module Pong {

  datatype Option<T> = None | Some(value: T)

  // Constants that index.js writes literally.
  const BallVelocity: real := 3.0     // BALL_VELOCITY
  const BallRadius: real := 6.0
  const PaddleVelocity: real := 7.0
  const PaddleHeight: real := 70.0
  const PaddleWidth: real := 8.0
  const PaddleInset: real := 70.0     // left paddle at x = 70, right paddle at x = width - 70
  const PaddleCentring: real := 35.0  // paddles start at y = height / 2 - 35
  const InitialBestOf: int := 3

  /** The canvas size, fixed for the whole match. */
  datatype Field = Field(width: real, height: real)

  /** The ball; (x, y) is its centre, (dirX, dirY) the distance it moves per tick. */
  datatype Ball = Ball(x: real, y: real, radius: real, dirX: real, dirY: real)

  /** A paddle; (x, y) is its top-left corner. The two flags are the players' intents. */
  datatype Paddle = Paddle(x: real, y: real, velocity: real, height: real, width: real,
                           movingUp: bool, movingDown: bool)

  datatype Score = Score(bestOf: int, left: int, right: int)

  /** Left is player 1 (keys w and s), Right is player 2 (the arrow keys). */
  datatype Side = Left | Right

  /**
   * The outcome of the two random draws a ball reset makes: whether the ball
   * heads left (dirX < 0) and whether it heads down the canvas (dirY > 0).
   */
  datatype Serve = Serve(leftward: bool, downward: bool)

  datatype State = State(score: Score, gameOver: bool, ball: Ball,
                         leftPaddle: Paddle, rightPaddle: Paddle)

  /** The four intent flags, as the key and touch handlers leave them between two ticks. */
  datatype Intents = Intents(leftUp: bool, leftDown: bool, rightUp: bool, rightDown: bool)

  /** Everything from outside that one animation frame consumes. */
  datatype Frame = Frame(intents: Intents, rightWallServe: Serve, leftWallServe: Serve)

  function Abs(v: real): real
  {
    if v < 0.0 then -v else v
  }

  /** The ball object literal of the start-up code and of resetBall. */
  function NewBall(f: Field, s: Serve): (b: Ball)
    ensures b.x == f.width / 2.0 && b.y == f.height / 2.0 && b.radius == BallRadius
    ensures Abs(b.dirX) == BallVelocity && Abs(b.dirY) == BallVelocity
    ensures (b.dirX < 0.0) == s.leftward && (b.dirY > 0.0) == s.downward
  {
    Ball(f.width / 2.0, f.height / 2.0, BallRadius,
         if s.leftward then -BallVelocity else BallVelocity,
         if s.downward then BallVelocity else -BallVelocity)
  }

  /** The paddle object literals of the start-up code and of resetBall. */
  function NewPaddle(f: Field, side: Side): (p: Paddle)
    ensures p.y + p.height / 2.0 == f.height / 2.0
    ensures p.x == if side == Left then PaddleInset else f.width - PaddleInset
    ensures p.velocity == PaddleVelocity && p.height == PaddleHeight && p.width == PaddleWidth
    ensures !p.movingUp && !p.movingDown
  {
    Paddle(if side == Left then PaddleInset else f.width - PaddleInset,
           f.height / 2.0 - PaddleCentring,
           PaddleVelocity, PaddleHeight, PaddleWidth, false, false)
  }

  /** Ball and paddles are as a reset leaves them, up to the signs of the ball's direction. */
  predicate JustReset(s: State, f: Field)
  {
    s.ball.x == f.width / 2.0 && s.ball.y == f.height / 2.0 && s.ball.radius == BallRadius &&
    Abs(s.ball.dirX) == BallVelocity && Abs(s.ball.dirY) == BallVelocity &&
    s.leftPaddle == NewPaddle(f, Left) && s.rightPaddle == NewPaddle(f, Right)
  }

  /** The state the script sets up when the page loads. */
  function Initial(f: Field, s: Serve): (r: State)
    ensures r.score == Score(InitialBestOf, 0, 0) && !r.gameOver
    ensures JustReset(r, f) && r.ball == NewBall(f, s)
  {
    State(Score(InitialBestOf, 0, 0), false, NewBall(f, s), NewPaddle(f, Left), NewPaddle(f, Right))
  }

  /** The banner checkWin shows: player 1 is tested first. */
  function WinMessage(score: Score): (w: Option<Side>)
    ensures w == Some(Left) <==> score.left == score.bestOf
    ensures w == Some(Right) <==> score.left != score.bestOf && score.right == score.bestOf
    ensures w == None <==> score.left != score.bestOf && score.right != score.bestOf
  {
    if score.left == score.bestOf then Some(Left)
    else if score.right == score.bestOf then Some(Right)
    else None
  }

  /** checkWin: ends the match when a side has exactly bestOf points. */
  function CheckWin(s: State): (r: State)
    ensures r.gameOver <==> s.gameOver || s.score.left == s.score.bestOf || s.score.right == s.score.bestOf
    ensures r == s.(gameOver := r.gameOver)
  {
    if WinMessage(s.score).Some? then s.(gameOver := true) else s
  }

  /** resetBall: a new ball and two new paddles; score and gameOver are untouched. */
  function ResetBall(s: State, f: Field, serve: Serve): (r: State)
    ensures JustReset(r, f) && r.ball == NewBall(f, serve)
    ensures r.score == s.score && r.gameOver == s.gameOver
  {
    s.(ball := NewBall(f, serve), leftPaddle := NewPaddle(f, Left), rightPaddle := NewPaddle(f, Right))
  }

  /** scoreAdd: one point for `side`, then a reset. */
  function ScoreAdd(s: State, f: Field, side: Side, serve: Serve): (r: State)
    ensures r.score.left == s.score.left + (if side == Left then 1 else 0)
    ensures r.score.right == s.score.right + (if side == Right then 1 else 0)
    ensures r.score.bestOf == s.score.bestOf && r.gameOver == s.gameOver
    ensures JustReset(r, f) && r.ball == NewBall(f, serve)
  {
    var score := if side == Left then s.score.(left := s.score.left + 1)
                 else s.score.(right := s.score.right + 1);
    ResetBall(s.(score := score), f, serve)
  }

  /**
   * The two wall tests of collisionDetection, in order. The left-wall test reads the
   * ball as the right-wall test left it, so on a field at most twice the radius wide
   * both sides score in one tick.
   */
  function WallScoring(s: State, f: Field, rightWallServe: Serve, leftWallServe: Serve): (r: State)
    ensures r.gameOver == s.gameOver && r.score.bestOf == s.score.bestOf
    ensures r.score.left == s.score.left + (if s.ball.x + s.ball.radius >= f.width then 1 else 0)
    ensures s.ball.x + s.ball.radius < f.width ==>
              r.score.right == s.score.right + (if s.ball.x - s.ball.radius <= 0.0 then 1 else 0)
    ensures s.ball.x + s.ball.radius >= f.width ==>
              r.score.right == s.score.right + (if f.width <= 2.0 * BallRadius then 1 else 0)
    ensures r.score == s.score ==> r == s
    ensures r.score != s.score ==> JustReset(r, f)
  {
    var s1 := if s.ball.x + s.ball.radius >= f.width then ScoreAdd(s, f, Left, rightWallServe) else s;
    if s1.ball.x - s1.ball.radius <= 0.0 then ScoreAdd(s1, f, Right, leftWallServe) else s1
  }

  /** The top/bottom test: it tests the ball's top edge against both bounds. */
  predicate TopEdgeOutside(b: Ball, f: Field)
  {
    b.y - b.radius < 0.0 || b.y - b.radius > f.height
  }

  /** The ball overlaps the right face of the left paddle. */
  predicate HitsLeftPaddle(b: Ball, p: Paddle)
  {
    b.y + b.radius >= p.y && b.y - b.radius <= p.y + p.height &&
    b.x - b.radius <= p.x + p.width && b.x + b.radius >= p.x + p.width
  }

  /** The ball's centre has reached the right paddle's left face. */
  predicate HitsRightPaddle(b: Ball, p: Paddle)
  {
    b.y + b.radius >= p.y && b.y - b.radius <= p.y + p.height &&
    b.x - b.radius <= p.x + p.width && b.x >= p.x
  }

  /** The vertical reflection of collisionDetection. */
  function ReflectVertical(b: Ball, f: Field): (r: Ball)
    ensures r == b.(dirY := r.dirY)
    ensures TopEdgeOutside(b, f) ==> r.dirY == -b.dirY
    ensures !TopEdgeOutside(b, f) ==> r.dirY == b.dirY
  {
    if TopEdgeOutside(b, f) then b.(dirY := -b.dirY) else b
  }

  /** The two paddle reflections of collisionDetection, each flipping dirX on its own. */
  function ReflectPaddles(b: Ball, left: Paddle, right: Paddle): (r: Ball)
    ensures r == b.(dirX := r.dirX)
    ensures HitsLeftPaddle(b, left) == HitsRightPaddle(b, right) ==> r.dirX == b.dirX
    ensures HitsLeftPaddle(b, left) != HitsRightPaddle(b, right) ==> r.dirX == -b.dirX
  {
    var b1 := if HitsLeftPaddle(b, left) then b.(dirX := -b.dirX) else b;
    if HitsRightPaddle(b1, right) then b1.(dirX := -b1.dirX) else b1
  }

  /** collisionDetection: wall scoring, then the reflections, all on the current ball. */
  function CollisionDetection(s: State, f: Field, rightWallServe: Serve, leftWallServe: Serve): (r: State)
    ensures r.gameOver == s.gameOver && r.score.bestOf == s.score.bestOf
    ensures r.score.left == s.score.left + (if s.ball.x + s.ball.radius >= f.width then 1 else 0)
    ensures s.score.right <= r.score.right <= s.score.right + 1
  {
    var s1 := WallScoring(s, f, rightWallServe, leftWallServe);
    s1.(ball := ReflectPaddles(ReflectVertical(s1.ball, f), s1.leftPaddle, s1.rightPaddle))
  }

  /** ballMovement: the ball advances by its direction and nothing else changes. */
  function BallMovement(s: State): (r: State)
    ensures r.ball.x - s.ball.x == s.ball.dirX && r.ball.y - s.ball.y == s.ball.dirY
    ensures r == s.(ball := s.ball.(x := r.ball.x, y := r.ball.y))
  {
    s.(ball := s.ball.(x := s.ball.x + s.ball.dirX, y := s.ball.y + s.ball.dirY))
  }

  /** The band a paddle is kept in: open by one step on each side of [0, height - paddle height]. */
  predicate InBand(p: Paddle, f: Field)
  {
    -p.velocity < p.y < f.height - p.height + p.velocity
  }

  /**
   * paddleMovement: an upward step when moving up and y > 0, then a downward step when
   * moving down and the (possibly already moved) y is below height - paddle height.
   */
  function PaddleMovement(p: Paddle, f: Field): (r: Paddle)
    ensures r == p.(y := r.y)
    ensures r.y == p.y - p.velocity || r.y == p.y || r.y == p.y + p.velocity
    ensures p.velocity > 0.0 && InBand(p, f) ==> InBand(r, f)
  {
    var up := if p.movingUp && p.y > 0.0 then p.(y := p.y - p.velocity) else p;
    if up.movingDown && up.y < f.height - up.height then up.(y := up.y + up.velocity) else up
  }

  /** The simulation half of draw: nothing while the match is over, else the five steps in order. */
  function Tick(s: State, f: Field, rightWallServe: Serve, leftWallServe: Serve): (r: State)
    ensures s.gameOver ==> r == s
    ensures r.gameOver <==> s.gameOver || s.score.left == s.score.bestOf || s.score.right == s.score.bestOf
    ensures r.score.bestOf == s.score.bestOf
    ensures s.score.left <= r.score.left <= s.score.left + 1
    ensures s.score.right <= r.score.right <= s.score.right + 1
  {
    if s.gameOver then s
    else
      var s1 := CheckWin(s);
      var s2 := CollisionDetection(s1, f, rightWallServe, leftWallServe);
      var s3 := BallMovement(s2);
      var s4 := s3.(leftPaddle := PaddleMovement(s3.leftPaddle, f));
      s4.(rightPaddle := PaddleMovement(s4.rightPaddle, f))
  }

  /** The assignments at the head of play: scores cleared, match running, nothing else reset. */
  function Restart(s: State): (r: State)
    ensures r.score == Score(s.score.bestOf, 0, 0) && !r.gameOver
    ensures r.ball == s.ball && r.leftPaddle == s.leftPaddle && r.rightPaddle == s.rightPaddle
  {
    s.(score := s.score.(left := 0, right := 0), gameOver := false)
  }

  /** play: the restart, then the first frame, which draw runs at once. */
  function Play(s: State, f: Field, rightWallServe: Serve, leftWallServe: Serve): (r: State)
    ensures r.score.bestOf == s.score.bestOf && r.score.left <= 1 && r.score.right <= 1
    ensures r.gameOver <==> s.score.bestOf == 0
  {
    Tick(Restart(s), f, rightWallServe, leftWallServe)
  }

  /** The intent flags as the input handlers left them; nothing else is touched. */
  function WithIntents(s: State, i: Intents): (r: State)
    ensures r.score == s.score && r.gameOver == s.gameOver && r.ball == s.ball
    ensures r.leftPaddle == s.leftPaddle.(movingUp := i.leftUp, movingDown := i.leftDown)
    ensures r.rightPaddle == s.rightPaddle.(movingUp := i.rightUp, movingDown := i.rightDown)
  {
    s.(leftPaddle := s.leftPaddle.(movingUp := i.leftUp, movingDown := i.leftDown),
       rightPaddle := s.rightPaddle.(movingUp := i.rightUp, movingDown := i.rightDown))
  }

  /**
   * The animation loop: draw schedules itself once per frame; before each frame the
   * input handlers may have changed the intent flags.
   */
  function Run(s: State, f: Field, frames: seq<Frame>): (r: State)
    decreases |frames|
    ensures r.score.bestOf == s.score.bestOf
    ensures s.score.left <= r.score.left && s.score.right <= r.score.right
    ensures s.gameOver ==> r.gameOver && r.score == s.score && r.ball == s.ball
  {
    if frames == [] then s
    else
      var fr := frames[0];
      Run(Tick(WithIntents(s, fr.intents), f, fr.rightWallServe, fr.leftWallServe), f, frames[1..])
  }
}
