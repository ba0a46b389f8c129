/**
 * The game core of the Pong script as values: the state the script keeps in module
 * globals and Rects, and one function per step the main loop takes (a key press, the
 * per-frame paddle movement, the guarded game tick, a whole frame, a run of frames).
 */
module Game {
  import opened Geometry

  const WIDTH := 800
  const HEIGHT := 600
  const WIN_SCORE := 5
  const PADDLE_WIDTH := 20
  const PADDLE_HEIGHT := 100
  const PADDLE_SPEED := 6
  const BALL_SIZE := 20
  const BALL_SPEED := 6
  /** The AI paddle moves 2 pixels per frame slower than a human one. */
  const AI_SPEED := PADDLE_SPEED - 2
  const LEFT_PADDLE_X := 40
  const RIGHT_PADDLE_X := WIDTH - 60

  /** The keys the event loop reacts to; every other key (ESC included) changes no game state. */
  datatype Key = One | Two | Space | P | R | M | OtherKey

  /** The velocity a call of reset_ball draws at random. */
  datatype Launch = Launch(dx: int, dy: int)

  /** A key-down event, with the launch reset_ball would draw if this key starts the game. */
  datatype Press = Press(key: Key, launch: Launch)

  /** The keys held during a frame: W and S for the left paddle, UP and DOWN for the right one. */
  datatype Held = Held(w: bool, s: bool, up: bool, down: bool)

  /** Everything one frame consumes: its key-down events, the held keys, the tick's launch. */
  datatype FrameInput = FrameInput(presses: seq<Press>, held: Held, launch: Launch)

  /** The globals of the script and its three Rects. */
  datatype State = State(
    leftPaddle: Rect, rightPaddle: Rect, ball: Rect,
    ballDx: int, ballDy: int,
    scoreLeft: int, scoreRight: int,
    gameStarted: bool, paused: bool, gameOver: bool, muted: bool, aiMode: bool)

  /** The state the script starts with: note the ball's top-left corner, not its centre, is at mid-screen. */
  const INITIAL: State := State(
    Rect(LEFT_PADDLE_X, HEIGHT / 2 - 50, PADDLE_WIDTH, PADDLE_HEIGHT),
    Rect(RIGHT_PADDLE_X, HEIGHT / 2 - 50, PADDLE_WIDTH, PADDLE_HEIGHT),
    Rect(WIDTH / 2, HEIGHT / 2, BALL_SIZE, BALL_SIZE),
    0, 0, 0, 0, false, false, false, false, true)

  /**
   * The support of reset_ball's random draw: the direction is +1 or -1 and the angle lies
   * in [-pi/4, pi/4], so dx is non-zero, at most BALL_SPEED, and |dy| <= |dx|.
   */
  predicate LaunchOk(l: Launch) {
    0 < Abs(l.dx) <= BALL_SPEED && Abs(l.dy) <= Abs(l.dx)
  }

  /**
   * What paddle_collision's `BALL_SPEED * sin(offset / 50 * pi / 3)` guarantees, as a
   * function of the pixel offset between the ball's and the paddle's centres: at most
   * BALL_SPEED in size, zero at the centre, and of the offset's sign while the angle stays
   * below pi (|offset| < 150).
   */
  ghost predicate DeflectOk(deflect: int -> int) {
    forall offset ::
      Abs(deflect(offset)) <= BALL_SPEED &&
      (offset == 0 ==> deflect(offset) == 0) &&
      (0 < offset < 3 * PADDLE_HEIGHT / 2 ==> deflect(offset) >= 0) &&
      (-3 * PADDLE_HEIGHT / 2 < offset < 0 ==> deflect(offset) <= 0)
  }

  /** A paddle the edge guard keeps within one step of the screen. */
  predicate WithinOneStep(p: Rect) {
    -PADDLE_SPEED < p.Top() && p.Bottom() < HEIGHT + PADDLE_SPEED
  }

  /** Both ball speeds are at most BALL_SPEED. */
  predicate SpeedOk(g: State) {
    Abs(g.ballDx) <= BALL_SPEED && Abs(g.ballDy) <= BALL_SPEED
  }

  /** The ball has a velocity and moves: the tick runs. */
  predicate Ticking(g: State) {
    g.gameStarted && !g.paused && !g.gameOver
  }

  /** What holds of every state the main loop reaches. */
  predicate Inv(g: State) {
    0 <= g.scoreLeft <= WIN_SCORE && 0 <= g.scoreRight <= WIN_SCORE &&
    !(g.scoreLeft == WIN_SCORE && g.scoreRight == WIN_SCORE) &&
    (g.gameOver <==> g.scoreLeft == WIN_SCORE || g.scoreRight == WIN_SCORE) &&
    (g.gameOver ==> g.gameStarted) &&
    (!g.gameStarted ==> g.scoreLeft == 0 && g.scoreRight == 0 && g.ballDx == 0 && g.ballDy == 0) &&
    g.ball.w == BALL_SIZE && g.ball.h == BALL_SIZE &&
    g.leftPaddle == Rect(LEFT_PADDLE_X, g.leftPaddle.y, PADDLE_WIDTH, PADDLE_HEIGHT) &&
    g.rightPaddle == Rect(RIGHT_PADDLE_X, g.rightPaddle.y, PADDLE_WIDTH, PADDLE_HEIGHT) &&
    WithinOneStep(g.leftPaddle)
  }

  // ---------------- helpers of the script ----------------

  /** reset_ball: re-centre the ball and give it the drawn launch velocity; nothing else changes. */
  function ResetBall(g: State, l: Launch): (r: State)
    ensures r.ball.CenterX() == WIDTH / 2 && r.ball.CenterY() == HEIGHT / 2
    ensures r.ball.w == g.ball.w && r.ball.h == g.ball.h
    ensures r == g.(ball := r.ball, ballDx := l.dx, ballDy := l.dy)
  {
    g.(ball := g.ball.WithCenter(WIDTH / 2, HEIGHT / 2), ballDx := l.dx, ballDy := l.dy)
  }

  /**
   * paddle_collision: the horizontal speed is reversed with its size kept, and the vertical
   * speed is the deflection of where the ball struck, so a hit above the paddle's centre
   * never sends the ball down and a hit below it never sends it up.
   */
  function PaddleCollision(g: State, paddle: Rect, deflect: int -> int): (r: State)
    ensures r == g.(ballDx := -g.ballDx, ballDy := r.ballDy)
    ensures DeflectOk(deflect) ==> Abs(r.ballDy) <= BALL_SPEED
    ensures DeflectOk(deflect) && g.ball.CenterY() == paddle.CenterY() ==> r.ballDy == 0
    ensures DeflectOk(deflect) && paddle.CenterY() - 3 * PADDLE_HEIGHT / 2 < g.ball.CenterY() < paddle.CenterY()
      ==> r.ballDy <= 0
    ensures DeflectOk(deflect) && paddle.CenterY() < g.ball.CenterY() < paddle.CenterY() + 3 * PADDLE_HEIGHT / 2
      ==> r.ballDy >= 0
  {
    g.(ballDx := -g.ballDx, ballDy := deflect(g.ball.CenterY() - paddle.CenterY()))
  }

  /** toggle_mute: flips the mute flag and nothing else. */
  function ToggleMute(g: State): (r: State)
    ensures r.muted != g.muted
    ensures r == g.(muted := r.muted)
  {
    g.(muted := !g.muted)
  }

  // ---------------- the key-down handler ----------------

  /**
   * One key-down event of the event loop. The mode keys and SPACE act only before the
   * game has started; P toggles the pause in every state; R returns to the menu without
   * touching the pause, the mute, the mode, the paddles or the ball's position; M toggles
   * the mute. Any other key changes nothing, and no key moves a paddle.
   */
  function OnKey(g: State, k: Key, l: Launch): (r: State)
    ensures r.leftPaddle == g.leftPaddle && r.rightPaddle == g.rightPaddle
    ensures k == OtherKey ==> r == g
    ensures g.gameStarted && (k == One || k == Two || k == Space) ==> r == g
    ensures r.aiMode != g.aiMode ==> !g.gameStarted && (k == One || k == Two)
    ensures r.gameStarted != g.gameStarted ==> (k == Space && r.gameStarted) || (k == R && !r.gameStarted)
    ensures r.paused != g.paused <==> k == P
    ensures r.muted != g.muted <==> k == M
    ensures r.scoreLeft != g.scoreLeft || r.scoreRight != g.scoreRight ==> k == R && r.scoreLeft == r.scoreRight == 0
    ensures Inv(g) ==> Inv(r)
  {
    match k
    case One => if !g.gameStarted then g.(aiMode := true) else g
    case Two => if !g.gameStarted then g.(aiMode := false) else g
    case Space => if !g.gameStarted then ResetBall(g, l).(gameStarted := true) else g
    case P => g.(paused := !g.paused)
    case R => g.(scoreLeft := 0, scoreRight := 0, gameStarted := false, gameOver := false, ballDx := 0, ballDy := 0)
    case M => ToggleMute(g)
    case OtherKey => g
  }

  /** The event loop of one frame: the presses applied in order. */
  function ApplyPresses(g: State, presses: seq<Press>): (r: State)
    ensures r.leftPaddle == g.leftPaddle && r.rightPaddle == g.rightPaddle
    ensures Inv(g) ==> Inv(r)
    decreases |presses|
  {
    if presses == [] then g
    else
      var last := presses[|presses| - 1];
      OnKey(ApplyPresses(g, presses[..|presses| - 1]), last.key, last.launch)
  }

  // ---------------- per-frame paddle movement ----------------

  /**
   * A human paddle for one frame: up by PADDLE_SPEED if the up key is held and the top is
   * below the screen's top edge, then down by PADDLE_SPEED if the down key is held and the
   * (possibly moved) bottom is above the bottom edge.
   */
  function HumanStep(p: Rect, up: bool, down: bool): (r: Rect)
    ensures r.x == p.x && r.w == p.w && r.h == p.h
    ensures r.y == p.y - PADDLE_SPEED || r.y == p.y || r.y == p.y + PADDLE_SPEED
    ensures r.y < p.y ==> up && p.Top() > 0
    ensures r.y > p.y ==> down && p.Bottom() < HEIGHT
  {
    var q := if up && p.Top() > 0 then p.MoveY(-PADDLE_SPEED) else p;
    if down && q.Bottom() < HEIGHT then q.MoveY(PADDLE_SPEED) else q
  }

  /**
   * The AI rule for the right paddle: while the ball moves right, one AI_SPEED step toward
   * the ball's centre line, with no edge check; no move when the centres are level or the
   * ball moves left or stands.
   */
  function AiStep(p: Rect, ball: Rect, dx: int): (r: Rect)
    ensures r.x == p.x && r.w == p.w && r.h == p.h
    ensures r.y == p.y <==> dx <= 0 || p.CenterY() == ball.CenterY()
    ensures r.y > p.y ==> r.y == p.y + AI_SPEED && p.CenterY() < ball.CenterY()
    ensures r.y < p.y ==> r.y == p.y - AI_SPEED && p.CenterY() > ball.CenterY()
  {
    if dx > 0 then
      if p.CenterY() < ball.CenterY() then p.MoveY(AI_SPEED)
      else if p.CenterY() > ball.CenterY() then p.MoveY(-AI_SPEED)
      else p
    else p
  }

  /** The input step of a frame: it runs whatever the game state and moves only the paddles. */
  function MovePaddles(g: State, keys: Held): (r: State)
    ensures r == g.(leftPaddle := r.leftPaddle, rightPaddle := r.rightPaddle)
    ensures r.leftPaddle.x == g.leftPaddle.x && r.rightPaddle.x == g.rightPaddle.x
    ensures Inv(g) ==> Inv(r)
  {
    var left := HumanStep(g.leftPaddle, keys.w, keys.s);
    var right :=
      if g.aiMode then AiStep(g.rightPaddle, g.ball, g.ballDx)
      else HumanStep(g.rightPaddle, keys.up, keys.down);
    g.(leftPaddle := left, rightPaddle := right)
  }

  // ---------------- the guarded game tick ----------------

  /** `ball.x += ball_dx; ball.y += ball_dy`. */
  function Integrate(g: State): (r: State)
    ensures r == g.(ball := r.ball)
    ensures r.ball == Rect(g.ball.x + g.ballDx, g.ball.y + g.ballDy, g.ball.w, g.ball.h)
  {
    g.(ball := g.ball.(x := g.ball.x + g.ballDx, y := g.ball.y + g.ballDy))
  }

  /** The wall bounce: at the top or bottom edge the vertical speed is negated; only it changes. */
  function WallBounce(g: State): (r: State)
    ensures r == g.(ballDy := r.ballDy)
    ensures Abs(r.ballDy) == Abs(g.ballDy)
    ensures g.ball.Top() <= 0 || g.ball.Bottom() >= HEIGHT ==> r.ballDy == -g.ballDy
    ensures 0 < g.ball.Top() && g.ball.Bottom() < HEIGHT ==> r.ballDy == g.ballDy
  {
    if g.ball.Top() <= 0 || g.ball.Bottom() >= HEIGHT then g.(ballDy := -g.ballDy) else g
  }

  /** A paddle collision, taken only when the ball overlaps the paddle. */
  function CollideWith(g: State, paddle: Rect, deflect: int -> int): (r: State)
    ensures r == g.(ballDx := r.ballDx, ballDy := r.ballDy)
    ensures !Colliderect(g.ball, paddle) ==> r == g
    ensures Colliderect(g.ball, paddle) ==> r.ballDx == -g.ballDx
    ensures Colliderect(g.ball, paddle) && DeflectOk(deflect) ==> Abs(r.ballDy) <= BALL_SPEED
  {
    if Colliderect(g.ball, paddle) then PaddleCollision(g, paddle, deflect) else g
  }

  /** The left exit: `ball.left <= 0` credits the right player and re-serves. */
  function ScoreLeftExit(g: State, l: Launch): (r: State)
    ensures g.ball.Left() <= 0 ==>
      r.scoreRight == g.scoreRight + 1 && r.scoreLeft == g.scoreLeft &&
      r.ball.CenterX() == WIDTH / 2 && r.ball.CenterY() == HEIGHT / 2 &&
      r == g.(ball := r.ball, scoreRight := g.scoreRight + 1, ballDx := l.dx, ballDy := l.dy)
    ensures g.ball.Left() > 0 ==> r == g
  {
    if g.ball.Left() <= 0 then ResetBall(g.(scoreRight := g.scoreRight + 1), l) else g
  }

  /** The right exit: `ball.right >= WIDTH` credits the left player and re-serves. */
  function ScoreRightExit(g: State, l: Launch): (r: State)
    ensures g.ball.Right() >= WIDTH ==>
      r.scoreLeft == g.scoreLeft + 1 && r.scoreRight == g.scoreRight &&
      r.ball.CenterX() == WIDTH / 2 && r.ball.CenterY() == HEIGHT / 2 &&
      r == g.(ball := r.ball, scoreLeft := g.scoreLeft + 1, ballDx := l.dx, ballDy := l.dy)
    ensures g.ball.Right() < WIDTH ==> r == g
  {
    if g.ball.Right() >= WIDTH then ResetBall(g.(scoreLeft := g.scoreLeft + 1), l) else g
  }

  /** The win check: a score equal to WIN_SCORE ends the game. */
  function WinCheck(g: State): (r: State)
    ensures r == g.(gameOver := r.gameOver)
    ensures r.gameOver <==> g.gameOver || g.scoreLeft == WIN_SCORE || g.scoreRight == WIN_SCORE
  {
    if g.scoreLeft == WIN_SCORE || g.scoreRight == WIN_SCORE then g.(gameOver := true) else g
  }

  /** The ball after integration, the wall bounce and both paddle collisions. */
  function Played(g: State, deflect: int -> int): (r: State)
    ensures r.ball == Integrate(g).ball
    ensures r == g.(ball := r.ball, ballDx := r.ballDx, ballDy := r.ballDy)
  {
    var bounced := WallBounce(Integrate(g));
    var hitLeft := CollideWith(bounced, bounced.leftPaddle, deflect);
    CollideWith(hitLeft, hitLeft.rightPaddle, deflect)
  }

  /**
   * The game logic of a frame, guarded by `game_started and not paused and not game_over`:
   * when the guard is false nothing changes; otherwise the paddles, the flags other than
   * game_over and the mode are kept, at most one score rises and by exactly one, and the
   * invariant is preserved.
   */
  function Tick(g: State, l: Launch, deflect: int -> int): (r: State)
    ensures !Ticking(g) ==> r == g
    ensures r.leftPaddle == g.leftPaddle && r.rightPaddle == g.rightPaddle
    ensures r.gameStarted == g.gameStarted && r.paused == g.paused && r.muted == g.muted && r.aiMode == g.aiMode
    ensures Inv(g) ==>
      (r.scoreLeft == g.scoreLeft && r.scoreRight == g.scoreRight) ||
      (r.scoreLeft == g.scoreLeft + 1 && r.scoreRight == g.scoreRight) ||
      (r.scoreLeft == g.scoreLeft && r.scoreRight == g.scoreRight + 1)
    ensures Inv(g) ==> Inv(r)
  {
    if Ticking(g) then WinCheck(ScoreRightExit(ScoreLeftExit(Played(g, deflect), l), l))
    else g
  }

  // ---------------- frames and runs ----------------

  /** One pass of `while running`: the events, then the paddles, then the guarded tick. */
  function Frame(g: State, f: FrameInput, deflect: int -> int): (r: State)
    ensures Inv(g) ==> Inv(r)
  {
    Tick(MovePaddles(ApplyPresses(g, f.presses), f.held), f.launch, deflect)
  }

  /** A run of frames, in order. */
  function Run(g: State, frames: seq<FrameInput>, deflect: int -> int): (r: State)
    ensures Inv(g) ==> Inv(r)
    decreases |frames|
  {
    if frames == [] then g
    else Frame(Run(g, frames[..|frames| - 1], deflect), frames[|frames| - 1], deflect)
  }

  // ---------------- the winner banner ----------------

  /** The game-over banner: the left side is named the winner exactly when it is ahead. */
  function Winner(aiMode: bool, scoreLeft: int, scoreRight: int): (s: string)
    ensures (s == "You Win!" || s == "Player 1 Wins!") <==> scoreLeft > scoreRight
    ensures (s == "You Win!" || s == "AI Wins!") <==> aiMode
    ensures s == "You Win!" || s == "AI Wins!" || s == "Player 1 Wins!" || s == "Player 2 Wins!"
  {
    if aiMode then (if scoreLeft > scoreRight then "You Win!" else "AI Wins!")
    else (if scoreLeft > scoreRight then "Player 1 Wins!" else "Player 2 Wins!")
  }
}
