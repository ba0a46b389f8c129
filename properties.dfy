/** Properties of the game core that relate several steps or follow the code where intuition would not. */
module Properties {
  import opened Geometry
  import opened Game

  // ---------------- key events ----------------

  /** R zeroes the scores and the velocity and returns to the menu; pause, mute, mode, paddles and ball position stay. */
  lemma ResetPostconditions(g: State, l: Launch)
    ensures var r := OnKey(g, R, l);
      r.scoreLeft == 0 && r.scoreRight == 0 && !r.gameStarted && !r.gameOver &&
      r.ballDx == 0 && r.ballDy == 0 &&
      r.paused == g.paused && r.muted == g.muted && r.aiMode == g.aiMode &&
      r.leftPaddle == g.leftPaddle && r.rightPaddle == g.rightPaddle && r.ball == g.ball
  {
  }

  /** Reset from any state gives the same game state up to the kept fields: a second R changes nothing. */
  lemma ResetIdempotent(g: State, l: Launch, l': Launch)
    ensures OnKey(OnKey(g, R, l), R, l') == OnKey(g, R, l)
  {
  }

  /** Before the start, 1 and 2 choose the mode and change nothing else. */
  lemma ModeSelectBeforeStart(g: State, l: Launch)
    requires !g.gameStarted
    ensures OnKey(g, One, l) == g.(aiMode := true)
    ensures OnKey(g, Two, l) == g.(aiMode := false)
  {
  }

  /** SPACE before the start serves the drawn launch: the ball is centred at (WIDTH/2, HEIGHT/2) and moves horizontally; nothing else but game_started changes. */
  lemma StartServes(g: State, l: Launch)
    requires !g.gameStarted && Inv(g) && LaunchOk(l)
    ensures var r := OnKey(g, Space, l);
      r.gameStarted && Ticking(r) == !g.paused &&
      r.ball.CenterX() == WIDTH / 2 && r.ball.CenterY() == HEIGHT / 2 &&
      r.ballDx != 0 && Abs(r.ballDy) <= Abs(r.ballDx) <= BALL_SPEED &&
      r.scoreLeft == 0 && r.scoreRight == 0 &&
      r == g.(ball := r.ball, ballDx := l.dx, ballDy := l.dy, gameStarted := true)
  {
  }

  /** A key the handler does not look at (ESC, or any other) leaves the game state as it is. */
  lemma IgnoredKeyChangesNothing(g: State, l: Launch)
    ensures OnKey(g, OtherKey, l) == g
  {
  }

  /** P is an involution and changes only the pause flag, in every state. */
  lemma PauseInvolution(g: State, l: Launch, l': Launch)
    ensures OnKey(g, P, l) == g.(paused := !g.paused)
    ensures OnKey(OnKey(g, P, l), P, l') == g
  {
  }

  /** M is an involution and changes only the mute flag. */
  lemma MuteInvolution(g: State, l: Launch, l': Launch)
    ensures OnKey(g, M, l) == g.(muted := !g.muted)
    ensures OnKey(OnKey(g, M, l), M, l') == g
  {
  }

  // ---------------- human paddles ----------------

  /**
   * With one key held, the paddle moves by exactly PADDLE_SPEED when the guard on that edge
   * lets it; with both held, the down guard reads the paddle after the up step.
   */
  lemma HumanStepExact(p: Rect)
    ensures HumanStep(p, true, false) == (if p.Top() > 0 then p.MoveY(-PADDLE_SPEED) else p)
    ensures HumanStep(p, false, true) == (if p.Bottom() < HEIGHT then p.MoveY(PADDLE_SPEED) else p)
    ensures HumanStep(p, false, false) == p
    ensures HumanStep(p, true, true) ==
      if p.Top() > 0 then (if p.Bottom() - PADDLE_SPEED < HEIGHT then p else p.MoveY(-PADDLE_SPEED))
      else if p.Bottom() < HEIGHT then p.MoveY(PADDLE_SPEED) else p
  {
  }

  /** The edge guard keeps a paddle within one step of the screen, not within the screen. */
  lemma HumanStepBounds(p: Rect, up: bool, down: bool)
    requires WithinOneStep(p)
    ensures WithinOneStep(HumanStep(p, up, down))
  {
  }

  /** A paddle after n frames with only the up key held. */
  function HoldUp(p: Rect, n: nat): Rect
  {
    if n == 0 then p else HumanStep(HoldUp(p, n - 1), true, false)
  }

  /** While its top stays below the edge, a held up key moves the paddle PADDLE_SPEED per frame. */
  lemma {:induction false} HoldUpMoves(p: Rect, n: nat)
    requires p.y - PADDLE_SPEED * n > -PADDLE_SPEED
    ensures HoldUp(p, n) == p.(y := p.y - PADDLE_SPEED * n)
  {
    if n > 0 {
      HoldUpMoves(p, n - 1);
    }
  }

  /**
   * From the start, 42 frames of holding W put the left paddle's top at -2, above the
   * screen, although the edge guard is meant to keep it on screen.
   */
  lemma LeftPaddleOvershoots()
    ensures HoldUp(INITIAL.leftPaddle, 42).Top() == -2
  {
    HoldUpMoves(INITIAL.leftPaddle, 42);
  }

  // ---------------- the AI paddle ----------------

  /** The right paddle after n AI frames against a ball that does not move. */
  function AiTrack(p: Rect, ball: Rect, dx: int, n: nat): Rect
  {
    if n == 0 then p else AiStep(AiTrack(p, ball, dx, n - 1), ball, dx)
  }

  /**
   * Against a ball moving right that stands still (a paused game, say), the AI paddle's
   * centre closes in by AI_SPEED per frame until it is within AI_SPEED - 1 pixels, and
   * then stays that close, jittering across the ball's centre unless it lands on it.
   */
  lemma {:induction false} AiTrackConverges(p: Rect, ball: Rect, dx: int, n: nat)
    requires dx > 0
    ensures AiTrack(p, ball, dx, n).x == p.x && AiTrack(p, ball, dx, n).h == p.h
    ensures Abs(AiTrack(p, ball, dx, n).CenterY() - ball.CenterY())
         <= Max(Abs(p.CenterY() - ball.CenterY()) - AI_SPEED * n, AI_SPEED - 1)
  {
    if n > 0 {
      AiTrackConverges(p, ball, dx, n - 1);
      var q := AiTrack(p, ball, dx, n - 1);
      assert AiStep(q, ball, dx).CenterY() - q.CenterY() == AiStep(q, ball, dx).y - q.y;
    }
  }

  /** Once level with the ball, the AI paddle stays put. */
  lemma {:induction false} AiTrackAligned(p: Rect, ball: Rect, dx: int, n: nat)
    requires p.CenterY() == ball.CenterY()
    ensures AiTrack(p, ball, dx, n) == p
  {
    if n > 0 {
      AiTrackAligned(p, ball, dx, n - 1);
    }
  }

  /** The AI step has no edge check: a paddle at the top follows a ball above its centre off the screen. */
  lemma AiUnclamped()
    ensures AiStep(Rect(RIGHT_PADDLE_X, 0, PADDLE_WIDTH, PADDLE_HEIGHT), Rect(700, 0, BALL_SIZE, BALL_SIZE), 1).Top() < 0
  {
  }

  /**
   * The invariant does not bound the right paddle: one the AI took past the one-step bound
   * stays there when R and then 2 hand it to the second player.
   */
  lemma HandOverKeepsRightPaddle(g: State, l: Launch)
    requires Inv(g) && g.aiMode && !WithinOneStep(g.rightPaddle)
    ensures var h := OnKey(OnKey(g, R, l), Two, l);
      Inv(h) && !h.aiMode && h.rightPaddle == g.rightPaddle && !WithinOneStep(h.rightPaddle)
  {
  }

  /** The paddles move the same whether or not the game is started, paused or over. */
  lemma PaddlesMoveInEveryState(g: State, keys: Held, started: bool, paused: bool, over: bool)
    ensures var g' := g.(gameStarted := started, paused := paused, gameOver := over);
      MovePaddles(g', keys) == MovePaddles(g, keys).(gameStarted := started, paused := paused, gameOver := over)
  {
  }

  // ---------------- the tick ----------------

  /**
   * Scoring in a tick: the ball after integration, bounce and collisions decides; leaving on
   * the left credits the right player, leaving on the right credits the left player, either
   * re-centres the ball, and otherwise no score changes and the ball stays where it moved.
   */
  lemma TickScoring(g: State, l: Launch, deflect: int -> int)
    requires Inv(g) && Ticking(g)
    ensures var b := Played(g, deflect).ball; var r := Tick(g, l, deflect);
      (b.Left() <= 0 ==>
        r.scoreRight == g.scoreRight + 1 && r.scoreLeft == g.scoreLeft &&
        r.ball.CenterX() == WIDTH / 2 && r.ball.CenterY() == HEIGHT / 2 && r.ballDx == l.dx && r.ballDy == l.dy) &&
      (b.Right() >= WIDTH ==>
        r.scoreLeft == g.scoreLeft + 1 && r.scoreRight == g.scoreRight &&
        r.ball.CenterX() == WIDTH / 2 && r.ball.CenterY() == HEIGHT / 2 && r.ballDx == l.dx && r.ballDy == l.dy) &&
      (0 < b.Left() && b.Right() < WIDTH ==>
        r.scoreLeft == g.scoreLeft && r.scoreRight == g.scoreRight && r.ball == b)
  {
  }

  /** A re-served ball is clear of both side exits, so one tick never runs both exit checks' bodies. */
  lemma ServeIsClearOfExits(g: State, l: Launch)
    requires g.ball.w == BALL_SIZE
    ensures 0 < ResetBall(g, l).ball.Left() && ResetBall(g, l).ball.Right() < WIDTH
  {
  }

  /** The game ends in the tick in which a score reaches WIN_SCORE, and only then. */
  lemma TickEndsGameExactlyAtWinScore(g: State, l: Launch, deflect: int -> int)
    requires Inv(g)
    ensures var r := Tick(g, l, deflect);
      r.gameOver != g.gameOver <==> (r.scoreLeft == WIN_SCORE || r.scoreRight == WIN_SCORE) && !g.gameOver
  {
  }

  /** A tick, a key or a paddle step keeps both speeds within BALL_SPEED, given valid draws. */
  lemma FrameKeepsSpeed(g: State, f: FrameInput, deflect: int -> int)
    requires SpeedOk(g) && DeflectOk(deflect) && LaunchOk(f.launch)
    requires forall i :: 0 <= i < |f.presses| ==> LaunchOk(f.presses[i].launch)
    ensures SpeedOk(Frame(g, f, deflect))
  {
    PressesKeepSpeed(g, f.presses);
    var h := MovePaddles(ApplyPresses(g, f.presses), f.held);
    if Ticking(h) {
      var b := WallBounce(Integrate(h));
      var c := CollideWith(b, b.leftPaddle, deflect);
      assert SpeedOk(c);
      assert SpeedOk(CollideWith(c, c.rightPaddle, deflect));
    }
  }

  lemma {:induction false} PressesKeepSpeed(g: State, presses: seq<Press>)
    requires SpeedOk(g)
    requires forall i :: 0 <= i < |presses| ==> LaunchOk(presses[i].launch)
    ensures SpeedOk(ApplyPresses(g, presses))
  {
    if presses != [] {
      var n := |presses| - 1;
      assert forall i :: 0 <= i < n ==> presses[..n][i] == presses[i];
      PressesKeepSpeed(g, presses[..n]);
      OnKeyKeepsSpeed(ApplyPresses(g, presses[..n]), presses[n].key, presses[n].launch);
    }
  }

  lemma OnKeyKeepsSpeed(g: State, k: Key, l: Launch)
    requires SpeedOk(g) && LaunchOk(l)
    ensures SpeedOk(OnKey(g, k, l))
  {
  }

  // ---------------- runs from the start ----------------

  lemma InitialInv()
    ensures Inv(INITIAL) && SpeedOk(INITIAL)
    ensures INITIAL.aiMode && !INITIAL.gameStarted && !INITIAL.paused && !INITIAL.muted
  {
  }

  /**
   * Every state the main loop reaches satisfies Inv: scores within [0, WIN_SCORE], game_over exactly when
   * a score equals WIN_SCORE, the left paddle within one step of the screen.
   */
  lemma Reachable(frames: seq<FrameInput>, deflect: int -> int)
    ensures var g := Run(INITIAL, frames, deflect);
      Inv(g)
  {
    InitialInv();
  }

  /** With valid random draws and deflections, the ball never moves faster than BALL_SPEED on either axis. */
  lemma {:induction false} RunKeepsSpeed(g: State, frames: seq<FrameInput>, deflect: int -> int)
    requires SpeedOk(g) && DeflectOk(deflect)
    requires forall i :: 0 <= i < |frames| ==> FrameLaunchesOk(frames[i])
    ensures SpeedOk(Run(g, frames, deflect))
  {
    if frames != [] {
      var n := |frames| - 1;
      assert forall i :: 0 <= i < n ==> frames[..n][i] == frames[i];
      RunKeepsSpeed(g, frames[..n], deflect);
      FrameKeepsSpeed(Run(g, frames[..n], deflect), frames[n], deflect);
    }
  }

  /** All random draws of a frame lie in reset_ball's range. */
  predicate FrameLaunchesOk(f: FrameInput) {
    LaunchOk(f.launch) && forall i :: 0 <= i < |f.presses| ==> LaunchOk(f.presses[i].launch)
  }

  // ---------------- the winner ----------------

  /** At game over the side that reached WIN_SCORE is the one the banner names. */
  lemma WinnerReachedWinScore(g: State)
    requires Inv(g) && g.gameOver
    ensures var s := Winner(g.aiMode, g.scoreLeft, g.scoreRight);
      (s == "You Win!" || s == "Player 1 Wins!") <==> g.scoreLeft == WIN_SCORE
  {
  }

  // ---------------- scenarios ----------------

  /** In AI mode a ball leaving on the left gives the right player one point, re-centres the ball, and play goes on. */
  lemma ScenarioLeftExit(deflect: int -> int, l: Launch)
    ensures var g := INITIAL.(ball := Rect(4, 290, BALL_SIZE, BALL_SIZE), ballDx := -5, ballDy := 0, gameStarted := true);
      var r := Tick(g, l, deflect);
      r.scoreRight == 1 && r.scoreLeft == 0 && r.ball == Rect(390, 290, BALL_SIZE, BALL_SIZE) &&
      r.gameStarted && !r.gameOver && Ticking(r)
  {
  }

  /** Pause then reset: the menu returns, but the game is still paused. */
  lemma ScenarioPauseThenReset(g: State, l: Launch, l': Launch)
    requires Inv(g) && g.gameStarted && !g.paused
    ensures var r := OnKey(OnKey(g, P, l), R, l');
      !r.gameStarted && r.paused && r.scoreLeft == 0 && r.scoreRight == 0
  {
  }
}
