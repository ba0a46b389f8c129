/**
 * The script's globals gathered in one object, updated in place in the order the main
 * loop updates them. Each method is proved to take the object from one abstract state to
 * the one the matching function of module Game gives. The steps of the main loop
 * (HandleKey, MovePaddles, Tick, RunFrame, Play) also keep the invariant Game.Inv; the
 * helpers they call run between those steps and promise only their state change.
 */
module PongMatch {
  import opened Geometry
  import opened Game

  class Match {
    var leftPaddle: Rect
    var rightPaddle: Rect
    var ball: Rect
    var ballDx: int
    var ballDy: int
    var scoreLeft: int
    var scoreRight: int
    var gameStarted: bool
    var paused: bool
    var gameOver: bool
    var muted: bool
    var aiMode: bool

    /** The abstract game state the fields hold. */
    function Model(): State
      reads this
    {
      State(leftPaddle, rightPaddle, ball, ballDx, ballDy, scoreLeft, scoreRight,
            gameStarted, paused, gameOver, muted, aiMode)
    }

    ghost predicate Valid()
      reads this
    {
      Inv(Model())
    }

    /** The module-level initialisation of the script. */
    constructor ()
      ensures Valid()
      ensures Model() == INITIAL
    {
      leftPaddle := Rect(LEFT_PADDLE_X, HEIGHT / 2 - 50, PADDLE_WIDTH, PADDLE_HEIGHT);
      rightPaddle := Rect(RIGHT_PADDLE_X, HEIGHT / 2 - 50, PADDLE_WIDTH, PADDLE_HEIGHT);
      ball := Rect(WIDTH / 2, HEIGHT / 2, BALL_SIZE, BALL_SIZE);
      ballDx, ballDy := 0, 0;
      scoreLeft, scoreRight := 0, 0;
      gameStarted, paused, gameOver, muted, aiMode := false, false, false, false, true;
    }

    /** reset_ball, with the random launch supplied by the caller. */
    method ResetBall(launch: Launch)
      modifies this
      ensures Model() == Game.ResetBall(old(Model()), launch)
    {
      ball := ball.WithCenter(WIDTH / 2, HEIGHT / 2);
      ballDx := launch.dx;
      ballDy := launch.dy;
    }

    /** paddle_collision, with the sine deflection supplied by the caller. */
    method PaddleCollision(paddle: Rect, deflect: int -> int)
      modifies this
      ensures Model() == Game.PaddleCollision(old(Model()), paddle, deflect)
    {
      var offset := ball.CenterY() - paddle.CenterY();
      ballDx := -ballDx;
      ballDy := deflect(offset);
    }

    method ToggleMute()
      modifies this
      ensures Model() == Game.ToggleMute(old(Model()))
    {
      muted := !muted;
    }

    /** The body of the event loop for one key-down event. */
    method HandleKey(key: Key, launch: Launch)
      requires Valid()
      modifies this
      ensures Valid()
      ensures Model() == OnKey(old(Model()), key, launch)
    {
      if !gameStarted && key == One {
        aiMode := true;
      }
      if !gameStarted && key == Two {
        aiMode := false;
      }
      if key == Space && !gameStarted {
        ResetBall(launch);
        gameStarted := true;
      }
      if key == P {
        paused := !paused;
      }
      if key == R {
        scoreLeft, scoreRight := 0, 0;
        gameStarted := false;
        gameOver := false;
        ballDx, ballDy := 0, 0;
      }
      if key == M {
        ToggleMute();
      }
    }

    /** The input step: the left paddle, then the right one by the AI rule or the second player's keys. */
    method MovePaddles(keys: Held)
      requires Valid()
      modifies this
      ensures Valid()
      ensures Model() == Game.MovePaddles(old(Model()), keys)
    {
      MoveLeftPaddle(keys.w, keys.s);
      if aiMode {
        MoveAiPaddle();
      } else {
        MoveRightPaddle(keys.up, keys.down);
      }
    }

    /** The W/S keys move the left paddle, each behind its edge guard. */
    method MoveLeftPaddle(up: bool, down: bool)
      modifies this
      ensures Model() == old(Model()).(leftPaddle := HumanStep(old(leftPaddle), up, down))
    {
      if up && leftPaddle.Top() > 0 {
        leftPaddle := leftPaddle.MoveY(-PADDLE_SPEED);
      }
      if down && leftPaddle.Bottom() < HEIGHT {
        leftPaddle := leftPaddle.MoveY(PADDLE_SPEED);
      }
    }

    /** The UP/DOWN keys move the right paddle in two-player mode, each behind its edge guard. */
    method MoveRightPaddle(up: bool, down: bool)
      modifies this
      ensures Model() == old(Model()).(rightPaddle := HumanStep(old(rightPaddle), up, down))
    {
      if up && rightPaddle.Top() > 0 {
        rightPaddle := rightPaddle.MoveY(-PADDLE_SPEED);
      }
      if down && rightPaddle.Bottom() < HEIGHT {
        rightPaddle := rightPaddle.MoveY(PADDLE_SPEED);
      }
    }

    /** The AI rule moves the right paddle toward the ball while the ball moves right. */
    method MoveAiPaddle()
      modifies this
      ensures Model() == old(Model()).(rightPaddle := AiStep(old(rightPaddle), ball, ballDx))
    {
      if ballDx > 0 {
        if rightPaddle.CenterY() < ball.CenterY() {
          rightPaddle := rightPaddle.MoveY(AI_SPEED);
        } else if rightPaddle.CenterY() > ball.CenterY() {
          rightPaddle := rightPaddle.MoveY(-AI_SPEED);
        }
      }
    }

    /** The guarded game logic of a frame. */
    method Tick(launch: Launch, deflect: int -> int)
      requires Valid()
      modifies this
      ensures Valid()
      ensures Model() == Game.Tick(old(Model()), launch, deflect)
    {
      if gameStarted && !paused && !gameOver {
        MoveBall();
        CheckPaddle(leftPaddle, deflect);
        CheckPaddle(rightPaddle, deflect);
        assert Model() == Played(old(Model()), deflect);
        ghost var played := Model();
        if ball.Left() <= 0 {
          scoreRight := scoreRight + 1;
          ResetBall(launch);
        }
        ghost var afterLeft := Model();
        assert afterLeft == ScoreLeftExit(played, launch);
        if ball.Right() >= WIDTH {
          scoreLeft := scoreLeft + 1;
          ResetBall(launch);
        }
        assert Model() == ScoreRightExit(afterLeft, launch);
        if scoreLeft == WIN_SCORE || scoreRight == WIN_SCORE {
          gameOver := true;
        }
      }
    }

    /** The ball moves by its velocity and bounces off the top and bottom walls. */
    method MoveBall()
      modifies this
      ensures Model() == WallBounce(Integrate(old(Model())))
    {
      ball := ball.(x := ball.x + ballDx);
      ball := ball.(y := ball.y + ballDy);
      if ball.Top() <= 0 || ball.Bottom() >= HEIGHT {
        ballDy := -ballDy;
      }
    }

    /** `if ball.colliderect(paddle): paddle_collision(paddle)`. */
    method CheckPaddle(paddle: Rect, deflect: int -> int)
      modifies this
      ensures Model() == CollideWith(old(Model()), paddle, deflect)
    {
      if Colliderect(ball, paddle) {
        PaddleCollision(paddle, deflect);
      }
    }

    /** One pass of the main loop: every pending key-down event in order, the input step, the tick. */
    method RunFrame(frame: FrameInput, deflect: int -> int)
      requires Valid()
      modifies this
      ensures Valid()
      ensures Model() == Frame(old(Model()), frame, deflect)
    {
      var presses := frame.presses;
      for i := 0 to |presses|
        invariant Valid()
        invariant Model() == ApplyPresses(old(Model()), presses[..i])
      {
        assert presses[..i + 1][..i] == presses[..i];
        HandleKey(presses[i].key, presses[i].launch);
      }
      assert presses[..|presses|] == presses;
      MovePaddles(frame.held);
      Tick(frame.launch, deflect);
    }

    /** The main loop over the frames that come before the player quits. */
    method Play(frames: seq<FrameInput>, deflect: int -> int)
      requires Valid()
      modifies this
      ensures Valid()
      ensures Model() == Run(old(Model()), frames, deflect)
    {
      for i := 0 to |frames|
        invariant Valid()
        invariant Model() == Run(old(Model()), frames[..i], deflect)
      {
        assert frames[..i + 1][..i] == frames[..i];
        RunFrame(frames[i], deflect);
      }
      assert frames[..|frames|] == frames;
    }

    /** The game-over banner of the drawing step, read off the current state. */
    function WinnerBanner(): (s: string)
      reads this
      requires Valid() && gameOver
      ensures (s == "You Win!" || s == "Player 1 Wins!") <==> scoreLeft == WIN_SCORE
      ensures (s == "You Win!" || s == "AI Wins!") <==> aiMode
    {
      Winner(aiMode, scoreLeft, scoreRight)
    }
  }
}
