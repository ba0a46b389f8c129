# Pong game core in Dafny

This project models the game core of a single-file pygame Pong game (`pong.py`): the
key-down handler of the event loop (mode select, start, pause, reset, mute), the per-frame
paddle movement (two human paddles behind an edge guard, or a reactive AI for the right
paddle), the guarded game tick (ball integration, wall bounce, paddle collisions, scoring
with a re-serve, the win check), the helpers `reset_ball`, `paddle_collision` and
`toggle_mute`, pygame's `Rect.colliderect`, and the winner banner chosen at game over.

Layout:

- `geometry.dfy`, module `Geometry`: pygame's `Rect` as an integer value with its edges,
  centre, vertical move and re-centring, and the overlap test `Colliderect`.
- `game.dfy`, module `Game`: the constants, the state the script keeps in globals and Rects
  (`State`), and one function per step of the main loop, each with a contract stating what
  the step guarantees (`Integrate`'s is its definition, the move `x += dx, y += dy`); `Inv` is the invariant of every reachable state.
- `properties.dfy`, module `Properties`: lemmas relating several steps (involutions,
  reset, bounds reached after many frames, AI convergence, scoring, runs from the start).
- `match.dfy`, module `PongMatch`: class `Match`, whose fields are the script's globals and
  Rects and whose methods update them in place in the script's order; each method is proved
  to produce the state the matching `Game` function gives, and the steps of the main loop
  (`HandleKey`, `MovePaddles`, `Tick`, `RunFrame`, `Play`) are also proved to keep `Inv`.

Randomness and trigonometry are parameters: each `reset_ball` call takes a caller-supplied
`Launch(dx, dy)`; `LaunchOk` is a range that contains every launch the random draw can produce (a non-zero
`dx` of size at most `BALL_SPEED` and `|dy| <= |dx|`, as an angle within pi/4 gives). The
sine deflection of `paddle_collision` is a caller-supplied function `deflect` of the pixel
offset between the ball's and the paddle's centres; `DeflectOk` says it is at most
`BALL_SPEED` in size, zero at the centre and of the offset's sign. Velocities are integers.

Where a natural reading of the game's rules differs from the code, the model follows
`pong.py`:

- the edge guard checks `top > 0` / `bottom < HEIGHT` before a 6-pixel move, so a paddle can
  end 2 pixels past either edge (`Properties.LeftPaddleOvershoots`); the invariant bounds
  only the left paddle, to within one step of the screen; the right paddle keeps that bound
  under human control only when it started within it (`Properties.HumanStepBounds`), and it
  need not have: the unclamped AI (it also runs while paused) can take it far above the
  screen, and R followed by 2 hands it to the second player there
  (`Properties.HandOverKeepsRightPaddle`);
- R does not clear `paused`, `muted` or the mode, so a paused game stays paused in the menu
  (`Properties.ScenarioPauseThenReset`);
- P toggles the pause in every state, also before the start and after game over;
- the paddles move every frame whatever the game state, and the AI paddle has no edge check
  (`Properties.AiUnclamped`); against a standing ball the AI paddle closes to within
  `AI_SPEED - 1` pixels of the ball's centre line, jittering across it unless it lands on it;
- `paddle_collision` reverses `dx` without renormalising it, so only `dy` comes from the
  deflection;
- the initial ball has its top-left corner, not its centre, at mid-screen; SPACE re-centres it.

## Model

| member | source | states |
|---|---|---|
| Geometry.Rect.WithCenter | pong.py:100 | setting `ball.center` keeps the size, and the centre then reads back as the point given |
| Geometry.Rect.MoveY | pong.py:182 | `rect.y += d` keeps x and the size and moves top and bottom by exactly d |
| Geometry.CollideIffCommonPixel | pong.py:207-211 | for rectangles of positive size, `colliderect` holds exactly when they share a pixel |
| Geometry.CollideSymmetric | pong.py:207-211 | the overlap test does not depend on which rectangle asks |
| Game.ResetBall | pong.py:98-104 | the ball is re-centred at (WIDTH/2, HEIGHT/2) with its size kept, the velocity is the drawn launch, nothing else changes |
| Game.PaddleCollision | pong.py:114-120 | `dx` is reversed with its size kept, `|dy| <= BALL_SPEED`, `dy` is 0 for a central hit and has the sign of the hit's offset; nothing else changes |
| Game.ToggleMute | pong.py:126-128 | the mute flag flips and nothing else changes |
| Game.OnKey | pong.py:149-176 | a key other than 1, 2, SPACE, P, R, M changes nothing; no key moves a paddle; once started, 1, 2 and SPACE change nothing; only 1/2 before the start change the mode; only SPACE starts and only R stops; the pause changes exactly on P, the mute exactly on M; scores change only on R, to zero; the invariant is kept |
| Game.ApplyPresses | pong.py:141-176 | applying a frame's key events in order never moves a paddle and keeps the invariant |
| Game.HumanStep | pong.py:181-184 | x and size are kept; the paddle moves by 0 or exactly PADDLE_SPEED; it moves up only with the up key and its top below the edge, down only with the down key and its bottom above the edge |
| Game.AiStep | pong.py:187-192 | x and size are kept; the paddle stays exactly when the ball does not move right or the centres are level; otherwise it moves AI_SPEED toward the ball's centre |
| Game.MovePaddles | pong.py:179-197 | only the two paddles change, neither moves sideways, and the invariant is kept (the left paddle stays within one step of the screen) |
| Game.Integrate | pong.py:201-202 | only the ball changes: it moves by exactly its velocity, with its size kept |
| Game.WallBounce | pong.py:204-205 | only `dy` changes, its size is kept, it is negated when the ball touches the top or bottom edge and kept while the ball is strictly inside |
| Game.CollideWith | pong.py:207-211 | only the velocity changes; without an overlap nothing changes; with one `dx` is reversed and, for a valid deflection, `|dy| <= BALL_SPEED` |
| Game.ScoreLeftExit | pong.py:213-217 | with the ball's left edge at or past 0 the right score rises by one, the ball is re-centred and given the drawn launch, and nothing else changes; otherwise nothing changes |
| Game.ScoreRightExit | pong.py:219-223 | with the ball's right edge at or past WIDTH the left score rises by one, the ball is re-centred and given the drawn launch, and nothing else changes; otherwise nothing changes |
| Game.WinCheck | pong.py:225-226 | only game_over changes, and it is set exactly when it was already set or a score equals WIN_SCORE |
| Game.Played | pong.py:201-211 | integration, bounce and collisions leave everything but the ball and its velocity unchanged, and the ball ends where integration put it |
| Game.Tick | pong.py:200-229 | with the guard false nothing changes; paddles, start, pause, mute and mode are never changed; at most one score rises and by exactly one; the invariant (scores in [0, WIN_SCORE], game_over exactly when a score equals WIN_SCORE) is kept |
| Game.Frame | pong.py:136-229 | one pass of the main loop keeps the invariant |
| Game.Run | pong.py:135-229 | any run of frames keeps the invariant |
| Game.Winner | pong.py:251-255 | the left side is named exactly when it leads, and the AI banners are used exactly in AI mode |
| Properties.ResetPostconditions | pong.py:168-173 | R zeroes both scores and the velocity, clears game_started and game_over, and keeps pause, mute, mode, paddles and ball position |
| Properties.ResetIdempotent | pong.py:168-173 | a second R changes nothing |
| Properties.ModeSelectBeforeStart | pong.py:150-154 | before the start, 1 and 2 set the mode and change nothing else |
| Properties.StartServes | pong.py:156-158 | SPACE before the start sets game_started, centres the ball at (WIDTH/2, HEIGHT/2), gives it exactly the drawn launch (a non-zero dx within BALL_SPEED), and changes nothing else |
| Properties.IgnoredKeyChangesNothing | pong.py:145-176 | a key none of the handler's checks matches (ESC included) leaves the game state unchanged |
| Properties.PauseInvolution | pong.py:161-162 | P changes only `paused`, in every state, and twice restores it |
| Properties.MuteInvolution | pong.py:126-128 | M changes only `muted` and twice restores it |
| Properties.HumanStepExact | pong.py:181-184 | with one key held the paddle moves by exactly PADDLE_SPEED when its edge guard allows, else stays; with both held it ends where the up step and then the down guard, read on the moved paddle, put it |
| Properties.HumanStepBounds | pong.py:181-184 | a paddle whose top is above -PADDLE_SPEED and bottom below HEIGHT + PADDLE_SPEED stays so |
| Properties.HoldUpMoves | pong.py:181-182 | n frames of the up key move the paddle up n steps while its top is below the edge |
| Properties.LeftPaddleOvershoots | pong.py:181-182 | from the start, 42 frames of W put the left paddle's top at -2, off the screen |
| Properties.AiTrackConverges | pong.py:187-192 | against a standing ball moving right, the AI paddle's centre closes in by AI_SPEED per frame until within AI_SPEED - 1 pixels, and stays within that |
| Properties.AiTrackAligned | pong.py:189-192 | an AI paddle level with the ball never moves |
| Properties.AiUnclamped | pong.py:187-192 | the AI step can move the right paddle's top above the screen |
| Properties.HandOverKeepsRightPaddle | pong.py:150-154 | R then 2 hand an AI paddle to the second player where it is, so a right paddle past the one-step bound can come under human control while the invariant holds |
| Properties.PaddlesMoveInEveryState | pong.py:179-200 | the paddle step does not depend on game_started, paused or game_over |
| Properties.TickScoring | pong.py:213-223 | a left exit credits the right player, a right exit the left player, each by one with the ball re-centred and both speeds set to the drawn launch; without an exit the scores stay and the ball stays where it moved |
| Properties.ServeIsClearOfExits | pong.py:100 | a re-served ball is clear of both side exits, so the second exit check cannot fire after the first |
| Properties.TickEndsGameExactlyAtWinScore | pong.py:225-226 | a tick sets game_over exactly when the game was not over and a score reaches WIN_SCORE |
| Properties.OnKeyKeepsSpeed | pong.py:98-104 | a key event keeps both speeds within BALL_SPEED, given a draw in reset_ball's range |
| Properties.PressesKeepSpeed | pong.py:141-176 | a frame's key events keep both speeds within BALL_SPEED, given draws in reset_ball's range |
| Properties.FrameKeepsSpeed | pong.py:200-223 | a frame keeps both speeds within BALL_SPEED, given valid draws and deflections |
| Properties.RunKeepsSpeed | pong.py:135-229 | any run of frames keeps both speeds within BALL_SPEED, given valid draws and deflections |
| Properties.InitialInv | pong.py:76-91 | the initial state satisfies the invariant, in AI mode, not started, not paused, not muted |
| Properties.Reachable | pong.py:135-229 | every state reached from the start satisfies `Inv`: scores in [0, WIN_SCORE], game_over exactly when a score equals WIN_SCORE, and the left paddle within one step of the screen |
| Properties.WinnerReachedWinScore | pong.py:251-255 | at game over the banner names the left side exactly when its score is WIN_SCORE |
| Properties.ScenarioLeftExit | pong.py:213-217 | in AI mode a ball leaving on the left gives the right player one point, re-serves the ball with its top-left corner at (390, 290) and play goes on |
| Properties.ScenarioPauseThenReset | pong.py:161-171 | pause then reset returns to the menu with `paused` still true |
| PongMatch.Match.constructor | pong.py:76-91 | the fields start in the script's initial state, which satisfies the invariant |
| PongMatch.Match.ResetBall | pong.py:98-104 | the fields change as Game.ResetBall says |
| PongMatch.Match.PaddleCollision | pong.py:114-120 | the fields change as Game.PaddleCollision says |
| PongMatch.Match.ToggleMute | pong.py:126-128 | the fields change as Game.ToggleMute says |
| PongMatch.Match.HandleKey | pong.py:149-176 | the fields change as Game.OnKey says and the invariant is kept |
| PongMatch.Match.MovePaddles | pong.py:179-197 | the fields change as Game.MovePaddles says and the invariant is kept |
| PongMatch.Match.MoveLeftPaddle | pong.py:181-184 | only the left paddle changes, by Game.HumanStep |
| PongMatch.Match.MoveRightPaddle | pong.py:194-197 | only the right paddle changes, by Game.HumanStep |
| PongMatch.Match.MoveAiPaddle | pong.py:187-192 | only the right paddle changes, by Game.AiStep |
| PongMatch.Match.MoveBall | pong.py:201-205 | the ball moves and bounces as Game.Integrate and Game.WallBounce say |
| PongMatch.Match.CheckPaddle | pong.py:207-211 | a collision is resolved exactly when the ball overlaps the paddle |
| PongMatch.Match.Tick | pong.py:200-229 | the fields change as Game.Tick says and the invariant is kept |
| PongMatch.Match.RunFrame | pong.py:136-229 | the event loop over the frame's events, the input step and the tick change the fields as Game.Frame says |
| PongMatch.Match.Play | pong.py:135-229 | the main loop over a sequence of frames changes the fields as Game.Run says |
| PongMatch.Match.WinnerBanner | pong.py:251-255 | at game over the banner names the left side exactly when its score is WIN_SCORE |

## Left out

- Drawing, fonts, the display and the frame clock (pong.py:43-50, 106-112, 137-138, 231-262): presentation only.
- Sound and music: loading, playback, pause/unpause, stop and volume calls (pong.py:57-73, 121-122, 130-132, 159, 164-166, 173, 215-216, 221-222, 227-229) are calls into pygame and produce no game state; the model emits no audio commands.
- `music_duck_end` (pong.py:124) is written and never read.
- Quit and ESC (pong.py:142-147) only end the main loop, and process exit (pong.py:264-265) is outside the game core; `Match.Play` runs a given finite sequence of frames instead, and ESC is an `OtherKey` that changes no game state.
- The random draws and the trigonometry of `reset_ball` and `paddle_collision` (pong.py:101-104, 117-118) are parameters constrained by `LaunchOk` and `DeflectOk`, not computed.
- Game.PaddleCollision: a bound on the magnitude of the new `dy`, its zero at a central hit and its sign are stated, not its exact value `BALL_SPEED * sin(offset * pi / 150)`, because floating-point sine is outside the model.
- Velocities are integers: the script's float velocities and pygame's truncation of a float added to a `Rect` coordinate (pong.py:201-202) are not modelled.
- pygame's `Rect` is not part of this model's source files; its overlap test is modelled as pygame documents it (strict overlap, zero-size rectangles never collide), and its centre as `x + w / 2`, which matches pygame's integer arithmetic for the non-negative sizes used here.
- Rects are values reassigned in the `Match` fields rather than shared objects; the script never aliases its three Rects, so no aliasing is lost.
- Game.Tick: one launch is supplied per tick, used by whichever exit fires; `Properties.ServeIsClearOfExits` shows at most one of them can.
