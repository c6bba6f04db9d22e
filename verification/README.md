# Snake application lifecycle, in Dafny

This project models the game-lifecycle layer of a Cinder snake game. `SnakeApp` drives an engine and a leaderboard through one frame callback and three input handlers. The lifecycle has three states: playing, counting down after the snake has been chopped, and game over.

The model is a pure transition system over an immutable record, `AppTypes.App`. That record holds:

- the lifecycle state;
- the pause flag;
- the three time points: countdown origin, pause start and last engine step;
- the published seconds left, as an unsigned machine word;
- the largest snake size seen so far;
- the two rankings the leaderboard returned.

Wall-clock time is an integer count of milliseconds, passed into every callback. The clock is not assumed to be monotonic.

The engine and the leaderboard are not modelled as code:

- What the engine reports at the start of a frame becomes an input, `EngineView`. It carries three values: whether the snake is chopped, its size and the score. They are read before that frame's step, as in the source.
- What the leaderboard's two ranked queries answer becomes an input too, `BoardView`.
- Everything the application asks of its collaborators is returned as an ordered list of `Effect` commands. These are: step the engine, set a direction, reset the engine, add a score, and play the eating sound.

Modules:

- `AppTypes` (app_types.dfy): the state, the record, the observations, the commands and the constants. The countdown lasts 10 s.
- `Countdown` (countdown.dfy): the whole seconds left, truncated toward zero, capped at nine and wrapped into the unsigned word.
- `SnakeApp` (snake_app.dfy): `Update` (the frame callback), `KeyDown`, `MouseDown`, `MouseWheel`, `ResetGame`, the key table, and `Run`, which replays a sequence of callbacks.
- `Lifecycle` (lifecycle.dfy): properties over sequences of callbacks.

Behaviour the model reproduces as the code has it:

- The countdown is a one-way ratchet. When the engine stops reporting a chop, the state stays in the countdown and the seconds shown freeze. The game then never ends by itself.
- The countdown origin is stamped only on the frame that enters the countdown. A later re-chop does not move it.
- The frame that ends the countdown can still step the engine.
- A reset keeps the largest snake size seen and all three time points.
- Pausing and resuming also work in the playing and game-over states. Resuming always moves the countdown origin, even when no countdown is running.
- After the game is over, the score is submitted on every frame until the leaderboard answers with a non-empty ranking. The source only guards this with a debug assertion.

Where the lifecycle logic lives:

- The countdown lives in the application's frame callback, measured in wall-clock milliseconds. It is not part of an engine tick.
- The chop flag is sampled before the frame's engine step, not after it.
- Pause is a field of the application. A paused frame of an unfinished game does nothing. A finished game still submits its score while paused, because the game-over test comes before the pause test.

## Model

| member | source | states |
|---|---|---|
| Countdown.TruncSeconds | apps/snake_app.cc:164-165 | The whole seconds of a duration rounded toward zero: for a non-negative duration the largest whole second not above it, for a negative one the smallest not below it. |
| Countdown.ToWord | apps/snake_app.cc:166-167 | The conversion to the unsigned word: values already in range are kept, and negative values within one word of zero wrap to value plus 2^64. |
| Countdown.TimeLeft | apps/snake_app.cc:164-167 | Seconds left shown for a given elapsed countdown time. Before the deadline it is the whole seconds still to go, capped at 9. In the first second after the deadline it is 0. Later it wraps to 2^64 minus the whole seconds of overshoot. It is below 10 exactly when less than 11 s have elapsed. |
| SnakeApp.Init | apps/snake_app.cc:68-86 | A freshly built application is playing, unpaused, has snake size 1, and satisfies the lifecycle invariant. |
| SnakeApp.Update | apps/snake_app.cc:98-174 | The frame callback. A finished game stays finished and is never stepped. It submits the score exactly when no ranking is held; that frame stores the leaderboard's answer and changes nothing else. A paused game is left unchanged and issues nothing. Otherwise, the engine is stepped exactly when more than `speed` ms have passed since the last step, and then `lastTime` becomes now. The remembered snake size becomes the maximum of old and reported size, and the eating sound plays exactly when it grew. A live frame issues nothing but at most one sound followed by at most one step. A chopped frame enters or stays in the countdown. It stamps the origin only on entry, ends the game exactly when at least 10 s have elapsed since the origin, and publishes `TimeLeft` of the elapsed time. An unchopped frame leaves the state, origin and seconds shown untouched. The lifecycle invariant is preserved. |
| SnakeApp.ResetGame | apps/snake_app.cc:363-371 | From any state: the engine is reset and the game is playing, unpaused, with 0 seconds shown and both rankings cleared. The snake size and the time points are kept, and the invariant holds. |
| SnakeApp.KeysFor | apps/snake_app.cc:303-326 | Each direction is requested by exactly three keys, none of which is the pause or reset key. |
| SnakeApp.KeyDirection | apps/snake_app.cc:301-326 | A key requests a direction exactly when it is one of that direction's three keys: Up/k/w turn Left, Down/j/s turn Right, Left/h/a turn Up, Right/l/d turn Down. |
| SnakeApp.KeyDown | apps/snake_app.cc:301-342 | Steering keys issue exactly one direction command and change nothing. `p` toggles the pause: pausing stamps the pause start, and resuming moves the countdown origin forward by the paused interval. `r` is `ResetGame`, and it is the only key that resets the engine. Every other key does nothing. The invariant is preserved. |
| SnakeApp.MouseDown | apps/snake_app.cc:344-352 | The left button steers Up; otherwise the right button steers Down; with neither button, nothing happens. At most one command is issued and the record is unchanged. |
| SnakeApp.MouseWheel | apps/snake_app.cc:354-361 | A positive wheel increment steers Right, a negative one steers Left, and zero does nothing. The record is unchanged. |
| SnakeApp.Handle | apps/snake_app.h:29-35 | Any single callback preserves the lifecycle invariant, the name and speed, and never shrinks the remembered snake size. |
| SnakeApp.Run | apps/snake_app.cc:143-149 | Over any sequence of callbacks, the lifecycle invariant holds throughout and the remembered snake size never decreases. |
| Lifecycle.GameOverAbsorbing | apps/snake_app.cc:99-113 | Without a reset, a finished game stays finished and the engine is never stepped again. |
| Lifecycle.SubmittedOnce | apps/snake_app.cc:99-111 | Without a reset, and with the leaderboard answering each frame with a ranking, a finished game submits its score exactly once if it held no ranking and a frame arrives, and otherwise never. |
| Lifecycle.ResubmittedWhileUnranked | apps/snake_app.cc:100-103 | While the leaderboard answers with an empty ranking, every frame of a finished game submits the score again. |
| Lifecycle.RankMonotone | apps/snake_app.cc:151-161 | Without a reset, the lifecycle only moves forward: playing, then countdown, then game over. |
| Lifecycle.PausedRunFrozen | apps/snake_app.cc:115 | Any number of frames while paused and not over leaves the record unchanged and issues no command. |
| Lifecycle.CountdownOriginKept | apps/snake_app.cc:151-155 | Once the countdown has started, no frame moves its origin, and the game never returns to playing. |
| Lifecycle.GameOverFramesKeepOrigin | apps/snake_app.cc:99-113 | Frames of a finished game leave the countdown origin alone. |
| Lifecycle.CountdownStallsWhileIntact | apps/snake_app.cc:151-168 | When the engine stops reporting a chop, the countdown neither ends nor resets, and the seconds shown and the origin stay put. |
| Lifecycle.NoGameOverBeforeDeadline | apps/snake_app.cc:158-161 | No frame before origin plus 10 s ends a running countdown. |
| Lifecycle.PausedIntervalExcluded | apps/snake_app.cc:327-335 | Pause at `p`, any frames, resume at `u`, then a chopped frame at `t`. The origin has moved by `u - p`. The game ends exactly when `(t - origin) - (u - p)` reaches 10 s, and the seconds shown are `TimeLeft` of that unpaused time. |
| Lifecycle.StepMayAccompanyGameOver | apps/snake_app.cc:159-173 | The frame that ends the countdown still steps the engine when the cadence is due. |
| Lifecycle.ResetFromAnyState | apps/snake_app.cc:337-340 | The reset key leads from any valid state, game over included, to a valid, unpaused, playing record, and resets the engine. |

## Left out

- Rendering is left out: `draw`, the background, snake, food, countdown and game-over drawing, and text printing. It is presentation through the graphics library. `printed_game_over_` is read only by the drawing code, so it is not part of the record. The model drops the write to it in `ResetGame`.
- Audio setup and playback are left out. Only the growth test is kept, as the `EatSound` command.
- Food and snake colour cycling is left out, because it uses `rand()` and floating point.
- `PercentageOver` is left out, because it is floating-point arithmetic.
- Command-line flags are left out. `speed` and the player name are fixed fields of the record, set by `Init`; grid and tile size play no part in the lifecycle.
- The leaderboard and its SQLite store are not part of this model. A submission is an `AddScore` command, and what its ranked queries return is a frame input.
- The engine, snake, food and grid location are not part of this model. Their queries are a frame input, and `Step`, `SetDirection` and `Reset` are commands.
- Keys are the numeric codes the key event reports. Letters are their lower-case character codes. The arrow keys are given the graphics library's codes 273 to 276; that key table is not part of this model.
- SnakeApp.MouseWheel: the wheel increment is a float in the source. Only its sign matters, so it is an integer here.
- SnakeApp.Update: time is whole milliseconds. The source's clock may be finer, which can move a countdown boundary by under a millisecond. The C++ duration arithmetic's 64-bit overflow is not modelled.
- Countdown.TimeLeft: the wrapped values are stated only for overshoots below 2^64 seconds. The iff with 11 s is stated only for elapsed times below 2^64 ms.
