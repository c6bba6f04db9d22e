/**
 Properties of the application's lifecycle over sequences of callbacks: a
 finished game stays finished until a reset, its score is handed over once,
 the countdown only moves forward and its origin is stamped once, a pause
 freezes everything, and the paused interval does not count towards the
 countdown.
 */
module Lifecycle {
  import opened AppTypes
  import opened Countdown
  import opened SnakeApp

  /** Position of a state along the lifecycle. */
  function Rank(s: GameState): nat {
    match s
    case Playing => 0
    case CountDown => 1
    case GameOver => 2
  }

  predicate IsReset(e: Event) {
    e.KeyPress? && e.key == ResetKey
  }

  predicate NoReset(es: seq<Event>) {
    forall i :: 0 <= i < |es| ==> !IsReset(es[i])
  }

  predicate FramesOnly(es: seq<Event>) {
    forall i :: 0 <= i < |es| ==> es[i].Frame?
  }

  /** Every frame of `es` finds the leaderboard able to rank players. */
  predicate BoardAnswers(es: seq<Event>) {
    forall i :: 0 <= i < |es| && es[i].Frame? ==> es[i].board.top != []
  }

  /** Every frame of `es` finds the leaderboard's ranking empty. */
  predicate BoardSilent(es: seq<Event>) {
    forall i :: 0 <= i < |es| && es[i].Frame? ==> es[i].board.top == []
  }

  function FrameCount(es: seq<Event>): nat {
    if es == [] then 0 else (if es[0].Frame? then 1 else 0) + FrameCount(es[1..])
  }

  /** Number of scores handed to the leaderboard. */
  function Submissions(fx: seq<Effect>): nat {
    if fx == [] then 0 else (if fx[0].AddScore? then 1 else 0) + Submissions(fx[1..])
  }

  lemma {:induction false} SubmissionsAppend(x: seq<Effect>, y: seq<Effect>)
    ensures Submissions(x + y) == Submissions(x) + Submissions(y)
    decreases |x|
  {
    if x == [] {
      assert x + y == y;
    } else {
      assert (x + y)[1..] == x[1..] + y;
      SubmissionsAppend(x[1..], y);
    }
  }

  /** Until a reset, a finished game stays finished and the engine is never stepped again. */
  lemma {:induction false} GameOverAbsorbing(a: App, es: seq<Event>)
    requires a.state == GameOver
    requires NoReset(es)
    ensures Run(a, es).app.state == GameOver
    ensures EngineStep !in Run(a, es).effects
    decreases |es|
  {
    if es != [] {
      assert !IsReset(es[0]);
      var first := Handle(a, es[0]);
      assert first.app.state == GameOver && EngineStep !in first.effects;
      GameOverAbsorbing(first.app, es[1..]);
    }
  }

  /**
   Once the game is over, its score is handed to the leaderboard on the first
   frame only, provided the leaderboard answers that frame with a ranking.
   */
  lemma {:induction false} SubmittedOnce(a: App, es: seq<Event>)
    requires a.state == GameOver
    requires NoReset(es) && BoardAnswers(es)
    ensures Submissions(Run(a, es).effects) == if a.topPlayers == [] && FrameCount(es) > 0 then 1 else 0
    decreases |es|
  {
    if es != [] {
      assert !IsReset(es[0]);
      var first := Handle(a, es[0]);
      var rest := Run(first.app, es[1..]);
      SubmissionsAppend(first.effects, rest.effects);
      SubmittedOnce(first.app, es[1..]);
      if es[0].Frame? {
        assert es[0].board.top != [];
        if a.topPlayers == [] {
          assert first.effects == [AddScore(Player(a.name, es[0].engine.score))];
          assert first.app.topPlayers != [];
        } else {
          assert first.effects == [];
        }
      } else {
        assert first.app.state == GameOver && first.app.topPlayers == a.topPlayers;
        assert Submissions(first.effects) == 0;
      }
    }
  }

  /**
   While the leaderboard answers with an empty ranking, every frame of a
   finished game hands the score over again.
   */
  lemma {:induction false} ResubmittedWhileUnranked(a: App, es: seq<Event>)
    requires a.state == GameOver && a.topPlayers == []
    requires NoReset(es) && BoardSilent(es)
    ensures Submissions(Run(a, es).effects) == FrameCount(es)
    decreases |es|
  {
    if es != [] {
      assert !IsReset(es[0]);
      var first := Handle(a, es[0]);
      var rest := Run(first.app, es[1..]);
      SubmissionsAppend(first.effects, rest.effects);
      if es[0].Frame? {
        assert es[0].board.top == [];
        assert first.effects == [AddScore(Player(a.name, es[0].engine.score))];
      } else {
        assert Submissions(first.effects) == 0;
      }
      assert first.app.state == GameOver && first.app.topPlayers == [];
      ResubmittedWhileUnranked(first.app, es[1..]);
    }
  }

  /** Without a reset, the lifecycle never moves backwards. */
  lemma {:induction false} RankMonotone(a: App, es: seq<Event>)
    requires NoReset(es)
    ensures Rank(a.state) <= Rank(Run(a, es).app.state)
    decreases |es|
  {
    if es != [] {
      assert !IsReset(es[0]);
      var first := Handle(a, es[0]);
      assert Rank(a.state) <= Rank(first.app.state);
      RankMonotone(first.app, es[1..]);
    }
  }

  /** While paused and not over, any number of frames leaves the record as it is and issues nothing. */
  lemma {:induction false} PausedRunFrozen(a: App, es: seq<Event>)
    requires a.paused && a.state != GameOver
    requires FramesOnly(es)
    ensures Run(a, es) == Outcome(a, [])
    decreases |es|
  {
    if es != [] {
      assert es[0].Frame?;
      PausedRunFrozen(a, es[1..]);
    }
  }

  /**
   Frames never move the countdown origin once the countdown has started,
   whether the snake is chopped again or not.
   */
  lemma {:induction false} CountdownOriginKept(a: App, es: seq<Event>)
    requires a.state == CountDown
    requires FramesOnly(es)
    ensures Run(a, es).app.lastIntactTime == a.lastIntactTime
    ensures Run(a, es).app.state != Playing
    decreases |es|
  {
    if es != [] {
      assert es[0].Frame?;
      var first := Handle(a, es[0]);
      if first.app.state == CountDown {
        CountdownOriginKept(first.app, es[1..]);
      } else {
        assert first.app.state == GameOver;
        GameOverAbsorbing(first.app, es[1..]);
        GameOverFramesKeepOrigin(first.app, es[1..]);
      }
    }
  }

  lemma {:induction false} GameOverFramesKeepOrigin(a: App, es: seq<Event>)
    requires a.state == GameOver
    requires FramesOnly(es)
    ensures Run(a, es).app.lastIntactTime == a.lastIntactTime
    decreases |es|
  {
    if es != [] {
      assert es[0].Frame?;
      GameOverFramesKeepOrigin(Handle(a, es[0]).app, es[1..]);
    }
  }

  /**
   The countdown is a one-way ratchet: if the snake stops being chopped, the
   game neither ends nor returns to playing, and the seconds shown stay put.
   */
  lemma {:induction false} CountdownStallsWhileIntact(a: App, es: seq<Event>)
    requires a.state == CountDown
    requires FramesOnly(es)
    requires forall i :: 0 <= i < |es| ==> !es[i].engine.chopped
    ensures Run(a, es).app.state == CountDown
    ensures Run(a, es).app.timeLeft == a.timeLeft
    ensures Run(a, es).app.lastIntactTime == a.lastIntactTime
    decreases |es|
  {
    if es != [] {
      assert es[0].Frame? && !es[0].engine.chopped;
      CountdownStallsWhileIntact(Handle(a, es[0]).app, es[1..]);
    }
  }

  /** No frame before the deadline ends a running countdown. */
  lemma {:induction false} NoGameOverBeforeDeadline(a: App, es: seq<Event>)
    requires a.state == CountDown
    requires FramesOnly(es)
    requires forall i :: 0 <= i < |es| ==> es[i].now < a.lastIntactTime + CountdownMs
    ensures Run(a, es).app.state == CountDown
    ensures Run(a, es).app.lastIntactTime == a.lastIntactTime
    decreases |es|
  {
    if es != [] {
      assert es[0].Frame? && es[0].now < a.lastIntactTime + CountdownMs;
      NoGameOverBeforeDeadline(Handle(a, es[0]).app, es[1..]);
    }
  }

  /**
   Pausing a countdown at `p` and resuming at `u` makes the countdown ignore
   the paused interval: a later chopped frame at `t` ends the game exactly when
   the unpaused time since the chop reaches the grace period.
   */
  lemma {:induction false} PausedIntervalExcluded(a: App, p: int, frames: seq<Event>, u: int,
                               t: int, engine: EngineView, board: BoardView)
    requires a.state == CountDown && !a.paused
    requires FramesOnly(frames)
    requires engine.chopped
    ensures var paused := KeyDown(a, PauseKey, p).app;
            var resumed := KeyDown(Run(paused, frames).app, PauseKey, u).app;
            var r := Update(resumed, t, engine, board).app;
            && resumed.state == CountDown
            && resumed.lastIntactTime == a.lastIntactTime + (u - p)
            && (r.state == GameOver <==> (t - a.lastIntactTime) - (u - p) >= CountdownMs)
            && r.timeLeft == TimeLeft((t - a.lastIntactTime) - (u - p))
  {
    var paused := KeyDown(a, PauseKey, p).app;
    PausedRunFrozen(paused, frames);
  }

  /** The frame that ends the countdown may still step the engine. */
  lemma StepMayAccompanyGameOver(a: App, now: int, engine: EngineView, board: BoardView)
    requires Live(a) && a.state == CountDown && engine.chopped
    requires now - a.lastIntactTime >= CountdownMs && now - a.lastTime > a.speed
    ensures Update(a, now, engine, board).app.state == GameOver
    ensures EngineStep in Update(a, now, engine, board).effects
  {
  }

  /** A reset key leaves any state, finished games included, for a fresh unpaused game. */
  lemma ResetFromAnyState(a: App, now: int)
    requires Valid(a)
    ensures var r := KeyDown(a, ResetKey, now);
            && Valid(r.app) && r.app.state == Playing && !r.app.paused
            && r.app.snakeSize == a.snakeSize && r.effects == [EngineReset]
  {
  }
}
