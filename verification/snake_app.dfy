/**
 The snake application's frame callback and input handlers as pure
 transitions of the lifecycle record.

 A frame reads the engine (chopped?, size, score) before it steps it, runs the
 chop countdown, and steps the engine when more than `speed` milliseconds have
 passed since the previous step. Keys and mouse events steer the engine, toggle
 the pause, or reset the game. Once a game is over the frame callback does
 nothing but hand the final score to the leaderboard while it has no ranking
 to show.
 */
module SnakeApp {
  import opened AppTypes
  import opened Countdown

  /**
   A key as the code the key event reports. Letter keys report the code of
   their lower-case character; the arrow keys have codes of their own.
   */
  type Key = nat

  const ArrowUp: Key := 273
  const ArrowDown: Key := 274
  const ArrowRight: Key := 275
  const ArrowLeft: Key := 276

  /** The code of the letter key `c`. */
  function Letter(c: char): Key {
    c as nat
  }

  /** One callback delivered to the application. */
  datatype Event =
    | Frame(now: int, engine: EngineView, board: BoardView)
    | KeyPress(key: Key, at: int)
    | MouseClick(leftDown: bool, rightDown: bool)
    | Wheel(increment: int)

  const PauseKey: Key := Letter('p')
  const ResetKey: Key := Letter('r')

  /** Facts every record reachable from `Init` satisfies. */
  ghost predicate Valid(a: App) {
    && a.snakeSize >= 1
    && (a.state == Playing ==> a.timeLeft == 0)
    && (a.state == CountDown ==> a.timeLeft < CountdownSeconds)
    && (a.topPlayers != [] || a.yourTopScores != [] ==> a.state == GameOver)
  }

  /** A frame that does real work: the game is not over and not paused. */
  predicate Live(a: App) {
    a.state != GameOver && !a.paused
  }

  /** The record of a freshly built application; its time points all sit at the clock's epoch. */
  function Init(name: string, speed: nat): (a: App)
    ensures Valid(a)
    ensures a.state == Playing && !a.paused && a.snakeSize == 1
    ensures a.name == name && a.speed == speed
  {
    App(name, speed, Playing, false, 0, 0, 0, 0, 1, [], [])
  }

  /** Countdown bookkeeping of a frame in which the engine reports a chopped snake. */
  function Chop(a: App, now: int): App {
    var start := if a.state == CountDown then a.lastIntactTime else now;
    var elapsed := now - start;
    a.(state := if elapsed >= CountdownMs then GameOver else CountDown,
       lastIntactTime := start,
       timeLeft := TimeLeft(elapsed))
  }

  /** The frame callback, at time `now`, given what the engine and the leaderboard report. */
  function Update(a: App, now: int, engine: EngineView, board: BoardView): (r: Outcome)
    ensures Valid(a) ==> Valid(r.app)
    ensures r.app.name == a.name && r.app.speed == a.speed
    ensures r.app.snakeSize >= a.snakeSize
    // a finished game stays finished, is never stepped, and is scored while no ranking is shown
    ensures a.state == GameOver ==> r.app.state == GameOver && EngineStep !in r.effects
    ensures a.state == GameOver ==>
      (AddScore(Player(a.name, engine.score)) in r.effects <==> a.topPlayers == [])
    ensures a.state == GameOver && a.topPlayers != [] ==> r == Outcome(a, [])
    ensures a.state == GameOver && a.topPlayers == [] ==>
      r == Outcome(a.(topPlayers := board.top, yourTopScores := board.yours),
                   [AddScore(Player(a.name, engine.score))])
    // a paused game is frozen
    ensures a.state != GameOver && a.paused ==> r == Outcome(a, [])
    // engine cadence and growth
    ensures Live(a) ==> (EngineStep in r.effects <==> now - a.lastTime > a.speed)
    ensures Live(a) && now - a.lastTime > a.speed ==> r.app.lastTime == now
    ensures Live(a) && now - a.lastTime <= a.speed ==> r.app.lastTime == a.lastTime
    ensures Live(a) ==> r.app.snakeSize >= engine.size
    ensures Live(a) ==> r.app.snakeSize == a.snakeSize || r.app.snakeSize == engine.size
    ensures Live(a) ==> (EatSound in r.effects <==> engine.size > a.snakeSize)
    ensures Live(a) ==>
      r.effects == (if engine.size > a.snakeSize then [EatSound] else [])
                   + (if now - a.lastTime > a.speed then [EngineStep] else [])
    ensures Live(a) ==>
      && r.app.paused == a.paused && r.app.lastPauseTime == a.lastPauseTime
      && r.app.topPlayers == a.topPlayers && r.app.yourTopScores == a.yourTopScores
    // chop countdown
    ensures Live(a) && !engine.chopped ==>
      r.app.state == a.state && r.app.lastIntactTime == a.lastIntactTime && r.app.timeLeft == a.timeLeft
    ensures Live(a) && engine.chopped ==> r.app.state != Playing
    ensures Live(a) && engine.chopped && a.state == CountDown ==> r.app.lastIntactTime == a.lastIntactTime
    ensures Live(a) && engine.chopped && a.state == Playing ==> r.app.lastIntactTime == now
    ensures Live(a) && engine.chopped ==>
      (r.app.state == GameOver <==> now - r.app.lastIntactTime >= CountdownMs)
    ensures Live(a) && engine.chopped ==> r.app.timeLeft == TimeLeft(now - r.app.lastIntactTime)
  {
    if a.state == GameOver then
      if a.topPlayers == [] then
        Outcome(a.(topPlayers := board.top, yourTopScores := board.yours),
                [AddScore(Player(a.name, engine.score))])
      else
        Outcome(a, [])
    else if a.paused then
      Outcome(a, [])
    else
      var grew := engine.size > a.snakeSize;
      var a1 := if grew then a.(snakeSize := engine.size) else a;
      var a2 := if engine.chopped then Chop(a1, now) else a1;
      var stepped := now - a2.lastTime > a2.speed;
      var a3 := if stepped then a2.(lastTime := now) else a2;
      Outcome(a3, (if grew then [EatSound] else []) + (if stepped then [EngineStep] else []))
  }

  /**
   Starts a new game: the engine is reset and the record returns to playing,
   unpaused, with no countdown and no ranking. The largest snake size seen and
   the time points are kept.
   */
  function ResetGame(a: App): (r: Outcome)
    ensures a.snakeSize >= 1 ==> Valid(r.app)
    ensures r.effects == [EngineReset]
    ensures r.app.state == Playing && !r.app.paused && r.app.timeLeft == 0
    ensures r.app.topPlayers == [] && r.app.yourTopScores == []
    ensures r.app.snakeSize == a.snakeSize
    ensures r.app.lastIntactTime == a.lastIntactTime && r.app.lastPauseTime == a.lastPauseTime
    ensures r.app.lastTime == a.lastTime
    ensures r.app.name == a.name && r.app.speed == a.speed
  {
    Outcome(a.(paused := false, state := Playing, timeLeft := 0, topPlayers := [], yourTopScores := []),
            [EngineReset])
  }

  /** The keys that steer the snake towards `d`: an arrow key and two letters each. */
  function KeysFor(d: Direction): (ks: set<Key>)
    ensures |ks| == 3
    ensures PauseKey !in ks && ResetKey !in ks
  {
    match d
    case Left => {ArrowUp, Letter('k'), Letter('w')}
    case Right => {ArrowDown, Letter('j'), Letter('s')}
    case Up => {ArrowLeft, Letter('h'), Letter('a')}
    case Down => {ArrowRight, Letter('l'), Letter('d')}
  }

  /** The heading a key requests, if it is a steering key. */
  function KeyDirection(k: Key): (r: Option<Direction>)
    ensures forall d :: r == Some(d) <==> k in KeysFor(d)
  {
    if k == ArrowUp || k == Letter('k') || k == Letter('w') then Some(Left)
    else if k == ArrowDown || k == Letter('j') || k == Letter('s') then Some(Right)
    else if k == ArrowLeft || k == Letter('h') || k == Letter('a') then Some(Up)
    else if k == ArrowRight || k == Letter('l') || k == Letter('d') then Some(Down)
    else None
  }

  /**
   The key handler at time `now`. Steering keys only command the engine; the
   pause key toggles the pause, stamping the pause start when pausing and
   moving the countdown origin forward by the paused interval when resuming;
   the reset key starts a new game; every other key does nothing.
   */
  function KeyDown(a: App, k: Key, now: int): (r: Outcome)
    ensures Valid(a) ==> Valid(r.app)
    ensures r.app.name == a.name && r.app.speed == a.speed
    ensures r.app.snakeSize == a.snakeSize
    ensures KeyDirection(k).Some? ==> r == Outcome(a, [SetDirection(KeyDirection(k).value)])
    ensures k == PauseKey ==> r.effects == [] && r.app.paused == !a.paused
    ensures k == PauseKey && !a.paused ==> r.app == a.(paused := true, lastPauseTime := now)
    ensures k == PauseKey && a.paused ==>
      r.app == a.(paused := false, lastIntactTime := a.lastIntactTime + (now - a.lastPauseTime))
    ensures k == ResetKey ==> r == ResetGame(a)
    ensures EngineReset in r.effects <==> k == ResetKey
    ensures KeyDirection(k).None? && k != PauseKey && k != ResetKey ==> r == Outcome(a, [])
  {
    match KeyDirection(k)
    case Some(d) => Outcome(a, [SetDirection(d)])
    case None =>
      if k == PauseKey then
        if !a.paused then Outcome(a.(paused := true, lastPauseTime := now), [])
        else Outcome(a.(paused := false, lastIntactTime := a.lastIntactTime + (now - a.lastPauseTime)), [])
      else if k == ResetKey then ResetGame(a)
      else Outcome(a, [])
  }

  /** The mouse-button handler: the left button steers up, otherwise the right button steers down. */
  function MouseDown(a: App, leftDown: bool, rightDown: bool): (r: Outcome)
    ensures r.app == a
    ensures |r.effects| <= 1
    ensures leftDown ==> r.effects == [SetDirection(Up)]
    ensures !leftDown && rightDown ==> r.effects == [SetDirection(Down)]
    ensures !leftDown && !rightDown ==> r.effects == []
  {
    if leftDown then Outcome(a, [SetDirection(Up)])
    else if rightDown then Outcome(a, [SetDirection(Down)])
    else Outcome(a, [])
  }

  /** The wheel handler: only the sign of the increment matters. */
  function MouseWheel(a: App, increment: int): (r: Outcome)
    ensures r.app == a
    ensures increment > 0 ==> r.effects == [SetDirection(Right)]
    ensures increment < 0 ==> r.effects == [SetDirection(Left)]
    ensures increment == 0 ==> r.effects == []
  {
    if increment > 0 then Outcome(a, [SetDirection(Right)])
    else if increment < 0 then Outcome(a, [SetDirection(Left)])
    else Outcome(a, [])
  }

  /** Dispatches one callback. */
  function Handle(a: App, e: Event): (r: Outcome)
    ensures Valid(a) ==> Valid(r.app)
    ensures r.app.name == a.name && r.app.speed == a.speed
    ensures r.app.snakeSize >= a.snakeSize
  {
    match e
    case Frame(now, engine, board) => Update(a, now, engine, board)
    case KeyPress(k, at) => KeyDown(a, k, at)
    case MouseClick(l, rt) => MouseDown(a, l, rt)
    case Wheel(inc) => MouseWheel(a, inc)
  }

  /** Handles a sequence of callbacks in order, collecting the commands issued. */
  function Run(a: App, es: seq<Event>): (r: Outcome)
    ensures Valid(a) ==> Valid(r.app)
    ensures r.app.name == a.name && r.app.speed == a.speed
    ensures r.app.snakeSize >= a.snakeSize
    decreases |es|
  {
    if es == [] then Outcome(a, [])
    else
      var first := Handle(a, es[0]);
      var rest := Run(first.app, es[1..]);
      Outcome(rest.app, first.effects + rest.effects)
  }
}
