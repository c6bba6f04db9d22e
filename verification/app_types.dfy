/**
 Value types of the snake application's game-lifecycle layer: the lifecycle
 state, the application record that the frame callback and the input handlers
 transform, what the engine and the leaderboard report to it, and the commands
 it issues to them.

 Wall-clock time points are integer milliseconds since the clock's epoch; the
 engine and the leaderboard are not modelled, only observed and commanded.
 */
module AppTypes {

  datatype Option<+T> = None | Some(value: T)

  /** Lifecycle of one game. */
  datatype GameState = Playing | CountDown | GameOver

  /** The engine's headings. The application maps keys and mouse events onto them. */
  datatype Direction = Up | Down | Left | Right

  /** A leaderboard entry. */
  datatype Player = Player(name: string, score: nat)

  /** What the engine reports when a frame starts, before that frame's step. */
  datatype EngineView = EngineView(chopped: bool, size: nat, score: nat)

  /** What the leaderboard's two ranked queries answer when they are asked in a frame. */
  datatype BoardView = BoardView(top: seq<Player>, yours: seq<Player>)

  /** A command sent to a collaborator of the application. */
  datatype Effect =
    | EngineStep                     // advance the engine by one tick
    | SetDirection(dir: Direction)   // steer the snake
    | EngineReset                    // start a fresh game in the engine
    | AddScore(player: Player)       // append a record to the leaderboard
    | EatSound                       // the snake grew since the last frame

  /**
   The application's lifecycle record. `name` and `speed` are fixed when the
   application is built; `timeLeft` is an unsigned machine word.
   */
  datatype App = App(
    name: string,
    speed: nat,
    state: GameState,
    paused: bool,
    lastIntactTime: int,
    lastPauseTime: int,
    lastTime: int,
    timeLeft: nat,
    snakeSize: nat,
    topPlayers: seq<Player>,
    yourTopScores: seq<Player>)

  /** The record after a callback, with the commands it issued, in order. */
  datatype Outcome = Outcome(app: App, effects: seq<Effect>)

  /** Length of the grace period after a chop, in milliseconds (ten seconds). */
  const CountdownMs: int := 10000

  /** The grace period in whole seconds. */
  const CountdownSeconds: int := 10

  const MsPerSecond: int := 1000

  /** Number of values of the unsigned machine word that holds `timeLeft`. */
  const WordModulus: int := 0x1_0000_0000_0000_0000
}
