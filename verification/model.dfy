/** The data model of the horse game's rules engine.

    Both front ends (the tkinter `HorseGame` and the kivy `HorseGameWidget`)
    keep the same state in mutable attributes and dictionaries; here it is one
    immutable `GameState` value grouped by component. Python floats are `real`,
    Python ints are `int`/`nat`, and the string tags the source compares
    against ("endless", "hit", "slow", hint texts, achievement titles) are
    enumerations.
 */
module Model {

  // World geometry and physics constants (horse_game.py:22-27, main.py:22-27).
  const Width: real := 900.0
  const Height: real := 520.0
  const GroundY: real := 430.0          // Height - 90
  const Gravity: real := 2200.0
  const JumpStrength: real := 1100.0
  const MaxAirJumps: nat := 1
  const HorseX: real := 120.0

  /** The frame delta is clamped to this many seconds. */
  const MaxDt: real := 0.05
  /** Length of a timed-mode run, in seconds. */
  const TimeLimit: real := 60.0
  /** Number of entries in the challenge script. */
  const ScriptLength: nat := 12
  /** Score at which the stars are traded for invincibility. */
  const ScoreWrap: nat := 10

  datatype Option<T> = None | Some(value: T)

  /** Which front end the engine runs under. The desktop front end sizes the
      horse from its loaded sprite; the kivy one uses a fixed 110 x 70 box. */
  datatype Front = Desktop(spriteW: real, spriteH: real) | Mobile

  datatype Mode = Endless | Challenge | Timed

  /** `game_over_reason`: "" while no run has ended, then "hit", "timed" or
      "challenge". */
  datatype EndReason = NoReason | HitObstacle | TimeUp | ScriptCleared

  /** Cosmetic obstacle themes, in the order the challenge script cycles them. */
  datatype Theme = Fence | Data | Lantern | Light

  datatype Kind = Slow | Shield | Magnet | Double

  /** The six one-shot titles: ten stars, star streak, chain jumper,
      30 seconds unscathed, timed victory, challenge cleared. */
  datatype Achievement = TenStars | StarStreak | ChainJumper | Unscathed30 | TimedVictory | ChallengeCleared

  /** The four texts `nearest_hint` can return. */
  datatype Hint = KeepRhythm | Ready | Caution | Observe

  /** Sound cue requests raised for the audio sink. `StopAll` is the desktop
      front end's "close all" before a reset or a run end. */
  datatype Cue = StartCue | JumpCue | DoubleJumpCue | PauseCue | ResumeCue | HitCue | InvincibleCue | HintCue(hint: Hint) | StopAll

  datatype Obstacle = Obstacle(x: real, y: real, w: real, h: real, speed: real, theme: Theme)
  datatype Star = Star(x: real, y: real, size: real, speed: real)
  datatype PowerUp = PowerUp(x: real, y: real, size: real, speed: real, kind: Kind)

  /** One entry of the fixed challenge script. */
  datatype ScriptEntry = ScriptEntry(delay: real, h: int, w: int, speed: int, theme: Theme)

  /** The player body. `airJumps` is `air_jumps_used`. */
  datatype Body = Body(x: real, y: real, w: real, h: real, vy: real, onGround: bool, airJumps: nat)

  /** Status effects: countdown timers in seconds and the binary shield. */
  datatype Effects = Effects(
    invincible: real, slow: real, magnet: real, double: real,
    slide: real, slideCooldown: real, shield: bool)

  /** The spawn director's countdowns and the challenge script cursor. */
  datatype Spawner = Spawner(
    obstacleTimer: real, starTimer: real, powerTimer: real,
    script: seq<ScriptEntry>, scriptIndex: nat, scriptTimer: real)

  /** Per-run counters, the star combo window and the achievement banner. */
  datatype Tally = Tally(
    score: nat, totalStars: nat, combo: nat, comboTimer: real, jumps: nat,
    achievements: set<Achievement>, banner: Option<Achievement>, bannerTimer: real)

  /** Cue bookkeeping: the current hint, its sound cooldown, the jump-sound
      and hint-trigger counters, and the outbox of raised cues. */
  datatype Audio = Audio(
    hint: Option<Hint>, hintCooldown: real,
    jumpSoundCounter: nat, jumpPromptPlayed: bool,
    hintCounter: nat, cautionCounter: nat,
    cues: seq<Cue>)

  /** The persistent best-of records. */
  datatype Records = Records(
    bestTime: real, bestDistance: real, bestScore: int, bestCombo: int,
    bestTimedScore: int, bestChallengeTime: real)

  datatype GameState = GameState(
    front: Front,
    mode: Mode,
    awaiting: bool,        // awaiting_start
    preparing: bool,       // preparing_start (countdown shown)
    countdown: real,
    running: bool,
    paused: bool,
    endReason: EndReason,
    elapsed: real,
    distance: real,
    difficulty: real,
    stage: int,
    body: Body,
    fx: Effects,
    spawner: Spawner,
    obstacles: seq<Obstacle>,
    stars: seq<Star>,
    powerups: seq<PowerUp>,
    tally: Tally,
    audio: Audio,
    records: Records)

  /** The records `load()` falls back to when the store is absent or corrupt. */
  function DefaultRecords(): Records
  {
    Records(0.0, 0.0, 0, 0, 0, 0.0)
  }

  /** The random draws one frame may consume: obstacle size, speed, theme and
      reload interval; star height, size, speed and interval; power-up height,
      speed, kind and interval. */
  datatype Draws = Draws(
    obstacleH: int, obstacleW: int, obstacleSpeed: int, theme: Theme, obstacleGap: real,
    starY: real, starSize: real, starSpeed: real, starGap: real,
    powerY: real, powerSpeed: real, kind: Kind, powerGap: real)
  {
    /** The ranges of `random.randint` (inclusive) and `random.uniform` used by
        the spawners (horse_game.py:465-482, 531-541, 1085, 1090). */
    predicate Valid() {
      && 60 <= obstacleH <= 120
      && 40 <= obstacleW <= 80
      && 230 <= obstacleSpeed <= 360
      && 1.1 <= obstacleGap <= 2.1
      && 120.0 <= starY <= GroundY - 120.0
      && 10.0 <= starSize <= 16.0
      && 220.0 <= starSpeed <= 320.0
      && 0.7 <= starGap <= 1.3
      && 140.0 <= powerY <= GroundY - 140.0
      && 200.0 <= powerSpeed <= 300.0
      && 4.0 <= powerGap <= 6.5
    }
  }

  function Max(a: real, b: real): real { if a >= b then a else b }
  function Min(a: real, b: real): real { if a <= b then a else b }
}
