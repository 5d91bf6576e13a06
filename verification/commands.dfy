/** Player commands and the run lifecycle outside the frame step: reset, the
    start countdown, pause, mode cycling, and the key and button dispatch of
    both front ends (horse_game.py:208-216, 278-446; main.py:232-332,
    941-963). */
module Commands {
  import opened Model
  import opened Physics
  import opened Director

  /** The horse's size after a reset: the desktop front end uses the loaded
      sprite's size, the kivy one a fixed 110 x 70. */
  function HorseW(front: Front): real { if front.Desktop? then front.spriteW else 110.0 }
  function HorseH(front: Front): real { if front.Desktop? then front.spriteH else 70.0 }

  /** The run-independent part of the state a reset keeps: the front end,
      the mode, the records, the outbox, and the hint counters the kivy
      reset does not clear. */
  predicate SameSetup(s: GameState, t: GameState)
  {
    && s.front == t.front && s.mode == t.mode && s.records == t.records
    && s.audio.cues == t.audio.cues
    && (s.front.Mobile? ==>
          s.audio.hintCounter == t.audio.hintCounter && s.audio.cautionCounter == t.audio.cautionCounter)
  }

  /** `reset`: back to the start screen with a fresh run. */
  function Reset(s: GameState): (r: GameState)
    ensures r.front == s.front && r.mode == s.mode && r.records == s.records
    ensures r.awaiting && !r.preparing && !r.running && !r.paused && r.endReason == NoReason
    ensures r.obstacles == [] && r.stars == [] && r.powerups == []
    ensures r.body.x == HorseX && r.body.onGround && r.body.y == Floor(r.body) && r.body.vy == 0.0
    ensures r.body.airJumps == 0
    ensures r.spawner.script == ChallengePattern() && r.spawner.scriptIndex == 0
    ensures r.spawner.scriptTimer == r.spawner.script[0].delay
    ensures r.tally.score == 0 && r.tally.totalStars == 0 && r.tally.jumps == 0 && r.tally.achievements == {}
    ensures r.audio.hint == None && !r.audio.jumpPromptPlayed
    ensures r.audio.cues == s.audio.cues + (if s.front.Desktop? then [StopAll] else []) + [StartCue]
    ensures r.elapsed == 0.0 && r.distance == 0.0 && r.difficulty == 1.0 && r.stage == 0
    ensures r.spawner.obstacleTimer == 1.2 && r.spawner.starTimer == 0.8 && r.spawner.powerTimer == 1.6
    ensures r.fx == Effects(0.0, 0.0, 0.0, 0.0, 0.0, 0.0, false)
    ensures r.body.w == HorseW(s.front) && r.body.h == HorseH(s.front)
    ensures s.front.Mobile? ==> r.body.w == 110.0 && r.body.h == 70.0
    ensures r.tally == Tally(0, 0, 0, 0.0, 0, {}, None, 0.0)
    ensures r.audio.hintCooldown == 0.0 && r.audio.jumpSoundCounter == 0
    ensures r.countdown == 0.0
    ensures s.front.Desktop? ==> r.audio.hintCounter == 0 && r.audio.cautionCounter == 0
    ensures s.front.Mobile? ==>
              r.audio.hintCounter == s.audio.hintCounter && r.audio.cautionCounter == s.audio.cautionCounter
  {
    ScriptShape();
    var w := HorseW(s.front);
    var h := HorseH(s.front);
    var script := ChallengePattern();
    var desktop := s.front.Desktop?;
    GameState(
      front := s.front, mode := s.mode,
      awaiting := true, preparing := false, countdown := 0.0,
      running := false, paused := false, endReason := NoReason,
      elapsed := 0.0, distance := 0.0, difficulty := 1.0, stage := 0,
      body := Body(HorseX, GroundY - h, w, h, 0.0, true, 0),
      fx := Effects(0.0, 0.0, 0.0, 0.0, 0.0, 0.0, false),
      spawner := Spawner(1.2, 0.8, 1.6, script, 0, if |script| > 0 then script[0].delay else 1.0),
      obstacles := [], stars := [], powerups := [],
      tally := Tally(0, 0, 0, 0.0, 0, {}, None, 0.0),
      audio := Audio(None, 0.0, 0, false,
                     if desktop then 0 else s.audio.hintCounter,
                     if desktop then 0 else s.audio.cautionCounter,
                     s.audio.cues + (if desktop then [StopAll] else []) + [StartCue]),
      records := s.records)
  }

  /** A reset forgets the run: two states with the same setup reset to the
      same state. */
  lemma ResetForgetsRun(s: GameState, t: GameState)
    requires SameSetup(s, t)
    ensures Reset(s) == Reset(t)
  {
  }

  /** Resetting twice is resetting once, apart from the second round of
      cues. */
  lemma ResetTwice(s: GameState)
    ensures Reset(Reset(s)) == Reset(s).(audio := Reset(s).audio.(cues := Reset(Reset(s)).audio.cues))
  {
  }

  /** The initial state of a front end: the endless mode and the loaded
      records, reset once at construction. */
  function Init(front: Front, rec: Records): (r: GameState)
    ensures r.front == front && r.mode == Endless && r.records == rec
    ensures r.awaiting && !r.running && r.obstacles == []
    ensures r.audio.cues == (if front.Desktop? then [StopAll] else []) + [StartCue]
    // Outside the cue outbox, the initial state is a fixed point of reset.
    ensures Reset(r) == r.(audio := Reset(r).audio)
  {
    var blank := GameState(
      front, Endless, true, false, 0.0, false, false, NoReason, 0.0, 0.0, 1.0, 0,
      Body(HorseX, GroundY - 70.0, 110.0, 70.0, 0.0, true, 0),
      Effects(0.0, 0.0, 0.0, 0.0, 0.0, 0.0, false),
      Spawner(0.0, 0.0, 0.0, [], 0, 0.0), [], [], [],
      Tally(0, 0, 0, 0.0, 0, {}, None, 0.0),
      Audio(None, 0.0, 0, false, 0, 0, []),
      rec);
    Reset(blank)
  }

  /** `start_countdown` (and the desktop start-button click): from the start
      screen, a 3 s countdown begins; otherwise nothing happens. */
  function StartCountdown(s: GameState): (r: GameState)
    ensures s.awaiting && !s.preparing ==> r == s.(preparing := true, countdown := 3.0)
    ensures !(s.awaiting && !s.preparing) ==> r == s
  {
    if s.awaiting && !s.preparing then s.(preparing := true, countdown := 3.0) else s
  }

  /** Pause is only meaningful while a run is live. */
  predicate CanPause(s: GameState) { s.running && !s.awaiting && !s.preparing }

  /** `toggle_pause`: flips the pause flag of a live run and raises the
      pause or resume cue; anything else is ignored. */
  function TogglePause(s: GameState): (r: GameState)
    ensures !CanPause(s) ==> r == s
    ensures CanPause(s) ==> r.paused == !s.paused
    ensures CanPause(s) ==> r.audio.cues == s.audio.cues + [if r.paused then PauseCue else ResumeCue]
    ensures r == s.(paused := r.paused, audio := s.audio.(cues := r.audio.cues))
  {
    if !CanPause(s) then s
    else
      var p := !s.paused;
      s.(paused := p, audio := s.audio.(cues := s.audio.cues + [if p then PauseCue else ResumeCue]))
  }

  /** Pausing and resuming restores the run exactly, having raised one pause
      and one resume cue (in that order when starting from play). */
  lemma PauseResume(s: GameState)
    requires CanPause(s)
    ensures TogglePause(TogglePause(s)).(audio := s.audio) == s
    ensures !s.paused ==>
              TogglePause(TogglePause(s)).audio.cues == s.audio.cues + [PauseCue, ResumeCue]
  {
  }

  /** The mode order endless -> challenge -> timed -> endless. */
  function NextMode(m: Mode): (r: Mode)
    ensures r != m
  {
    match m
    case Endless => Challenge
    case Challenge => Timed
    case Timed => Endless
  }

  /** Three steps go round the cycle; every mode is reached from any other. */
  lemma ModeCycle(m: Mode)
    ensures NextMode(NextMode(NextMode(m))) == m
    ensures {m, NextMode(m), NextMode(NextMode(m))} == {Endless, Challenge, Timed}
  {
  }

  /** `cycle_mode`: refused during live play; otherwise the next mode and a
      reset. */
  function CycleMode(s: GameState): (r: GameState)
    ensures s.running && !s.paused ==> r == s
    ensures !(s.running && !s.paused) ==> r.mode == NextMode(s.mode) && r == Reset(s.(mode := r.mode))
  {
    if s.running && !s.paused then s else Reset(s.(mode := NextMode(s.mode)))
  }

  /** The Enter key on both front ends: it starts the countdown from the
      start screen and otherwise toggles pause. */
  function PressEnter(s: GameState): (r: GameState)
    ensures s.awaiting && !s.preparing ==> r.preparing && r.countdown == 3.0 && r.running == s.running && r.paused == s.paused
    ensures s.awaiting && !s.preparing ==> r == StartCountdown(s)
    ensures !(s.awaiting && !s.preparing) ==> r == TogglePause(s)
  {
    if s.awaiting && !s.preparing then StartCountdown(s) else TogglePause(s)
  }

  /** The player's inputs, common to both front ends. `StartButton` is the
      desktop click inside the start button or the kivy start button;
      `PauseButton` is the kivy pause button. Volume, visual profile and key
      rebinding change nothing modelled here. */
  datatype Command = StartButton | EnterKey | PauseButton | JumpKey | SlideKey | ModeKey | ResetKey

  /** Dispatch of one command (horse_game.py:340-389, main.py:941-963 and
      the kivy buttons). */
  function Apply(s: GameState, c: Command): (r: GameState)
    ensures c == JumpKey && !s.running ==> r == s
    ensures c == ModeKey && s.running && !s.paused ==> r == s
    ensures c == ResetKey ==> r.awaiting && !r.running && r.records == s.records
    ensures r.front == s.front && r.records == s.records
    ensures |r.audio.cues| >= |s.audio.cues| && r.audio.cues[..|s.audio.cues|] == s.audio.cues
  {
    match c
    case StartButton => StartCountdown(s)
    case EnterKey => PressEnter(s)
    case PauseButton => TogglePause(s)
    case JumpKey => Jump(s)
    case SlideKey => Slide(s)
    case ModeKey => CycleMode(s)
    case ResetKey => Reset(s)
  }
}
