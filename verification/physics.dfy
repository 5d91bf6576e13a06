/** The player body: gravity integration with a ground clamp, the jump
    budget, the slide command and the hurtbox it shrinks
    (horse_game.py:397-415, 448-453, 484-495, 602-604). */
module Physics {
  import opened Model

  /** The floor height the body's top edge is clamped to. */
  function Floor(b: Body): real { GroundY - b.h }

  /** `update_horse`: semi-implicit Euler step, then the ground clamp. */
  function UpdateHorse(b: Body, dt: real): (r: Body)
    ensures r.x == b.x && r.w == b.w && r.h == b.h
    ensures r.y <= Floor(r)
    ensures r.onGround <==> r.y == Floor(r)
    ensures r.onGround ==> r.vy == 0.0 && r.airJumps == 0
    // The clamp fires exactly when the integrated position reaches the floor.
    ensures r.onGround <==> b.y + (b.vy + Gravity * dt) * dt >= Floor(b)
    ensures !r.onGround ==>
              r.vy == b.vy + Gravity * dt && r.y == b.y + r.vy * dt && r.airJumps == b.airJumps
  {
    var vy := b.vy + Gravity * dt;
    var y := b.y + vy * dt;
    if y >= GroundY - b.h then b.(y := GroundY - b.h, vy := 0.0, onGround := true, airJumps := 0)
    else b.(y := y, vy := vy, onGround := false)
  }

  /** A jump request is honoured only while the run is live and the body is
      grounded or still has an air jump left. */
  predicate JumpAllowed(s: GameState)
  {
    s.running && !s.paused && (s.body.onGround || s.body.airJumps < MaxAirJumps)
  }

  /** The jump key (horse_game.py:384-395, main.py:318-325) followed by
      `_do_jump`: a ground jump restores the air-jump budget, an air jump
      spends one; every accepted jump counts once. The first ground jump of a
      run asks for the jump cue, every sixth air jump for the double-jump cue. */
  function Jump(s: GameState): (r: GameState)
    ensures !JumpAllowed(s) ==> r == s
    ensures JumpAllowed(s) ==>
              && r.body.vy == -JumpStrength
              && !r.body.onGround
              && r.body.y == s.body.y
              && r.tally.jumps == s.tally.jumps + 1
              && r.body.airJumps == (if s.body.onGround then 0 else s.body.airJumps + 1)
              && r.body.airJumps <= MaxAirJumps
    ensures r.running == s.running && r.paused == s.paused && r.fx == s.fx
    ensures r.obstacles == s.obstacles && r.records == s.records
    ensures |r.audio.cues| >= |s.audio.cues| && r.audio.cues[..|s.audio.cues|] == s.audio.cues
    // Only the body, the jump count and the jump-cue bookkeeping change.
    ensures JumpAllowed(s) ==>
              r.body == s.body.(vy := -JumpStrength, onGround := false, airJumps := r.body.airJumps)
    ensures JumpAllowed(s) ==>
              r == s.(body := r.body, tally := s.tally.(jumps := s.tally.jumps + 1), audio := r.audio)
    ensures JumpAllowed(s) ==>
              r.audio.hint == s.audio.hint && r.audio.hintCooldown == s.audio.hintCooldown
              && r.audio.hintCounter == s.audio.hintCounter && r.audio.cautionCounter == s.audio.cautionCounter
    // A ground jump raises the jump cue only the first time in a run.
    ensures JumpAllowed(s) && s.body.onGround ==>
              && r.audio.jumpPromptPlayed
              && r.audio.jumpSoundCounter == s.audio.jumpSoundCounter
              && r.audio.cues == s.audio.cues + (if s.audio.jumpPromptPlayed then [] else [JumpCue])
    // An air jump counts itself and raises the double-jump cue on every sixth.
    ensures JumpAllowed(s) && !s.body.onGround ==>
              && r.audio.jumpPromptPlayed == s.audio.jumpPromptPlayed
              && r.audio.jumpSoundCounter == s.audio.jumpSoundCounter + 1
              && r.audio.cues == s.audio.cues + (if r.audio.jumpSoundCounter % 6 == 0 then [DoubleJumpCue] else [])
  {
    if !s.running || s.paused then s
    else if s.body.onGround then
      var a := s.audio;
      var cue := if a.jumpPromptPlayed then [] else [JumpCue];
      s.(body := s.body.(vy := -JumpStrength, onGround := false, airJumps := 0),
         tally := s.tally.(jumps := s.tally.jumps + 1),
         audio := a.(jumpPromptPlayed := true, cues := a.cues + cue))
    else if s.body.airJumps < MaxAirJumps then
      var a := s.audio;
      var n := a.jumpSoundCounter + 1;
      var cue := if n % 6 == 0 then [DoubleJumpCue] else [];
      s.(body := s.body.(vy := -JumpStrength, onGround := false, airJumps := s.body.airJumps + 1),
         tally := s.tally.(jumps := s.tally.jumps + 1),
         audio := a.(jumpSoundCounter := n, cues := a.cues + cue))
    else s
  }

  /** Slide is refused while airborne or cooling down. The desktop key
      handler additionally drops it unless the run is live; the kivy button
      calls `handle_slide` directly. */
  predicate SlideAllowed(s: GameState)
  {
    && (s.front.Desktop? ==> s.running && !s.paused)
    && s.body.onGround
    && s.fx.slideCooldown <= 0.0
  }

  /** `handle_slide` behind the front end's gate (horse_game.py:384-389,
      448-453; main.py:327-332). */
  function Slide(s: GameState): (r: GameState)
    ensures !SlideAllowed(s) ==> r == s
    ensures SlideAllowed(s) ==> r.fx.slide == 0.45 && r.fx.slideCooldown == 1.3 && r.fx.slideCooldown > r.fx.slide
    ensures r.body == s.body && r.running == s.running
    ensures r.fx.invincible == s.fx.invincible && r.fx.shield == s.fx.shield
    // A slide only touches the two slide timers, which the hurtbox reads.
    ensures SlideAllowed(s) ==> r == s.(fx := s.fx.(slide := 0.45, slideCooldown := 1.3))
  {
    if (s.front.Desktop? && (!s.running || s.paused)) || !s.body.onGround || s.fx.slideCooldown > 0.0 then s
    else s.(fx := s.fx.(slide := 0.45, slideCooldown := 1.3))
  }

  /** The hurtbox as (left, top, width, height): while the slide timer runs
      it is 60% of the body's height, with its bottom edge kept in place. */
  datatype Box = Box(left: real, top: real, w: real, h: real)

  function HurtBox(b: Body, slideTimer: real): (r: Box)
    ensures r.left == b.x && r.w == b.w
    ensures r.top + r.h == b.y + b.h
    ensures r.h == (if slideTimer > 0.0 then 0.6 * b.h else b.h)
    ensures b.h >= 0.0 ==> b.y <= r.top && r.h <= b.h
  {
    var hh := b.h * (if slideTimer > 0.0 then 0.6 else 1.0);
    Box(b.x, b.y + (b.h - hh), b.w, hh)
  }
}
