/** The frame step `tick` (horse_game.py:1042-1152; main.py:788-892): the
    start countdown, then, while a run is live and not paused, pacing,
    spawning, movement, collisions, timer decay, milestones and the hint.

    The clock enters as two parameters per frame: `delta`, the wall-clock
    time since the previous frame (clamped to 0.05 s here, as the source
    does), and `elapsed`, the wall-clock time since the run started. */
module Engine {
  import opened Model
  import opened Physics
  import opened Progress
  import opened Director
  import opened World
  import opened Collision
  import opened Hints

  /** The countdown of the start screen: it runs down by `dt` and, when it
      reaches 0, the run starts. */
  function CountdownStep(s: GameState, dt: real): (r: GameState)
    ensures !s.preparing ==> r == s
    ensures s.preparing && s.countdown - dt > 0.0 ==> r == s.(countdown := s.countdown - dt)
    ensures s.preparing && s.countdown - dt <= 0.0 ==>
              r == s.(countdown := 0.0, preparing := false, awaiting := false, running := true)
  {
    if !s.preparing then s
    else
      var c := Max(0.0, s.countdown - dt);
      if c <= 0.0 then s.(countdown := c, preparing := false, awaiting := false, running := true)
      else s.(countdown := c)
  }

  /** The stage counter `int(elapsed // 20)`. */
  function StageOf(elapsed: real): int
  {
    (elapsed / 20.0).Floor
  }

  /** Pacing: elapsed and difficulty are refreshed, the stage only ever
      climbs (and never in challenge mode), and the distance grows with the
      world speed. */
  function Pace(s: GameState, dt: real, elapsed: real): (r: GameState)
    ensures r.elapsed == elapsed && r.difficulty == Difficulty(s.mode, elapsed)
    ensures r.stage >= s.stage
    ensures s.mode == Challenge ==> r.stage == s.stage
    ensures s.mode != Challenge ==> r.stage == (if StageOf(elapsed) > s.stage then StageOf(elapsed) else s.stage)
    ensures r.distance == s.distance + dt * 6.5 * Multiplier(r.difficulty, s.fx)
    ensures dt >= 0.0 ==> r.distance >= s.distance
    ensures r == s.(elapsed := r.elapsed, difficulty := r.difficulty, stage := r.stage, distance := r.distance)
  {
    var difficulty := Difficulty(s.mode, elapsed);
    var next := StageOf(elapsed);
    var stage := if s.mode != Challenge && next > s.stage then next else s.stage;
    var mul := Multiplier(difficulty, s.fx);
    Travelled(dt, mul);
    s.(elapsed := elapsed, difficulty := difficulty, stage := stage, distance := s.distance + dt * 6.5 * mul)
  }

  lemma Travelled(dt: real, mul: real)
    requires mul >= 0.0
    ensures dt >= 0.0 ==> dt * 6.5 * mul >= 0.0
  {
  }

  /** The obstacle source of the mode: the script in challenge mode, the
      random cadence otherwise. Stars, power-ups and their countdowns are
      left alone. */
  function SpawnObstacles(s: GameState, dt: real, d: Draws): (r: GameState)
    requires d.Valid()
    ensures r.spawner.script == s.spawner.script
    ensures s.mode == Challenge ==>
              && r.spawner.obstacleTimer == s.spawner.obstacleTimer
              && (r.spawner.scriptIndex == s.spawner.scriptIndex || r.spawner.scriptIndex == s.spawner.scriptIndex + 1)
    ensures s.mode != Challenge ==>
              r.spawner.scriptIndex == s.spawner.scriptIndex && r.spawner.scriptTimer == s.spawner.scriptTimer
    ensures s.spawner.scriptIndex <= |s.spawner.script| ==> r.spawner.scriptIndex <= |r.spawner.script|
    ensures |r.obstacles| >= |s.obstacles| && r.obstacles[..|s.obstacles|] == s.obstacles
    ensures r.spawner.starTimer == s.spawner.starTimer && r.spawner.powerTimer == s.spawner.powerTimer
    ensures r == s.(obstacles := r.obstacles, spawner := r.spawner)
    // Exactly one source per mode: the script alone in challenge mode.
    ensures s.mode == Challenge ==> r == ScriptCadence(s, dt)
    ensures s.mode != Challenge ==> r == ObstacleCadence(s, dt, d)
  {
    if s.mode == Challenge then ScriptCadence(s, dt) else ObstacleCadence(s, dt, d)
  }

  /** Spawning: obstacles, then a star and a power-up when their countdowns
      run out; entities are only ever appended. */
  function Direct(s: GameState, dt: real, d: Draws): (r: GameState)
    requires d.Valid()
    ensures r.spawner.script == s.spawner.script
    ensures s.mode == Challenge ==>
              && r.spawner.obstacleTimer == s.spawner.obstacleTimer
              && (r.spawner.scriptIndex == s.spawner.scriptIndex || r.spawner.scriptIndex == s.spawner.scriptIndex + 1)
    ensures s.mode != Challenge ==>
              r.spawner.scriptIndex == s.spawner.scriptIndex && r.spawner.scriptTimer == s.spawner.scriptTimer
    ensures s.spawner.scriptIndex <= |s.spawner.script| ==> r.spawner.scriptIndex <= |r.spawner.script|
    ensures r.spawner.starTimer > 0.0 && r.spawner.powerTimer > 0.0
    ensures |r.obstacles| >= |s.obstacles| && r.obstacles[..|s.obstacles|] == s.obstacles
    ensures |r.stars| >= |s.stars| && r.stars[..|s.stars|] == s.stars
    ensures |r.powerups| >= |s.powerups| && r.powerups[..|s.powerups|] == s.powerups
    ensures r == s.(obstacles := r.obstacles, stars := r.stars, powerups := r.powerups, spawner := r.spawner)
  {
    var s1 := SpawnObstacles(s, dt, d);
    var s2 := StarCadence(s1, dt, d);
    assert s2.stars[..|s.stars|] == s.stars;
    var s3 := PowerCadence(s2, dt, d);
    assert s3.powerups[..|s.powerups|] == s.powerups;
    s3
  }

  /** The magnet's pull for this frame, aimed at the centre of the moved
      body, or none while the magnet is off. */
  function MagnetPull(fx: Effects, b: Body, dt: real): (p: Pull)
    ensures p.NoPull? <==> fx.magnet <= 0.0
  {
    if fx.magnet > 0.0 then PullTo(b.x + b.w * 0.5, b.y + b.h * 0.5, 260.0 * dt) else NoPull
  }

  /** Movement: the body falls or lands, and every obstacle, star and
      power-up moves left at the world speed and is culled off screen. */
  function Move(s: GameState, dt: real, hyp: (real, real) -> real): (r: GameState)
    requires NonNegative(hyp)
    ensures r.body == UpdateHorse(s.body, dt)
    ensures var step := dt * Multiplier(s.difficulty, s.fx);
      && r.obstacles == MoveObstacles(s.obstacles, step)
      && r.stars == MoveStars(s.stars, step, MagnetPull(s.fx, r.body, dt), hyp)
      && r.powerups == MovePowerUps(s.powerups, step)
    ensures r == s.(body := r.body, obstacles := r.obstacles, stars := r.stars, powerups := r.powerups)
  {
    var step := dt * Multiplier(s.difficulty, s.fx);
    var body := UpdateHorse(s.body, dt);
    s.(body := body,
       obstacles := MoveObstacles(s.obstacles, step),
       stars := MoveStars(s.stars, step, MagnetPull(s.fx, body, dt), hyp),
       powerups := MovePowerUps(s.powerups, step))
  }

  /** One countdown timer: a running timer drops by `dt` and stops at 0; an
      expired one is left as it is. */
  function Decayed(t: real, dt: real): (r: real)
    ensures t >= 0.0 ==> r >= 0.0
    ensures t <= 0.0 ==> r == t
    ensures t > 0.0 && dt >= 0.0 ==> r <= t
    ensures t > 0.0 && dt >= t ==> r == 0.0
    ensures t > 0.0 && dt < t ==> r == t - dt
  {
    if t > 0.0 then Max(0.0, t - dt) else t
  }

  /** All effect timers decay together; the shield is not a timer. */
  function DecayEffects(fx: Effects, dt: real): (r: Effects)
    ensures r.invincible == Decayed(fx.invincible, dt) && r.slow == Decayed(fx.slow, dt)
    ensures r.magnet == Decayed(fx.magnet, dt) && r.double == Decayed(fx.double, dt)
    ensures r.slide == Decayed(fx.slide, dt) && r.slideCooldown == Decayed(fx.slideCooldown, dt)
    ensures r.shield == fx.shield
  {
    Effects(Decayed(fx.invincible, dt), Decayed(fx.slow, dt), Decayed(fx.magnet, dt),
            Decayed(fx.double, dt), Decayed(fx.slide, dt), Decayed(fx.slideCooldown, dt), fx.shield)
  }

  /** Timer decay: effects, the combo window (whose expiry breaks the
      combo), the banner and the hint cooldown. */
  function Decay(s: GameState, dt: real): (r: GameState)
    ensures r.fx == DecayEffects(s.fx, dt)
    ensures r.tally.comboTimer == Decayed(s.tally.comboTimer, dt)
    ensures r.tally.bannerTimer == Decayed(s.tally.bannerTimer, dt)
    ensures r.audio.hintCooldown == Decayed(s.audio.hintCooldown, dt)
    ensures r.tally.combo == (if s.tally.comboTimer > 0.0 && r.tally.comboTimer == 0.0 then 0 else s.tally.combo)
    ensures r == s.(fx := r.fx,
                    tally := s.tally.(comboTimer := r.tally.comboTimer, combo := r.tally.combo,
                                      bannerTimer := r.tally.bannerTimer),
                    audio := s.audio.(hintCooldown := r.audio.hintCooldown))
  {
    var ct := Decayed(s.tally.comboTimer, dt);
    var combo := if s.tally.comboTimer > 0.0 && ct == 0.0 then 0 else s.tally.combo;
    s.(fx := DecayEffects(s.fx, dt),
       tally := s.tally.(comboTimer := ct, combo := combo, bannerTimer := Decayed(s.tally.bannerTimer, dt)),
       audio := s.audio.(hintCooldown := Decayed(s.audio.hintCooldown, dt)))
  }

  /** The timed mode's end condition. */
  predicate TimeIsUp(s: GameState) { s.mode == Timed && s.elapsed >= TimeLimit }

  /** The challenge mode's end condition: the script is spent and the field
      is clear. */
  predicate ScriptIsCleared(s: GameState)
  {
    s.mode == Challenge && s.spawner.scriptIndex >= |s.spawner.script| && s.obstacles == []
  }

  /** The survival titles: 15 jumps, and 30 s into the run. */
  function SurvivalTitles(s: GameState): (r: GameState)
    ensures s.tally.jumps >= 15 ==> ChainJumper in r.tally.achievements
    ensures s.elapsed >= 30.0 ==> Unscathed30 in r.tally.achievements
    ensures ChainJumper in r.tally.achievements <==> ChainJumper in s.tally.achievements || s.tally.jumps >= 15
    ensures Unscathed30 in r.tally.achievements <==> Unscathed30 in s.tally.achievements || s.elapsed >= 30.0
    ensures s.tally.achievements <= r.tally.achievements
    ensures r.tally.achievements <= s.tally.achievements + {ChainJumper, Unscathed30}
    ensures r.tally.score == s.tally.score && r.tally.jumps == s.tally.jumps
    ensures r.tally.comboTimer == s.tally.comboTimer && r.tally.combo == s.tally.combo
    ensures r.tally.bannerTimer == s.tally.bannerTimer || r.tally.bannerTimer == 2.6
    ensures r == s.(tally := r.tally)
  {
    var t := s.tally;
    var t := if t.jumps >= 15 then SetAchievement(t, ChainJumper) else t;
    var t := if s.elapsed >= 30.0 then SetAchievement(t, Unscathed30) else t;
    s.(tally := t)
  }

  /** Ending a run with a title: the title is unlocked, then the run ends
      with the reason. */
  function EndWith(s: GameState, a: Achievement, reason: EndReason): (r: GameState)
    requires reason != NoReason
    ensures a in r.tally.achievements && s.tally.achievements <= r.tally.achievements
    ensures !r.running && r.endReason == reason
    ensures NoWorse(s.records, r.records)
    ensures r.tally == SetAchievement(s.tally, a)
    ensures |r.audio.cues| >= |s.audio.cues| && r.audio.cues[..|s.audio.cues|] == s.audio.cues
    ensures r == s.(running := false, endReason := reason, records := r.records, tally := r.tally,
                    audio := s.audio.(cues := r.audio.cues))
  {
    var r := EndGame(s.(tally := SetAchievement(s.tally, a)), reason);
    assert r.audio.cues[..|s.audio.cues|] == s.audio.cues;
    r
  }

  /** The two mode-specific endings, checked in the source's order: timed
      mode at the time limit, then challenge mode once the script is spent
      and the field is clear. */
  function Endings(s: GameState): (r: GameState)
    ensures TimeIsUp(s) ==> r == EndWith(s, TimedVictory, TimeUp)
    ensures ScriptIsCleared(s) ==> r == EndWith(s, ChallengeCleared, ScriptCleared)
    ensures !TimeIsUp(s) && !ScriptIsCleared(s) ==> r == s
  {
    if TimeIsUp(s) then EndWith(s, TimedVictory, TimeUp)
    else if ScriptIsCleared(s) then EndWith(s, ChallengeCleared, ScriptCleared)
    else s
  }

  /** The survival titles, then the endings. */
  function Milestones(s: GameState): (r: GameState)
    ensures s.tally.achievements <= r.tally.achievements
    ensures r.tally.score == s.tally.score && r.tally.comboTimer == s.tally.comboTimer
    ensures r.tally.bannerTimer == s.tally.bannerTimer || r.tally.bannerTimer == 2.6
    ensures r.running ==> r.running == s.running && r.endReason == s.endReason
    ensures !r.running ==> !s.running || r.endReason == TimeUp || r.endReason == ScriptCleared
    ensures NoWorse(s.records, r.records)
    ensures r == s.(running := r.running, endReason := r.endReason, records := r.records,
                    tally := r.tally, audio := s.audio.(cues := r.audio.cues))
  {
    Endings(SurvivalTitles(s))
  }

  /** The hint for the frame's final field, announced if it changed. */
  function Advise(s: GameState): (r: GameState)
    ensures r.audio.hint == Some(NearestHint(s.body, s.obstacles))
    ensures r.audio == Announce(s.audio, s.front, NearestHint(s.body, s.obstacles))
    ensures r == s.(audio := r.audio)
  {
    s.(audio := Announce(s.audio, s.front, NearestHint(s.body, s.obstacles)))
  }

  /** What a live frame never changes: the front end, the mode and the
      lifecycle flags other than `running`. */
  predicate SameShell(s: GameState, r: GameState)
  {
    r.front == s.front && r.mode == s.mode && r.paused == s.paused
    && r.awaiting == s.awaiting && r.preparing == s.preparing
  }

  /** The live part of a frame, in the source's order. */
  function Frame(s: GameState, dt: real, elapsed: real, d: Draws, hyp: (real, real) -> real): (r: GameState)
    requires d.Valid() && NonNegative(hyp)
    ensures SameShell(s, r)
    ensures NoWorse(s.records, r.records)
    ensures s.tally.achievements <= r.tally.achievements
  {
    var s1 := Pace(s, dt, elapsed);
    assert SameShell(s, s1) && s1.records == s.records && s1.tally == s.tally;
    var s2 := Direct(s1, dt, d);
    assert SameShell(s, s2) && s2.records == s.records && s2.tally == s.tally;
    var s3 := Move(s2, dt, hyp);
    assert SameShell(s, s3) && s3.records == s.records && s3.tally == s.tally;
    var s4 := CheckCollisions(s3);
    assert SameShell(s, s4) && NoWorse(s.records, s4.records) && s.tally.achievements <= s4.tally.achievements;
    var s5 := Decay(s4, dt);
    assert SameShell(s, s5) && s5.records == s4.records && s5.tally.achievements == s4.tally.achievements;
    var s6 := Milestones(s5);
    assert SameShell(s, s6) && NoWorse(s.records, s6.records) && s.tally.achievements <= s6.tally.achievements;
    Advise(s6)
  }

  /** `tick`: the countdown first, then the live frame if the run is live
      and not paused; a paused, finished or not-yet-started run does not
      change beyond its countdown. */
  function Tick(s: GameState, delta: real, elapsed: real, d: Draws, hyp: (real, real) -> real): (r: GameState)
    requires d.Valid() && NonNegative(hyp)
    ensures !s.preparing && !(s.running && !s.paused) ==> r == s
    ensures r.front == s.front && r.mode == s.mode
    ensures NoWorse(s.records, r.records)
    ensures s.tally.achievements <= r.tally.achievements
  {
    var dt := Min(MaxDt, delta);
    var c := CountdownStep(s, dt);
    if c.running && !c.paused then Frame(c, dt, elapsed, d, hyp) else c
  }
}
