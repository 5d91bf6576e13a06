/** The collision and scoring resolver (horse_game.py:544-556, 600-650;
    main.py:407-419, 486-534). Obstacles are checked first and may end the
    run or break the shield, which skips the pickups for that frame; then
    every overlapping star is collected, then every overlapping power-up. */
module Collision {
  import opened Model
  import opened Seqs
  import opened Physics
  import opened Progress

  /** Strict axis-aligned overlap of the hurtbox with an obstacle. */
  predicate HitsObstacle(b: Box, o: Obstacle)
  {
    b.left < o.x + o.w && b.left + b.w > o.x && b.top < o.y + o.h && b.top + b.h > o.y
  }

  /** Overlap with the square of half-side `size` around a pickup's centre. */
  predicate Touches(b: Box, x: real, y: real, size: real)
  {
    b.left < x + size && b.left + b.w > x - size && b.top < y + size && b.top + b.h > y - size
  }

  predicate TouchesStar(b: Box, s: Star) { Touches(b, s.x, s.y, s.size) }
  predicate TouchesPowerUp(b: Box, p: PowerUp) { Touches(b, p.x, p.y, p.size) }

  predicate AnyHit(b: Box, obs: seq<Obstacle>)
  {
    exists i :: 0 <= i < |obs| && HitsObstacle(b, obs[i])
  }

  /** `apply_powerup`: each kind overwrites its own timer (or sets the
      shield); nothing is added to a running timer. */
  function ApplyPowerUp(fx: Effects, k: Kind): Effects
  {
    match k
    case Slow => fx.(slow := 4.0)
    case Shield => fx.(shield := true)
    case Magnet => fx.(magnet := 6.0)
    case Double => fx.(double := 6.0)
  }

  /** The effect of one kind is in force at its full length. */
  predicate Applied(fx: Effects, k: Kind)
  {
    match k
    case Slow => fx.slow == 4.0
    case Shield => fx.shield
    case Magnet => fx.magnet == 6.0
    case Double => fx.double == 6.0
  }

  /** Applying the collected kinds in order: a timer ends at its fixed
      length exactly when its kind was collected, and is otherwise left as
      it was; the other timers are never touched. */
  function ApplyAll(fx: Effects, kinds: seq<Kind>): (r: Effects)
    ensures r.slow == (if Slow in kinds then 4.0 else fx.slow)
    ensures r.magnet == (if Magnet in kinds then 6.0 else fx.magnet)
    ensures r.double == (if Double in kinds then 6.0 else fx.double)
    ensures r.shield == (Shield in kinds || fx.shield)
    ensures r.invincible == fx.invincible && r.slide == fx.slide && r.slideCooldown == fx.slideCooldown
    decreases |kinds|
  {
    if kinds == [] then fx
    else
      assert kinds == [kinds[0]] + kinds[1..];
      ApplyAll(ApplyPowerUp(fx, kinds[0]), kinds[1..])
  }

  /** The stars the hurtbox overlaps. */
  function Collected(stars: seq<Star>, hb: Box): seq<Star>
  {
    Filter(stars, st => TouchesStar(hb, st))
  }

  /** The stars the hurtbox misses: with the collected ones they account for
      every star, and when nothing is collected they are all the stars. */
  function Missed(stars: seq<Star>, hb: Box): (r: seq<Star>)
    ensures |Collected(stars, hb)| + |r| == |stars|
    ensures |Collected(stars, hb)| == 0 ==> r == stars
    ensures forall i :: 0 <= i < |r| ==> !TouchesStar(hb, r[i])
    ensures forall i :: 0 <= i < |stars| && !TouchesStar(hb, stars[i]) ==> stars[i] in r
    ensures multiset(Collected(stars, hb)) + multiset(r) == multiset(stars)
  {
    FilterRejectPartition(stars, st => TouchesStar(hb, st));
    if |Collected(stars, hb)| == 0 then
      KeepAll(stars, st => TouchesStar(hb, st));
      Reject(stars, st => TouchesStar(hb, st))
    else Reject(stars, st => TouchesStar(hb, st))
  }

  /** When nothing is selected, everything is rejected. */
  lemma {:induction false} KeepAll<T>(s: seq<T>, p: T -> bool)
    requires |Filter(s, p)| == 0
    ensures Reject(s, p) == s
    decreases |s|
  {
    if s != [] {
      KeepAll(s[1..], p);
    }
  }

  /** The score a pickup of `n` stars brings: doubled while double-score
      runs. */
  function Gain(fx: Effects, n: nat): (g: nat)
    ensures fx.double > 0.0 ==> g == 2 * n
    ensures fx.double <= 0.0 ==> g == n
  {
    n * (if fx.double > 0.0 then 2 else 1)
  }

  /** The tally after `n > 0` stars worth `gain`: reaching 10 resets the
      score, total stars and the combo grow by the raw `n`, the combo window
      restarts at 1.8 s, and the two star titles unlock at their thresholds. */
  function ScoreTally(t: Tally, n: nat, gain: nat): (r: Tally)
    ensures t.score + gain >= ScoreWrap ==> r.score == 0
    ensures t.score + gain < ScoreWrap ==> r.score == t.score + gain
    ensures r.totalStars == t.totalStars + n
    ensures r.combo == t.combo + n
    ensures r.comboTimer == 1.8
    ensures r.totalStars >= 10 ==> TenStars in r.achievements
    ensures r.combo >= 5 ==> StarStreak in r.achievements
    ensures TenStars in r.achievements <==> TenStars in t.achievements || r.totalStars >= 10
    ensures StarStreak in r.achievements <==> StarStreak in t.achievements || r.combo >= 5
    ensures r.achievements == t.achievements ==> r.banner == t.banner && r.bannerTimer == t.bannerTimer
    ensures t.achievements <= r.achievements
    ensures r.achievements <= t.achievements + {TenStars, StarStreak}
    ensures r.jumps == t.jumps
  {
    var score := t.score + gain;
    var t1 := t.(score := if score >= ScoreWrap then 0 else score,
                 totalStars := t.totalStars + n,
                 combo := t.combo + n,
                 comboTimer := 1.8);
    var t2 := if t1.totalStars >= 10 then SetAchievement(t1, TenStars) else t1;
    if t2.combo >= 5 then SetAchievement(t2, StarStreak) else t2
  }

  /** Scoring `n > 0` collected stars: the tally is scored, and a score that
      reaches 10 is traded for 5 s of invincibility and the invincible cue. */
  function Award(s: GameState, n: nat): (r: GameState)
    requires n > 0
    ensures r.tally == ScoreTally(s.tally, n, Gain(s.fx, n))
    ensures r.tally.score < ScoreWrap
    ensures s.tally.score + Gain(s.fx, n) >= ScoreWrap ==>
              r.fx == s.fx.(invincible := 5.0) && r.audio.cues == s.audio.cues + [InvincibleCue]
    ensures s.tally.score + Gain(s.fx, n) < ScoreWrap ==>
              r.fx == s.fx && r.audio.cues == s.audio.cues
    ensures r == s.(tally := r.tally, fx := r.fx, audio := s.audio.(cues := r.audio.cues))
  {
    var wrap := s.tally.score + Gain(s.fx, n) >= ScoreWrap;
    s.(tally := ScoreTally(s.tally, n, Gain(s.fx, n)),
       fx := if wrap then s.fx.(invincible := 5.0) else s.fx,
       audio := s.audio.(cues := s.audio.cues + (if wrap then [InvincibleCue] else [])))
  }

  /** The star pickup: all overlapping stars are removed at once and scored
      together; with none overlapping nothing changes. */
  function CollectStars(s: GameState, hb: Box): (r: GameState)
    ensures r.stars == Missed(s.stars, hb)
    ensures |Collected(s.stars, hb)| == 0 ==> r == s
    ensures |Collected(s.stars, hb)| > 0 ==> r == Award(s, |Collected(s.stars, hb)|).(stars := r.stars)
    ensures s.tally.achievements <= r.tally.achievements && r.tally.jumps == s.tally.jumps
    ensures s.tally.score < ScoreWrap ==> r.tally.score < ScoreWrap
    ensures r.tally.comboTimer == s.tally.comboTimer || r.tally.comboTimer == 1.8
    ensures r.tally.bannerTimer == s.tally.bannerTimer || r.tally.bannerTimer == 2.6
    ensures r.fx == s.fx || r.fx == s.fx.(invincible := 5.0)
    ensures r == s.(stars := r.stars, fx := r.fx, tally := r.tally, audio := s.audio.(cues := r.audio.cues))
  {
    var n := |Collected(s.stars, hb)|;
    if n == 0 then s
    else Award(s, n).(stars := Missed(s.stars, hb))
  }

  /** Some overlapping power-up is of kind `k`. */
  predicate Caught(ps: seq<PowerUp>, hb: Box, k: Kind)
  {
    exists i :: 0 <= i < |ps| && TouchesPowerUp(hb, ps[i]) && ps[i].kind == k
  }

  /** The kinds of a list of power-ups, in order. */
  function Kinds(ps: seq<PowerUp>): (r: seq<Kind>)
    ensures |r| == |ps| && forall i :: 0 <= i < |ps| ==> r[i] == ps[i].kind
  {
    seq(|ps|, i requires 0 <= i < |ps| => ps[i].kind)
  }

  /** A kind is among the collected ones exactly when an overlapping
      power-up of that kind was in the field. */
  lemma CollectedKinds(ps: seq<PowerUp>, hb: Box, k: Kind)
    ensures k in Kinds(Filter(ps, p => TouchesPowerUp(hb, p))) <==> Caught(ps, hb, k)
  {
    var got := Filter(ps, p => TouchesPowerUp(hb, p));
    var kinds := Kinds(got);
    if k in kinds {
      var j :| 0 <= j < |kinds| && kinds[j] == k;
      assert got[j] in ps && TouchesPowerUp(hb, got[j]);
      var i :| 0 <= i < |ps| && ps[i] == got[j];
      assert TouchesPowerUp(hb, ps[i]) && ps[i].kind == k;
    }
    if Caught(ps, hb, k) {
      var i :| 0 <= i < |ps| && TouchesPowerUp(hb, ps[i]) && ps[i].kind == k;
      assert ps[i] in got;
      var j :| 0 <= j < |got| && got[j] == ps[i];
      assert kinds[j] == k;
    }
  }

  /** The effects after a power-up pickup: a timer is at its full length
      exactly when a power-up of its kind was collected and untouched
      otherwise, and the shield is up exactly when one was collected or it
      already was. */
  function Gather(fx: Effects, ps: seq<PowerUp>, hb: Box): (r: Effects)
    ensures forall i :: 0 <= i < |ps| && TouchesPowerUp(hb, ps[i]) ==> Applied(r, ps[i].kind)
    ensures r.slow == (if Caught(ps, hb, Slow) then 4.0 else fx.slow)
    ensures r.magnet == (if Caught(ps, hb, Magnet) then 6.0 else fx.magnet)
    ensures r.double == (if Caught(ps, hb, Double) then 6.0 else fx.double)
    ensures r.shield == (Caught(ps, hb, Shield) || fx.shield)
    ensures r.slow == 4.0 || r.slow == fx.slow
    ensures r.magnet == 6.0 || r.magnet == fx.magnet
    ensures r.double == 6.0 || r.double == fx.double
    ensures r.invincible == fx.invincible && r.slide == fx.slide && r.slideCooldown == fx.slideCooldown
  {
    var r := ApplyAll(fx, Kinds(Filter(ps, p => TouchesPowerUp(hb, p))));
    CollectedKinds(ps, hb, Slow);
    CollectedKinds(ps, hb, Magnet);
    CollectedKinds(ps, hb, Double);
    CollectedKinds(ps, hb, Shield);
    assert forall i :: 0 <= i < |ps| && TouchesPowerUp(hb, ps[i]) ==> Applied(r, ps[i].kind) by {
      forall i | 0 <= i < |ps| && TouchesPowerUp(hb, ps[i])
        ensures Applied(r, ps[i].kind)
      {
        assert Caught(ps, hb, ps[i].kind);
      }
    }
    r
  }

  /** The power-up pickup: exactly the overlapping power-ups are removed and
      their effects gathered. */
  function CollectPowerUps(s: GameState, hb: Box): (r: GameState)
    ensures r.powerups == Reject(s.powerups, p => TouchesPowerUp(hb, p))
    ensures r.fx == Gather(s.fx, s.powerups, hb)
    ensures r == s.(powerups := r.powerups, fx := r.fx)
  {
    s.(powerups := Reject(s.powerups, p => TouchesPowerUp(hb, p)), fx := Gather(s.fx, s.powerups, hb))
  }

  /** Both pickups of a frame that saw no blocking hit: stars, then
      power-ups. Only the pickups, the effects, the tally and the outbox
      change. */
  function Pickups(s: GameState, hb: Box): (r: GameState)
    ensures r.stars == Missed(s.stars, hb)
    ensures r.powerups == Reject(s.powerups, p => TouchesPowerUp(hb, p))
    ensures s.tally.achievements <= r.tally.achievements
    ensures s.tally.score < ScoreWrap ==> r.tally.score < ScoreWrap
    ensures r.tally.jumps == s.tally.jumps
    // Pickups only ever set a timer to its full length.
    ensures r.fx.invincible == s.fx.invincible || r.fx.invincible == 5.0
    ensures r.fx.slow == s.fx.slow || r.fx.slow == 4.0
    ensures r.fx.magnet == s.fx.magnet || r.fx.magnet == 6.0
    ensures r.fx.double == s.fx.double || r.fx.double == 6.0
    ensures r.fx.slide == s.fx.slide && r.fx.slideCooldown == s.fx.slideCooldown
    ensures r.tally.comboTimer == s.tally.comboTimer || r.tally.comboTimer == 1.8
    ensures r.tally.bannerTimer == s.tally.bannerTimer || r.tally.bannerTimer == 2.6
    ensures r == s.(stars := r.stars, powerups := r.powerups, fx := r.fx, tally := r.tally,
                    audio := s.audio.(cues := r.audio.cues))
  {
    var s1 := CollectStars(s, hb);
    PickupEffects(s.fx, s1.fx, s1.powerups, hb);
    var r := CollectPowerUps(s1, hb);
    assert r.tally == s1.tally && r.audio == s1.audio && r.stars == s1.stars;
    r
  }

  /** The effects of both pickups: the star award may only start the
      invincibility, the power-ups only their own timers. */
  lemma PickupEffects(fx0: Effects, fx1: Effects, ps: seq<PowerUp>, hb: Box)
    requires fx1 == fx0 || fx1 == fx0.(invincible := 5.0)
    ensures var r := Gather(fx1, ps, hb);
      && (r.invincible == fx0.invincible || r.invincible == 5.0)
      && (r.slow == fx0.slow || r.slow == 4.0)
      && (r.magnet == fx0.magnet || r.magnet == 6.0)
      && (r.double == fx0.double || r.double == 6.0)
      && r.slide == fx0.slide && r.slideCooldown == fx0.slideCooldown
  {
  }

  /** A shield spent on a hit: invincibility is raised to 1.2 s unless more
      is already left. */
  function BreakShield(s: GameState): (r: GameState)
    ensures !r.fx.shield && r.fx.invincible >= 1.2 && r.fx.invincible >= s.fx.invincible
    ensures r.fx.invincible == 1.2 || r.fx.invincible == s.fx.invincible
    ensures r == s.(fx := s.fx.(shield := false, invincible := r.fx.invincible))
  {
    s.(fx := s.fx.(shield := false, invincible := Max(s.fx.invincible, 1.2)))
  }

  /** `check_collisions`. */
  function CheckCollisions(s: GameState): (r: GameState)
    ensures var hb := HurtBox(s.body, s.fx.slide);
      var blocked := s.fx.invincible <= 0.0 && AnyHit(hb, s.obstacles);
      && (blocked && s.fx.shield ==> r == BreakShield(s))
      && (blocked && !s.fx.shield ==> r == EndGame(s, HitObstacle))
      && (!blocked ==> r == Pickups(s, hb))
    ensures r.body == s.body && r.obstacles == s.obstacles && r.mode == s.mode && r.front == s.front
    ensures r.tally.achievements >= s.tally.achievements
    ensures r.tally.jumps == s.tally.jumps
    ensures s.tally.score < ScoreWrap ==> r.tally.score < ScoreWrap
    ensures r.spawner == s.spawner && r.elapsed == s.elapsed
    ensures r.paused == s.paused && r.awaiting == s.awaiting && r.preparing == s.preparing
    ensures NoWorse(s.records, r.records)
    ensures r.endReason == s.endReason || (r.endReason == HitObstacle && !r.running)
  {
    var hb := HurtBox(s.body, s.fx.slide);
    if s.fx.invincible <= 0.0 && AnyHit(hb, s.obstacles) then
      if s.fx.shield then BreakShield(s) else EndGame(s, HitObstacle)
    else Pickups(s, hb)
  }

  /** While invincible no obstacle is even looked at: the frame's outcome is
      the same whatever obstacles are in the field. */
  lemma InvincibleIgnoresObstacles(s: GameState, obs: seq<Obstacle>)
    requires s.fx.invincible > 0.0
    ensures CheckCollisions(s.(obstacles := obs)) == CheckCollisions(s).(obstacles := obs)
  {
    var hb := HurtBox(s.body, s.fx.slide);
    var t := s.(obstacles := obs);
    assert CollectStars(t, hb) == CollectStars(s, hb).(obstacles := obs);
    assert Pickups(t, hb) == Pickups(s, hb).(obstacles := obs);
  }

  /** A hit without a shield or invincibility ends the run with "hit". */
  lemma UnshieldedHitEndsRun(s: GameState)
    requires s.fx.invincible <= 0.0 && !s.fx.shield
    requires AnyHit(HurtBox(s.body, s.fx.slide), s.obstacles)
    ensures !CheckCollisions(s).running && CheckCollisions(s).endReason == HitObstacle
  {
  }

  /** A shielded hit spends the shield for at least 1.2 s of invincibility,
      keeps the run going and collects nothing that frame. */
  lemma ShieldAbsorbsHit(s: GameState)
    requires s.fx.invincible <= 0.0 && s.fx.shield
    requires AnyHit(HurtBox(s.body, s.fx.slide), s.obstacles)
    ensures var r := CheckCollisions(s);
      && !r.fx.shield && r.fx.invincible >= 1.2
      && r.running == s.running && r.endReason == s.endReason
      && r.stars == s.stars && r.powerups == s.powerups && r.tally == s.tally
  {
  }
}
