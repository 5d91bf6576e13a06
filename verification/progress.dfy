/** One-shot achievements, best-of records and the run-end transition
    (horse_game.py:652-689, main.py:549-585). */
module Progress {
  import opened Model

  /** `_set_achievement`: a title already unlocked changes nothing; a new one
      joins the set and shows its banner for 2.6 s. */
  function SetAchievement(t: Tally, a: Achievement): (r: Tally)
    ensures a in r.achievements
    ensures r.achievements == t.achievements + {a}
    ensures a in t.achievements ==> r == t
    ensures a !in t.achievements ==>
              r == t.(achievements := r.achievements, banner := Some(a), bannerTimer := 2.6)
  {
    if a in t.achievements then t
    else t.(achievements := t.achievements + {a}, banner := Some(a), bannerTimer := 2.6)
  }

  /** Triggering the same title `n` times in a row. */
  function Repeat(t: Tally, a: Achievement, n: nat): Tally
  {
    if n == 0 then t else SetAchievement(Repeat(t, a, n - 1), a)
  }

  /** Re-triggering an unlocked title is a no-op, so any positive number of
      triggers has exactly the effect of the first. */
  lemma {:induction false} RepeatIsOnce(t: Tally, a: Achievement, n: nat)
    requires n >= 1
    ensures Repeat(t, a, n) == SetAchievement(t, a)
  {
    if n > 1 {
      RepeatIsOnce(t, a, n - 1);
    }
  }

  /** `_update_records`: the five maximised fields only ever grow; the timed
      best changes only in timed mode; the challenge best only on a cleared
      challenge, and then only from the 0 sentinel or to a strictly smaller
      time. */
  function UpdateRecords(rec: Records, mode: Mode, reason: EndReason, elapsed: real,
                         distance: real, totalStars: nat, combo: nat): (r: Records)
    ensures r.bestTime == Max(rec.bestTime, elapsed)
    ensures r.bestDistance == Max(rec.bestDistance, distance)
    ensures r.bestScore >= rec.bestScore && r.bestScore >= totalStars
    ensures r.bestScore == rec.bestScore || r.bestScore == totalStars
    ensures r.bestCombo >= rec.bestCombo && r.bestCombo >= combo
    ensures r.bestCombo == rec.bestCombo || r.bestCombo == combo
    ensures r.bestTimedScore >= rec.bestTimedScore
    ensures mode != Timed ==> r.bestTimedScore == rec.bestTimedScore
    ensures mode == Timed ==> r.bestTimedScore >= totalStars
    ensures mode == Timed ==> r.bestTimedScore == rec.bestTimedScore || r.bestTimedScore == totalStars
    ensures r.bestChallengeTime != rec.bestChallengeTime ==>
              && mode == Challenge && reason == ScriptCleared
              && r.bestChallengeTime == elapsed
              && (rec.bestChallengeTime == 0.0 || elapsed < rec.bestChallengeTime)
    ensures mode == Challenge && reason == ScriptCleared
            && (rec.bestChallengeTime == 0.0 || elapsed < rec.bestChallengeTime) ==>
              r.bestChallengeTime == elapsed
  {
    var bestTime := if elapsed > rec.bestTime then elapsed else rec.bestTime;
    var bestDistance := if distance > rec.bestDistance then distance else rec.bestDistance;
    var bestScore := if totalStars > rec.bestScore then totalStars else rec.bestScore;
    var bestCombo := if combo > rec.bestCombo then combo else rec.bestCombo;
    var bestTimed := if mode == Timed && totalStars > rec.bestTimedScore then totalStars else rec.bestTimedScore;
    var bestChallenge :=
      if mode == Challenge && reason == ScriptCleared
         && (rec.bestChallengeTime == 0.0 || elapsed < rec.bestChallengeTime)
      then elapsed else rec.bestChallengeTime;
    Records(bestTime, bestDistance, bestScore, bestCombo, bestTimed, bestChallenge)
  }

  /** The first run merged into the fallback records of a fresh install
      (horse_game.py:176-196) sets every best to that run's own figures. */
  lemma FirstRecords(mode: Mode, reason: EndReason, elapsed: real, distance: real, totalStars: nat, combo: nat)
    requires elapsed >= 0.0 && distance >= 0.0
    ensures var r := UpdateRecords(DefaultRecords(), mode, reason, elapsed, distance, totalStars, combo);
      && r.bestTime == elapsed && r.bestDistance == distance
      && r.bestScore == totalStars && r.bestCombo == combo
      && r.bestTimedScore == (if mode == Timed then totalStars else 0)
      && r.bestChallengeTime == (if mode == Challenge && reason == ScriptCleared then elapsed else 0.0)
  {
  }

  /** Records never get worse on the five maximised fields. */
  predicate NoWorse(a: Records, b: Records)
  {
    && a.bestTime <= b.bestTime
    && a.bestDistance <= b.bestDistance
    && a.bestScore <= b.bestScore
    && a.bestCombo <= b.bestCombo
    && a.bestTimedScore <= b.bestTimedScore
  }

  /** `_end_game`: the run stops with its reason and the records are merged
      (and saved, which is opaque here). The desktop front end first stops
      every playing sound; both raise the hit cue on a hit. */
  function EndGame(s: GameState, reason: EndReason): (r: GameState)
    requires reason != NoReason
    ensures !r.running && r.endReason == reason
    ensures r.records == UpdateRecords(s.records, s.mode, reason, s.elapsed, s.distance, s.tally.totalStars, s.tally.combo)
    ensures NoWorse(s.records, r.records)
    ensures r.audio.cues ==
              s.audio.cues
              + (if s.front.Desktop? then [StopAll] else [])
              + (if reason == HitObstacle then [HitCue] else [])
    ensures r == s.(running := false, endReason := reason, records := r.records,
                    audio := s.audio.(cues := r.audio.cues))
  {
    var rec := UpdateRecords(s.records, s.mode, reason, s.elapsed, s.distance, s.tally.totalStars, s.tally.combo);
    var stop := if s.front.Desktop? then [StopAll] else [];
    var hit := if reason == HitObstacle then [HitCue] else [];
    s.(running := false, endReason := reason, records := rec,
       audio := s.audio.(cues := s.audio.cues + stop + hit))
  }
}
