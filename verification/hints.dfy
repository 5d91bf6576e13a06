/** The hint advisor: the message chosen from the nearest obstacle ahead and
    the throttled announcement of a changed hint (horse_game.py:691-703,
    1132-1152; main.py:536-547, 879-892). */
module Hints {
  import opened Model

  /** An obstacle is ahead while its right edge has not passed the body's
      right edge `front`. */
  predicate Ahead(o: Obstacle, front: real) { o.x + o.w >= front }

  /** The left edge of the nearest obstacle ahead, if any. */
  function NearestX(obs: seq<Obstacle>, front: real): (r: Option<real>)
    ensures r.None? <==> forall i :: 0 <= i < |obs| ==> !Ahead(obs[i], front)
    ensures r.Some? ==> exists i :: 0 <= i < |obs| && Ahead(obs[i], front) && obs[i].x == r.value
    ensures r.Some? ==> forall i :: 0 <= i < |obs| && Ahead(obs[i], front) ==> r.value <= obs[i].x
    decreases |obs|
  {
    if obs == [] then None
    else
      var rest := NearestX(obs[1..], front);
      assert forall i :: 1 <= i < |obs| ==> obs[i] == obs[1..][i - 1];
      if !Ahead(obs[0], front) then rest
      else if rest.None? || obs[0].x <= rest.value then Some(obs[0].x)
      else rest
  }

  /** `nearest_hint`: nothing ahead keeps the rhythm; an obstacle closer
      than 60 warns; a grounded body within 220 gets ready; anything else
      means watch ahead. */
  function NearestHint(b: Body, obs: seq<Obstacle>): (h: Hint)
  {
    var front := b.x + b.w;
    match NearestX(obs, front)
    case None => KeepRhythm
    case Some(x) =>
      if x - front < 60.0 then Caution
      else if b.onGround && x - front < 220.0 then Ready
      else Observe
  }

  /** The hint stated without the nearest-obstacle search, as a property of
      the obstacles ahead. */
  predicate SomeAheadWithin(b: Body, obs: seq<Obstacle>, d: real)
  {
    exists i :: 0 <= i < |obs| && Ahead(obs[i], b.x + b.w) && obs[i].x - (b.x + b.w) < d
  }

  /** Each hint holds exactly when its condition on the obstacles ahead
      holds. */
  lemma NearestHintMeaning(b: Body, obs: seq<Obstacle>)
    ensures NearestHint(b, obs) == KeepRhythm <==>
              forall i :: 0 <= i < |obs| ==> !Ahead(obs[i], b.x + b.w)
    ensures NearestHint(b, obs) == Caution <==> SomeAheadWithin(b, obs, 60.0)
    ensures NearestHint(b, obs) == Ready <==>
              !SomeAheadWithin(b, obs, 60.0) && b.onGround && SomeAheadWithin(b, obs, 220.0)
    ensures NearestHint(b, obs) == Observe <==>
              && (exists i :: 0 <= i < |obs| && Ahead(obs[i], b.x + b.w))
              && !SomeAheadWithin(b, obs, 60.0)
              && (!b.onGround || !SomeAheadWithin(b, obs, 220.0))
  {
    var front := b.x + b.w;
    var n := NearestX(obs, front);
    if n.Some? {
      var i :| 0 <= i < |obs| && Ahead(obs[i], front) && obs[i].x == n.value;
      if n.value - front < 60.0 {
        assert SomeAheadWithin(b, obs, 60.0);
      } else if n.value - front < 220.0 {
        assert SomeAheadWithin(b, obs, 220.0);
      }
    }
  }

  /** `Announce`: a hint different from the current one becomes current. A
      cue is raised only while the hint cooldown has run out; the kivy front
      end then always raises it, the desktop one only on every 50th caution
      and every 20th other hint. Raising a cue rearms the cooldown at 1 s. */
  function Announce(a: Audio, front: Front, h: Hint): (r: Audio)
    ensures a.hint == Some(h) ==> r == a
    ensures r.hint == Some(h)
    ensures a.hint != Some(h) && a.hintCooldown > 0.0 ==> r == a.(hint := Some(h))
    ensures |a.cues| <= |r.cues| <= |a.cues| + 1 && r.cues[..|a.cues|] == a.cues
    ensures |r.cues| == |a.cues| + 1 ==> r.cues[|a.cues|] == HintCue(h) && r.hintCooldown == 1.0
    ensures |r.cues| == |a.cues| ==> r.hintCooldown == a.hintCooldown
    ensures front.Mobile? ==>
              (|r.cues| == |a.cues| + 1 <==> a.hint != Some(h) && a.hintCooldown <= 0.0)
    ensures front.Mobile? ==> r.hintCounter == a.hintCounter && r.cautionCounter == a.cautionCounter
    ensures front.Desktop? && a.hint != Some(h) && a.hintCooldown <= 0.0 ==>
              if h == Caution then
                && r.cautionCounter == a.cautionCounter + 1 && r.hintCounter == a.hintCounter
                && (|r.cues| == |a.cues| + 1 <==> r.cautionCounter % 50 == 0)
              else
                && r.hintCounter == a.hintCounter + 1 && r.cautionCounter == a.cautionCounter
                && (|r.cues| == |a.cues| + 1 <==> r.hintCounter % 20 == 0)
    ensures r.jumpSoundCounter == a.jumpSoundCounter && r.jumpPromptPlayed == a.jumpPromptPlayed
  {
    if a.hint == Some(h) then a
    else
      var a := a.(hint := Some(h));
      if a.hintCooldown > 0.0 then a
      else match front
        case Mobile => a.(cues := a.cues + [HintCue(h)], hintCooldown := 1.0)
        case Desktop(_, _) =>
          if h == Caution then
            var n := a.cautionCounter + 1;
            if n % 50 == 0 then a.(cautionCounter := n, cues := a.cues + [HintCue(h)], hintCooldown := 1.0)
            else a.(cautionCounter := n)
          else
            var n := a.hintCounter + 1;
            if n % 20 == 0 then a.(hintCounter := n, cues := a.cues + [HintCue(h)], hintCooldown := 1.0)
            else a.(hintCounter := n)
  }

  /** Hint changes spaced by the cooldown: from fresh counters the kivy front
      end voices the first change, the desktop one keeps it silent. */
  lemma FrontEndsDiffer(a: Audio, h: Hint, w: real, hh: real)
    requires a.hint != Some(h) && a.hintCooldown <= 0.0
    requires a.hintCounter == 0 && a.cautionCounter == 0
    ensures |Announce(a, Mobile, h).cues| == |a.cues| + 1
    ensures Announce(a, Desktop(w, hh), h).cues == a.cues
  {
  }
}
