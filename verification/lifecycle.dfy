/** What holds of every reachable state, the phases of a run, and the
    properties of whole frames and of sequences of frames and inputs. */
module Lifecycle {
  import opened Model
  import opened Physics
  import opened Progress
  import opened Director
  import opened World
  import opened Collision
  import opened Hints
  import opened Commands
  import opened Engine

  /** The star score is always below its wrap value. */
  predicate ScoreOk(s: GameState) { s.tally.score < ScoreWrap }

  /** No countdown timer is ever negative. */
  predicate TimersOk(s: GameState)
  {
    && s.fx.invincible >= 0.0 && s.fx.slow >= 0.0 && s.fx.magnet >= 0.0 && s.fx.double >= 0.0
    && s.fx.slide >= 0.0 && s.fx.slideCooldown >= 0.0
    && s.tally.comboTimer >= 0.0 && s.tally.bannerTimer >= 0.0
    && s.audio.hintCooldown >= 0.0 && s.countdown >= 0.0
  }

  /** The challenge script is the fixed pattern and its cursor stays within
      it. */
  predicate ScriptOk(s: GameState)
  {
    s.spawner.script == ChallengePattern() && s.spawner.scriptIndex <= |s.spawner.script|
  }

  /** The body never sinks below the floor, rests exactly on it when
      grounded, and has used at most its one air jump. */
  predicate BodyOk(b: Body)
  {
    && b.y <= Floor(b)
    && (b.onGround ==> b.y == Floor(b) && b.vy == 0.0 && b.airJumps == 0)
    && b.airJumps <= MaxAirJumps
  }

  /** The lifecycle flags: the countdown only runs on the start screen, the
      start screen has no live or ended run, only a live run can be paused,
      and after the start screen a run is live exactly while it has no end
      reason. */
  predicate FlagsOk(s: GameState)
  {
    && (s.preparing ==> s.awaiting)
    && (s.awaiting ==> !s.running && s.endReason == NoReason)
    && (s.paused ==> s.running)
    && (!s.awaiting ==> (s.running <==> s.endReason == NoReason))
  }

  predicate Inv(s: GameState)
  {
    ScoreOk(s) && TimersOk(s) && ScriptOk(s) && BodyOk(s.body) && FlagsOk(s)
  }

  /** The phase a state is in. */
  datatype Phase = AwaitingStart | CountingDown | Playing | Paused | Over

  function PhaseOf(s: GameState): Phase
  {
    if s.preparing then CountingDown
    else if s.awaiting then AwaitingStart
    else if s.paused then Paused
    else if s.running then Playing
    else Over
  }

  /** The phase changes a frame can make: a countdown may run out into play
      (and that first frame may already end the run), play may end, and the
      other phases stand still. */
  predicate FrameStep(p: Phase, q: Phase)
  {
    match p
    case AwaitingStart => q == AwaitingStart
    case CountingDown => q == CountingDown || q == Playing || q == Over
    case Playing => q == Playing || q == Over
    case Paused => q == Paused
    case Over => q == Over
  }

  // ---------------------------------------------------------------------
  // Initial state and commands

  /** Every reset lands on the start screen in a state satisfying the
      invariant, whatever the state before. */
  lemma ResetEstablishes(s: GameState)
    ensures Inv(Reset(s)) && PhaseOf(Reset(s)) == AwaitingStart
  {
    ScriptShape();
  }

  lemma InitEstablishes(front: Front, rec: Records)
    ensures Inv(Init(front, rec)) && PhaseOf(Init(front, rec)) == AwaitingStart
  {
    var blank := GameState(
      front, Endless, true, false, 0.0, false, false, NoReason, 0.0, 0.0, 1.0, 0,
      Body(HorseX, GroundY - 70.0, 110.0, 70.0, 0.0, true, 0),
      Effects(0.0, 0.0, 0.0, 0.0, 0.0, 0.0, false),
      Spawner(0.0, 0.0, 0.0, [], 0, 0.0), [], [], [],
      Tally(0, 0, 0, 0.0, 0, {}, None, 0.0),
      Audio(None, 0.0, 0, false, 0, 0, []),
      rec);
    assert Init(front, rec) == Reset(blank);
    ResetEstablishes(blank);
  }

  /** The phase changes a command can make. */
  predicate CommandStep(c: Command, p: Phase, q: Phase)
  {
    match c
    case StartButton => q == (if p == AwaitingStart then CountingDown else p)
    case EnterKey =>
      q == (match p
            case AwaitingStart => CountingDown
            case Playing => Paused
            case Paused => Playing
            case _ => p)
    case PauseButton =>
      q == (match p
            case Playing => Paused
            case Paused => Playing
            case _ => p)
    case JumpKey => q == p
    case SlideKey => q == p
    case ModeKey => q == (if p == Playing then Playing else AwaitingStart)
    case ResetKey => q == AwaitingStart
  }

  /** Every command keeps the invariant, makes only the phase change the
      source allows, and leaves the records alone. */
  lemma ApplyKeepsInv(s: GameState, c: Command)
    requires Inv(s)
    ensures Inv(Apply(s, c))
    ensures CommandStep(c, PhaseOf(s), PhaseOf(Apply(s, c)))
    ensures Apply(s, c).records == s.records
  {
    match c
    case ModeKey =>
      if !(s.running && !s.paused) {
        ResetEstablishes(s.(mode := NextMode(s.mode)));
      }
    case ResetKey =>
      ResetEstablishes(s);
    case _ =>
  }

  // ---------------------------------------------------------------------
  // Frames

  /** The stages of a live frame, named for the proofs below. */
  lemma FrameStages(s: GameState, dt: real, elapsed: real, d: Draws, hyp: (real, real) -> real)
    requires d.Valid() && NonNegative(hyp)
    ensures var s4 := CheckCollisions(Move(Direct(Pace(s, dt, elapsed), dt, d), dt, hyp));
      Frame(s, dt, elapsed, d, hyp) == Advise(Milestones(Decay(s4, dt)))
  {
  }

  /** A live frame keeps the invariant, stage by stage. */
  lemma FrameKeepsInv(s: GameState, dt: real, elapsed: real, d: Draws, hyp: (real, real) -> real)
    requires d.Valid() && NonNegative(hyp)
    requires Inv(s) && s.running && !s.paused
    ensures Inv(Frame(s, dt, elapsed, d, hyp))
  {
    var s1 := Pace(s, dt, elapsed);
    PaceKeeps(s, dt, elapsed);
    var s2 := Direct(s1, dt, d);
    DirectKeeps(s1, dt, d);
    var s3 := Move(s2, dt, hyp);
    MoveKeeps(s2, dt, hyp);
    var s4 := CheckCollisions(s3);
    CollisionKeeps(s3);
    var s5 := Decay(s4, dt);
    DecayKeeps(s4, dt);
    var s6 := Milestones(s5);
    MilestonesKeep(s5);
    AdviseKeeps(s6);
    FrameStages(s, dt, elapsed, d, hyp);
  }

  lemma PaceKeeps(s: GameState, dt: real, elapsed: real)
    requires Inv(s) && s.running && !s.paused
    ensures var r := Pace(s, dt, elapsed); Inv(r) && r.running && !r.paused
  {
  }

  lemma DirectKeeps(s: GameState, dt: real, d: Draws)
    requires d.Valid()
    requires Inv(s) && s.running && !s.paused
    ensures var r := Direct(s, dt, d); Inv(r) && r.running && !r.paused
  {
  }

  lemma MoveKeeps(s: GameState, dt: real, hyp: (real, real) -> real)
    requires NonNegative(hyp)
    requires Inv(s) && s.running && !s.paused
    ensures var r := Move(s, dt, hyp); Inv(r) && r.running && !r.paused
  {
  }

  lemma DecayKeeps(s: GameState, dt: real)
    requires Inv(s)
    ensures Inv(Decay(s, dt))
  {
  }

  lemma MilestonesKeep(s: GameState)
    requires Inv(s) && !s.awaiting && !s.paused
    ensures Inv(Milestones(s))
  {
  }

  lemma AdviseKeeps(s: GameState)
    requires Inv(s)
    ensures Inv(Advise(s))
  {
  }

  /** The collision stage keeps the invariant; a hit that ends the run does
      so with its reason. */
  lemma CollisionKeeps(s: GameState)
    requires Inv(s) && s.running && !s.paused
    ensures Inv(CheckCollisions(s))
  {
    var hb := HurtBox(s.body, s.fx.slide);
    if s.fx.invincible <= 0.0 && AnyHit(hb, s.obstacles) {
      if s.fx.shield {
        assert Inv(BreakShield(s));
      } else {
        assert Inv(EndGame(s, HitObstacle));
      }
    } else {
      assert Inv(Pickups(s, hb));
    }
  }

  /** A whole frame keeps the invariant and makes only the phase changes a
      frame can make. */
  lemma TickKeepsInv(s: GameState, delta: real, elapsed: real, d: Draws, hyp: (real, real) -> real)
    requires d.Valid() && NonNegative(hyp)
    requires Inv(s)
    ensures Inv(Tick(s, delta, elapsed, d, hyp))
    ensures FrameStep(PhaseOf(s), PhaseOf(Tick(s, delta, elapsed, d, hyp)))
  {
    var dt := Min(MaxDt, delta);
    var c := CountdownStep(s, dt);
    assert Inv(c);
    if c.running && !c.paused {
      FrameKeepsInv(c, dt, elapsed, d, hyp);
      var r := Frame(c, dt, elapsed, d, hyp);
      assert !r.awaiting && !r.preparing && !r.paused;
    }
  }

  /** In timed mode a live frame at or past the 60 s limit always ends the
      run with the timed reason and the timed title, even when an obstacle
      hit already ended it earlier in the same frame. */
  lemma TimeLimitEndsRun(s: GameState, delta: real, elapsed: real, d: Draws, hyp: (real, real) -> real)
    requires d.Valid() && NonNegative(hyp)
    requires Inv(s) && s.running && !s.paused && s.mode == Timed && elapsed >= TimeLimit
    ensures var r := Tick(s, delta, elapsed, d, hyp);
      !r.running && r.endReason == TimeUp && TimedVictory in r.tally.achievements
  {
    var dt := Min(MaxDt, delta);
    var s4 := CheckCollisions(Move(Direct(Pace(s, dt, elapsed), dt, d), dt, hyp));
    var s5 := Decay(s4, dt);
    assert s5.elapsed == elapsed && s5.mode == Timed;
    assert TimeIsUp(SurvivalTitles(s5));
    FrameStages(s, dt, elapsed, d, hyp);
  }

  /** A challenge frame ends the run as cleared only with an empty field
      and a spent script, so a cleared run had nothing left to hit. */
  lemma ClearedMeansEmptyField(s: GameState, delta: real, elapsed: real, d: Draws, hyp: (real, real) -> real)
    requires d.Valid() && NonNegative(hyp)
    requires Inv(s) && s.running && !s.paused && s.mode == Challenge
    ensures var r := Tick(s, delta, elapsed, d, hyp);
      r.endReason == ScriptCleared ==>
        && r.obstacles == [] && r.spawner.scriptIndex == ScriptLength
        && ChallengeCleared in r.tally.achievements && !r.running
  {
    var dt := Min(MaxDt, delta);
    var s3 := Move(Direct(Pace(s, dt, elapsed), dt, d), dt, hyp);
    PaceKeeps(s, dt, elapsed);
    DirectKeeps(Pace(s, dt, elapsed), dt, d);
    MoveKeeps(Direct(Pace(s, dt, elapsed), dt, d), dt, hyp);
    var s5 := Decay(CheckCollisions(s3), dt);
    assert s5.endReason != ScriptCleared;
    ClearingNeedsEmptyField(s5);
    FrameStages(s, dt, elapsed, d, hyp);
    ScriptShape();
  }

  /** The milestones end a challenge run as cleared only from an empty
      field and a spent script. */
  lemma ClearingNeedsEmptyField(t: GameState)
    requires t.mode == Challenge && t.endReason != ScriptCleared
    requires ScriptOk(t)
    ensures var r := Milestones(t);
      && r.obstacles == t.obstacles && r.spawner == t.spawner
      && (r.endReason == ScriptCleared ==>
            && t.obstacles == [] && t.spawner.scriptIndex == ScriptLength
            && ChallengeCleared in r.tally.achievements && !r.running)
  {
    ScriptShape();
    var u := SurvivalTitles(t);
    assert !TimeIsUp(u);
    if ScriptIsCleared(u) {
      assert Milestones(t) == EndWith(u, ChallengeCleared, ScriptCleared);
    } else {
      assert Milestones(t) == u;
    }
  }

  /** A live challenge frame that finds the script spent and the field
      clear after collisions ends the run as cleared. */
  lemma EmptyFieldClears(s: GameState, delta: real, elapsed: real, d: Draws, hyp: (real, real) -> real)
    requires d.Valid() && NonNegative(hyp)
    requires Inv(s) && s.running && !s.paused && s.mode == Challenge
    requires s.spawner.scriptIndex == ScriptLength
    requires var dt := Min(MaxDt, delta);
      Move(Direct(Pace(s, dt, elapsed), dt, d), dt, hyp).obstacles == []
    ensures var r := Tick(s, delta, elapsed, d, hyp);
      !r.running && r.endReason == ScriptCleared && ChallengeCleared in r.tally.achievements
  {
    var dt := Min(MaxDt, delta);
    var s3 := Move(Direct(Pace(s, dt, elapsed), dt, d), dt, hyp);
    ScriptShape();
    assert s3.spawner.scriptIndex == ScriptLength == |s3.spawner.script|;
    var s5 := Decay(CheckCollisions(s3), dt);
    assert ScriptIsCleared(SurvivalTitles(s5));
    FrameStages(s, dt, elapsed, d, hyp);
  }

  // ---------------------------------------------------------------------
  // Sessions

  /** One thing that can happen to the game: a frame with its clock readings
      and random draws, or a player command. */
  datatype Event = FrameEvent(delta: real, elapsed: real, draws: Draws) | Input(cmd: Command)

  predicate DrawsValid(evs: seq<Event>)
  {
    forall i :: 0 <= i < |evs| && evs[i].FrameEvent? ==> evs[i].draws.Valid()
  }

  function Step(s: GameState, e: Event, hyp: (real, real) -> real): GameState
    requires (e.FrameEvent? ==> e.draws.Valid()) && NonNegative(hyp)
  {
    match e
    case FrameEvent(delta, elapsed, d) => Tick(s, delta, elapsed, d, hyp)
    case Input(c) => Apply(s, c)
  }

  /** A session: the events applied in order. */
  function Run(s: GameState, evs: seq<Event>, hyp: (real, real) -> real): GameState
    requires DrawsValid(evs) && NonNegative(hyp)
    decreases |evs|
  {
    if evs == [] then s
    else
      assert DrawsValid(evs[1..]) by {
        forall i | 0 <= i < |evs[1..]| && evs[1..][i].FrameEvent?
          ensures evs[1..][i].draws.Valid()
        {
          assert evs[1..][i] == evs[i + 1];
        }
      }
      Run(Step(s, evs[0], hyp), evs[1..], hyp)
  }

  /** Every state a session reaches satisfies the invariant, the records
      never get worse, and the front end never changes. */
  lemma {:induction false} RunKeepsInv(s: GameState, evs: seq<Event>, hyp: (real, real) -> real)
    requires DrawsValid(evs) && NonNegative(hyp)
    requires Inv(s)
    ensures Inv(Run(s, evs, hyp))
    ensures NoWorse(s.records, Run(s, evs, hyp).records)
    ensures Run(s, evs, hyp).front == s.front
    decreases |evs|
  {
    if evs != [] {
      var t := Step(s, evs[0], hyp);
      if evs[0].FrameEvent? {
        assert evs[0].draws.Valid();
        TickKeepsInv(s, evs[0].delta, evs[0].elapsed, evs[0].draws, hyp);
      } else {
        ApplyKeepsInv(s, evs[0].cmd);
      }
      assert DrawsValid(evs[1..]) by {
        forall i | 0 <= i < |evs[1..]| && evs[1..][i].FrameEvent?
          ensures evs[1..][i].draws.Valid()
        {
          assert evs[1..][i] == evs[i + 1];
        }
      }
      RunKeepsInv(t, evs[1..], hyp);
    }
  }

  /** From the start screen the game sits still until a command arrives:
      frames alone never leave it. */
  lemma {:induction false} FramesAloneStayPut(s: GameState, evs: seq<Event>, hyp: (real, real) -> real)
    requires DrawsValid(evs) && NonNegative(hyp)
    requires Inv(s) && PhaseOf(s) == AwaitingStart
    requires forall i :: 0 <= i < |evs| ==> evs[i].FrameEvent?
    ensures Run(s, evs, hyp) == s
    decreases |evs|
  {
    if evs != [] {
      assert DrawsValid(evs[1..]) by {
        forall i | 0 <= i < |evs[1..]| && evs[1..][i].FrameEvent?
          ensures evs[1..][i].draws.Valid()
        {
          assert evs[1..][i] == evs[i + 1];
        }
      }
      assert evs[0].FrameEvent? && evs[0].draws.Valid();
      assert Step(s, evs[0], hyp) == s;
      FramesAloneStayPut(s, evs[1..], hyp);
    }
  }
}
