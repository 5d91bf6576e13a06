/** The spawn director: the fixed challenge script, obstacle generation,
    difficulty pacing and the three spawn cadences
    (horse_game.py:260-276, 455-482, 528-542, 1058-1090; main.py:216-231,
    353-405, 804-837). */
module Director {
  import opened Model

  /** The theme cycle of the challenge script. */
  const ScriptThemes: seq<Theme> := [Fence, Data, Lantern, Light]

  /** The first `n` entries of the challenge script, built as the source's
      `for i in range(12)` loop appends them. */
  function BuildScript(n: nat): (r: seq<ScriptEntry>)
    ensures |r| == n
    ensures forall i :: 0 <= i < n ==>
              && r[i].delay == 1.1 + 0.15 * i as real
              && r[i].h == 70 + 3 * i
              && r[i].w == 50 + 10 * (i % 3)
              && r[i].speed == 260 + 12 * i
              && r[i].theme == ScriptThemes[i % 4]
  {
    if n == 0 then []
    else
      var i := n - 1;
      BuildScript(i) + [ScriptEntry(1.1 + i as real * 0.15, 70 + i * 3, 50 + (i % 3) * 10,
                                    260 + i * 12, ScriptThemes[i % |ScriptThemes|])]
  }

  /** `_make_challenge_pattern`: the twelve scripted obstacles. */
  function ChallengePattern(): seq<ScriptEntry>
  {
    BuildScript(ScriptLength)
  }

  /** The script grows strictly harder: delays, heights and speeds strictly
      increase along it, widths cycle with period 3 and themes with period 4. */
  lemma ScriptShape()
    ensures |ChallengePattern()| == ScriptLength
    ensures ChallengePattern()[0].delay == 1.1
    ensures forall i, j :: 0 <= i < j < ScriptLength ==>
              && ChallengePattern()[i].delay < ChallengePattern()[j].delay
              && ChallengePattern()[i].h < ChallengePattern()[j].h
              && ChallengePattern()[i].speed < ChallengePattern()[j].speed
    ensures forall i :: 0 <= i < ScriptLength - 3 ==> ChallengePattern()[i].w == ChallengePattern()[i + 3].w
    ensures forall i :: 0 <= i < ScriptLength - 4 ==> ChallengePattern()[i].theme == ChallengePattern()[i + 4].theme
  {
    var p := ChallengePattern();
    forall i | 0 <= i < ScriptLength - 3
      ensures p[i].w == p[i + 3].w
    {
      assert (i + 3) % 3 == i % 3;
    }
    forall i | 0 <= i < ScriptLength - 4
      ensures p[i].theme == p[i + 4].theme
    {
      assert (i + 4) % 4 == i % 4;
    }
  }

  /** Sum of the delays of a script prefix. */
  function TotalDelay(s: seq<ScriptEntry>): real
  {
    if s == [] then 0.0 else TotalDelay(s[..|s| - 1]) + s[|s| - 1].delay
  }

  /** 1.1 n + 0.15 (0 + 1 + ... + (n - 1)): the delays of the first `n`
      entries in closed form. */
  function DelaySum(n: nat): real
  {
    1.1 * n as real + 0.075 * (n as real) * (n as real - 1.0)
  }

  lemma DelaySumStep(n: nat)
    requires n > 0
    ensures DelaySum(n) == DelaySum(n - 1) + (1.1 + 0.15 * (n - 1) as real)
  {
    var m := (n - 1) as real;
    assert n as real == m + 1.0;
  }

  lemma {:induction false} TotalDelayOfPrefix(n: nat)
    ensures TotalDelay(BuildScript(n)) == DelaySum(n)
  {
    if n > 0 {
      TotalDelayOfPrefix(n - 1);
      var s := BuildScript(n);
      assert s[..|s| - 1] == BuildScript(n - 1);
      DelaySumStep(n);
    }
  }

  /** The whole script waits 23.1 s of delays. */
  lemma ScriptTotalDelay()
    ensures TotalDelay(ChallengePattern()) == 23.1
  {
    TotalDelayOfPrefix(ScriptLength);
    assert DelaySum(12) == 23.1;
  }

  /** Difficulty recomputed each running frame: it rises with the elapsed
      time and caps at 3.2, except in challenge mode where it is pinned. */
  function Difficulty(mode: Mode, elapsed: real): (r: real)
    ensures mode == Challenge ==> r == 1.0
    ensures mode != Challenge ==> r <= 3.2
    ensures mode != Challenge && elapsed >= 0.0 ==> 1.0 <= r
    ensures mode != Challenge && elapsed >= 83.6 ==> r == 3.2
    // The ramp itself: one more level for every 38 s, until the cap.
    ensures mode != Challenge && elapsed <= 83.6 ==> r == 1.0 + elapsed / 38.0
  {
    if mode != Challenge then 1.0 + Min(elapsed / 38.0, 2.2) else 1.0
  }

  /** Difficulty never drops as the run goes on. */
  lemma DifficultyMonotone(mode: Mode, e1: real, e2: real)
    requires e1 <= e2
    ensures Difficulty(mode, e1) <= Difficulty(mode, e2)
  {
    assert e1 / 38.0 <= e2 / 38.0;
  }

  /** An obstacle built from a script entry, standing on the ground at the
      right edge of the world. */
  function ScriptedObstacle(e: ScriptEntry): Obstacle
  {
    Obstacle(Width + 20.0, GroundY - e.h as real, e.w as real, e.h as real, e.speed as real, e.theme)
  }

  /** A random obstacle: height, width and speed scaled up by difficulty,
      height and width truncated to whole pixels as Python's `int` does for
      positive values. */
  function RandomObstacle(difficulty: real, d: Draws): Obstacle
  {
    var h := ScaledHeight(difficulty, d.obstacleH);
    var w := ScaledWidth(difficulty, d.obstacleW);
    Obstacle(Width + 20.0, GroundY - h as real, w as real, h as real, ScaledSpeed(difficulty, d.obstacleSpeed), d.theme)
  }

  function ScaledHeight(difficulty: real, n: int): int
  {
    (n as real * (0.9 + difficulty * 0.1)).Floor
  }

  function ScaledWidth(difficulty: real, n: int): int
  {
    (n as real * (0.9 + difficulty * 0.08)).Floor
  }

  function ScaledSpeed(difficulty: real, n: int): real
  {
    n as real * (0.8 + difficulty * 0.35)
  }

  /** Bounds of a product of two non-negative bounded factors. */
  lemma ProductBounds(x: real, lo: real, hi: real, y: real, ylo: real, yhi: real)
    requires 0.0 <= lo <= x <= hi && 0.0 <= ylo <= y <= yhi
    ensures lo * ylo <= x * y <= hi * yhi
  {
    assert lo * ylo <= x * ylo;
    assert x * ylo <= x * y;
    assert x * y <= hi * y;
    assert hi * y <= hi * yhi;
  }

  /** A real within [lo, hi + 1) truncates into [lo, hi]. */
  lemma FloorWithin(x: real, lo: int, hi: int)
    requires lo as real <= x < hi as real + 1.0
    ensures lo <= x.Floor <= hi
  {
  }

  lemma HeightBounds(difficulty: real, n: int)
    requires 1.0 <= difficulty <= 3.2 && 60 <= n <= 120
    ensures 60 <= ScaledHeight(difficulty, n) <= 146
  {
    ProductBounds(n as real, 60.0, 120.0, 0.9 + difficulty * 0.1, 1.0, 1.22);
    FloorWithin(n as real * (0.9 + difficulty * 0.1), 60, 146);
  }

  lemma WidthBounds(difficulty: real, n: int)
    requires 1.0 <= difficulty <= 3.2 && 40 <= n <= 80
    ensures 39 <= ScaledWidth(difficulty, n) <= 92
  {
    ProductBounds(n as real, 40.0, 80.0, 0.9 + difficulty * 0.08, 0.98, 1.156);
    FloorWithin(n as real * (0.9 + difficulty * 0.08), 39, 92);
  }

  lemma SpeedBounds(difficulty: real, n: int)
    requires 1.0 <= difficulty <= 3.2 && 230 <= n <= 360
    ensures 264.5 <= ScaledSpeed(difficulty, n) <= 691.2
  {
    ProductBounds(n as real, 230.0, 360.0, 0.8 + difficulty * 0.35, 1.15, 1.92);
  }

  /** Over the whole difficulty range, random obstacles stay within
      [60, 146] x [39, 92] pixels and move at 264.5 to 691.2 px/s. The
      width factor 0.9 + 0.08 * difficulty is 0.98 at difficulty 1, so the
      narrowest draw, 40, can come out as 39 pixels. */
  lemma RandomObstacleBounds(difficulty: real, d: Draws)
    requires 1.0 <= difficulty <= 3.2 && d.Valid()
    ensures var o := RandomObstacle(difficulty, d);
      && 60.0 <= o.h <= 146.0 && 39.0 <= o.w <= 92.0
      && 264.5 <= o.speed <= 691.2
      && o.y + o.h == GroundY && o.x == Width + 20.0
  {
    HeightBounds(difficulty, d.obstacleH);
    WidthBounds(difficulty, d.obstacleW);
    SpeedBounds(difficulty, d.obstacleSpeed);
  }

  /** `spawn_obstacle()` without a config: one obstacle appended and the
      cadence reloaded with a random gap shortened by difficulty. */
  function SpawnRandom(s: GameState, d: Draws): (r: GameState)
    requires d.Valid()
    ensures |r.obstacles| == |s.obstacles| + 1 && r.obstacles[..|s.obstacles|] == s.obstacles
    ensures var o := r.obstacles[|s.obstacles|];
      o.x == Width + 20.0 && o.y + o.h == GroundY
    ensures 1.1 / Max(0.8, s.difficulty) <= r.spawner.obstacleTimer <= 2.1 / Max(0.8, s.difficulty)
    ensures 0.0 < r.spawner.obstacleTimer <= 2.625
    ensures r == s.(obstacles := r.obstacles, spawner := s.spawner.(obstacleTimer := r.spawner.obstacleTimer))
    // The new obstacle is the random draw at the current difficulty, so in
    // the difficulty range of a run it lies within RandomObstacleBounds.
    ensures r.obstacles[|s.obstacles|] == RandomObstacle(s.difficulty, d)
    ensures r.spawner.obstacleTimer == d.obstacleGap / Max(0.8, s.difficulty)
    ensures 1.0 <= s.difficulty <= 3.2 ==>
              var o := r.obstacles[|s.obstacles|];
              && 60.0 <= o.h <= 146.0 && 39.0 <= o.w <= 92.0
              && 264.5 <= o.speed <= 691.2
  {
    var o := RandomObstacle(s.difficulty, d);
    assert 1.0 <= s.difficulty <= 3.2 ==>
             60.0 <= o.h <= 146.0 && 39.0 <= o.w <= 92.0 && 264.5 <= o.speed <= 691.2 by {
      if 1.0 <= s.difficulty <= 3.2 {
        RandomObstacleBounds(s.difficulty, d);
      }
    }
    var m := Max(0.8, s.difficulty);
    var gap := d.obstacleGap / m;
    assert 1.1 / m <= gap <= 2.1 / m by {
      assert d.obstacleGap / m - 1.1 / m == (d.obstacleGap - 1.1) / m;
      assert 2.1 / m - d.obstacleGap / m == (2.1 - d.obstacleGap) / m;
    }
    assert 2.1 / m <= 2.625 by {
      assert 2.1 / m * m == 2.1;
    }
    s.(obstacles := s.obstacles + [o],
       spawner := s.spawner.(obstacleTimer := gap))
  }

  /** The obstacle cadence in endless and timed mode. */
  function ObstacleCadence(s: GameState, dt: real, d: Draws): (r: GameState)
    requires d.Valid()
    ensures var t := s.spawner.obstacleTimer - dt;
      if t <= 0.0 then r == SpawnRandom(s, d)
      else r == s.(spawner := s.spawner.(obstacleTimer := t))
  {
    var t := s.spawner.obstacleTimer - dt;
    if t <= 0.0 then SpawnRandom(s.(spawner := s.spawner.(obstacleTimer := t)), d)
    else s.(spawner := s.spawner.(obstacleTimer := t))
  }

  /** The challenge cadence: the script is consumed strictly in order, at
      most one entry per frame, and the countdown is reloaded from the next
      entry's delay. The random obstacle countdown is left alone. */
  function ScriptCadence(s: GameState, dt: real): (r: GameState)
    ensures r.spawner.script == s.spawner.script
    ensures r.spawner.obstacleTimer == s.spawner.obstacleTimer
    ensures r.spawner.starTimer == s.spawner.starTimer && r.spawner.powerTimer == s.spawner.powerTimer
    ensures r.spawner.scriptIndex == s.spawner.scriptIndex || r.spawner.scriptIndex == s.spawner.scriptIndex + 1
    ensures s.spawner.scriptIndex <= |s.spawner.script| ==> r.spawner.scriptIndex <= |r.spawner.script|
    ensures r.spawner.scriptIndex == s.spawner.scriptIndex + 1 <==>
              s.spawner.scriptIndex < |s.spawner.script| && s.spawner.scriptTimer - dt <= 0.0
    ensures r.spawner.scriptIndex == s.spawner.scriptIndex ==>
              r.obstacles == s.obstacles && r.spawner.scriptTimer == s.spawner.scriptTimer - dt
    ensures r.spawner.scriptIndex == s.spawner.scriptIndex + 1 ==>
              && r.obstacles == s.obstacles + [ScriptedObstacle(s.spawner.script[s.spawner.scriptIndex])]
              && (r.spawner.scriptIndex < |r.spawner.script| ==>
                    r.spawner.scriptTimer == r.spawner.script[r.spawner.scriptIndex].delay)
    ensures r == s.(obstacles := r.obstacles, spawner := r.spawner)
  {
    var sp := s.spawner;
    var t := sp.scriptTimer - dt;
    if sp.scriptIndex < |sp.script| && t <= 0.0 then
      var next := sp.scriptIndex + 1;
      s.(obstacles := s.obstacles + [ScriptedObstacle(sp.script[sp.scriptIndex])],
         spawner := sp.(scriptIndex := next,
                        scriptTimer := if next < |sp.script| then sp.script[next].delay else t))
    else s.(spawner := sp.(scriptTimer := t))
  }

  /** The star cadence: a star enters at the right edge and the countdown is
      reloaded with a random gap. */
  function StarCadence(s: GameState, dt: real, d: Draws): (r: GameState)
    requires d.Valid()
    ensures var t := s.spawner.starTimer - dt;
      && (t <= 0.0 ==> r.stars == s.stars + [Star(Width + 30.0, d.starY, d.starSize, d.starSpeed)]
                       && 0.7 <= r.spawner.starTimer <= 1.3)
      && (t > 0.0 ==> r.stars == s.stars && r.spawner.starTimer == t)
    ensures r.spawner.starTimer > 0.0
    ensures r == s.(stars := r.stars, spawner := s.spawner.(starTimer := r.spawner.starTimer))
  {
    var t := s.spawner.starTimer - dt;
    if t <= 0.0 then
      s.(stars := s.stars + [Star(Width + 30.0, d.starY, d.starSize, d.starSpeed)],
         spawner := s.spawner.(starTimer := d.starGap))
    else s.(spawner := s.spawner.(starTimer := t))
  }

  /** The power-up cadence: a power-up of the drawn kind enters at the right
      edge and the countdown is reloaded with a random gap. */
  function PowerCadence(s: GameState, dt: real, d: Draws): (r: GameState)
    requires d.Valid()
    ensures var t := s.spawner.powerTimer - dt;
      && (t <= 0.0 ==> r.powerups == s.powerups + [PowerUp(Width + 40.0, d.powerY, 16.0, d.powerSpeed, d.kind)]
                       && 4.0 <= r.spawner.powerTimer <= 6.5)
      && (t > 0.0 ==> r.powerups == s.powerups && r.spawner.powerTimer == t)
    ensures r.spawner.powerTimer > 0.0
    ensures r == s.(powerups := r.powerups, spawner := s.spawner.(powerTimer := r.spawner.powerTimer))
  {
    var t := s.spawner.powerTimer - dt;
    if t <= 0.0 then
      s.(powerups := s.powerups + [PowerUp(Width + 40.0, d.powerY, 16.0, d.powerSpeed, d.kind)],
         spawner := s.spawner.(powerTimer := d.powerGap))
    else s.(spawner := s.spawner.(powerTimer := t))
  }
}
