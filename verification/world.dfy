/** The world mover: the clamped speed multiplier, the linear leftward move
    of obstacles, stars and power-ups, and the off-screen cull
    (horse_game.py:498-511, 558-562, 584-598;
    main.py:421-444, 465-484). */
module World {
  import opened Model
  import opened Seqs

  /** `world_speed_multiplier`: difficulty, sped up while invincible and
      slowed by the slow effect, clamped to [0.4, 3.0]. */
  function Multiplier(difficulty: real, fx: Effects): (r: real)
    ensures 0.4 <= r <= 3.0
    ensures var raw := difficulty * (if fx.invincible > 0.0 then 1.35 else 1.0)
                                  * (if fx.slow > 0.0 then 0.6 else 1.0);
      && (0.4 <= raw <= 3.0 ==> r == raw)
      && (raw < 0.4 ==> r == 0.4)
      && (raw > 3.0 ==> r == 3.0)
  {
    var mul := difficulty;
    var mul := if fx.invincible > 0.0 then mul * 1.35 else mul;
    var mul := if fx.slow > 0.0 then mul * 0.6 else mul;
    Max(0.4, Min(mul, 3.0))
  }

  /** With no effect active the multiplier is the difficulty itself over the
      whole range difficulty takes outside challenge mode. */
  lemma PlainMultiplier(difficulty: real, fx: Effects)
    requires 1.0 <= difficulty <= 3.0 && fx.invincible <= 0.0 && fx.slow <= 0.0
    ensures Multiplier(difficulty, fx) == difficulty
  {
  }

  function ShiftObstacle(o: Obstacle, step: real): Obstacle { o.(x := o.x - o.speed * step) }
  function ShiftStar(s: Star, step: real): Star { s.(x := s.x - s.speed * step) }
  function ShiftPowerUp(p: PowerUp, step: real): PowerUp { p.(x := p.x - p.speed * step) }

  /** An obstacle stays while its right edge is right of x = -30. */
  predicate ObstacleOnScreen(o: Obstacle) { o.x + o.w > -30.0 }
  /** A star stays while its centre is right of x = -40. */
  predicate StarOnScreen(s: Star) { s.x > -40.0 }
  /** A power-up stays while its centre is right of x = -50. */
  predicate PowerUpOnScreen(p: PowerUp) { p.x > -50.0 }

  /** `update_obstacles`: every obstacle moves left by speed * dt * mul and
      exactly the ones still on screen are kept, in their original order. */
  function MoveObstacles(obs: seq<Obstacle>, step: real): (r: seq<Obstacle>)
    ensures |r| <= |obs|
    ensures forall k :: 0 <= k < |r| ==> ObstacleOnScreen(r[k])
    ensures forall i :: 0 <= i < |obs| ==>
              (ShiftObstacle(obs[i], step) in r <==> ObstacleOnScreen(ShiftObstacle(obs[i], step)))
    ensures forall k :: 0 <= k < |r| ==> exists i :: 0 <= i < |obs| && r[k] == ShiftObstacle(obs[i], step)
  {
    var moved := seq(|obs|, i requires 0 <= i < |obs| => ShiftObstacle(obs[i], step));
    var r := Filter(moved, ObstacleOnScreen);
    assert forall i :: 0 <= i < |obs| ==> moved[i] == ShiftObstacle(obs[i], step);
    assert forall k :: 0 <= k < |r| ==> r[k] in moved;
    r
  }

  /** The mover respects concatenation and acts on one obstacle by shifting it
      and keeping it exactly when it is still on screen; these two facts fix
      the survivors and their order. */
  lemma MoveObstaclesAppend(a: seq<Obstacle>, b: seq<Obstacle>, step: real)
    ensures MoveObstacles(a + b, step) == MoveObstacles(a, step) + MoveObstacles(b, step)
    ensures |a| == 1 ==>
              MoveObstacles(a, step) ==
              (if ObstacleOnScreen(ShiftObstacle(a[0], step)) then [ShiftObstacle(a[0], step)] else [])
  {
    var ma := seq(|a|, i requires 0 <= i < |a| => ShiftObstacle(a[i], step));
    var mb := seq(|b|, i requires 0 <= i < |b| => ShiftObstacle(b[i], step));
    var mab := seq(|a + b|, i requires 0 <= i < |a + b| => ShiftObstacle((a + b)[i], step));
    assert mab == ma + mb;
    FilterAppend(ma, mb, ObstacleOnScreen);
    if |a| == 1 {
      assert ma == [ShiftObstacle(a[0], step)];
      assert ma == [ma[0]] + [];
      assert ma[1..] == [];
    }
  }

  /** The magnet: while it runs, each star is pulled toward the horse's
      centre (cx, cy) by `strength` = 260 * dt along the unit direction. */
  datatype Pull = NoPull | PullTo(cx: real, cy: real, strength: real)

  /** `math.hypot` enters the model as a parameter; all the mover relies on
      is that it is never negative, so the divisor hypot + 0.01 is positive. */
  ghost predicate NonNegative(hyp: (real, real) -> real)
  {
    forall a, b :: hyp(a, b) >= 0.0
  }

  /** The pull applied to a star that has already moved: a step of length
      `k` along the direction toward (cx, cy), normalised by hypot + 0.01. */
  function PullStar(m: Star, cx: real, cy: real, k: real, hyp: (real, real) -> real): Star
    requires NonNegative(hyp)
  {
    var dx := cx - m.x;
    var dy := cy - m.y;
    var dist := hyp(dx, dy) + 0.01;
    m.(x := m.x + Share(dx, dist, k), y := m.y + Share(dy, dist, k))
  }

  /** One star of `update_air_stars`: the linear move, then the pull. */
  function StepStar(st: Star, step: real, pull: Pull, hyp: (real, real) -> real): (r: Star)
    requires NonNegative(hyp)
    ensures r.size == st.size && r.speed == st.speed
    ensures pull.NoPull? ==> r == ShiftStar(st, step)
  {
    match pull
    case NoPull => ShiftStar(st, step)
    case PullTo(cx, cy, k) => PullStar(ShiftStar(st, step), cx, cy, k, hyp)
  }

  /** With a true hypotenuse (at least as long as either leg) the pull moves
      a star by at most `k` along each axis, and horizontally toward the
      horse. */
  lemma PullIsBounded(m: Star, cx: real, cy: real, k: real, hyp: (real, real) -> real)
    requires NonNegative(hyp) && k >= 0.0
    requires hyp(cx - m.x, cy - m.y) >= (if cx >= m.x then cx - m.x else m.x - cx)
    requires hyp(cx - m.x, cy - m.y) >= (if cy >= m.y then cy - m.y else m.y - cy)
    ensures var r := PullStar(m, cx, cy, k, hyp);
      && -k <= r.x - m.x <= k && -k <= r.y - m.y <= k
      && (cx >= m.x ==> r.x >= m.x) && (cx <= m.x ==> r.x <= m.x)
  {
    var dist := hyp(cx - m.x, cy - m.y) + 0.01;
    UnitShare(cx - m.x, dist, k);
    UnitShare(cy - m.y, dist, k);
  }

  /** The leg `a` of the pull direction, over `dist`, times the strength. */
  function Share(a: real, dist: real, k: real): real
    requires dist > 0.0
  {
    a / dist * k
  }

  /** A leg over a longer hypotenuse scales `k` by at most one, keeping the
      leg's sign. */
  lemma UnitShare(a: real, dist: real, k: real)
    requires dist > 0.0 && k >= 0.0
    requires dist >= (if a >= 0.0 then a else -a)
    ensures -k <= Share(a, dist, k) <= k
    ensures a >= 0.0 ==> Share(a, dist, k) >= 0.0
    ensures a <= 0.0 ==> Share(a, dist, k) <= 0.0
  {
    var u := a / dist;
    assert u * dist == a;
    SignOfQuotient(u - 1.0, dist);
    SignOfQuotient(u + 1.0, dist);
    SignOfQuotient(u, dist);
    ProductInUnit(u, k);
  }

  /** The sign of a product with a positive factor is the sign of the other. */
  lemma SignOfQuotient(x: real, d: real)
    requires d > 0.0
    ensures x * d <= 0.0 ==> x <= 0.0
    ensures x * d >= 0.0 ==> x >= 0.0
  {
  }

  lemma ProductInUnit(u: real, k: real)
    requires -1.0 <= u <= 1.0 && k >= 0.0
    ensures -k <= u * k <= k
    ensures u >= 0.0 ==> u * k >= 0.0
    ensures u <= 0.0 ==> u * k <= 0.0
  {
    assert (1.0 - u) * k >= 0.0;
    assert (1.0 + u) * k >= 0.0;
  }

  /** `update_air_stars`: every star moves (and is pulled while the magnet
      runs), and exactly the ones still on screen are kept, in order. */
  function MoveStars(stars: seq<Star>, step: real, pull: Pull, hyp: (real, real) -> real): (r: seq<Star>)
    requires NonNegative(hyp)
    ensures |r| <= |stars|
    ensures forall k :: 0 <= k < |r| ==> StarOnScreen(r[k])
    ensures forall i :: 0 <= i < |stars| ==>
              (StepStar(stars[i], step, pull, hyp) in r <==> StarOnScreen(StepStar(stars[i], step, pull, hyp)))
    ensures forall k :: 0 <= k < |r| ==> exists i :: 0 <= i < |stars| && r[k] == StepStar(stars[i], step, pull, hyp)
  {
    var moved := seq(|stars|, i requires 0 <= i < |stars| => StepStar(stars[i], step, pull, hyp));
    assert forall i :: 0 <= i < |stars| ==> moved[i] == StepStar(stars[i], step, pull, hyp);
    var r := Filter(moved, StarOnScreen);
    assert forall k :: 0 <= k < |r| ==> r[k] in moved;
    r
  }

  /** The star mover respects concatenation and acts on one star by stepping
      it and keeping it exactly when it is still on screen; together these
      fix the survivors, their order and their number. */
  lemma MoveStarsAppend(a: seq<Star>, b: seq<Star>, step: real, pull: Pull, hyp: (real, real) -> real)
    requires NonNegative(hyp)
    ensures MoveStars(a + b, step, pull, hyp) == MoveStars(a, step, pull, hyp) + MoveStars(b, step, pull, hyp)
    ensures |a| == 1 ==>
              MoveStars(a, step, pull, hyp) ==
              (if StarOnScreen(StepStar(a[0], step, pull, hyp)) then [StepStar(a[0], step, pull, hyp)] else [])
  {
    var ma := seq(|a|, i requires 0 <= i < |a| => StepStar(a[i], step, pull, hyp));
    var mb := seq(|b|, i requires 0 <= i < |b| => StepStar(b[i], step, pull, hyp));
    var mab := seq(|a + b|, i requires 0 <= i < |a + b| => StepStar((a + b)[i], step, pull, hyp));
    assert mab == ma + mb;
    FilterAppend(ma, mb, StarOnScreen);
    if |a| == 1 {
      assert ma == [StepStar(a[0], step, pull, hyp)];
      assert ma == [ma[0]] + [];
      assert ma[1..] == [];
    }
  }

  /** `update_powerups`: linear move, then the cull. */
  function MovePowerUps(ps: seq<PowerUp>, step: real): (r: seq<PowerUp>)
    ensures |r| <= |ps|
    ensures forall k :: 0 <= k < |r| ==> PowerUpOnScreen(r[k])
    ensures forall i :: 0 <= i < |ps| ==>
              (ShiftPowerUp(ps[i], step) in r <==> PowerUpOnScreen(ShiftPowerUp(ps[i], step)))
    ensures forall k :: 0 <= k < |r| ==> exists i :: 0 <= i < |ps| && r[k] == ShiftPowerUp(ps[i], step)
  {
    var moved := seq(|ps|, i requires 0 <= i < |ps| => ShiftPowerUp(ps[i], step));
    assert forall i :: 0 <= i < |ps| ==> moved[i] == ShiftPowerUp(ps[i], step);
    var r := Filter(moved, PowerUpOnScreen);
    assert forall k :: 0 <= k < |r| ==> r[k] in moved;
    r
  }

  /** The power-up mover respects concatenation and acts on one power-up by
      shifting it and keeping it exactly when it is still on screen. */
  lemma MovePowerUpsAppend(a: seq<PowerUp>, b: seq<PowerUp>, step: real)
    ensures MovePowerUps(a + b, step) == MovePowerUps(a, step) + MovePowerUps(b, step)
    ensures |a| == 1 ==>
              MovePowerUps(a, step) ==
              (if PowerUpOnScreen(ShiftPowerUp(a[0], step)) then [ShiftPowerUp(a[0], step)] else [])
  {
    var ma := seq(|a|, i requires 0 <= i < |a| => ShiftPowerUp(a[i], step));
    var mb := seq(|b|, i requires 0 <= i < |b| => ShiftPowerUp(b[i], step));
    var mab := seq(|a + b|, i requires 0 <= i < |a + b| => ShiftPowerUp((a + b)[i], step));
    assert mab == ma + mb;
    FilterAppend(ma, mb, PowerUpOnScreen);
    if |a| == 1 {
      assert ma == [ShiftPowerUp(a[0], step)];
      assert ma == [ma[0]] + [];
      assert ma[1..] == [];
    }
  }
}
