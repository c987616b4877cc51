/** The Gestapo ghoul: a skeletal gunman of level two that keeps about
    200 px from the player, backing off when crowded, and fires a Luger
    round every 2.2 seconds while the player is within 350 px. */
module GestapoGhouls {
  import opened Common
  import opened Projectiles

  const GHOUL_HEALTH: real := 3.0
  const GHOUL_SPEED: real := 55.0
  const GHOUL_DAMAGE: int := 2
  const FIRE_RATE: real := 2200.0
  const FIRE_RANGE: real := 350.0
  /** The ghoul holds its ground in the band [170, 230] around 200 px. */
  const PREFERRED_RANGE: real := 200.0
  const RANGE_SLACK: real := 30.0
  /** Backing off runs at 60% of the walking speed. */
  const RETREAT_FACTOR: real := 0.6
  /** A round leaves the pistol 18 px to the side the player is on. */
  const MUZZLE_OFFSET: real := 18.0
  /** Speed of a Luger round, px/s. */
  const LUGER_SPEED: real := 300.0

  datatype Stance = Approach | Retreat | Hold

  function StanceFor(dist: real): (s: Stance)
    ensures s == Approach <==> dist > PREFERRED_RANGE + RANGE_SLACK
    ensures s == Retreat <==> dist < PREFERRED_RANGE - RANGE_SLACK
    ensures s == Hold <==> PREFERRED_RANGE - RANGE_SLACK <= dist <= PREFERRED_RANGE + RANGE_SLACK
  {
    if dist > PREFERRED_RANGE + RANGE_SLACK then Approach
    else if dist < PREFERRED_RANGE - RANGE_SLACK then Retreat
    else Hold
  }

  /** Where the range keeping takes the ghoul in a frame of `dt` seconds:
      toward the player at full speed, away at 60%, or nowhere. A player
      standing exactly on the ghoul gives no direction to back off in. */
  function Moved(x: real, y: real, px: real, py: real, dist: real, dt: real): Point
  {
    match StanceFor(dist)
    case Approach => StepAlong(x, y, px - x, py - y, dist, GHOUL_SPEED * dt)
    case Retreat => if dist > 0.0 then StepAlong(x, y, px - x, py - y, dist, -(GHOUL_SPEED * RETREAT_FACTOR * dt)) else Point(x, y)
    case Hold => Point(x, y)
  }

  /** The range keeping moves the distance to the player the right way:
      an approach closes it by the step, a retreat opens it by 60% of a
      step, a hold leaves it. */
  lemma MovedDistance(x: real, y: real, px: real, py: real, dist: real, dt: real)
    requires IsDistance(dist, px - x, py - y) && dt >= 0.0 && dist > 0.0
    ensures var p := Moved(x, y, px, py, dist, dt);
            (StanceFor(dist) == Approach ==> IsDistance(Abs(dist - GHOUL_SPEED * dt), px - p.x, py - p.y)) &&
            (StanceFor(dist) == Retreat ==> IsDistance(dist + GHOUL_SPEED * RETREAT_FACTOR * dt, px - p.x, py - p.y)) &&
            (StanceFor(dist) == Hold ==> IsDistance(dist, px - p.x, py - p.y))
  {
    match StanceFor(dist)
    case Approach =>
      StepAlongDistance(x, y, px, py, dist, GHOUL_SPEED * dt);
    case Retreat =>
      StepAlongDistance(x, y, px, py, dist, -(GHOUL_SPEED * RETREAT_FACTOR * dt));
    case Hold =>
  }

  /** A Luger round: where it was fired and the aim vector (the offset to
      the target when fired). */
  datatype Bullet = Bullet(pos: Point, aim: Point, active: bool)

  /** The round `fireLuger(targetX, targetY)` fires from (x, y). */
  function Luger(x: real, y: real, targetX: real, targetY: real): (b: Bullet)
    ensures b.active && b.pos.y == y && b.aim == Point(targetX - x, targetY - y)
    ensures targetX > x ==> b.pos.x == x + MUZZLE_OFFSET
    ensures targetX <= x ==> b.pos.x == x - MUZZLE_OFFSET
  {
    var dx := targetX - x;
    Bullet(Point(x + (if dx > 0.0 then MUZZLE_OFFSET else -MUZZLE_OFFSET), y), Point(dx, targetY - y), true)
  }

  /** A round after `dt` seconds of the arcade physics step: it flies
      along its aim at 300 px/s, `aimDist` being the aim's length. A round
      fired at a target on the ghoul's own position has no direction and
      stays where it is. */
  function Flown(b: Bullet, aimDist: real, dt: real): (r: Bullet)
    requires IsDistance(aimDist, b.aim.x, b.aim.y)
    ensures r.aim == b.aim && r.active == b.active
    ensures aimDist == 0.0 ==> r == b
  {
    if aimDist > 0.0 then b.(pos := StepAlong(b.pos.x, b.pos.y, b.aim.x, b.aim.y, aimDist, LUGER_SPEED * dt))
    else b
  }

  /** In `dt >= 0` seconds an aimed round covers exactly `300 * dt` px,
      along its aim and not against it. */
  lemma FlownTravel(b: Bullet, aimDist: real, dt: real)
    requires IsDistance(aimDist, b.aim.x, b.aim.y) && aimDist > 0.0 && dt >= 0.0
    ensures var r := Flown(b, aimDist, dt);
            var mx, my := r.pos.x - b.pos.x, r.pos.y - b.pos.y;
            IsDistance(LUGER_SPEED * dt, mx, my) &&
            mx * b.aim.y == my * b.aim.x &&
            mx * b.aim.x + my * b.aim.y >= 0.0
  {
    var ax, ay := b.aim.x, b.aim.y;
    var k := LUGER_SPEED * dt / aimDist;
    var r := Flown(b, aimDist, dt);
    assert r.pos.x - b.pos.x == ax * k;
    assert r.pos.y - b.pos.y == ay * k;
    assert k >= 0.0;
    calc {
      (ax * k) * (ax * k) + (ay * k) * (ay * k);
      (ax * ax + ay * ay) * (k * k);
      (aimDist * aimDist) * (k * k);
      (aimDist * k) * (aimDist * k);
      { assert aimDist * k == LUGER_SPEED * dt; }
      (LUGER_SPEED * dt) * (LUGER_SPEED * dt);
    }
    assert (ax * k) * ax + (ay * k) * ay == (ax * ax + ay * ay) * k;
  }

  /** The cleanup test: a round survives while active and inside the
      screen grown by 50 px. */
  function Alive(width: real, height: real): Bullet -> Option<Bullet>
  {
    Keep((b: Bullet) => b.active && !OffScreen(b.pos.x, b.pos.y, width, height))
  }

  /** A fire rate of 2200 ms: from a fresh timer, `n` rounds take at least
      `n * 2200` ms of frames. */
  lemma FireRateBound(deltas: seq<real>, inRange: seq<bool>)
    requires |inRange| == |deltas|
    requires forall k :: 0 <= k < |deltas| ==> deltas[k] >= 0.0
    ensures (IntervalRun(0.0, deltas, FIRE_RATE, inRange).1 as real) * FIRE_RATE <= SumOf(deltas)
  {
    ShotBudget(deltas, FIRE_RATE, inRange);
  }

  class GestapoGhoul {
    var x: real
    var y: real
    var health: real
    var fireTimer: real
    var projectiles: seq<Bullet>

    constructor (x0: real, y0: real)
      ensures x == x0 && y == y0 && health == GHOUL_HEALTH && fireTimer == 0.0 && projectiles == []
    {
      x, y := x0, y0;
      health := GHOUL_HEALTH;
      fireTimer := 0.0;
      projectiles := [];
    }

    /** `update(delta, playerX, playerY)` on a `width` by `height` screen;
        `dist` is the distance to the player before the ghoul moves. */
    method Update(delta: real, playerX: real, playerY: real, dist: real, width: real, height: real)
      requires IsDistance(dist, playerX - x, playerY - y)
      modifies this
      ensures Point(x, y) == Moved(old(x), old(y), playerX, playerY, dist, delta / 1000.0)
      ensures var (t, fire) := Interval(old(fireTimer), delta, FIRE_RATE, dist < FIRE_RANGE);
              fireTimer == t &&
              (fire ==> projectiles == FilterMap(old(projectiles) + [Luger(x, y, playerX, playerY)], Alive(width, height))) &&
              (!fire ==> projectiles == FilterMap(old(projectiles), Alive(width, height)))
      ensures health == old(health)
    {
      var dt := delta / 1000.0;
      var dx := playerX - x;
      var dy := playerY - y;
      if dist > PREFERRED_RANGE + RANGE_SLACK {
        var p := StepAlong(x, y, dx, dy, dist, GHOUL_SPEED * dt);
        x, y := p.x, p.y;
      } else if dist < PREFERRED_RANGE - RANGE_SLACK && dist > 0.0 {
        var p := StepAlong(x, y, dx, dy, dist, -(GHOUL_SPEED * RETREAT_FACTOR * dt));
        x, y := p.x, p.y;
      }
      ghost var moved := Point(x, y);
      assert moved == Moved(old(x), old(y), playerX, playerY, dist, dt);
      fireTimer := fireTimer + delta;
      if fireTimer >= FIRE_RATE && dist < FIRE_RANGE {
        fireTimer := 0.0;
        FireLuger(playerX, playerY);
      }
      projectiles := PruneBackward(projectiles, Alive(width, height));
    }

    /** `fireLuger(targetX, targetY)`: one round from the pistol's side. */
    method FireLuger(targetX: real, targetY: real)
      modifies this
      ensures projectiles == old(projectiles) + [Luger(x, y, targetX, targetY)]
      ensures x == old(x) && y == old(y) && health == old(health) && fireTimer == old(fireTimer)
    {
      projectiles := projectiles + [Luger(x, y, targetX, targetY)];
    }

    /** The arcade physics step the engine runs between two updates: every
        round flies for `delta` ms; `aimDists` holds the length of each
        round's aim. The model keeps every other field. Destroyed rounds fly
        too, where the engine would leave them; the next prune drops them, so
        nothing observable depends on it. The engine also holds the ghoul's
        own body inside the world bounds in this step; that clamp of `x` and
        `y` is not modelled. */
    method PhysicsStep(delta: real, aimDists: seq<real>)
      requires |aimDists| == |projectiles|
      requires forall k :: 0 <= k < |projectiles| ==> IsDistance(aimDists[k], projectiles[k].aim.x, projectiles[k].aim.y)
      modifies this
      ensures |projectiles| == |old(projectiles)|
      ensures forall k :: 0 <= k < |projectiles| ==>
                projectiles[k] == Flown(old(projectiles)[k], aimDists[k], delta / 1000.0)
      ensures x == old(x) && y == old(y) && health == old(health) && fireTimer == old(fireTimer)
    {
      var dt, rounds := delta / 1000.0, projectiles;
      projectiles := seq(|rounds|, k requires 0 <= k < |rounds| && IsDistance(aimDists[k], rounds[k].aim.x, rounds[k].aim.y) =>
                           Flown(rounds[k], aimDists[k], dt));
    }

    /** `takeDamage(amount = 1)`. */
    method TakeDamage(amount: real := 1.0) returns (dead: bool)
      modifies this
      ensures (health, dead) == Hit(old(health), amount)
      ensures x == old(x) && y == old(y) && fireTimer == old(fireTimer) && projectiles == old(projectiles)
    {
      health := health - amount;
      dead := health <= 0.0;
    }

    /** `destroy()`: the rounds go with the ghoul. */
    method Destroy()
      modifies this
      ensures projectiles == [] && health == old(health)
      ensures x == old(x) && y == old(y) && fireTimer == old(fireTimer)
    {
      projectiles := [];
    }
  }
}
