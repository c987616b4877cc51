/** The Smederevac drone: a floating stove-shaped turret of level three
    that bobs, follows the player horizontally, and drops an energy-rakija
    shot every two seconds. */
module DroneSmederevacs {
  import opened Common

  const DRONE_HEALTH: real := 2.0
  const DRONE_SPEED: real := 120.0
  const FIRE_RATE: real := 2000.0
  const HOVER_SPEED: real := 2.0
  const HOVER_AMPLITUDE: real := 0.5
  const TRACK_RANGE: real := 20.0
  /** Shots leave 15 px below the drone and fall at 200 px/s. */
  const MUZZLE_DROP: real := 15.0
  const SHOT_SPEED: real := 200.0

  /** A falling shot. */
  datatype Shot = Shot(pos: Point, velocityY: real, active: bool)

  /** The shot `fireProjectile` drops from a drone at (x, y). */
  function DropShot(x: real, y: real): (s: Shot)
    ensures s.active && s.pos == Point(x, y + MUZZLE_DROP) && s.velocityY == SHOT_SPEED
  {
    Shot(Point(x, y + MUZZLE_DROP), SHOT_SPEED, true)
  }

  /** The cleanup test: a shot survives while active and not below the
      bottom edge. */
  function Falling(height: real): Shot -> Option<Shot>
  {
    Keep((s: Shot) => s.active && s.pos.y <= height)
  }

  /** A shot after `dt` seconds of the arcade physics step: it falls at
      its own speed, with no gravity. */
  function Fallen(s: Shot, dt: real): (r: Shot)
    ensures r.pos.x == s.pos.x && r.velocityY == s.velocityY && r.active == s.active
    ensures r.pos.y - s.pos.y == s.velocityY * dt
  {
    s.(pos := Point(s.pos.x, s.pos.y + s.velocityY * dt))
  }

  /** A shot is dropped by the cleanup exactly when it is inactive or the
      physics step has carried it below the bottom edge. */
  lemma FallenOut(s: Shot, dt: real, height: real)
    ensures Falling(height)(Fallen(s, dt)) == None <==> !s.active || s.pos.y + s.velocityY * dt > height
  {
  }

  /** From where it is dropped, a shot falling at 200 px/s leaves a screen
      `height` high within `(height - y) / 200` seconds of steps. */
  lemma {:induction false} ShotLeaves(s: Shot, dts: seq<real>, height: real)
    requires s.velocityY == SHOT_SPEED
    requires SumOf(dts) * SHOT_SPEED > height - s.pos.y
    ensures Falling(height)(FallenAll(s, dts)) == None
  {
    FallenAllAt(s, dts);
  }

  /** A shot after a run of physics steps. */
  function FallenAll(s: Shot, dts: seq<real>): (r: Shot)
    decreases |dts|
  {
    if dts == [] then s else FallenAll(Fallen(s, dts[0]), dts[1..])
  }

  /** A run of steps moves a shot by its speed times their total time. */
  lemma {:induction false} FallenAllAt(s: Shot, dts: seq<real>)
    ensures var r := FallenAll(s, dts);
            r.pos.y == s.pos.y + s.velocityY * SumOf(dts) && r.pos.x == s.pos.x &&
            r.velocityY == s.velocityY && r.active == s.active
    decreases |dts|
  {
    if dts != [] {
      FallenAllAt(Fallen(s, dts[0]), dts[1..]);
    }
  }

  /** Every frame's timer is ready, so the drone fires on every period:
      `n` shots take at least `n * 2000` ms. */
  lemma FireRateBound(deltas: seq<real>)
    requires forall k :: 0 <= k < |deltas| ==> deltas[k] >= 0.0
    ensures (IntervalRun(0.0, deltas, FIRE_RATE, seq(|deltas|, _ => true)).1 as real) * FIRE_RATE <= SumOf(deltas)
  {
    ShotBudget(deltas, FIRE_RATE, seq(|deltas|, _ => true));
  }

  class DroneSmederevac {
    var x: real
    var y: real
    var health: real
    var fireTimer: real
    var hoverOffset: real
    var projectiles: seq<Shot>

    constructor (x0: real, y0: real)
      ensures x == x0 && y == y0 && health == DRONE_HEALTH
      ensures fireTimer == 0.0 && hoverOffset == 0.0 && projectiles == []
    {
      x, y := x0, y0;
      health := DRONE_HEALTH;
      fireTimer, hoverOffset := 0.0, 0.0;
      projectiles := [];
    }

    /** `update(delta, playerX, playerY)` on a screen `height` high;
        `hover` is the sine of the new hover phase. */
    method Update(delta: real, playerX: real, hover: Wave, height: real)
      modifies this
      ensures hoverOffset == old(hoverOffset) + HOVER_SPEED * (delta / 1000.0)
      ensures y == old(y) + hover * HOVER_AMPLITUDE
      ensures Abs(playerX - old(x)) > TRACK_RANGE ==>
                x == old(x) + Sign(playerX - old(x)) * DRONE_SPEED * (delta / 1000.0)
      ensures Abs(playerX - old(x)) <= TRACK_RANGE ==> x == old(x)
      ensures var (t, fire) := Interval(old(fireTimer), delta, FIRE_RATE, true);
              fireTimer == t &&
              (fire ==> projectiles == FilterMap(old(projectiles) + [DropShot(x, y)], Falling(height))) &&
              (!fire ==> projectiles == FilterMap(old(projectiles), Falling(height)))
      ensures health == old(health)
    {
      var dt := delta / 1000.0;
      hoverOffset := hoverOffset + HOVER_SPEED * dt;
      y := y + hover * HOVER_AMPLITUDE;
      var dx := playerX - x;
      if Abs(dx) > TRACK_RANGE {
        x := x + Sign(dx) * DRONE_SPEED * dt;
      }
      fireTimer := fireTimer + delta;
      if fireTimer >= FIRE_RATE {
        fireTimer := 0.0;
        FireProjectile();
      }
      projectiles := PruneBackward(projectiles, Falling(height));
    }

    /** The arcade physics step the engine runs between two updates: every
        shot falls for `delta` ms; nothing else changes. Destroyed shots
        fall too, where the engine would leave them; the next prune drops
        them, so nothing observable depends on it. */
    method PhysicsStep(delta: real)
      modifies this
      ensures |projectiles| == |old(projectiles)|
      ensures forall k :: 0 <= k < |projectiles| ==> projectiles[k] == Fallen(old(projectiles)[k], delta / 1000.0)
      ensures x == old(x) && y == old(y) && health == old(health) && fireTimer == old(fireTimer)
      ensures hoverOffset == old(hoverOffset)
    {
      var dt, shots := delta / 1000.0, projectiles;
      projectiles := seq(|shots|, k requires 0 <= k < |shots| => Fallen(shots[k], dt));
    }

    /** `fireProjectile()`: one shot below the drone. */
    method FireProjectile()
      modifies this
      ensures projectiles == old(projectiles) + [DropShot(x, y)]
      ensures x == old(x) && y == old(y) && health == old(health) && fireTimer == old(fireTimer)
      ensures hoverOffset == old(hoverOffset)
    {
      projectiles := projectiles + [DropShot(x, y)];
    }

    /** `takeDamage(amount = 1)`. */
    method TakeDamage(amount: real := 1.0) returns (dead: bool)
      modifies this
      ensures (health, dead) == Hit(old(health), amount)
      ensures x == old(x) && y == old(y) && fireTimer == old(fireTimer) && projectiles == old(projectiles)
      ensures hoverOffset == old(hoverOffset)
    {
      health := health - amount;
      dead := health <= 0.0;
    }

    /** `destroy()`: the shots go with the drone. */
    method Destroy()
      modifies this
      ensures projectiles == [] && health == old(health)
      ensures x == old(x) && y == old(y) && fireTimer == old(fireTimer) && hoverOffset == old(hoverOffset)
    {
      projectiles := [];
    }
  }
}
