/** The BIA boss, the level-three finale: a hovering propaganda quadcopter
    that tracks the player horizontally and fires an expanding LRAD sonic
    ring every three seconds. */
module BIABosses {
  import opened Common
  import opened Rings

  const BIA_HEALTH: real := 60.0
  const BIA_SPEED: real := 90.0
  const BIA_DAMAGE: int := 3
  const LRAD_COOLDOWN_MAX: real := 3000.0
  const TRACK_RANGE: real := 30.0
  const HOVER_RATE: real := 2.5
  const HOVER_AMPLITUDE: real := 0.6
  /** Sonic rings grow by 2 and fade by 0.5 per second. */
  const RING_GROWTH: real := 2.0
  const RING_FADE: real := 0.5
  const RING_ALPHA: real := 0.8
  /** Rings leave the cannons this far below the body's origin. */
  const CANNON_DROP: real := 20.0

  /** The ring `fireLRAD` adds at the boss's position. */
  function SonicRing(x: real, y: real): (r: Ring)
    ensures r.active && r.alpha == RING_ALPHA && r.scale == 1.0
  {
    Ring(x, y + CANNON_DROP, 1.0, RING_ALPHA, true)
  }

  /** The frame's step of the ring loop, for a frame of `dt` seconds. */
  function RingStep(dt: real): Ring -> Option<Ring>
  {
    Fade(RING_GROWTH * dt, RING_FADE * dt)
  }

  /** After a ring is fired the cannon stays silent until 3000 ms have
      passed: the clamped cooldown is still positive before that. */
  lemma {:induction false} LradSpacing(deltas: seq<real>)
    requires forall k :: 0 <= k < |deltas| ==> deltas[k] >= 0.0
    requires SumOf(deltas) < LRAD_COOLDOWN_MAX
    ensures ClampedRun(LRAD_COOLDOWN_MAX, deltas) > 0.0
  {
    ClampedRunValue(LRAD_COOLDOWN_MAX, deltas);
  }

  class BIABoss {
    var x: real
    var y: real
    var health: real
    const maxHealth: real
    var lradCooldown: real
    var hoverOffset: real
    var hologramFlicker: real
    var alpha: real
    var sonicRings: seq<Ring>

    constructor (x0: real, y0: real)
      ensures x == x0 && y == y0 && health == BIA_HEALTH && maxHealth == health
      ensures lradCooldown == 0.0 && sonicRings == []
    {
      x, y := x0, y0;
      health, maxHealth := BIA_HEALTH, BIA_HEALTH;
      lradCooldown := 0.0;
      hoverOffset, hologramFlicker, alpha := 0.0, 0.0, 1.0;
      sonicRings := [];
    }

    /** `update(delta, playerX, playerY)`; `hover` is the sine of the new
        hover phase and `flicker` the sine of eight times the new hologram
        clock. */
    method Update(delta: real, playerX: real, hover: Wave, flicker: Wave)
      modifies this
      ensures hoverOffset == old(hoverOffset) + HOVER_RATE * (delta / 1000.0)
      ensures y == old(y) + hover * HOVER_AMPLITUDE
      ensures hologramFlicker == old(hologramFlicker) + delta / 1000.0
      ensures alpha == if flicker > 0.8 then 0.7 else 1.0
      ensures Abs(playerX - old(x)) > TRACK_RANGE ==>
                x == old(x) + Sign(playerX - old(x)) * BIA_SPEED * (delta / 1000.0)
      ensures Abs(playerX - old(x)) <= TRACK_RANGE ==> x == old(x)
      ensures ClampedCountDown(old(lradCooldown), delta) <= 0.0 ==>
                lradCooldown == LRAD_COOLDOWN_MAX &&
                sonicRings == FilterMap(old(sonicRings) + [SonicRing(x, y)], RingStep(delta / 1000.0))
      ensures ClampedCountDown(old(lradCooldown), delta) > 0.0 ==>
                lradCooldown == ClampedCountDown(old(lradCooldown), delta) &&
                sonicRings == FilterMap(old(sonicRings), RingStep(delta / 1000.0))
      ensures health == old(health)
    {
      var dt := delta / 1000.0;
      hoverOffset := hoverOffset + HOVER_RATE * dt;
      y := y + hover * HOVER_AMPLITUDE;
      hologramFlicker := hologramFlicker + dt;
      if flicker > 0.8 {
        alpha := 0.7;
      } else {
        alpha := 1.0;
      }
      var dx := playerX - x;
      if Abs(dx) > TRACK_RANGE {
        x := x + Sign(dx) * BIA_SPEED * dt;
      }
      lradCooldown := Max(0.0, lradCooldown - delta);
      if lradCooldown <= 0.0 {
        FireLRAD();
        lradCooldown := LRAD_COOLDOWN_MAX;
      }
      sonicRings := PruneBackward(sonicRings, RingStep(dt));
    }

    method FireLRAD()
      modifies this
      ensures sonicRings == old(sonicRings) + [SonicRing(x, y)]
      ensures x == old(x) && y == old(y) && health == old(health) && lradCooldown == old(lradCooldown)
      ensures hoverOffset == old(hoverOffset) && hologramFlicker == old(hologramFlicker) && alpha == old(alpha)
    {
      sonicRings := sonicRings + [Ring(x, y + CANNON_DROP, 1.0, RING_ALPHA, true)];
    }

    /** `takeDamage(amount = 1)`. */
    method TakeDamage(amount: real := 1.0) returns (dead: bool)
      modifies this
      ensures (health, dead) == Hit(old(health), amount)
      ensures x == old(x) && y == old(y) && lradCooldown == old(lradCooldown) && sonicRings == old(sonicRings)
      ensures hoverOffset == old(hoverOffset) && hologramFlicker == old(hologramFlicker) && alpha == old(alpha)
    {
      health := health - amount;
      dead := health <= 0.0;
    }

    /** `destroy()`: the rings go with the boss. */
    method Destroy()
      modifies this
      ensures sonicRings == [] && health == old(health)
      ensures x == old(x) && y == old(y) && lradCooldown == old(lradCooldown) && hoverOffset == old(hoverOffset)
      ensures hologramFlicker == old(hologramFlicker) && alpha == old(alpha)
    {
      sonicRings := [];
    }
  }
}
