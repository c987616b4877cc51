/** The hologram thug: a chaser that alternates between three seconds of
    being hittable and two seconds of being immune to damage. */
module HologramThugs {
  import opened Common

  const THUG_HEALTH: real := 3.0
  const THUG_SPEED: real := 110.0
  const THUG_DAMAGE: int := 2
  const INVULN_DURATION: real := 2000.0
  const VULNERABLE_DURATION: real := 3000.0
  const CHASE_RANGE: real := 30.0

  /** How long the current phase of the cycle lasts. */
  function Window(invulnerable: bool): (w: real)
    ensures w > 0.0
  {
    if invulnerable then INVULN_DURATION else VULNERABLE_DURATION
  }

  /** The cycle step of `update`, once the timer has grown by the frame
      time: the phase flips and the timer restarts when the phase's
      window is used up. */
  function Cycle(invulnerable: bool, timer: real): (r: (bool, real))
    ensures timer >= Window(invulnerable) ==> r == (!invulnerable, 0.0)
    ensures timer < Window(invulnerable) ==> r == (invulnerable, timer)
  {
    if invulnerable then
      if timer >= INVULN_DURATION then (false, 0.0) else (true, timer)
    else
      if timer >= VULNERABLE_DURATION then (true, 0.0) else (false, timer)
  }

  /** The cycle stays in step: with a non-negative frame time the timer
      stays below the current phase's window, and a frame flips the phase
      at most once. */
  lemma CycleInvariant(invulnerable: bool, timer: real, delta: real)
    requires 0.0 <= timer < Window(invulnerable) && delta >= 0.0
    ensures var (inv, t) := Cycle(invulnerable, timer + delta);
            0.0 <= t < Window(inv) &&
            (inv != invulnerable <==> timer + delta >= Window(invulnerable))
  {
  }

  /** The phase after one frame per entry of `deltas`. */
  function CycleRun(invulnerable: bool, timer: real, deltas: seq<real>): (r: (bool, real))
    decreases |deltas|
  {
    if deltas == [] then (invulnerable, timer)
    else var (inv, t) := Cycle(invulnerable, timer + deltas[0]); CycleRun(inv, t, deltas[1..])
  }

  /** A phase is never cut short: frames adding up to less than what is
      left of the current window leave the phase unchanged. */
  lemma {:induction false} PhaseHolds(invulnerable: bool, timer: real, deltas: seq<real>)
    decreases |deltas|
    requires forall k :: 0 <= k < |deltas| ==> deltas[k] >= 0.0
    requires timer + SumOf(deltas) < Window(invulnerable)
    ensures CycleRun(invulnerable, timer, deltas) == (invulnerable, timer + SumOf(deltas))
  {
    if deltas != [] {
      NonNegativeSum(deltas[1..]);
      PhaseHolds(invulnerable, timer + deltas[0], deltas[1..]);
    }
  }

  class HologramThug {
    var x: real
    var y: real
    var health: real
    var isInvulnerable: bool
    var invulnTimer: real
    var phaseTimer: real
    var attackCooldown: real
    var alpha: real

    constructor (x0: real, y0: real)
      ensures x == x0 && y == y0 && health == THUG_HEALTH && !isInvulnerable
      ensures invulnTimer == 0.0 && phaseTimer == 0.0 && attackCooldown == 0.0
    {
      x, y := x0, y0;
      health := THUG_HEALTH;
      isInvulnerable := false;
      invulnTimer, phaseTimer, attackCooldown := 0.0, 0.0, 0.0;
      alpha := 1.0;
    }

    /** `update(delta, playerX, playerY)`; `dist` is the distance to the
        player and `flicker` the sine of the phase clock. */
    method Update(delta: real, playerX: real, playerY: real, dist: real, flicker: Wave)
      requires IsDistance(dist, playerX - x, playerY - y)
      modifies this
      ensures attackCooldown == CountDown(old(attackCooldown), delta)
      ensures phaseTimer == old(phaseTimer) + delta
      ensures (isInvulnerable, invulnTimer) == Cycle(old(isInvulnerable), old(invulnTimer) + delta)
      ensures 0.0 <= alpha <= 0.8 && (!isInvulnerable ==> alpha == 0.8)
      ensures dist > CHASE_RANGE ==>
                Point(x, y) == StepAlong(old(x), old(y), playerX - old(x), playerY - old(y), dist, THUG_SPEED * (delta / 1000.0))
      ensures dist <= CHASE_RANGE ==> x == old(x) && y == old(y)
      ensures health == old(health)
    {
      var dt := delta / 1000.0;
      if attackCooldown > 0.0 {
        attackCooldown := attackCooldown - delta;
      }
      phaseTimer := phaseTimer + delta;
      invulnTimer := invulnTimer + delta;
      if isInvulnerable {
        alpha := flicker * 0.3 + 0.3;
        if invulnTimer >= INVULN_DURATION {
          isInvulnerable := false;
          invulnTimer := 0.0;
          alpha := 0.8;
        }
      } else {
        alpha := 0.8;
        if invulnTimer >= VULNERABLE_DURATION {
          isInvulnerable := true;
          invulnTimer := 0.0;
        }
      }
      var dx := playerX - x;
      var dy := playerY - y;
      if dist > CHASE_RANGE {
        var p := StepAlong(x, y, dx, dy, dist, THUG_SPEED * dt);
        x, y := p.x, p.y;
      }
    }

    /** `takeDamage(amount = 1)`: ignored while invulnerable. */
    method TakeDamage(amount: real := 1.0) returns (dead: bool)
      modifies this
      ensures old(isInvulnerable) ==> !dead && health == old(health)
      ensures !old(isInvulnerable) ==> (health, dead) == Hit(old(health), amount)
      ensures isInvulnerable == old(isInvulnerable) && invulnTimer == old(invulnTimer)
      ensures x == old(x) && y == old(y)
      ensures phaseTimer == old(phaseTimer) && attackCooldown == old(attackCooldown) && alpha == old(alpha)
    {
      if isInvulnerable {
        return false;
      }
      health := health - amount;
      dead := health <= 0.0;
    }
  }
}
