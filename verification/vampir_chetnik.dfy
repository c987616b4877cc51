/** The vampire chetnik: a fast stalker that dive-kicks from mid range,
    claws at close range, and otherwise pursues. Only the leap locks it. */
module VampirChetniks {
  import opened Common

  const VAMPIRE_HEALTH: real := 4.0
  const VAMPIRE_SPEED: real := 160.0
  const VAMPIRE_DAMAGE: int := 2
  const LEAP_COOLDOWN_MAX: real := 2500.0
  const CLAW_COOLDOWN_MAX: real := 1000.0
  /** The leap band is the open interval (100, 250). */
  const LEAP_MIN: real := 100.0
  const LEAP_MAX: real := 250.0
  const CLAW_RANGE: real := 50.0
  const STOP_RANGE: real := 30.0

  /** What one `update` does after the cooldowns have run down. */
  datatype Move = Locked | Leap | Claw | Pursue | Stay

  function Choose(leaping: bool, dist: real, leapCooldown: real, clawCooldown: real): (m: Move)
    ensures m == Locked <==> leaping
    ensures m == Leap <==> !leaping && LEAP_MIN < dist < LEAP_MAX && leapCooldown <= 0.0
    ensures m == Claw <==> !leaping && !(LEAP_MIN < dist < LEAP_MAX && leapCooldown <= 0.0) &&
                           dist < CLAW_RANGE && clawCooldown <= 0.0
    ensures m == Pursue ==> dist > STOP_RANGE
  {
    if leaping then Locked
    else if dist > LEAP_MIN && dist < LEAP_MAX && leapCooldown <= 0.0 then Leap
    else if dist < CLAW_RANGE && clawCooldown <= 0.0 then Claw
    else if dist > STOP_RANGE then Pursue
    else Stay
  }

  /** The bands never overlap: a leap needs more than 100 px and a claw less
      than 50 px, so a frame that could claw is never one that could leap. */
  lemma BandsDisjoint(dist: real, leapCooldown: real, clawCooldown: real)
    requires dist < CLAW_RANGE && clawCooldown <= 0.0
    ensures Choose(false, dist, leapCooldown, clawCooldown) == Claw
  {
  }

  class VampirChetnik {
    var x: real
    var y: real
    var health: real
    var isLeaping: bool
    var leapCooldown: real
    var clawCooldown: real
    var isClawing: bool
    /** Where the running leap tween lands. */
    var leapTarget: Point

    constructor (x0: real, y0: real)
      ensures x == x0 && y == y0 && health == VAMPIRE_HEALTH
      ensures !isLeaping && !isClawing && leapCooldown == 0.0 && clawCooldown == 0.0
    {
      x, y := x0, y0;
      health := VAMPIRE_HEALTH;
      isLeaping, isClawing := false, false;
      leapCooldown, clawCooldown := 0.0, 0.0;
      leapTarget := Point(x0, y0);
    }

    /** `update(delta, playerX, playerY)`; `dist` is the distance to the
        player. */
    method Update(delta: real, playerX: real, playerY: real, dist: real)
      requires IsDistance(dist, playerX - x, playerY - y)
      modifies this
      ensures var lc := CountDown(old(leapCooldown), delta);
              var cc := CountDown(old(clawCooldown), delta);
              var m := Choose(old(isLeaping), dist, lc, cc);
              (m == Leap <==> isLeaping && !old(isLeaping)) &&
              (m == Leap ==> leapCooldown == LEAP_COOLDOWN_MAX && leapTarget == Point(playerX, playerY)) &&
              (m != Leap ==> leapCooldown == lc && leapTarget == old(leapTarget)) &&
              (m == Claw ==> isClawing && clawCooldown == CLAW_COOLDOWN_MAX) &&
              (m != Claw ==> isClawing == old(isClawing) && clawCooldown == cc)
      ensures Choose(old(isLeaping), dist, CountDown(old(leapCooldown), delta), CountDown(old(clawCooldown), delta)) == Pursue ==>
                Point(x, y) == StepAlong(old(x), old(y), playerX - old(x), playerY - old(y), dist, VAMPIRE_SPEED * (delta / 1000.0))
      ensures Choose(old(isLeaping), dist, CountDown(old(leapCooldown), delta), CountDown(old(clawCooldown), delta)) != Pursue ==>
                x == old(x) && y == old(y)
      ensures old(isLeaping) ==> isLeaping
      ensures health == old(health)
    {
      var dt := delta / 1000.0;
      if leapCooldown > 0.0 {
        leapCooldown := leapCooldown - delta;
      }
      if clawCooldown > 0.0 {
        clawCooldown := clawCooldown - delta;
      }
      var dx := playerX - x;
      var dy := playerY - y;
      if isLeaping {
        return;
      }
      if dist > LEAP_MIN && dist < LEAP_MAX && leapCooldown <= 0.0 {
        PerformLeap(playerX, playerY);
      } else if dist < CLAW_RANGE && clawCooldown <= 0.0 {
        PerformClaw();
      } else if dist > STOP_RANGE {
        var p := StepAlong(x, y, dx, dy, dist, VAMPIRE_SPEED * dt);
        x, y := p.x, p.y;
      }
    }

    /** `performLeap(targetX, targetY)`: the lock is taken, the cooldown
        reset, and a 400 ms tween heads for the target. */
    method PerformLeap(targetX: real, targetY: real)
      modifies this
      ensures isLeaping && leapCooldown == LEAP_COOLDOWN_MAX && leapTarget == Point(targetX, targetY)
      ensures x == old(x) && y == old(y) && health == old(health)
      ensures isClawing == old(isClawing) && clawCooldown == old(clawCooldown)
    {
      isLeaping := true;
      leapCooldown := LEAP_COOLDOWN_MAX;
      leapTarget := Point(targetX, targetY);
    }

    /** The leap tween completes: the vampire stands on the target and the
        lock is released. */
    method LeapEnded()
      modifies this
      ensures !isLeaping && x == old(leapTarget).x && y == old(leapTarget).y
      ensures leapCooldown == old(leapCooldown) && health == old(health)
      ensures clawCooldown == old(clawCooldown) && isClawing == old(isClawing)
    {
      x, y := leapTarget.x, leapTarget.y;
      isLeaping := false;
    }

    /** `performClaw()`: a claw does not lock the vampire. */
    method PerformClaw()
      modifies this
      ensures isClawing && clawCooldown == CLAW_COOLDOWN_MAX
      ensures x == old(x) && y == old(y) && health == old(health)
      ensures isLeaping == old(isLeaping) && leapCooldown == old(leapCooldown) && leapTarget == old(leapTarget)
    {
      isClawing := true;
      clawCooldown := CLAW_COOLDOWN_MAX;
    }

    /** The 200 ms claw timer. */
    method ClawEnded()
      modifies this
      ensures !isClawing && clawCooldown == old(clawCooldown) && isLeaping == old(isLeaping)
      ensures x == old(x) && y == old(y) && health == old(health)
      ensures leapCooldown == old(leapCooldown) && leapTarget == old(leapTarget)
    {
      isClawing := false;
    }

    /** `isAttacking()`: clawing or leaping. */
    method IsAttacking() returns (attacking: bool)
      ensures attacking <==> isClawing || isLeaping
    {
      return isClawing || isLeaping;
    }

    /** `takeDamage(amount = 1)`. */
    method TakeDamage(amount: real := 1.0) returns (dead: bool)
      modifies this
      ensures (health, dead) == Hit(old(health), amount)
      ensures x == old(x) && y == old(y) && isLeaping == old(isLeaping) && isClawing == old(isClawing)
      ensures leapCooldown == old(leapCooldown) && clawCooldown == old(clawCooldown) && leapTarget == old(leapTarget)
    {
      health := health - amount;
      dead := health <= 0.0;
    }
  }
}
