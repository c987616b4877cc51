/** The zombie partisan: a shambling grunt that stabs with its bayonet at
    close range and is locked until the stab tween finishes. */
module ZombiePartisans {
  import opened Common

  const ZOMBIE_HEALTH: real := 3.0
  const ZOMBIE_SPEED: real := 70.0
  const ZOMBIE_DAMAGE: int := 1
  const STAB_COOLDOWN_MAX: real := 1800.0
  const STAB_RANGE: real := 45.0
  const STOP_RANGE: real := 20.0

  /** What one `update` does after the cooldown has run down. */
  datatype Move = Locked | Stab | Advance | Stay

  function Choose(stabbing: bool, dist: real, stabCooldown: real): (m: Move)
    ensures m == Locked <==> stabbing
    ensures m == Stab <==> !stabbing && dist < STAB_RANGE && stabCooldown <= 0.0
    ensures m == Advance <==> !stabbing && !(dist < STAB_RANGE && stabCooldown <= 0.0) && dist > STOP_RANGE
  {
    if stabbing then Locked
    else if dist < STAB_RANGE && stabCooldown <= 0.0 then Stab
    else if dist > STOP_RANGE then Advance
    else Stay
  }

  /** Two stabs are at least `STAB_COOLDOWN_MAX` ms apart: frames adding
      up to less than that leave the reset cooldown positive, so `Choose`
      cannot pick `Stab`. */
  lemma {:induction false} StabSpacing(deltas: seq<real>, stabbing: bool, dist: real)
    requires forall k :: 0 <= k < |deltas| ==> deltas[k] >= 0.0
    requires SumOf(deltas) < STAB_COOLDOWN_MAX
    ensures Choose(stabbing, dist, CountDownRun(STAB_COOLDOWN_MAX, deltas)) != Stab
  {
    CooldownSpacing(STAB_COOLDOWN_MAX, deltas);
  }

  class ZombiePartisan {
    var x: real
    var y: real
    var health: real
    var isStabbing: bool
    var stabCooldown: real

    constructor (x0: real, y0: real)
      ensures x == x0 && y == y0 && health == ZOMBIE_HEALTH && !isStabbing && stabCooldown == 0.0
    {
      x, y := x0, y0;
      health := ZOMBIE_HEALTH;
      isStabbing := false;
      stabCooldown := 0.0;
    }

    /** `update(delta, playerX, playerY)`; `dist` is the distance to the
        player. */
    method Update(delta: real, playerX: real, playerY: real, dist: real)
      requires IsDistance(dist, playerX - x, playerY - y)
      modifies this
      ensures Choose(old(isStabbing), dist, CountDown(old(stabCooldown), delta)) == Stab ==>
                isStabbing && stabCooldown == STAB_COOLDOWN_MAX && x == old(x) && y == old(y)
      ensures Choose(old(isStabbing), dist, CountDown(old(stabCooldown), delta)) == Advance ==>
                !isStabbing && stabCooldown == CountDown(old(stabCooldown), delta) &&
                Point(x, y) == StepAlong(old(x), old(y), playerX - old(x), playerY - old(y), dist, ZOMBIE_SPEED * (delta / 1000.0))
      ensures Choose(old(isStabbing), dist, CountDown(old(stabCooldown), delta)) in {Locked, Stay} ==>
                isStabbing == old(isStabbing) && stabCooldown == CountDown(old(stabCooldown), delta) &&
                x == old(x) && y == old(y)
      ensures health == old(health)
    {
      var dt := delta / 1000.0;
      if stabCooldown > 0.0 {
        stabCooldown := stabCooldown - delta;
      }
      var dx := playerX - x;
      var dy := playerY - y;
      if isStabbing {
        return;
      }
      if dist < STAB_RANGE && stabCooldown <= 0.0 {
        PerformStab();
      } else if dist > STOP_RANGE {
        var p := StepAlong(x, y, dx, dy, dist, ZOMBIE_SPEED * dt);
        x, y := p.x, p.y;
      }
    }

    /** `performStab()`: the lock is taken and the cooldown reset. */
    method PerformStab()
      modifies this
      ensures isStabbing && stabCooldown == STAB_COOLDOWN_MAX
      ensures x == old(x) && y == old(y) && health == old(health)
    {
      isStabbing := true;
      stabCooldown := STAB_COOLDOWN_MAX;
    }

    /** The stab tween completes: the lock is released, and only here. */
    method StabEnded()
      modifies this
      ensures !isStabbing && stabCooldown == old(stabCooldown)
      ensures x == old(x) && y == old(y) && health == old(health)
    {
      isStabbing := false;
    }

    /** `takeDamage(amount = 1)`. */
    method TakeDamage(amount: real := 1.0) returns (dead: bool)
      modifies this
      ensures (health, dead) == Hit(old(health), amount)
      ensures x == old(x) && y == old(y) && isStabbing == old(isStabbing) && stabCooldown == old(stabCooldown)
    {
      health := health - amount;
      dead := health <= 0.0;
    }
  }
}
