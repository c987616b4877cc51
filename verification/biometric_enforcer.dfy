/** The biometric enforcer: a riot cop with a baton slam at close range, an
    electrical discharge ring at mid range, and a pursuit otherwise; the
    slam locks it, and while locked even its discharge rings stand still. */
module BioMetricEnforcers {
  import opened Common
  import opened Rings

  const ENFORCER_HEALTH: real := 7.0
  const ENFORCER_SPEED: real := 65.0
  const ENFORCER_DAMAGE: int := 3
  const SLAM_COOLDOWN_MAX: real := 2800.0
  const DISCHARGE_COOLDOWN_MAX: real := 5000.0
  const SLAM_RANGE: real := 55.0
  const DISCHARGE_RANGE: real := 120.0
  const STOP_RANGE: real := 30.0
  /** Discharge rings grow by 3 and fade by 1 per second. */
  const RING_GROWTH: real := 3.0
  const RING_FADE: real := 1.0
  const RING_ALPHA: real := 0.9

  /** What one `update` does after the cooldowns have run down, in the
      source's priority order. */
  datatype Move = Locked | Slam | Discharge | Pursue | Stay

  function Choose(slamming: bool, dist: real, slamCooldown: real, dischargeCooldown: real): (m: Move)
    ensures m == Locked <==> slamming
    ensures m == Slam <==> !slamming && dist < SLAM_RANGE && slamCooldown <= 0.0
    ensures m == Discharge <==> !slamming && !(dist < SLAM_RANGE && slamCooldown <= 0.0) &&
                                dist < DISCHARGE_RANGE && dischargeCooldown <= 0.0
    ensures m == Pursue ==> dist > STOP_RANGE && !(dist < SLAM_RANGE && slamCooldown <= 0.0)
  {
    if slamming then Locked
    else if dist < SLAM_RANGE && slamCooldown <= 0.0 then Slam
    else if dist < DISCHARGE_RANGE && dischargeCooldown <= 0.0 then Discharge
    else if dist > STOP_RANGE then Pursue
    else Stay
  }

  /** Slam beats discharge: at slam range with both cooldowns spent, the
      enforcer slams. */
  lemma SlamFirst(dist: real, slamCooldown: real, dischargeCooldown: real)
    requires dist < SLAM_RANGE && slamCooldown <= 0.0 && dischargeCooldown <= 0.0
    ensures Choose(false, dist, slamCooldown, dischargeCooldown) == Slam
  {
  }

  /** Two discharges are at least `DISCHARGE_COOLDOWN_MAX` ms apart: frames
      adding up to less than that leave the reset cooldown positive. */
  lemma {:induction false} DischargeSpacing(deltas: seq<real>, slamming: bool, dist: real, slamCooldown: real)
    requires forall k :: 0 <= k < |deltas| ==> deltas[k] >= 0.0
    requires SumOf(deltas) < DISCHARGE_COOLDOWN_MAX
    ensures Choose(slamming, dist, slamCooldown, CountDownRun(DISCHARGE_COOLDOWN_MAX, deltas)) != Discharge
  {
    CooldownSpacing(DISCHARGE_COOLDOWN_MAX, deltas);
  }

  /** The ring `electricalDischarge` adds at the enforcer's position. */
  function DischargeRing(x: real, y: real): (r: Ring)
    ensures r.active && r.alpha == RING_ALPHA && r.x == x && r.y == y
  {
    Ring(x, y, 1.0, RING_ALPHA, true)
  }

  /** The frame's step of the ring loop, for a frame of `dt` seconds. */
  function RingStep(dt: real): Ring -> Option<Ring>
  {
    Fade(RING_GROWTH * dt, RING_FADE * dt)
  }

  class BioMetricEnforcer {
    var x: real
    var y: real
    var health: real
    var slamCooldown: real
    var isSlamming: bool
    var dischargeCooldown: real
    var dischargeRings: seq<Ring>

    constructor (x0: real, y0: real)
      ensures x == x0 && y == y0 && health == ENFORCER_HEALTH && !isSlamming
      ensures slamCooldown == 0.0 && dischargeCooldown == 0.0 && dischargeRings == []
    {
      x, y := x0, y0;
      health := ENFORCER_HEALTH;
      slamCooldown, dischargeCooldown := 0.0, 0.0;
      isSlamming := false;
      dischargeRings := [];
    }

    /** `update(delta, playerX, playerY)`; `dist` is the distance to the
        player. */
    method Update(delta: real, playerX: real, playerY: real, dist: real)
      requires IsDistance(dist, playerX - x, playerY - y)
      modifies this
      ensures var sc := CountDown(old(slamCooldown), delta);
              var dc := CountDown(old(dischargeCooldown), delta);
              var m := Choose(old(isSlamming), dist, sc, dc);
              (m == Slam ==> isSlamming && slamCooldown == SLAM_COOLDOWN_MAX) &&
              (m != Slam ==> isSlamming == old(isSlamming) && slamCooldown == sc) &&
              (m == Discharge ==> dischargeCooldown == DISCHARGE_COOLDOWN_MAX) &&
              (m != Discharge ==> dischargeCooldown == dc) &&
              (m == Locked ==> dischargeRings == old(dischargeRings)) &&
              (m == Discharge ==> dischargeRings == FilterMap(old(dischargeRings) + [DischargeRing(x, y)], RingStep(delta / 1000.0))) &&
              (m != Locked && m != Discharge ==> dischargeRings == FilterMap(old(dischargeRings), RingStep(delta / 1000.0)))
      ensures Choose(old(isSlamming), dist, CountDown(old(slamCooldown), delta), CountDown(old(dischargeCooldown), delta)) == Pursue ==>
                Point(x, y) == StepAlong(old(x), old(y), playerX - old(x), playerY - old(y), dist, ENFORCER_SPEED * (delta / 1000.0))
      ensures Choose(old(isSlamming), dist, CountDown(old(slamCooldown), delta), CountDown(old(dischargeCooldown), delta)) != Pursue ==>
                x == old(x) && y == old(y)
      ensures health == old(health)
    {
      var dt := delta / 1000.0;
      if slamCooldown > 0.0 {
        slamCooldown := slamCooldown - delta;
      }
      if dischargeCooldown > 0.0 {
        dischargeCooldown := dischargeCooldown - delta;
      }
      var dx := playerX - x;
      var dy := playerY - y;
      if isSlamming {
        return;
      }
      if dist < SLAM_RANGE && slamCooldown <= 0.0 {
        PerformSlam();
      } else if dist < DISCHARGE_RANGE && dischargeCooldown <= 0.0 {
        ElectricalDischarge();
      } else if dist > STOP_RANGE {
        var p := StepAlong(x, y, dx, dy, dist, ENFORCER_SPEED * dt);
        x, y := p.x, p.y;
      }
      dischargeRings := PruneBackward(dischargeRings, RingStep(dt));
    }

    /** `performSlam()`: the lock is taken and the cooldown reset. */
    method PerformSlam()
      modifies this
      ensures isSlamming && slamCooldown == SLAM_COOLDOWN_MAX
      ensures x == old(x) && y == old(y) && health == old(health)
      ensures dischargeCooldown == old(dischargeCooldown) && dischargeRings == old(dischargeRings)
    {
      isSlamming := true;
      slamCooldown := SLAM_COOLDOWN_MAX;
    }

    /** The slam tween completes: the lock is released. */
    method SlamEnded()
      modifies this
      ensures !isSlamming && slamCooldown == old(slamCooldown)
      ensures x == old(x) && y == old(y) && health == old(health) && dischargeRings == old(dischargeRings)
      ensures dischargeCooldown == old(dischargeCooldown)
    {
      isSlamming := false;
    }

    /** `electricalDischarge()`: exactly one ring, and the cooldown reset. */
    method ElectricalDischarge()
      modifies this
      ensures dischargeCooldown == DISCHARGE_COOLDOWN_MAX
      ensures dischargeRings == old(dischargeRings) + [DischargeRing(x, y)]
      ensures x == old(x) && y == old(y) && health == old(health)
      ensures isSlamming == old(isSlamming) && slamCooldown == old(slamCooldown)
    {
      dischargeCooldown := DISCHARGE_COOLDOWN_MAX;
      dischargeRings := dischargeRings + [Ring(x, y, 1.0, RING_ALPHA, true)];
    }

    /** `takeDamage(amount = 1)`. */
    method TakeDamage(amount: real := 1.0) returns (dead: bool)
      modifies this
      ensures (health, dead) == Hit(old(health), amount)
      ensures x == old(x) && y == old(y) && isSlamming == old(isSlamming) && dischargeRings == old(dischargeRings)
      ensures slamCooldown == old(slamCooldown) && dischargeCooldown == old(dischargeCooldown)
    {
      health := health - amount;
      dead := health <= 0.0;
    }

    /** `destroy()`: the rings go with the enforcer. */
    method Destroy()
      modifies this
      ensures dischargeRings == [] && health == old(health)
      ensures x == old(x) && y == old(y) && slamCooldown == old(slamCooldown) && isSlamming == old(isSlamming)
      ensures dischargeCooldown == old(dischargeCooldown)
    {
      dischargeRings := [];
    }
  }
}
