/** The corrupted miner: a slow brute whose pickaxe slam runs through a
    windup, a strike that knocks the player down, and a recovery, after
    which its cooldown starts. */
module CorruptedMiners {
  import opened Common

  const MINER_HEALTH: real := 8.0
  const MINER_SPEED: real := 50.0
  const MINER_DAMAGE: int := 4
  const SLAM_COOLDOWN_MAX: real := 3500.0
  /** The windup tween, the strike tween and the recovery delay, in ms. */
  const SLAM_WINDUP: real := 800.0
  const STRIKE_DURATION: real := 150.0
  const RECOVER_DELAY: real := 400.0
  const SLAM_RANGE: real := 60.0
  const STOP_RANGE: real := 20.0

  /** Which of the chained slam callbacks is pending. */
  datatype SlamStage = Ready | WindingUp | Striking | Recovering

  /** What one `update` does after the cooldown has run down. */
  datatype Move = Locked | Slam | Advance | Stay

  function Choose(slamming: bool, dist: real, slamCooldown: real): (m: Move)
    ensures m == Locked <==> slamming
    ensures m == Slam <==> !slamming && dist < SLAM_RANGE && slamCooldown <= 0.0
    ensures m == Advance <==> !slamming && !(dist < SLAM_RANGE && slamCooldown <= 0.0) && dist > STOP_RANGE
  {
    if slamming then Locked
    else if dist < SLAM_RANGE && slamCooldown <= 0.0 then Slam
    else if dist > STOP_RANGE then Advance
    else Stay
  }

  class CorruptedMiner {
    var x: real
    var y: real
    var health: real
    var isSlammingDown: bool
    var slamCooldown: real
    var causesKnockdown: bool
    var stage: SlamStage

    /** The flags follow the slam's stage: the miner is locked for the
        whole slam and knocks the player down only between the strike and
        the recovery. */
    ghost predicate Valid()
      reads this
    {
      (isSlammingDown <==> stage != Ready) && (causesKnockdown <==> stage == Recovering)
    }

    constructor (x0: real, y0: real)
      ensures Valid() && x == x0 && y == y0 && health == MINER_HEALTH
      ensures !isSlammingDown && !causesKnockdown && slamCooldown == 0.0
    {
      x, y := x0, y0;
      health := MINER_HEALTH;
      isSlammingDown, causesKnockdown := false, false;
      slamCooldown := 0.0;
      stage := Ready;
    }

    /** `update(delta, playerX, playerY)`; `dist` is the distance to the
        player. */
    method Update(delta: real, playerX: real, playerY: real, dist: real)
      requires Valid() && IsDistance(dist, playerX - x, playerY - y)
      modifies this
      ensures Valid()
      ensures slamCooldown == CountDown(old(slamCooldown), delta)
      ensures Choose(old(isSlammingDown), dist, slamCooldown) == Slam ==>
                stage == WindingUp && x == old(x) && y == old(y)
      ensures Choose(old(isSlammingDown), dist, slamCooldown) == Advance ==>
                stage == old(stage) &&
                Point(x, y) == StepAlong(old(x), old(y), playerX - old(x), playerY - old(y), dist, MINER_SPEED * (delta / 1000.0))
      ensures Choose(old(isSlammingDown), dist, slamCooldown) in {Locked, Stay} ==>
                stage == old(stage) && x == old(x) && y == old(y)
      ensures health == old(health)
    {
      var dt := delta / 1000.0;
      if slamCooldown > 0.0 {
        slamCooldown := slamCooldown - delta;
      }
      var dx := playerX - x;
      var dy := playerY - y;
      if isSlammingDown {
        return;
      }
      if dist < SLAM_RANGE && slamCooldown <= 0.0 {
        StartSlam();
      } else if dist > STOP_RANGE {
        var p := StepAlong(x, y, dx, dy, dist, MINER_SPEED * dt);
        x, y := p.x, p.y;
      }
    }

    /** `startSlam()`: the miner locks and the windup tween starts; the
        knockdown is not armed yet and the cooldown is left alone. */
    method StartSlam()
      requires stage == Ready
      modifies this
      ensures isSlammingDown && !causesKnockdown && stage == WindingUp
      ensures slamCooldown == old(slamCooldown) && x == old(x) && y == old(y) && health == old(health)
    {
      isSlammingDown := true;
      causesKnockdown := false;
      stage := WindingUp;
    }

    /** The 800 ms windup tween completes and the strike tween starts. */
    method WindupDone()
      requires Valid() && stage == WindingUp
      modifies this
      ensures Valid() && stage == Striking && isSlammingDown && !causesKnockdown
      ensures slamCooldown == old(slamCooldown) && x == old(x) && y == old(y) && health == old(health)
    {
      stage := Striking;
    }

    /** The 150 ms strike tween completes: the knockdown is armed and the
        400 ms recovery is scheduled. */
    method StrikeDone()
      requires Valid() && stage == Striking
      modifies this
      ensures Valid() && stage == Recovering && isSlammingDown && causesKnockdown
      ensures slamCooldown == old(slamCooldown) && x == old(x) && y == old(y) && health == old(health)
    {
      causesKnockdown := true;
      stage := Recovering;
    }

    /** The recovery delay ends: the miner is free, disarmed, and only now
        does the slam cooldown start. */
    method SlamReset()
      requires Valid() && stage == Recovering
      modifies this
      ensures Valid() && stage == Ready && !isSlammingDown && !causesKnockdown
      ensures slamCooldown == SLAM_COOLDOWN_MAX
      ensures x == old(x) && y == old(y) && health == old(health)
    {
      isSlammingDown := false;
      causesKnockdown := false;
      slamCooldown := SLAM_COOLDOWN_MAX;
      stage := Ready;
    }

    /** `takeDamage(amount = 1)`. */
    method TakeDamage(amount: real := 1.0) returns (dead: bool)
      modifies this
      ensures (health, dead) == Hit(old(health), amount)
      ensures x == old(x) && y == old(y) && stage == old(stage) && slamCooldown == old(slamCooldown)
      ensures isSlammingDown == old(isSlammingDown) && causesKnockdown == old(causesKnockdown)
    {
      health := health - amount;
      dead := health <= 0.0;
    }
  }
}
