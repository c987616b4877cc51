/** Slobodan CEO, the level-one boss: a slow sludge giant with a head that
    takes double damage, a melee swipe at close range and a
    "hyper-inflation storm" of eight falling dinar drops. */
module SlobodanCEOs {
  import opened Common

  const BOSS_HEALTH: real := 30.0
  const BOSS_SPEED: real := 40.0
  const BOSS_DAMAGE: int := 3
  const ATTACK_COOLDOWN_MAX: real := 4000.0
  const STORM_COOLDOWN_MAX: real := 8000.0
  const MELEE_RANGE: real := 80.0
  const STORM_RANGE: real := 400.0
  const STORM_COUNT: nat := 8
  /** The head hitbox sits this far above the body's origin. */
  const HEAD_OFFSET: real := 80.0
  /** Drops appear this far above the boss. */
  const DROP_HEIGHT: real := 200.0
  const DROP_SPREAD: real := 200.0
  const DROP_MIN_SPEED: real := 250.0
  const DROP_SPEED_RANGE: real := 100.0

  /** What the boss does with the distance band of one frame. */
  datatype Move = Advance | Melee | Hold

  /** The `if (dist > 80) … else if (attackCooldown <= 0)` chain. */
  function Choose(dist: real, attackCooldown: real): (m: Move)
    ensures m == Advance <==> dist > MELEE_RANGE
    ensures m == Melee <==> dist <= MELEE_RANGE && attackCooldown <= 0.0
    ensures m == Hold <==> dist <= MELEE_RANGE && attackCooldown > 0.0
  {
    if dist > MELEE_RANGE then Advance
    else if attackCooldown <= 0.0 then Melee
    else Hold
  }

  /** The storm condition, checked after the cooldowns have run down. */
  predicate StormDue(stormCooldown: real, dist: real)
  {
    stormCooldown <= 0.0 && dist < STORM_RANGE
  }

  /** A headshot counts double. */
  function HitDamage(amount: real, isHeadshot: bool): (d: real)
    ensures isHeadshot ==> d == 2.0 * amount
    ensures !isHeadshot ==> d == amount
    ensures amount >= 0.0 ==> d >= amount
  {
    if isHeadshot then amount * 2.0 else amount
  }

  /** Between two storms at least `STORM_COOLDOWN_MAX` ms pass: frames
      adding up to less than that leave the reset cooldown positive, so
      no storm is due. */
  lemma {:induction false} StormSpacing(deltas: seq<real>, dist: real)
    requires forall k :: 0 <= k < |deltas| ==> deltas[k] >= 0.0
    requires SumOf(deltas) < STORM_COOLDOWN_MAX
    ensures !StormDue(CountDownRun(STORM_COOLDOWN_MAX, deltas), dist)
  {
    CooldownSpacing(STORM_COOLDOWN_MAX, deltas);
  }

  /** The aim points one storm schedules: eight drops at `targetX`. */
  function Volley(targetX: real): (v: seq<real>)
    ensures |v| == STORM_COUNT && forall i :: 0 <= i < |v| ==> v[i] == targetX
  {
    seq(STORM_COUNT, _ => targetX)
  }

  /** A falling dinar of the storm. */
  datatype StormDrop = StormDrop(x: real, y: real, velocityY: real, active: bool)

  /** The pruning test of `update`: a drop survives while it is active and
      not below the bottom edge. */
  function InFlight(height: real): StormDrop -> Option<StormDrop>
  {
    Keep((d: StormDrop) => d.active && d.y <= height)
  }

  /** A drop after `dt` seconds of the arcade physics step: it falls at
      its own speed, with no gravity. */
  function Fallen(d: StormDrop, dt: real): (r: StormDrop)
    ensures r.x == d.x && r.velocityY == d.velocityY && r.active == d.active
    ensures r.y - d.y == d.velocityY * dt
  {
    d.(y := d.y + d.velocityY * dt)
  }

  /** A drop is pruned exactly when it is inactive or the physics step
      has carried it below the bottom edge; a storm drop, falling at
      250 px/s at least, is carried there by a step of more than
      `(height - y) / 250` seconds. */
  lemma FallenOut(d: StormDrop, dt: real, height: real)
    ensures InFlight(height)(Fallen(d, dt)) == None <==> !d.active || d.y + d.velocityY * dt > height
    ensures d.velocityY >= DROP_MIN_SPEED && dt >= 0.0 && dt * DROP_MIN_SPEED > height - d.y ==>
              InFlight(height)(Fallen(d, dt)) == None
  {
    if d.velocityY >= DROP_MIN_SPEED && dt >= 0.0 {
      assert d.velocityY * dt >= DROP_MIN_SPEED * dt;
    }
  }

  /** The drop the `i`-th storm callback creates from its two draws. */
  function DropAt(targetX: real, bossY: real, r1: Unit, r2: Unit): (d: StormDrop)
    ensures targetX - DROP_SPREAD / 2.0 <= d.x < targetX + DROP_SPREAD / 2.0
    ensures d.y == bossY - DROP_HEIGHT && d.active
    ensures DROP_MIN_SPEED <= d.velocityY < DROP_MIN_SPEED + DROP_SPEED_RANGE
  {
    StormDrop(targetX - 100.0 + r1 * DROP_SPREAD, bossY - DROP_HEIGHT, DROP_MIN_SPEED + r2 * DROP_SPEED_RANGE, true)
  }

  class SlobodanCEO {
    var x: real
    var y: real
    var health: real
    const maxHealth: real
    var isAttacking: bool
    var attackCooldown: real
    var stormCooldown: real
    var facingLeft: bool
    var headHitbox: Point
    var torsoHitbox: Point
    var stormProjectiles: seq<StormDrop>
    /** The storm callbacks still to fire, each with the player position it
        aimed at, in firing order (they fire 200 ms apart). */
    var pendingDrops: seq<real>
    var active: bool

    constructor (x0: real, y0: real)
      ensures x == x0 && y == y0 && health == BOSS_HEALTH && maxHealth == health
      ensures !isAttacking && attackCooldown == 0.0 && stormCooldown == 0.0
      ensures headHitbox == Point(x0, y0 - HEAD_OFFSET) && torsoHitbox == Point(x0, y0)
      ensures stormProjectiles == [] && pendingDrops == [] && active
    {
      x, y := x0, y0;
      health, maxHealth := BOSS_HEALTH, BOSS_HEALTH;
      isAttacking := false;
      attackCooldown, stormCooldown := 0.0, 0.0;
      facingLeft := false;
      headHitbox, torsoHitbox := Point(x0, y0 - HEAD_OFFSET), Point(x0, y0);
      stormProjectiles, pendingDrops := [], [];
      active := true;
    }

    /** `update(delta, playerX, playerY)`; `dist` is the distance to the
        player and `height` the screen height. */
    method Update(delta: real, playerX: real, playerY: real, dist: real, height: real)
      requires IsDistance(dist, playerX - x, playerY - y)
      modifies this
      ensures headHitbox == Point(old(x), old(y) - HEAD_OFFSET) && torsoHitbox == Point(old(x), old(y))
      ensures facingLeft <==> playerX < old(x)
      ensures Choose(dist, CountDown(old(attackCooldown), delta)) == Advance ==>
                Point(x, y) == StepAlong(old(x), old(y), playerX - old(x), playerY - old(y), dist, BOSS_SPEED * (delta / 1000.0)) &&
                attackCooldown == CountDown(old(attackCooldown), delta) && isAttacking == old(isAttacking)
      ensures Choose(dist, CountDown(old(attackCooldown), delta)) == Melee ==>
                x == old(x) && y == old(y) && attackCooldown == ATTACK_COOLDOWN_MAX && isAttacking
      ensures Choose(dist, CountDown(old(attackCooldown), delta)) == Hold ==>
                x == old(x) && y == old(y) && attackCooldown == CountDown(old(attackCooldown), delta) && isAttacking == old(isAttacking)
      ensures var sc := CountDown(old(stormCooldown), delta);
              if StormDue(sc, dist)
              then stormCooldown == STORM_COOLDOWN_MAX && pendingDrops == old(pendingDrops) + Volley(playerX)
              else stormCooldown == sc && pendingDrops == old(pendingDrops)
      ensures stormProjectiles == FilterMap(old(stormProjectiles), InFlight(height))
      ensures health == old(health) && active == old(active)
    {
      // The closing pruning loop reads only `stormProjectiles`, which
      // nothing before it in the frame changes, so it is computed first.
      var kept := PruneBackward(stormProjectiles, InFlight(height));
      var dt := delta / 1000.0;
      headHitbox := Point(x, y - HEAD_OFFSET);
      torsoHitbox := Point(x, y);
      attackCooldown := CountDown(attackCooldown, delta);
      stormCooldown := CountDown(stormCooldown, delta);
      facingLeft := playerX < x;
      var dx := playerX - x;
      var dy := playerY - y;
      if dist > MELEE_RANGE {
        var p := StepAlong(x, y, dx, dy, dist, BOSS_SPEED * dt);
        x, y := p.x, p.y;
      } else if attackCooldown <= 0.0 {
        MeleeAttack();
      }
      if stormCooldown <= 0.0 && dist < STORM_RANGE {
        HyperInflationStorm(playerX);
        stormCooldown := STORM_COOLDOWN_MAX;
      }
      stormProjectiles := kept;
    }

    /** The arcade physics step the engine runs between two updates: every
        storm drop falls for `delta` ms, and the model keeps every other
        field. Destroyed drops fall too, where the engine would leave them;
        the next prune drops them, so nothing observable depends on it. The
        engine also holds the boss's own body inside the world bounds in this
        step; that clamp of `x` and `y` is not modelled. */
    method PhysicsStep(delta: real)
      modifies this
      ensures |stormProjectiles| == |old(stormProjectiles)|
      ensures forall k :: 0 <= k < |stormProjectiles| ==>
                stormProjectiles[k] == Fallen(old(stormProjectiles)[k], delta / 1000.0)
      ensures x == old(x) && y == old(y) && health == old(health) && active == old(active)
      ensures attackCooldown == old(attackCooldown) && stormCooldown == old(stormCooldown)
      ensures pendingDrops == old(pendingDrops) && isAttacking == old(isAttacking)
      ensures facingLeft == old(facingLeft) && headHitbox == old(headHitbox) && torsoHitbox == old(torsoHitbox)
    {
      var dt, drops := delta / 1000.0, stormProjectiles;
      stormProjectiles := seq(|drops|, k requires 0 <= k < |drops| => Fallen(drops[k], dt));
    }

    /** `meleeAttack()`: the swipe starts and the cooldown resets; the
        300 ms timer that ends it is `MeleeEnded`. */
    method MeleeAttack()
      modifies this
      ensures isAttacking && attackCooldown == ATTACK_COOLDOWN_MAX
      ensures x == old(x) && y == old(y) && health == old(health) && active == old(active)
      ensures stormCooldown == old(stormCooldown) && pendingDrops == old(pendingDrops)
      ensures stormProjectiles == old(stormProjectiles) && facingLeft == old(facingLeft)
      ensures headHitbox == old(headHitbox) && torsoHitbox == old(torsoHitbox)
    {
      isAttacking := true;
      attackCooldown := ATTACK_COOLDOWN_MAX;
    }

    /** The 300 ms timer of `meleeAttack`. */
    method MeleeEnded()
      modifies this
      ensures !isAttacking && attackCooldown == old(attackCooldown)
      ensures x == old(x) && y == old(y) && health == old(health) && active == old(active)
      ensures stormCooldown == old(stormCooldown) && stormProjectiles == old(stormProjectiles) && pendingDrops == old(pendingDrops)
      ensures facingLeft == old(facingLeft) && headHitbox == old(headHitbox) && torsoHitbox == old(torsoHitbox)
    {
      isAttacking := false;
    }

    /** `hyperInflationStorm(targetX)`: schedules eight drops aimed at
        `targetX`. */
    method HyperInflationStorm(targetX: real)
      modifies this
      ensures pendingDrops == old(pendingDrops) + Volley(targetX)
      ensures x == old(x) && y == old(y) && health == old(health) && active == old(active)
      ensures attackCooldown == old(attackCooldown) && isAttacking == old(isAttacking)
      ensures stormCooldown == old(stormCooldown) && stormProjectiles == old(stormProjectiles)
      ensures facingLeft == old(facingLeft) && headHitbox == old(headHitbox) && torsoHitbox == old(torsoHitbox)
    {
      var i := 0;
      while i < STORM_COUNT
        invariant 0 <= i <= STORM_COUNT
        invariant pendingDrops == old(pendingDrops) + Volley(targetX)[..i]
        invariant x == old(x) && y == old(y) && health == old(health) && active == old(active)
        invariant attackCooldown == old(attackCooldown) && isAttacking == old(isAttacking)
        invariant stormCooldown == old(stormCooldown) && stormProjectiles == old(stormProjectiles)
        invariant facingLeft == old(facingLeft) && headHitbox == old(headHitbox) && torsoHitbox == old(torsoHitbox)
      {
        assert Volley(targetX)[..i + 1] == Volley(targetX)[..i] + [targetX];
        pendingDrops := pendingDrops + [targetX];
        i := i + 1;
      }
      assert Volley(targetX)[..i] == Volley(targetX);
    }

    /** The next scheduled storm callback fires: a drop appears unless the
        boss is gone. */
    method StormDropDue(r1: Unit, r2: Unit)
      requires pendingDrops != []
      modifies this
      ensures pendingDrops == old(pendingDrops)[1..]
      ensures active ==> stormProjectiles == old(stormProjectiles) + [DropAt(old(pendingDrops)[0], y, r1, r2)]
      ensures !active ==> stormProjectiles == old(stormProjectiles)
      ensures x == old(x) && y == old(y) && health == old(health) && active == old(active)
      ensures isAttacking == old(isAttacking) && attackCooldown == old(attackCooldown) && stormCooldown == old(stormCooldown) && facingLeft == old(facingLeft)
      ensures headHitbox == old(headHitbox) && torsoHitbox == old(torsoHitbox)
    {
      var targetX := pendingDrops[0];
      pendingDrops := pendingDrops[1..];
      if !active {
        return;
      }
      var px := targetX - 100.0 + r1 * DROP_SPREAD;
      stormProjectiles := stormProjectiles + [StormDrop(px, y - DROP_HEIGHT, DROP_MIN_SPEED + r2 * DROP_SPEED_RANGE, true)];
    }

    /** `takeDamage(amount, isHeadshot = false)`. */
    method TakeDamage(amount: real, isHeadshot: bool := false) returns (dead: bool)
      modifies this
      ensures (health, dead) == Hit(old(health), HitDamage(amount, isHeadshot))
      ensures x == old(x) && y == old(y) && attackCooldown == old(attackCooldown)
      ensures stormCooldown == old(stormCooldown) && active == old(active)
      ensures isAttacking == old(isAttacking) && facingLeft == old(facingLeft) && headHitbox == old(headHitbox) && torsoHitbox == old(torsoHitbox)
      ensures stormProjectiles == old(stormProjectiles) && pendingDrops == old(pendingDrops)
    {
      var finalDamage := if isHeadshot then amount * 2.0 else amount;
      health := health - finalDamage;
      dead := health <= 0.0;
    }

    /** `destroy()`: the drops go with the boss; storm callbacks still
        pending then create nothing. */
    method Destroy()
      modifies this
      ensures stormProjectiles == [] && !active
      ensures pendingDrops == old(pendingDrops) && health == old(health)
      ensures x == old(x) && y == old(y) && isAttacking == old(isAttacking) && attackCooldown == old(attackCooldown)
      ensures stormCooldown == old(stormCooldown) && facingLeft == old(facingLeft) && headHitbox == old(headHitbox) && torsoHitbox == old(torsoHitbox)
    {
      stormProjectiles := [];
      active := false;
    }
  }
}
