/** Mecha Tito, the level-two boss, fought in three phases chosen by its
    remaining health: a patrol that summons partisans, a chase with
    "brotherhood lasers", and a teleporting glitch that fires faster. */
module MechaTitos {
  import opened Common

  const TITO_HEALTH: real := 50.0
  const TITO_SPEED: real := 35.0
  const TITO_DAMAGE: int := 4
  const PHASE2_SPEED: real := 45.0
  const PHASE3_SPEED: real := 60.0
  /** Health ratios at or below which phases 3 and 2 begin. */
  const PHASE3_RATIO: real := 0.33
  const PHASE2_RATIO: real := 0.66
  const PATROL_RANGE: real := 200.0
  const SUMMON_OFFSET: real := 150.0
  const SUMMON_COOLDOWN: real := 5000.0
  const CHASE_RANGE: real := 100.0
  const PHASE2_LASER_COOLDOWN: real := 2500.0
  const PHASE3_LASER_COOLDOWN: real := 1500.0
  const TELEPORT_OFFSET: real := 120.0
  const TELEPORT_COOLDOWN: real := 2000.0
  /** Lasers leave from the eyes, this far above the body's origin. */
  const EYE_HEIGHT: real := 90.0
  const JITTER: real := 40.0

  type Phase = p: int | 1 <= p <= 3 witness 1

  /** The phase a health level calls for on its own. */
  function PhaseFor(health: real): (p: Phase)
  {
    if health / TITO_HEALTH <= PHASE3_RATIO then 3
    else if health / TITO_HEALTH <= PHASE2_RATIO then 2
    else 1
  }

  /** The transition at the top of `update`: the new phase and speed. */
  function Transition(phase: Phase, health: real, speed: real): (r: (Phase, real))
  {
    var ratio := health / TITO_HEALTH;
    if ratio <= PHASE3_RATIO && phase < 3 then (3, PHASE3_SPEED)
    else if ratio <= PHASE2_RATIO && phase < 2 then (2, PHASE2_SPEED)
    else (phase, speed)
  }

  /** The transition never lowers the phase: it moves to the larger of the
      current phase and the one the health calls for, and the speed changes
      exactly when the phase does. */
  lemma TransitionIsMax(phase: Phase, health: real, speed: real)
    ensures var (p, s) := Transition(phase, health, speed);
            p == (if phase >= PhaseFor(health) then phase else PhaseFor(health)) &&
            (p == phase ==> s == speed) &&
            (p == 2 && phase != 2 ==> s == PHASE2_SPEED) &&
            (p == 3 && phase != 3 ==> s == PHASE3_SPEED)
  {
  }

  /** The phase after a run of frames, one health reading per frame. */
  function PhaseRun(phase: Phase, healths: seq<real>): Phase
    decreases |healths|
  {
    if healths == [] then phase else PhaseRun(Transition(phase, healths[0], 0.0).0, healths[1..])
  }

  /** Over any run of frames the phase never goes down, and it reaches at
      least the phase any frame's health called for. */
  lemma {:induction false} PhaseNeverDecreases(phase: Phase, healths: seq<real>)
    decreases |healths|
    ensures PhaseRun(phase, healths) >= phase
    ensures forall k :: 0 <= k < |healths| ==> PhaseRun(phase, healths) >= PhaseFor(healths[k])
  {
    if healths != [] {
      var p1 := Transition(phase, healths[0], 0.0).0;
      TransitionIsMax(phase, healths[0], 0.0);
      PhaseNeverDecreases(p1, healths[1..]);
      forall k | 0 <= k < |healths|
        ensures PhaseRun(phase, healths) >= PhaseFor(healths[k])
      {
        if k > 0 {
          assert healths[k] == healths[1..][k - 1];
        }
      }
    }
  }

  /** A single frame can jump from phase 1 straight to phase 3. */
  lemma SkipsPhaseTwo()
    ensures Transition(1, 10.0, TITO_SPEED) == (3, PHASE3_SPEED)
  {
  }

  /** A brotherhood laser: from the eyes toward where the player stood. The
      beam's length and angle are drawing details. */
  datatype Laser = Laser(id: nat, x: real, y: real, targetX: real, targetY: real, active: bool)

  /** The cleanup test: beams survive while active. */
  function Burning(): Laser -> Option<Laser>
  {
    Keep((b: Laser) => b.active)
  }

  /** A beam's number, and the beam its 300 ms timer destroys. */
  function LaserId(b: Laser): nat { b.id }
  function Shut(b: Laser): Laser { b.(active := false) }

  /** The boss's state. `summons` records the calls of the summon
      callback, `summonSet` whether one is registered. */
  datatype Tito = Tito(
    x: real, y: real, health: real, speed: real, phase: Phase,
    phaseTimer: real, attackCooldown: real, summonCooldown: real, teleportCooldown: real,
    glitchFlicker: real, alpha: real,
    laserBeams: seq<Laser>, nextLaserId: nat,
    summonSet: bool, summons: seq<Point>)

  /** Where a summoned partisan appears: 150 px to one side, jittered
      ±20 px vertically. */
  function SummonPoint(x: real, y: real, side: Unit, jitter: Unit): (p: Point)
    ensures p.x == x + SUMMON_OFFSET || p.x == x - SUMMON_OFFSET
    ensures y - JITTER / 2.0 <= p.y < y + JITTER / 2.0
  {
    Point(x + (if side > 0.5 then SUMMON_OFFSET else -SUMMON_OFFSET), y + jitter * JITTER - JITTER / 2.0)
  }

  /** The top of `update`: the clocks run, the cooldowns run down clamped
      at zero and the phase follows the health. */
  function Transitioned(t: Tito, delta: real): Tito
  {
    var r := Transition(t.phase, t.health, t.speed);
    t.(phaseTimer := t.phaseTimer + delta,
       attackCooldown := ClampedCountDown(t.attackCooldown, delta),
       summonCooldown := ClampedCountDown(t.summonCooldown, delta),
       teleportCooldown := ClampedCountDown(t.teleportCooldown, delta),
       phase := r.0, speed := r.1)
  }

  /** `fireBrotherhoodLaser(targetX, targetY)`. */
  function Fired(t: Tito, targetX: real, targetY: real): Tito
  {
    t.(laserBeams := t.laserBeams + [Laser(t.nextLaserId, t.x, t.y - EYE_HEIGHT, targetX, targetY, true)],
       nextLaserId := t.nextLaserId + 1)
  }

  /** `updatePhase1`: a slow horizontal patrol, and a summon whenever the
      cooldown allows and a callback is registered. */
  function Phase1(t: Tito, dt: real, playerX: real, side: Unit, jitter: Unit): Tito
  {
    var t1 := Patrolled(t, dt, playerX);
    if t1.summonCooldown <= 0.0 && t1.summonSet then
      t1.(summons := t1.summons + [SummonPoint(t1.x, t1.y, side, jitter)], summonCooldown := SUMMON_COOLDOWN)
    else t1
  }

  /** The patrol of phase 1: a step toward the player's column beyond
      200 px. */
  function Patrolled(t: Tito, dt: real, playerX: real): Tito
  {
    var dx := playerX - t.x;
    if Abs(dx) > PATROL_RANGE then t.(x := t.x + Sign(dx) * t.speed * dt) else t
  }

  /** `updatePhase2`: chase beyond 100 px, fire when the cooldown allows. */
  function Phase2(t: Tito, dt: real, playerX: real, playerY: real, dist: real): Tito
  {
    var t1 := Chased(t, dt, playerX, playerY, dist);
    if t1.attackCooldown <= 0.0 then Fired(t1, playerX, playerY).(attackCooldown := PHASE2_LASER_COOLDOWN) else t1
  }

  /** The chase of phase 2: a step toward the player beyond 100 px. */
  function Chased(t: Tito, dt: real, playerX: real, playerY: real, dist: real): Tito
  {
    if dist > CHASE_RANGE then
      var p := StepAlong(t.x, t.y, playerX - t.x, playerY - t.y, dist, t.speed * dt); t.(x := p.x, y := p.y)
    else t
  }

  /** `updatePhase3`: flicker, teleport beside the player when the cooldown
      allows, then fire when the laser cooldown allows. */
  function Phase3(t: Tito, dt: real, playerX: real, playerY: real, flicker: Wave, side: Unit, jitter: Unit): Tito
  {
    var t1 := t.(glitchFlicker := t.glitchFlicker + dt, alpha := flicker * 0.3 + 0.7);
    var t2 := Teleported(t1, playerX, playerY, side, jitter);
    if t2.attackCooldown <= 0.0 then Fired(t2, playerX, playerY).(attackCooldown := PHASE3_LASER_COOLDOWN) else t2
  }

  /** The teleport of phase 3: beside the player, left or right by the
      draw `side`, jittered vertically, whenever the cooldown allows. */
  function Teleported(t: Tito, playerX: real, playerY: real, side: Unit, jitter: Unit): Tito
  {
    if t.teleportCooldown <= 0.0 then
      var p := TeleportPoint(playerX, playerY, side, jitter); t.(x := p.x, y := p.y, teleportCooldown := TELEPORT_COOLDOWN)
    else t
  }

  /** Where a teleport lands: 120 px to one side of the player, jittered
      ±20 px vertically. */
  function TeleportPoint(playerX: real, playerY: real, side: Unit, jitter: Unit): (p: Point)
    ensures p.x == playerX + TELEPORT_OFFSET || p.x == playerX - TELEPORT_OFFSET
    ensures playerY - JITTER / 2.0 <= p.y < playerY + JITTER / 2.0
  {
    Point(playerX + (if side > 0.5 then TELEPORT_OFFSET else -TELEPORT_OFFSET), playerY + jitter * JITTER - JITTER / 2.0)
  }

  /** The phase dispatch of `update`. */
  function Dispatch(t: Tito, dt: real, playerX: real, playerY: real, dist: real, flicker: Wave, side: Unit, jitter: Unit): Tito
  {
    if t.phase == 1 then Phase1(t, dt, playerX, side, jitter)
    else if t.phase == 2 then Phase2(t, dt, playerX, playerY, dist)
    else Phase3(t, dt, playerX, playerY, flicker, side, jitter)
  }

  /** One `update(delta, playerX, playerY)`. */
  function Step(t: Tito, delta: real, playerX: real, playerY: real, dist: real, flicker: Wave, side: Unit, jitter: Unit): Tito
  {
    var t1 := Dispatch(Transitioned(t, delta), delta / 1000.0, playerX, playerY, dist, flicker, side, jitter);
    t1.(laserBeams := FilterMap(t1.laserBeams, Burning()))
  }

  /** `Step` is its three stages in turn. */
  lemma StepStages(t: Tito, t1: Tito, t2: Tito, delta: real, playerX: real, playerY: real, dist: real, flicker: Wave, side: Unit, jitter: Unit)
    requires t1 == Transitioned(t, delta)
    requires t2 == Dispatch(t1, delta / 1000.0, playerX, playerY, dist, flicker, side, jitter)
    ensures Step(t, delta, playerX, playerY, dist, flicker, side, jitter) == t2.(laserBeams := FilterMap(t2.laserBeams, Burning()))
  {
  }

  /** A frame never lowers the phase, never touches the health, and sets
      the phase the transition calls for. */
  lemma StepKeepsPhase(t: Tito, delta: real, playerX: real, playerY: real, dist: real, flicker: Wave, side: Unit, jitter: Unit)
    ensures var r := Step(t, delta, playerX, playerY, dist, flicker, side, jitter);
            r.phase >= t.phase && r.phase >= PhaseFor(t.health) && r.health == t.health
  {
    TransitionIsMax(t.phase, t.health, t.speed);
  }

  /** Summons: a frame calls the callback exactly when the boss is in
      phase 1 after the transition, the clamped summon cooldown is spent
      and a callback is registered; it then resets the cooldown to 5000. */
  lemma SummonRule(t: Tito, delta: real, playerX: real, playerY: real, dist: real, flicker: Wave, side: Unit, jitter: Unit)
    ensures var r := Step(t, delta, playerX, playerY, dist, flicker, side, jitter);
            var due := Transition(t.phase, t.health, t.speed).0 == 1 &&
                       ClampedCountDown(t.summonCooldown, delta) <= 0.0 && t.summonSet;
            (due ==> |r.summons| == |t.summons| + 1 && r.summonCooldown == SUMMON_COOLDOWN) &&
            (!due ==> r.summons == t.summons)
  {
  }

  /** Lasers: a frame outside phase 1 fires exactly when the clamped
      attack cooldown is spent, and the cooldown is then 2500 in phase 2
      and 1500 in phase 3; phase 1 never fires. */
  lemma LaserRule(t: Tito, delta: real, playerX: real, playerY: real, dist: real, flicker: Wave, side: Unit, jitter: Unit)
    ensures var r := Step(t, delta, playerX, playerY, dist, flicker, side, jitter);
            var p := Transition(t.phase, t.health, t.speed).0;
            var fires := p != 1 && ClampedCountDown(t.attackCooldown, delta) <= 0.0;
            (fires ==> r.nextLaserId == t.nextLaserId + 1 &&
                       r.attackCooldown == (if p == 2 then PHASE2_LASER_COOLDOWN else PHASE3_LASER_COOLDOWN)) &&
            (!fires ==> r.nextLaserId == t.nextLaserId && r.attackCooldown == ClampedCountDown(t.attackCooldown, delta))
  {
  }

  /** The clamped cooldowns never go negative, whatever the frame. */
  lemma CooldownsNonNegative(t: Tito, delta: real, playerX: real, playerY: real, dist: real, flicker: Wave, side: Unit, jitter: Unit)
    ensures var r := Step(t, delta, playerX, playerY, dist, flicker, side, jitter);
            r.attackCooldown >= 0.0 && r.summonCooldown >= 0.0 && r.teleportCooldown >= 0.0
  {
  }

  /** After a frame no beam is inactive, and every beam that was burning
      before is still there. */
  lemma CleanupKeepsBurning(t: Tito, delta: real, playerX: real, playerY: real, dist: real, flicker: Wave, side: Unit, jitter: Unit, b: Laser)
    ensures var r := Step(t, delta, playerX, playerY, dist, flicker, side, jitter);
            (b in r.laserBeams ==> b.active) && (b in t.laserBeams && b.active ==> b in r.laserBeams)
  {
    var t1 := Dispatch(Transitioned(t, delta), delta / 1000.0, playerX, playerY, dist, flicker, side, jitter);
    assert t.laserBeams <= t1.laserBeams;
    KeepExactly(t1.laserBeams, (b: Laser) => b.active, b);
  }

  class MechaTito {
    var x: real
    var y: real
    var health: real
    const maxHealth: real := TITO_HEALTH
    var speed: real
    var phase: Phase
    var phaseTimer: real
    var attackCooldown: real
    var summonCooldown: real
    var teleportCooldown: real
    var glitchFlicker: real
    var alpha: real
    var laserBeams: seq<Laser>
    var nextLaserId: nat
    var summonSet: bool
    /** The calls of the summon callback, oldest first. */
    var summons: seq<Point>

    function State(): Tito
      reads this
    {
      Tito(x, y, health, speed, phase, phaseTimer, attackCooldown, summonCooldown, teleportCooldown,
           glitchFlicker, alpha, laserBeams, nextLaserId, summonSet, summons)
    }

    constructor (x0: real, y0: real)
      ensures State() == Tito(x0, y0, TITO_HEALTH, TITO_SPEED, 1, 0.0, 0.0, 0.0, 0.0, 0.0, 1.0, [], 0, false, [])
    {
      x, y := x0, y0;
      health := TITO_HEALTH;
      speed := TITO_SPEED;
      phase := 1;
      phaseTimer, attackCooldown, summonCooldown, teleportCooldown := 0.0, 0.0, 0.0, 0.0;
      glitchFlicker, alpha := 0.0, 1.0;
      laserBeams, nextLaserId := [], 0;
      summonSet, summons := false, [];
    }

    method SetSummonCallback()
      modifies this
      ensures State() == old(State()).(summonSet := true)
    {
      summonSet := true;
    }

    /** `update(delta, playerX, playerY)`: `dist` is the distance to the
        player, `flicker` the sine of the glitch clock, and `side` and
        `jitter` the two random draws of a summon or a teleport. */
    method Update(delta: real, playerX: real, playerY: real, dist: real, flicker: Wave, side: Unit, jitter: Unit)
      requires IsDistance(dist, playerX - x, playerY - y)
      modifies this
      ensures State() == Step(old(State()), delta, playerX, playerY, dist, flicker, side, jitter)
    {
      var dt := delta / 1000.0;
      RunClocks(delta);
      ghost var transitioned := State();
      ghost var dispatched := Dispatch(transitioned, dt, playerX, playerY, dist, flicker, side, jitter);
      if phase == 1 {
        UpdatePhase1(dt, playerX, side, jitter);
      } else if phase == 2 {
        UpdatePhase2(dt, playerX, playerY, dist);
      } else {
        UpdatePhase3(dt, playerX, playerY, flicker, side, jitter);
      }
      assert State() == dispatched;
      StepStages(old(State()), transitioned, dispatched, delta, playerX, playerY, dist, flicker, side, jitter);
      laserBeams := PruneBackward(laserBeams, Burning());
    }

    /** The top of `update`: the phase clock and the clamped cooldowns run,
        then the phase follows the health. */
    method RunClocks(delta: real)
      modifies this
      ensures State() == Transitioned(old(State()), delta)
    {
      phaseTimer := phaseTimer + delta;
      attackCooldown := ClampedCountDown(attackCooldown, delta);
      summonCooldown := ClampedCountDown(summonCooldown, delta);
      teleportCooldown := ClampedCountDown(teleportCooldown, delta);
      var healthPercent := health / maxHealth;
      if healthPercent <= PHASE3_RATIO && phase < 3 {
        phase := 3;
        speed := PHASE3_SPEED;
      } else if healthPercent <= PHASE2_RATIO && phase < 2 {
        phase := 2;
        speed := PHASE2_SPEED;
      }
    }

    method UpdatePhase1(dt: real, playerX: real, side: Unit, jitter: Unit)
      modifies this
      ensures State() == Phase1(old(State()), dt, playerX, side, jitter)
    {
      var dx := playerX - x;
      if Abs(dx) > PATROL_RANGE {
        x := x + Sign(dx) * speed * dt;
      }
      ghost var patrolled := State();
      assert patrolled == Patrolled(old(State()), dt, playerX);
      if summonCooldown <= 0.0 && summonSet {
        var p := SummonPoint(x, y, side, jitter);
        summons := summons + [p];
        summonCooldown := SUMMON_COOLDOWN;
      }
    }

    method UpdatePhase2(dt: real, playerX: real, playerY: real, dist: real)
      requires IsDistance(dist, playerX - x, playerY - y)
      modifies this
      ensures State() == Phase2(old(State()), dt, playerX, playerY, dist)
    {
      var dx := playerX - x;
      var dy := playerY - y;
      if dist > CHASE_RANGE {
        var p := StepAlong(x, y, dx, dy, dist, speed * dt);
        x, y := p.x, p.y;
      }
      ghost var moved := State();
      assert moved == Chased(old(State()), dt, playerX, playerY, dist);
      if attackCooldown <= 0.0 {
        FireBrotherhoodLaser(playerX, playerY);
        assert State() == Fired(moved, playerX, playerY);
        attackCooldown := PHASE2_LASER_COOLDOWN;
      }
    }

    method UpdatePhase3(dt: real, playerX: real, playerY: real, flicker: Wave, side: Unit, jitter: Unit)
      modifies this
      ensures State() == Phase3(old(State()), dt, playerX, playerY, flicker, side, jitter)
    {
      glitchFlicker := glitchFlicker + dt;
      alpha := flicker * 0.3 + 0.7;
      if teleportCooldown <= 0.0 {
        var p := TeleportPoint(playerX, playerY, side, jitter);
        x, y := p.x, p.y;
        teleportCooldown := TELEPORT_COOLDOWN;
      }
      if attackCooldown <= 0.0 {
        FireBrotherhoodLaser(playerX, playerY);
        attackCooldown := PHASE3_LASER_COOLDOWN;
      }
    }

    method FireBrotherhoodLaser(targetX: real, targetY: real)
      modifies this
      ensures State() == Fired(old(State()), targetX, targetY)
    {
      laserBeams := laserBeams + [Laser(nextLaserId, x, y - EYE_HEIGHT, targetX, targetY, true)];
      nextLaserId := nextLaserId + 1;
    }

    /** The 300 ms timer of the beam `id`. */
    method LaserExpired(id: nat)
      modifies this
      ensures State() == old(State()).(laserBeams := Retire(old(laserBeams), id, LaserId, Shut))
    {
      laserBeams := Retire(laserBeams, id, LaserId, Shut);
    }

    /** `takeDamage(amount = 1)`: the phase waits for the next `update`. */
    method TakeDamage(amount: real := 1.0) returns (dead: bool)
      modifies this
      ensures (health, dead) == Hit(old(health), amount)
      ensures State() == old(State()).(health := health)
    {
      health := health - amount;
      dead := health <= 0.0;
    }

    /** `destroy()`: the beams go with the boss. */
    method Destroy()
      modifies this
      ensures State() == old(State()).(laserBeams := [])
    {
      laserBeams := [];
    }
  }
}
