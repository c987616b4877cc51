/** Dizelcic: an aggressive scout that sprays a deodorant mist at mid range
    (a mist that, when sprayed from close enough, glitches the player's
    screen), charges at close range, and otherwise keeps walking at the
    player. */
module Dizelcics {
  import opened Common

  const DIZELCIC_HEALTH: real := 5.0
  const DIZELCIC_SPEED: real := 120.0
  const DIZELCIC_DAMAGE: int := 2
  const CHARGE_SPEED: real := 250.0
  const CHARGE_COOLDOWN_MAX: real := 3000.0
  const CHARGE_DURATION: real := 500.0
  const SPRAY_COOLDOWN_MAX: real := 4000.0
  /** The spray band is the open interval (40, 120). */
  const SPRAY_MIN: real := 40.0
  const SPRAY_MAX: real := 120.0
  const CHARGE_RANGE: real := 150.0
  const GLITCH_RANGE: real := 80.0
  const STOP_RANGE: real := 10.0
  /** A mist appears 40 px toward the player and drifts at 100 px/s. */
  const MIST_OFFSET: real := 40.0
  const MIST_SPEED: real := 100.0

  /** What one `update` starts after the cooldowns have run down. */
  datatype Action = Spray | Charge | Idle

  function Choose(dist: real, sprayCooldown: real, chargeCooldown: real, charging: bool): (a: Action)
    ensures a == Spray <==> SPRAY_MIN < dist < SPRAY_MAX && sprayCooldown <= 0.0
    ensures a == Charge <==> !(SPRAY_MIN < dist < SPRAY_MAX && sprayCooldown <= 0.0) &&
                             dist < CHARGE_RANGE && chargeCooldown <= 0.0 && !charging
  {
    if dist < SPRAY_MAX && dist > SPRAY_MIN && sprayCooldown <= 0.0 then Spray
    else if dist < CHARGE_RANGE && chargeCooldown <= 0.0 && !charging then Charge
    else Idle
  }

  /** Whether a spray in this frame glitches the player: only a spray from
      closer than 80 px with a callback registered does, so a glitch needs
      the player in the band (40, 80). */
  function Glitches(dist: real, sprayCooldown: real, chargeCooldown: real, charging: bool, callbackSet: bool): (g: bool)
    ensures g <==> Choose(dist, sprayCooldown, chargeCooldown, charging) == Spray && dist < GLITCH_RANGE && callbackSet
    ensures g ==> SPRAY_MIN < dist < GLITCH_RANGE
  {
    Choose(dist, sprayCooldown, chargeCooldown, charging) == Spray && dist < GLITCH_RANGE && callbackSet
  }

  /** Where the pursuit takes the dizelcic in a frame: a step toward the
      player, unless it is within 10 px. */
  function Moved(x: real, y: real, px: real, py: real, dist: real, step: real): (p: Point)
    ensures dist <= STOP_RANGE ==> p == Point(x, y)
  {
    if dist > STOP_RANGE then StepAlong(x, y, px - x, py - y, dist, step) else Point(x, y)
  }

  /** The pursuit closes the distance by the step taken. */
  lemma PursuitDistance(x: real, y: real, px: real, py: real, dist: real, step: real)
    requires dist > STOP_RANGE && IsDistance(dist, px - x, py - y)
    ensures var p := Moved(x, y, px, py, dist, step);
            IsDistance(Abs(dist - step), px - p.x, py - p.y)
  {
    StepAlongDistance(x, y, px, py, dist, step);
  }

  /** The walking speed: the charge speed while a charge runs. */
  function SpeedFor(charging: bool): (s: real)
    ensures s > 0.0
    ensures charging <==> s == CHARGE_SPEED
  {
    if charging then CHARGE_SPEED else DIZELCIC_SPEED
  }

  /** A spray mist; `active` falls when its 1500 ms fade completes. */
  datatype Mist = Mist(id: nat, pos: Point, velocity: Point, active: bool)

  /** The mist `aerosolAmbush` sprays toward a player at offset (dx, dy). */
  function SprayMist(id: nat, x: real, y: real, dx: real, dy: real, dist: real): (m: Mist)
    requires dist > 0.0
    ensures m.id == id && m.active
  {
    Mist(id, StepAlong(x, y, dx, dy, dist, MIST_OFFSET), StepAlong(0.0, 0.0, dx, dy, dist, MIST_SPEED), true)
  }

  /** The mist appears on the line to the player, 40 px from the scout,
      and so `|dist - 40|` px from the player. */
  lemma MistTowardPlayer(id: nat, x: real, y: real, px: real, py: real, dist: real)
    requires dist > 0.0 && IsDistance(dist, px - x, py - y)
    ensures var m := SprayMist(id, x, y, px - x, py - y, dist);
            IsDistance(Abs(dist - MIST_OFFSET), px - m.pos.x, py - m.pos.y)
  {
    StepAlongDistance(x, y, px, py, dist, MIST_OFFSET);
  }

  /** The mist still on screen. */
  function Visible(): Mist -> Option<Mist>
  {
    Keep((m: Mist) => m.active)
  }

  /** A mist's number, and the mist its 1500 ms fade destroys. */
  function MistId(m: Mist): nat { m.id }
  function Dissolved(m: Mist): Mist { m.(active := false) }

  /** A mist after `dt` seconds of the arcade physics step: it drifts at
      its own velocity, with no gravity. */
  function Drifted(m: Mist, dt: real): (r: Mist)
    ensures r.id == m.id && r.velocity == m.velocity && r.active == m.active
    ensures r.pos.x - m.pos.x == m.velocity.x * dt && r.pos.y - m.pos.y == m.velocity.y * dt
  {
    m.(pos := Point(m.pos.x + m.velocity.x * dt, m.pos.y + m.velocity.y * dt))
  }

  class Dizelcic {
    var x: real
    var y: real
    var health: real
    var isCharging: bool
    var chargeCooldown: real
    var sprayCooldown: real
    var sprayMists: seq<Mist>
    var nextMistId: nat
    var glitchSet: bool
    /** How often the glitch callback has been called. */
    var glitches: nat

    constructor (x0: real, y0: real)
      ensures x == x0 && y == y0 && health == DIZELCIC_HEALTH && !isCharging
      ensures chargeCooldown == 0.0 && sprayCooldown == 0.0 && sprayMists == []
      ensures !glitchSet && glitches == 0
    {
      x, y := x0, y0;
      health := DIZELCIC_HEALTH;
      isCharging := false;
      chargeCooldown, sprayCooldown := 0.0, 0.0;
      sprayMists := [];
      nextMistId := 0;
      glitchSet, glitches := false, 0;
    }

    /** `setGlitchCallback(cb)`. */
    method SetGlitchCallback()
      modifies this
      ensures glitchSet && glitches == old(glitches)
      ensures x == old(x) && y == old(y) && sprayMists == old(sprayMists) && health == old(health)
      ensures isCharging == old(isCharging) && chargeCooldown == old(chargeCooldown)
      ensures sprayCooldown == old(sprayCooldown) && nextMistId == old(nextMistId)
    {
      glitchSet := true;
    }

    /** `update(delta, playerX, playerY)`; `dist` is the distance to the
        player. */
    method Update(delta: real, playerX: real, playerY: real, dist: real)
      requires IsDistance(dist, playerX - x, playerY - y)
      modifies this
      ensures var sc := CountDown(old(sprayCooldown), delta);
              var cc := CountDown(old(chargeCooldown), delta);
              var a := Choose(dist, sc, cc, old(isCharging));
              (a == Spray ==> sprayCooldown == SPRAY_COOLDOWN_MAX && nextMistId == old(nextMistId) + 1 &&
                              sprayMists == FilterMap(old(sprayMists) + [SprayMist(old(nextMistId), old(x), old(y), playerX - old(x), playerY - old(y), dist)], Visible())) &&
              (a != Spray ==> sprayCooldown == sc && nextMistId == old(nextMistId) &&
                              sprayMists == FilterMap(old(sprayMists), Visible())) &&
              (isCharging <==> old(isCharging) || a == Charge) &&
              chargeCooldown == cc &&
              glitches == old(glitches) + (if Glitches(dist, sc, cc, old(isCharging), old(glitchSet)) then 1 else 0)
      ensures Point(x, y) == Moved(old(x), old(y), playerX, playerY, dist, SpeedFor(isCharging) * (delta / 1000.0))
      ensures health == old(health) && glitchSet == old(glitchSet)
    {
      var dt := delta / 1000.0;
      chargeCooldown := CountDown(chargeCooldown, delta);
      sprayCooldown := CountDown(sprayCooldown, delta);
      var dx := playerX - x;
      var dy := playerY - y;
      if dist < SPRAY_MAX && dist > SPRAY_MIN && sprayCooldown <= 0.0 {
        AerosolAmbush(playerX, playerY, dist);
      } else if dist < CHARGE_RANGE && chargeCooldown <= 0.0 && !isCharging {
        isCharging := true;
      }
      var currentSpeed := if isCharging then CHARGE_SPEED else DIZELCIC_SPEED;
      if dist > STOP_RANGE {
        var p := StepAlong(x, y, dx, dy, dist, currentSpeed * dt);
        x, y := p.x, p.y;
      }
      ghost var moved := Point(x, y);
      assert moved == Moved(old(x), old(y), playerX, playerY, dist, SpeedFor(isCharging) * dt);
      sprayMists := PruneBackward(sprayMists, Visible());
    }

    /** `aerosolAmbush(targetX, targetY)`: the cooldown is reset, one mist
        is sprayed toward the target, and a target closer than 80 px is
        glitched when a callback is registered. */
    method AerosolAmbush(targetX: real, targetY: real, dist: real)
      requires dist > 0.0 && IsDistance(dist, targetX - x, targetY - y)
      modifies this
      ensures sprayCooldown == SPRAY_COOLDOWN_MAX
      ensures sprayMists == old(sprayMists) + [SprayMist(old(nextMistId), x, y, targetX - x, targetY - y, dist)]
      ensures nextMistId == old(nextMistId) + 1
      ensures glitches == old(glitches) + (if dist < GLITCH_RANGE && glitchSet then 1 else 0)
      ensures x == old(x) && y == old(y) && health == old(health) && glitchSet == old(glitchSet)
      ensures isCharging == old(isCharging) && chargeCooldown == old(chargeCooldown)
    {
      sprayCooldown := SPRAY_COOLDOWN_MAX;
      var dx := targetX - x;
      var dy := targetY - y;
      sprayMists := sprayMists + [SprayMist(nextMistId, x, y, dx, dy, dist)];
      nextMistId := nextMistId + 1;
      if dist < GLITCH_RANGE && glitchSet {
        glitches := glitches + 1;
      }
    }

    /** The arcade physics step the engine runs between two updates: every
        mist drifts for `delta` ms, and the model keeps every other field.
        Destroyed mists drift too, where the engine would leave them; the
        next prune drops them, so nothing observable depends on it. The
        engine also holds the scout's own body inside the world bounds in
        this step; that clamp of `x` and `y` is not modelled. */
    method PhysicsStep(delta: real)
      modifies this
      ensures |sprayMists| == |old(sprayMists)|
      ensures forall k :: 0 <= k < |sprayMists| ==> sprayMists[k] == Drifted(old(sprayMists)[k], delta / 1000.0)
      ensures x == old(x) && y == old(y) && health == old(health) && nextMistId == old(nextMistId)
      ensures sprayCooldown == old(sprayCooldown) && chargeCooldown == old(chargeCooldown) && isCharging == old(isCharging)
      ensures glitchSet == old(glitchSet) && glitches == old(glitches)
    {
      var dt, mists := delta / 1000.0, sprayMists;
      sprayMists := seq(|mists|, k requires 0 <= k < |mists| => Drifted(mists[k], dt));
    }

    /** The 1500 ms fade of mist `id` completes. */
    method MistFaded(id: nat)
      modifies this
      ensures sprayMists == Retire(old(sprayMists), id, MistId, Dissolved)
      ensures x == old(x) && y == old(y) && health == old(health) && nextMistId == old(nextMistId)
      ensures isCharging == old(isCharging) && chargeCooldown == old(chargeCooldown) && sprayCooldown == old(sprayCooldown)
      ensures glitchSet == old(glitchSet) && glitches == old(glitches)
    {
      sprayMists := Retire(sprayMists, id, MistId, Dissolved);
    }

    /** The 500 ms charge timer: the charge ends and only now does the
        charge cooldown start. */
    method ChargeEnded()
      modifies this
      ensures !isCharging && chargeCooldown == CHARGE_COOLDOWN_MAX
      ensures x == old(x) && y == old(y) && health == old(health) && sprayCooldown == old(sprayCooldown)
      ensures sprayMists == old(sprayMists) && nextMistId == old(nextMistId) && glitchSet == old(glitchSet) && glitches == old(glitches)
    {
      isCharging := false;
      chargeCooldown := CHARGE_COOLDOWN_MAX;
    }

    /** `takeDamage(amount = 1)`. */
    method TakeDamage(amount: real := 1.0) returns (dead: bool)
      modifies this
      ensures (health, dead) == Hit(old(health), amount)
      ensures x == old(x) && y == old(y) && isCharging == old(isCharging) && sprayMists == old(sprayMists)
      ensures chargeCooldown == old(chargeCooldown) && sprayCooldown == old(sprayCooldown) && nextMistId == old(nextMistId) && glitchSet == old(glitchSet)
      ensures glitches == old(glitches)
    {
      health := health - amount;
      dead := health <= 0.0;
    }

    /** `destroy()`: the mists go with the scout. */
    method Destroy()
      modifies this
      ensures sprayMists == [] && health == old(health)
      ensures x == old(x) && y == old(y) && isCharging == old(isCharging) && chargeCooldown == old(chargeCooldown)
      ensures sprayCooldown == old(sprayCooldown) && nextMistId == old(nextMistId) && glitchSet == old(glitchSet) && glitches == old(glitches)
    {
      sprayMists := [];
    }
  }
}
