/** Weapons: a magazine of `maxAmmo` shots, a fire-rate cooldown and a
    muzzle offset that flips with the facing direction. A successful shot
    asks the scene for a projectile through the event bus. */
module Weapons {
  import opened Common

  datatype WeaponConfig = WeaponConfig(
    name: string,
    maxAmmo: int,
    /** Milliseconds between shots. */
    fireRate: real,
    projectileSpeed: real,
    projectileColor: int,
    muzzleOffsetX: real,
    muzzleOffsetY: real,
    damage: int)

  const PISTOL: WeaponConfig := WeaponConfig("Zastava M57", 8, 400.0, 700.0, 0xffff00, 24.0, -8.0, 1)
  const SMG: WeaponConfig := WeaponConfig("Zastava M56", 32, 120.0, 800.0, 0xffaa00, 30.0, -6.0, 1)
  const SHOTGUN: WeaponConfig := WeaponConfig("Pump-Action", 6, 800.0, 600.0, 0xff4400, 28.0, -10.0, 3)

  /** `WEAPON_PRESETS`, keyed by preset name. */
  const WEAPON_PRESETS: map<string, WeaponConfig> := map["pistol" := PISTOL, "smg" := SMG, "shotgun" := SHOTGUN]

  /** Every preset has a non-empty magazine, a positive cooldown and speed,
      and positive damage. */
  lemma PresetsWellFormed(key: string)
    requires key in WEAPON_PRESETS
    ensures var c := WEAPON_PRESETS[key];
            c.maxAmmo > 0 && c.fireRate > 0.0 && c.projectileSpeed > 0.0 && c.damage > 0
  {
  }

  /** The payload of the `spawn-projectile` event. */
  datatype ProjectileSpawn = ProjectileSpawn(x: real, y: real, speed: real, directionX: int, color: int, damage: int)

  /** The weapon's mutable state. */
  datatype WeaponState = WeaponState(currentAmmo: int, canFire: bool, facingRight: bool)

  function Loaded(config: WeaponConfig): (s: WeaponState)
    ensures s.currentAmmo == config.maxAmmo && s.canFire
  {
    WeaponState(config.maxAmmo, true, true)
  }

  /** `dirMult`: 1 facing right, -1 facing left. */
  function Direction(facingRight: bool): (d: int)
    ensures d == 1 || d == -1
    ensures d == 1 <==> facingRight
  {
    if facingRight then 1 else -1
  }

  /** The projectile a shot from (x, y) requests: at the mirrored muzzle
      offset, travelling in the facing direction. */
  function MuzzleShot(config: WeaponConfig, x: real, y: real, facingRight: bool): (p: ProjectileSpawn)
    ensures p.y == y + config.muzzleOffsetY && p.directionX == Direction(facingRight)
    ensures facingRight ==> p.x == x + config.muzzleOffsetX
    ensures !facingRight ==> p.x == x - config.muzzleOffsetX
    ensures p.speed == config.projectileSpeed && p.color == config.projectileColor && p.damage == config.damage
  {
    var d := Direction(facingRight);
    ProjectileSpawn(x + config.muzzleOffsetX * d as real, y + config.muzzleOffsetY,
                    config.projectileSpeed, d, config.projectileColor, config.damage)
  }

  /** `fire(x, y, facingRight)` on a state: the new state and the
      projectile requested, `None` for a refused shot. */
  function Fired(config: WeaponConfig, s: WeaponState, x: real, y: real, facingRight: bool)
    : (r: (WeaponState, Option<ProjectileSpawn>))
    ensures !s.canFire || s.currentAmmo <= 0 <==> r.1.None?
    ensures r.1.None? ==> r.0 == s
    ensures r.1.Some? ==> r.0 == WeaponState(s.currentAmmo - 1, false, facingRight) &&
                          r.1.value == MuzzleShot(config, x, y, facingRight)
  {
    if !s.canFire || s.currentAmmo <= 0 then (s, None)
    else (WeaponState(s.currentAmmo - 1, false, facingRight), Some(MuzzleShot(config, x, y, facingRight)))
  }

  /** What can happen to a weapon: a trigger pull or the end of the
      `fireRate` cooldown. */
  datatype WeaponEvent = Pull(x: real, y: real, facingRight: bool) | CooldownElapsed

  /** A run of events: the final state and the projectiles requested. */
  function Run(config: WeaponConfig, s: WeaponState, evs: seq<WeaponEvent>)
    : (r: (WeaponState, seq<ProjectileSpawn>))
    decreases |evs|
  {
    if evs == [] then (s, [])
    else
      var s1 := match evs[0]
        case Pull(x, y, f) => Fired(config, s, x, y, f).0
        case CooldownElapsed => s.(canFire := true);
      var shot := match evs[0]
        case Pull(x, y, f) => (match Fired(config, s, x, y, f).1 case Some(p) => [p] case None => [])
        case CooldownElapsed => [];
      var rest := Run(config, s1, evs[1..]);
      (rest.0, shot + rest.1)
  }

  /** Ammunition is conserved: every requested projectile used up exactly
      one round, the magazine never goes below zero nor above where it
      started, and nothing ever refills it. */
  lemma {:induction false} AmmoConserved(config: WeaponConfig, s: WeaponState, evs: seq<WeaponEvent>)
    decreases |evs|
    requires 0 <= s.currentAmmo
    ensures var (t, shots) := Run(config, s, evs);
            0 <= t.currentAmmo <= s.currentAmmo && |shots| == s.currentAmmo - t.currentAmmo
  {
    if evs != [] {
      var s1 := match evs[0]
        case Pull(x, y, f) => Fired(config, s, x, y, f).0
        case CooldownElapsed => s.(canFire := true);
      AmmoConserved(config, s1, evs[1..]);
    }
  }

  function CountCooldowns(evs: seq<WeaponEvent>): (n: nat)
    ensures n <= |evs|
  {
    if evs == [] then 0 else (if evs[0].CooldownElapsed? then 1 else 0) + CountCooldowns(evs[1..])
  }

  /** `canFire` comes back only through the cooldown event: a run fires at
      most one more shot than the cooldowns it contains, and none at all
      if it starts on cooldown and no cooldown elapses. */
  lemma {:induction false} ShotsNeedCooldowns(config: WeaponConfig, s: WeaponState, evs: seq<WeaponEvent>)
    decreases |evs|
    ensures |Run(config, s, evs).1| <= CountCooldowns(evs) + (if s.canFire then 1 else 0)
  {
    if evs != [] {
      var s1 := match evs[0]
        case Pull(x, y, f) => Fired(config, s, x, y, f).0
        case CooldownElapsed => s.(canFire := true);
      ShotsNeedCooldowns(config, s1, evs[1..]);
    }
  }

  class Weapon {
    const config: WeaponConfig
    var currentAmmo: int
    var canFire: bool
    var facingRight: bool

    function State(): WeaponState
      reads this
    {
      WeaponState(currentAmmo, canFire, facingRight)
    }

    /** The magazine holds between zero and `maxAmmo` rounds. */
    ghost predicate Valid()
      reads this
    {
      0 <= currentAmmo <= config.maxAmmo
    }

    constructor (config0: WeaponConfig)
      ensures config == config0 && State() == Loaded(config0)
      ensures config0.maxAmmo >= 0 ==> Valid()
    {
      config := config0;
      currentAmmo := config0.maxAmmo;
      canFire := true;
      facingRight := true;
    }

    /** `fire(x, y, facingRight)`: `fired` is the returned flag and `shot`
        the `spawn-projectile` payload emitted. */
    method Fire(x: real, y: real, facingRight0: bool) returns (fired: bool, shot: Option<ProjectileSpawn>)
      modifies this
      ensures (State(), shot) == Fired(config, old(State()), x, y, facingRight0)
      ensures fired <==> shot.Some?
      ensures old(Valid()) ==> Valid()
    {
      if !canFire || currentAmmo <= 0 {
        return false, None;
      }
      facingRight := facingRight0;
      currentAmmo := currentAmmo - 1;
      canFire := false;
      var dirMult := if facingRight0 then 1 else -1;
      var flashX := x + config.muzzleOffsetX * dirMult as real;
      var flashY := y + config.muzzleOffsetY;
      shot := Some(ProjectileSpawn(flashX, flashY, config.projectileSpeed, dirMult, config.projectileColor, config.damage));
      fired := true;
    }

    /** The `fireRate` cooldown event scheduled by `fire`. */
    method CooldownElapsed()
      modifies this
      ensures State() == old(State()).(canFire := true)
    {
      canFire := true;
    }

    method IsEmpty() returns (empty: bool)
      ensures empty <==> currentAmmo <= 0
    {
      return currentAmmo <= 0;
    }

    method GetAmmo() returns (ammo: int)
      ensures ammo == currentAmmo
    {
      return currentAmmo;
    }
  }
}
