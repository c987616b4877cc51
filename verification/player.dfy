/** The player (Marko): three hit points, a two-second invulnerability
    window after each hit, a half-second shoot cooldown and left-first
    horizontal input. */
module Players {
  import opened Common

  const PLAYER_SPEED: real := 300.0
  const MAX_HEALTH: int := 3
  const SHOOT_COOLDOWN_MS: real := 500.0
  const INVULNERABILITY_MS: real := 2000.0
  const BEAM_SPEED: real := 600.0
  const BEAM_WIDTH: real := 8.0
  const BEAM_HEIGHT: real := 20.0

  /** A shot: the yellow rectangle `shoot` creates, moving up at 600 px/s. */
  datatype Beam = Beam(x: real, y: real, velocityY: real, active: bool)

  /** The player's damage and shooting flags. */
  datatype PlayerState = PlayerState(health: int, isInvulnerable: bool, canShoot: bool)

  const SPAWNED: PlayerState := PlayerState(MAX_HEALTH, false, true)

  /** `takeDamage()` on a state: the new state and the returned flag. */
  function Damaged(s: PlayerState): (r: (PlayerState, bool))
    ensures s.isInvulnerable ==> r == (s, false)
    ensures !s.isInvulnerable ==> r.0.health == s.health - 1 && r.0.isInvulnerable && r.0.canShoot == s.canShoot
    ensures r.1 <==> !s.isInvulnerable && s.health <= 1
  {
    if s.isInvulnerable then (s, false)
    else var t := s.(health := s.health - 1, isInvulnerable := true); (t, t.health <= 0)
  }

  /** `k` consecutive `takeDamage()` calls with no expiry event between them. */
  function DamageRun(s: PlayerState, k: nat): (r: PlayerState)
    decreases k
  {
    if k == 0 then s else DamageRun(Damaged(s).0, k - 1)
  }

  /** Between two expiry events the player loses at most one hit point,
      however many enemies touch it. */
  lemma {:induction false} AtMostOneLossPerWindow(s: PlayerState, k: nat)
    decreases k
    ensures var r := DamageRun(s, k);
            r.canShoot == s.canShoot &&
            r.health == (if k > 0 && !s.isInvulnerable then s.health - 1 else s.health) &&
            r.isInvulnerable == (k > 0 || s.isInvulnerable)
  {
    if k > 0 {
      AtMostOneLossPerWindow(Damaged(s).0, k - 1);
    }
  }

  /** Horizontal input: left wins over right, and no key stops the player. */
  function HorizontalVelocity(left: bool, right: bool): (v: real)
    ensures left ==> v < 0.0
    ensures !left && right ==> v > 0.0
    ensures !left && !right ==> v == 0.0
    ensures v == 0.0 || Abs(v) == PLAYER_SPEED
  {
    if left then -PLAYER_SPEED else if right then PLAYER_SPEED else 0.0
  }

  class Player {
    var x: real
    var y: real
    var velocityX: real
    var alpha: real
    var health: int
    var isInvulnerable: bool
    var canShoot: bool

    function State(): PlayerState
      reads this
    {
      PlayerState(health, isInvulnerable, canShoot)
    }

    constructor (x0: real, y0: real)
      ensures State() == SPAWNED && health == MAX_HEALTH
      ensures !isInvulnerable && canShoot
      ensures x == x0 && y == y0 && velocityX == 0.0 && alpha == 1.0
    {
      x, y := x0, y0;
      velocityX := 0.0;
      alpha := 1.0;
      health := MAX_HEALTH;
      isInvulnerable := false;
      canShoot := true;
    }

    /** `update(cursors)`: `left`/`right` are the arrow keys held down and
        `blink` is the sine of the blink clock. */
    method Update(left: bool, right: bool, blink: Wave)
      modifies this
      ensures velocityX == HorizontalVelocity(left, right)
      ensures 0.0 <= alpha <= 1.0 && (!isInvulnerable ==> alpha == 1.0)
      ensures State() == old(State()) && x == old(x) && y == old(y)
    {
      if left {
        velocityX := -PLAYER_SPEED;
      } else if right {
        velocityX := PLAYER_SPEED;
      } else {
        velocityX := 0.0;
      }
      if isInvulnerable {
        alpha := blink * 0.5 + 0.5;
      } else {
        alpha := 1.0;
      }
    }

    /** `shoot()`: a beam 30 px above the player when the cooldown allows. */
    method Shoot() returns (beam: Option<Beam>)
      modifies this
      ensures !old(canShoot) ==> beam == None && State() == old(State())
      ensures old(canShoot) ==> beam == Some(Beam(x, y - 30.0, -BEAM_SPEED, true)) &&
                                State() == old(State()).(canShoot := false)
      ensures x == old(x) && y == old(y) && velocityX == old(velocityX) && alpha == old(alpha)
    {
      if !canShoot {
        return None;
      }
      canShoot := false;
      beam := Some(Beam(x, y - 30.0, -BEAM_SPEED, true));
    }

    /** The 500 ms cooldown event scheduled by `shoot`. */
    method ShootCooldownElapsed()
      modifies this
      ensures State() == old(State()).(canShoot := true)
      ensures x == old(x) && y == old(y) && velocityX == old(velocityX) && alpha == old(alpha)
    {
      canShoot := true;
    }

    /** `takeDamage()`: returns whether the hit was fatal. */
    method TakeDamage() returns (dead: bool)
      modifies this
      ensures (State(), dead) == Damaged(old(State()))
      ensures x == old(x) && y == old(y) && velocityX == old(velocityX) && alpha == old(alpha)
    {
      if isInvulnerable {
        return false;
      }
      health := health - 1;
      isInvulnerable := true;
      dead := health <= 0;
    }

    /** The 2000 ms expiry event scheduled by `takeDamage`. */
    method InvulnerabilityElapsed()
      modifies this
      ensures State() == old(State()).(isInvulnerable := false)
      ensures x == old(x) && y == old(y) && velocityX == old(velocityX) && alpha == old(alpha)
    {
      isInvulnerable := false;
    }

    method ResetHealth()
      modifies this
      ensures State() == old(State()).(health := MAX_HEALTH)
      ensures x == old(x) && y == old(y) && velocityX == old(velocityX) && alpha == old(alpha)
    {
      health := MAX_HEALTH;
    }
  }
}
