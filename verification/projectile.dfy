/** Projectiles: the player's straight shot, destroyed once it leaves the
    screen vertically, and the drone's "energy rakija" bottle, destroyed
    after five seconds or off screen, which the player can deflect once. */
module Projectiles {
  import opened Common

  const MARGIN: real := 50.0
  const DEFAULT_SPEED: real := 600.0
  const RAKIJA_SPEED: real := 220.0
  const RAKIJA_DAMAGE: int := 2
  const MAX_LIFETIME: real := 5000.0
  const DEFLECT_BOOST: real := 1.5

  /** The vertical test of `Projectile.update`: more than 50 px above the
      top or below the bottom edge. */
  predicate OffScreenVertically(y: real, height: real)
  {
    y < -MARGIN || y > height + MARGIN
  }

  /** The test of `RakijaProjectile.update`: outside the screen grown by
      50 px on every side. */
  predicate OffScreen(x: real, y: real, width: real, height: real)
  {
    x < -MARGIN || x > width + MARGIN || OffScreenVertically(y, height)
  }

  /** A point is kept exactly when it lies in the grown screen rectangle,
      and leaving it vertically is enough to be dropped whatever `x` is. */
  lemma OffScreenBox(x: real, y: real, width: real, height: real)
    ensures !OffScreen(x, y, width, height) <==>
            -MARGIN <= x <= width + MARGIN && -MARGIN <= y <= height + MARGIN
    ensures OffScreenVertically(y, height) ==> OffScreen(x, y, width, height)
  {
  }

  class Projectile {
    var x: real
    var y: real
    const speed: real
    const dirX: real
    const dirY: real
    var velocityX: real
    var velocityY: real
    var active: bool

    /** The constructor with its defaults (speed 600, direction straight
        up); the body's velocity is direction times speed. */
    constructor (x0: real, y0: real, speed0: real := DEFAULT_SPEED, dirX0: real := 0.0, dirY0: real := -1.0)
      ensures x == x0 && y == y0 && speed == speed0 && dirX == dirX0 && dirY == dirY0 && active
      ensures velocityX == dirX0 * speed0 && velocityY == dirY0 * speed0
    {
      x, y := x0, y0;
      speed := speed0;
      dirX, dirY := dirX0, dirY0;
      velocityX, velocityY := dirX0 * speed0, dirY0 * speed0;
      active := true;
    }

    /** The arcade physics step the engine runs between two updates: the
        shot moves at its velocity for `delta` ms. A destroyed one moves
        too, where the engine would leave it; nothing reads its position
        after that. */
    method PhysicsStep(delta: real)
      modifies this
      ensures x == old(x) + velocityX * (delta / 1000.0) && y == old(y) + velocityY * (delta / 1000.0)
      ensures velocityX == old(velocityX) && velocityY == old(velocityY) && active == old(active)
    {
      x := x + velocityX * (delta / 1000.0);
      y := y + velocityY * (delta / 1000.0);
    }

    /** `update()`: destroyed exactly when it is off screen vertically. */
    method Update(height: real)
      modifies this
      ensures active == (old(active) && !OffScreenVertically(y, height))
      ensures x == old(x) && y == old(y) && velocityX == old(velocityX) && velocityY == old(velocityY)
    {
      if y < -MARGIN || y > height + MARGIN {
        active := false;
      }
    }
  }

  class RakijaProjectile {
    var x: real
    var y: real
    var dirX: real
    var dirY: real
    var velocityX: real
    var velocityY: real
    var isDeflected: bool
    var lifetime: real
    var active: bool

    /** The bottle flies at 220 px/s along the unit vector toward its
        target, `dist` away. */
    constructor (x0: real, y0: real, targetX: real, targetY: real, dist: real)
      requires dist > 0.0 && IsDistance(dist, targetX - x0, targetY - y0)
      ensures x == x0 && y == y0 && lifetime == 0.0 && !isDeflected && active
      ensures dirX * dist == targetX - x0 && dirY * dist == targetY - y0
      ensures velocityX == dirX * RAKIJA_SPEED && velocityY == dirY * RAKIJA_SPEED
    {
      x, y := x0, y0;
      var ux, uy := (targetX - x0) / dist, (targetY - y0) / dist;
      dirX, dirY := ux, uy;
      velocityX, velocityY := ux * RAKIJA_SPEED, uy * RAKIJA_SPEED;
      isDeflected := false;
      lifetime := 0.0;
      active := true;
    }

    /** The arcade physics step the engine runs between two updates: the
        bottle moves at its velocity for `delta` ms. A destroyed one moves
        too, where the engine would leave it; nothing reads its position
        after that. */
    method PhysicsStep(delta: real)
      modifies this
      ensures x == old(x) + velocityX * (delta / 1000.0) && y == old(y) + velocityY * (delta / 1000.0)
      ensures velocityX == old(velocityX) && velocityY == old(velocityY) && dirX == old(dirX) && dirY == old(dirY)
      ensures lifetime == old(lifetime) && isDeflected == old(isDeflected) && active == old(active)
    {
      x := x + velocityX * (delta / 1000.0);
      y := y + velocityY * (delta / 1000.0);
    }

    /** `update(delta)`: the lifetime grows by `delta`; the bottle is
        destroyed once it has lived 5000 ms or left the screen. Destroying
        a game object detaches it from its scene, so when the lifetime test
        destroys a live bottle, the screen test that follows reads the
        width of a scene that is gone and throws (`threw`), unless
        `x < -50` settles the test first. */
    method Update(delta: real, width: real, height: real) returns (threw: bool)
      modifies this
      ensures threw <==> old(active) && lifetime >= MAX_LIFETIME && x >= -MARGIN
      ensures lifetime == old(lifetime) + delta
      ensures active == (old(active) && lifetime < MAX_LIFETIME && !OffScreen(x, y, width, height))
      ensures x == old(x) && y == old(y) && isDeflected == old(isDeflected)
      ensures velocityX == old(velocityX) && velocityY == old(velocityY)
      ensures dirX == old(dirX) && dirY == old(dirY)
    {
      threw := false;
      lifetime := lifetime + delta;
      if lifetime >= MAX_LIFETIME {
        var live := active;
        active := false;
        if live && x >= -MARGIN {
          threw := true;
          return;
        }
      }
      if x < -MARGIN || x > width + MARGIN || y < -MARGIN || y > height + MARGIN {
        active := false;
      }
    }

    /** `deflect(sourceX, sourceY)`: the first call turns the bottle toward
        the source at 1.5 times its speed; later calls do nothing. */
    method Deflect(sourceX: real, sourceY: real, dist: real)
      requires !isDeflected ==> dist > 0.0 && IsDistance(dist, sourceX - x, sourceY - y)
      modifies this
      ensures isDeflected
      ensures old(isDeflected) ==> dirX == old(dirX) && dirY == old(dirY) &&
                                   velocityX == old(velocityX) && velocityY == old(velocityY)
      ensures !old(isDeflected) ==> dirX * dist == sourceX - x && dirY * dist == sourceY - y &&
                                    velocityX == dirX * RAKIJA_SPEED * DEFLECT_BOOST &&
                                    velocityY == dirY * RAKIJA_SPEED * DEFLECT_BOOST
      ensures x == old(x) && y == old(y) && lifetime == old(lifetime) && active == old(active)
    {
      if isDeflected {
        return;
      }
      isDeflected := true;
      var dx := sourceX - x;
      var dy := sourceY - y;
      dirX := dx / dist;
      dirY := dy / dist;
      velocityX := dirX * RAKIJA_SPEED * DEFLECT_BOOST;
      velocityY := dirY * RAKIJA_SPEED * DEFLECT_BOOST;
    }

    function Damage(): (d: int)
      ensures d == RAKIJA_DAMAGE
    {
      RAKIJA_DAMAGE
    }
  }
}
