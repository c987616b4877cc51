/** The Algorithm: a swarm of twenty nano-pixels whose health is its pixel
    count; a hit destroys pixels from the end of the swarm. */
module TheAlgorithms {
  import opened Common

  const PIXEL_COUNT: nat := 20
  const SWARM_SPEED: real := 90.0
  const SWARM_DAMAGE: int := 1
  const SWARM_RADIUS: real := 40.0
  const CHASE_RANGE: real := 20.0
  const AOE_AMOUNT: real := 5.0

  /** `Math.ceil` on reals. */
  function Ceil(r: real): (c: int)
    ensures c as real >= r && (c as real) - 1.0 < r
  {
    -((-r).Floor)
  }

  /** How many passes the loop `for (i = 0; i < Math.min(amount, n); i++)`
      makes: none for a non-positive amount, otherwise the amount rounded
      up, but never more than the `n` pixels left. */
  function Removed(amount: real, n: nat): (k: nat)
    ensures k <= n
    ensures amount <= 0.0 ==> k == 0
    ensures amount >= n as real ==> k == n
    ensures 0.0 < amount <= n as real ==> k as real >= amount && (k as real) - 1.0 < amount
  {
    if amount <= 0.0 then 0 else if amount >= n as real then n else Ceil(amount)
  }

  /** An integral hit removes exactly `min(amount, n)` pixels. */
  lemma WholeHitRemovesMin(amount: nat, n: nat)
    ensures Removed(amount as real, n) == if amount < n then amount else n
  {
  }

  /** The swarm's random initial layout: each pixel's offset from the
      centre, two draws per pixel. */
  function Layout(draws: nat -> Unit): (ps: seq<Point>)
    ensures |ps| == PIXEL_COUNT
    ensures forall i :: 0 <= i < |ps| ==>
              -SWARM_RADIUS <= ps[i].x < SWARM_RADIUS && -SWARM_RADIUS <= ps[i].y < SWARM_RADIUS
  {
    seq(PIXEL_COUNT, i requires 0 <= i =>
          Point((draws(2 * i) - 0.5) * SWARM_RADIUS * 2.0, (draws(2 * i + 1) - 0.5) * SWARM_RADIUS * 2.0))
  }

  class TheAlgorithm {
    var x: real
    var y: real
    var pixels: seq<Point>
    var health: int
    var swarmTimer: real

    /** One hit point per pixel. */
    ghost predicate Valid()
      reads this
    {
      health == |pixels|
    }

    constructor (x0: real, y0: real, draws: nat -> Unit)
      ensures Valid() && x == x0 && y == y0 && swarmTimer == 0.0
      ensures pixels == Layout(draws) && health == PIXEL_COUNT
    {
      x, y := x0, y0;
      pixels := Layout(draws);
      health := PIXEL_COUNT;
      swarmTimer := 0.0;
    }

    /** `update(delta, playerX, playerY)`: the swarm clock runs and the
        swarm chases a player more than 20 px away (the pixels' orbit
        animation is not modelled). */
    method Update(delta: real, playerX: real, playerY: real, dist: real)
      requires IsDistance(dist, playerX - x, playerY - y)
      modifies this
      ensures swarmTimer == old(swarmTimer) + delta / 1000.0
      ensures dist > CHASE_RANGE ==>
                Point(x, y) == StepAlong(old(x), old(y), playerX - old(x), playerY - old(y), dist, SWARM_SPEED * (delta / 1000.0))
      ensures dist <= CHASE_RANGE ==> x == old(x) && y == old(y)
      ensures pixels == old(pixels) && health == old(health)
    {
      var dt := delta / 1000.0;
      swarmTimer := swarmTimer + dt;
      var dx := playerX - x;
      var dy := playerY - y;
      if dist > CHASE_RANGE {
        var p := StepAlong(x, y, dx, dy, dist, SWARM_SPEED * dt);
        x, y := p.x, p.y;
      }
    }

    /** `takeDamage(amount = 1)`: pops `Removed(amount, |pixels|)` pixels,
        one hit point each; reports whether the swarm is gone. */
    method TakeDamage(amount: real := 1.0) returns (destroyed: bool)
      requires Valid()
      modifies this
      ensures Valid()
      ensures pixels == old(pixels)[..|old(pixels)| - Removed(amount, |old(pixels)|)]
      ensures health == old(health) - Removed(amount, |old(pixels)|)
      ensures destroyed <==> health <= 0 || |pixels| == 0
      ensures x == old(x) && y == old(y)
      ensures swarmTimer == old(swarmTimer)
    {
      var toRemove := Min(amount, |pixels| as real);
      ghost var n := |pixels|;
      ghost var k := Removed(amount, n);
      var i := 0;
      while (i as real) < toRemove
        invariant 0 <= i <= k
        invariant pixels == old(pixels)[..n - i] && health == old(health) - i
        invariant x == old(x) && y == old(y) && swarmTimer == old(swarmTimer)
        decreases n - i
      {
        pixels := pixels[..|pixels| - 1];
        health := health - 1;
        i := i + 1;
      }
      destroyed := health <= 0 || |pixels| == 0;
    }

    /** `takeAoEDamage(amount = 5)`: the same as `takeDamage(amount)`. */
    method TakeAoEDamage(amount: real := AOE_AMOUNT) returns (destroyed: bool)
      requires Valid()
      modifies this
      ensures Valid()
      ensures pixels == old(pixels)[..|old(pixels)| - Removed(amount, |old(pixels)|)]
      ensures health == old(health) - Removed(amount, |old(pixels)|)
      ensures destroyed <==> |pixels| == 0
      ensures x == old(x) && y == old(y) && swarmTimer == old(swarmTimer)
    {
      destroyed := TakeDamage(amount);
    }
  }
}
