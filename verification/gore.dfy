/** The gore particle pool: a bounded list of particles with FIFO
    eviction, filled by blood splatters and dinar explosions and drained
    by life decay. */
module Gore {
  import opened Common

  /** Every particle is born with a positive `maxLife`. */
  type Lifespan = r: real | r > 0.0 witness 1.0

  datatype Particle = Particle(
    x: real, y: real,
    vx: real, vy: real,
    size: real,
    color: int,
    life: real,
    maxLife: Lifespan)

  /** The draws of `Math.random()` (and the cosine and sine of the drawn
      angle) that one particle consumes. */
  datatype ParticleDraw = ParticleDraw(cos: Wave, sin: Wave, speed: Unit, size: Unit, color: Unit, life: Unit)

  const MAX_PARTICLES: nat := 200
  const DINAR_COUNT: nat := 20
  const GORE_GRAVITY: real := 400.0

  const BLOOD_COLORS: seq<int> := [0xcc0000, 0x990000, 0x660000, 0xff0000, 0x800000]
  const DINAR_COLORS: seq<int> := [0x228B22, 0x32CD32, 0x006400, 0x00FF00]

  /** `colors[Math.floor(r * colors.length)]`. */
  function Pick(colors: seq<int>, r: Unit): (c: int)
    requires |colors| > 0
    ensures c in colors
  {
    var n := |colors| as real;
    assert 0.0 <= r * n < n by {
      assert (1.0 - r) * n > 0.0;
    }
    colors[(r * n).Floor]
  }

  /** `Math.floor(15 * intensity)` particles, none for a non-positive count. */
  function SplatterCount(intensity: real): (n: nat)
    ensures n as real <= 15.0 * intensity || n == 0
    ensures 15.0 * intensity < n as real + 1.0 || 15.0 * intensity < 0.0
  {
    var c := (15.0 * intensity).Floor;
    if c < 0 then 0 else c
  }

  function BloodParticle(x: real, y: real, intensity: real, d: ParticleDraw): (p: Particle)
    ensures p.x == x && p.y == y && p.life == 1.0
    ensures 0.5 <= p.maxLife < 1.5 && 2.0 <= p.size < 6.0 && p.color in BLOOD_COLORS
  {
    var speed := 50.0 + d.speed * 150.0 * intensity;
    Particle(x, y, d.cos * speed, d.sin * speed - 100.0, 2.0 + d.size * 4.0,
             Pick(BLOOD_COLORS, d.color), 1.0, 0.5 + d.life * 1.0)
  }

  function DinarParticle(x: real, y: real, d: ParticleDraw): (p: Particle)
    ensures p.x == x && p.y == y && p.life == 1.0
    ensures 0.8 <= p.maxLife < 1.3 && 3.0 <= p.size < 8.0 && p.color in DINAR_COLORS
  {
    var speed := 30.0 + d.speed * 100.0;
    Particle(x, y, d.cos * speed, d.sin * speed - 50.0, 3.0 + d.size * 5.0,
             Pick(DINAR_COLORS, d.color), 1.0, 0.8 + d.life * 0.5)
  }

  /** The particles one splatter creates, in creation order. */
  function Splatter(x: real, y: real, intensity: real, draws: nat -> ParticleDraw): (r: seq<Particle>)
    ensures |r| == SplatterCount(intensity)
    ensures forall i :: 0 <= i < |r| ==> r[i] == BloodParticle(x, y, intensity, draws(i))
  {
    seq(SplatterCount(intensity), i requires 0 <= i => BloodParticle(x, y, intensity, draws(i)))
  }

  function Explosion(x: real, y: real, draws: nat -> ParticleDraw): (r: seq<Particle>)
    ensures |r| == DINAR_COUNT
    ensures forall i :: 0 <= i < |r| ==> r[i] == DinarParticle(x, y, draws(i))
  {
    seq(DINAR_COUNT, i requires 0 <= i => DinarParticle(x, y, draws(i)))
  }

  // ---------------------------------------------------------------------
  // The pool.

  /** One insertion: at capacity the oldest particle (index 0) is shifted
      out before the push. */
  function Admit(ps: seq<Particle>, p: Particle): (r: seq<Particle>)
  {
    (if |ps| >= MAX_PARTICLES then ps[1..] else ps) + [p]
  }

  /** The pool after inserting `news` one by one. */
  function PushAll(ps: seq<Particle>, news: seq<Particle>): (r: seq<Particle>)
  {
    if news == [] then ps else Admit(PushAll(ps, news[..|news| - 1]), news[|news| - 1])
  }

  lemma PushAllStep(ps: seq<Particle>, news: seq<Particle>, i: nat)
    requires i < |news|
    ensures PushAll(ps, news[..i + 1]) == Admit(PushAll(ps, news[..i]), news[i])
  {
    assert news[..i + 1][..i] == news[..i];
  }

  /** The last `n` elements of `s`. */
  function Newest<T>(s: seq<T>, n: nat): (r: seq<T>)
    requires n <= |s|
    ensures |r| == n
  {
    s[|s| - n..]
  }

  /** FIFO eviction: from a pool within capacity, inserting `news` leaves
      exactly the newest `min(200, |ps| + |news|)` particles of the old
      pool followed by the new ones, in insertion order. */
  lemma {:induction false} PushAllKeepsNewest(ps: seq<Particle>, news: seq<Particle>)
    requires |ps| <= MAX_PARTICLES
    ensures var total := |ps| + |news|;
            PushAll(ps, news) == Newest(ps + news, if total < MAX_PARTICLES then total else MAX_PARTICLES)
  {
    if news != [] {
      var front, last := news[..|news| - 1], news[|news| - 1];
      PushAllKeepsNewest(ps, front);
      var t := |ps| + |front|;
      var k := if t < MAX_PARTICLES then t else MAX_PARTICLES;
      var prior := Newest(ps + front, k);
      assert ps + news == (ps + front) + [last];
      if k >= MAX_PARTICLES {
        assert prior[1..] + [last] == Newest(ps + news, MAX_PARTICLES);
      } else {
        assert prior == ps + front;
      }
    }
  }

  /** The pool never holds more than 200 particles, and a full pool stays
      full. */
  lemma PushAllBound(ps: seq<Particle>, news: seq<Particle>)
    requires |ps| <= MAX_PARTICLES
    ensures |PushAll(ps, news)| <= MAX_PARTICLES
    ensures |PushAll(ps, news)| == if |ps| + |news| < MAX_PARTICLES then |ps| + |news| else MAX_PARTICLES
  {
    PushAllKeepsNewest(ps, news);
  }

  /** One `update` step of a particle: gravity, motion and life decay;
      `None` when its life has run out. */
  function Decay(dt: real): Particle -> Option<Particle>
  {
    (p: Particle) =>
      var vy := p.vy + GORE_GRAVITY * dt;
      var life := p.life - dt / p.maxLife;
      if life <= 0.0 then None
      else Some(p.(vy := vy, x := p.x + p.vx * dt, y := p.y + vy * dt, life := life))
  }

  /** The particles an update keeps are exactly those whose decayed life
      is still positive; each has lost `dt / maxLife` of its life and kept
      its colour, size and lifespan. */
  lemma DecaySurvivors(ps: seq<Particle>, dt: real, q: Particle)
    requires q in FilterMap(ps, Decay(dt))
    ensures q.life > 0.0
    ensures exists p :: p in ps && q.life == p.life - dt / p.maxLife &&
                        q.vy == p.vy + GORE_GRAVITY * dt && q.x == p.x + p.vx * dt &&
                        q.y == p.y + q.vy * dt &&
                        q.size == p.size && q.color == p.color && q.maxLife == p.maxLife
  {
    var p := FilterMapOrigin(ps, Decay(dt), q);
  }

  /** A particle is dropped exactly when its decayed life reaches zero. */
  lemma {:induction false} DecayCount(ps: seq<Particle>, dt: real)
    ensures |FilterMap(ps, Decay(dt))| == |ps| - |Expiring(ps, dt)|
  {
    if ps != [] {
      DecayCount(ps[1..], dt);
      assert ps == [ps[0]] + ps[1..];
    }
  }

  /** The particles whose life runs out during an update of `dt` seconds. */
  function Expiring(ps: seq<Particle>, dt: real): (r: seq<Particle>)
    ensures |r| <= |ps|
    ensures forall p :: p in r ==> p in ps && p.life - dt / p.maxLife <= 0.0
  {
    if ps == [] then []
    else (if ps[0].life - dt / ps[0].maxLife <= 0.0 then [ps[0]] else []) + Expiring(ps[1..], dt)
  }

  class GoreManager {
    var particles: seq<Particle>
    var enabled: bool

    ghost predicate Valid()
      reads this
    {
      |particles| <= MAX_PARTICLES
    }

    constructor ()
      ensures Valid() && particles == [] && enabled
    {
      particles := [];
      enabled := true;
    }

    /** `setEnabled(enabled)`: disabling also clears the pool. */
    method SetEnabled(on: bool)
      requires Valid()
      modifies this
      ensures Valid() && enabled == on
      ensures particles == if on then old(particles) else []
    {
      enabled := on;
      if !on {
        Clear();
      }
    }

    /** `spawnBloodSplatter(x, y, intensity = 1)`. */
    method SpawnBloodSplatter(x: real, y: real, draws: nat -> ParticleDraw, intensity: real := 1.0)
      requires Valid()
      modifies this
      ensures Valid() && enabled == old(enabled)
      ensures particles == if enabled then PushAll(old(particles), Splatter(x, y, intensity, draws)) else old(particles)
    {
      if !enabled {
        return;
      }
      var particleCount := SplatterCount(intensity);
      ghost var burst := Splatter(x, y, intensity, draws);
      var i := 0;
      while i < particleCount
        invariant 0 <= i <= particleCount
        invariant particles == PushAll(old(particles), burst[..i])
        invariant Valid() && enabled == old(enabled)
      {
        Insert(BloodParticle(x, y, intensity, draws(i)));
        PushAllStep(old(particles), burst, i);
        i := i + 1;
      }
      assert burst[..i] == burst;
    }

    /** `spawnDinarExplosion(x, y)`: twenty green particles. */
    method SpawnDinarExplosion(x: real, y: real, draws: nat -> ParticleDraw)
      requires Valid()
      modifies this
      ensures Valid() && enabled == old(enabled)
      ensures particles == if enabled then PushAll(old(particles), Explosion(x, y, draws)) else old(particles)
    {
      if !enabled {
        return;
      }
      ghost var burst := Explosion(x, y, draws);
      var i := 0;
      while i < DINAR_COUNT
        invariant 0 <= i <= DINAR_COUNT
        invariant particles == PushAll(old(particles), burst[..i])
        invariant Valid() && enabled == old(enabled)
      {
        Insert(DinarParticle(x, y, draws(i)));
        PushAllStep(old(particles), burst, i);
        i := i + 1;
      }
      assert burst[..i] == burst;
    }

    /** One insertion of the spawn loops: `shift` at capacity, then `push`. */
    method Insert(p: Particle)
      requires Valid()
      modifies this
      ensures Valid() && enabled == old(enabled)
      ensures particles == Admit(old(particles), p)
    {
      if |particles| >= MAX_PARTICLES {
        particles := particles[1..];
      }
      particles := particles + [p];
    }

    /** `update(delta)`: the backward loop that decays every particle and
        splices out the dead ones. */
    method Update(delta: real)
      requires Valid()
      modifies this
      ensures Valid() && enabled == old(enabled)
      ensures particles == FilterMap(old(particles), Decay(delta / 1000.0))
    {
      particles := PruneBackward(particles, Decay(delta / 1000.0));
    }

    method Clear()
      modifies this
      ensures particles == [] && enabled == old(enabled)
    {
      particles := [];
    }

    /** `destroy()`: clears the pool (the graphics object is not modelled). */
    method Destroy()
      modifies this
      ensures particles == [] && enabled == old(enabled)
    {
      Clear();
    }
  }
}
