/** Banknote bubbles: the four denominations, their configuration table,
    the per-frame motion (gravity, floor bounce, wall bounce, star fading)
    and the split into smaller notes. */
module Banknotes {
  import opened Common

  datatype BanknoteType = B500 | B50 | M5 | Star

  datatype BanknoteConfig = BanknoteConfig(
    kind: BanknoteType,
    size: real,
    color: int,
    scoreValue: int,
    splitInto: Option<BanknoteType>,
    splitCount: nat)

  /** How many splits separate a denomination from a STAR. */
  function Tier(t: BanknoteType): nat
  {
    match t
    case B500 => 3
    case B50 => 2
    case M5 => 1
    case Star => 0
  }

  /** The denomination table. */
  function Config(t: BanknoteType): (c: BanknoteConfig)
    ensures c.kind == t && c.size > 0.0 && c.scoreValue > 0
    ensures c.splitInto.None? <==> t == Star
    ensures c.splitInto.None? <==> c.splitCount == 0
    ensures c.splitInto.Some? ==> Tier(c.splitInto.value) + 1 == Tier(t)
  {
    match t
    case B500 => BanknoteConfig(B500, 60.0, 0x228B22, 500000000000, Some(B50), 2)
    case B50 => BanknoteConfig(B50, 45.0, 0x32CD32, 50000000000, Some(M5), 2)
    case M5 => BanknoteConfig(M5, 30.0, 0x90EE90, 5000000, Some(Star), 5)
    case Star => BanknoteConfig(Star, 15.0, 0xff0000, 1000, None, 0)
  }

  /** Each split produces a smaller note worth fewer points. */
  lemma SplitShrinks(t: BanknoteType)
    ensures Config(t).splitInto.Some? ==>
              Config(Config(t).splitInto.value).size < Config(t).size &&
              Config(Config(t).splitInto.value).scoreValue < Config(t).scoreValue
  {
    match t {
      case B500 =>
      case B50 =>
      case M5 =>
      case Star =>
    }
  }

  /** Number of beam hits that clear a note together with every note it
      splits into. */
  function ClearingHits(t: BanknoteType): (n: nat)
    decreases Tier(t)
    ensures n >= 1
    ensures t == Star <==> n == 1
  {
    match Config(t).splitInto
    case None => 1
    case Some(c) => 1 + Config(t).splitCount * ClearingHits(c)
  }

  /** Clearing a 500B note takes 27 hits: itself, two 50B, four 5M and
      twenty STARs. */
  lemma ClearingA500B()
    ensures ClearingHits(B500) == 27
    ensures ClearingHits(M5) == 6
  {
    assert ClearingHits(Star) == 1;
    assert ClearingHits(M5) == 6;
    assert ClearingHits(B50) == 13;
  }

  /** The per-frame state of one bubble. */
  datatype EnemyState = EnemyState(
    kind: BanknoteType,
    x: real, y: real,
    velocityX: real, velocityY: real,
    isFading: bool, fadeTimer: real,
    active: bool)

  const GRAVITY: real := 300.0
  const BOUNCE_SPEED: real := 200.0
  const FLOOR_MARGIN: real := 80.0
  const FADE_SECONDS: real := 2.0

  /** The state of a bubble freshly created by the constructor. */
  function Spawned(kind: BanknoteType, x: real, y: real, velocityX: Option<real>, coin: Unit): (s: EnemyState)
    ensures s.kind == kind && s.x == x && s.y == y
    ensures s.active && !s.isFading && s.fadeTimer == 0.0 && s.velocityY == 0.0
    ensures velocityX.Some? ==> s.velocityX == velocityX.value
    ensures velocityX.None? ==> (s.velocityX == 100.0 <==> coin > 0.5) && Abs(s.velocityX) == 100.0
  {
    var vx := match velocityX case Some(v) => v case None => if coin > 0.5 then 100.0 else -100.0;
    EnemyState(kind, x, y, vx, 0.0, false, 0.0, true)
  }

  /** The stages of one `update(delta)` call, `dt` being delta in seconds. */
  function Fall(s: EnemyState, dt: real): EnemyState
  {
    s.(velocityY := s.velocityY + GRAVITY * dt)
  }

  function FloorBounce(s: EnemyState, bounce: Unit, height: real): EnemyState
  {
    if s.y >= height - FLOOR_MARGIN then s.(velocityY := -BOUNCE_SPEED - bounce * 50.0, y := height - FLOOR_MARGIN)
    else s
  }

  function WallBounce(s: EnemyState, width: real): EnemyState
  {
    var half := Config(s.kind).size / 2.0;
    if s.x <= half then s.(velocityX := Abs(s.velocityX), x := half)
    else if s.x >= width - half then s.(velocityX := -Abs(s.velocityX), x := width - half)
    else s
  }

  function Move(s: EnemyState, dt: real): EnemyState
  {
    s.(x := s.x + s.velocityX * dt, y := s.y + s.velocityY * dt)
  }

  function FadeStep(s: EnemyState, dt: real): EnemyState
  {
    if s.kind == Star && s.isFading then
      var timer := s.fadeTimer + dt;
      s.(fadeTimer := timer, active := s.active && timer < FADE_SECONDS)
    else s
  }

  /** One call of `update(delta)`: gravity, then the floor bounce (with a
      random upward speed), then the wall bounce, then motion, then the
      STAR fade that destroys the star after two seconds. */
  function Advance(s: EnemyState, delta: real, bounce: Unit, width: real, height: real): (n: EnemyState)
    ensures n.kind == s.kind && n.isFading == s.isFading
  {
    var dt := delta / 1000.0;
    FadeStep(Move(WallBounce(FloorBounce(Fall(s, dt), bounce, height), width), dt), dt)
  }

  /** What one update guarantees: the floor sends a bubble upward at
      200 to 250 px/s and gravity acts otherwise; the walls reflect the
      horizontal velocity without changing its magnitude and put the
      bubble back on the wall before it moves; only a fading
      STAR's timer runs. */
  lemma AdvanceBounces(s: EnemyState, delta: real, bounce: Unit, width: real, height: real, n: EnemyState)
    requires n == Advance(s, delta, bounce, width, height)
    ensures s.y >= height - FLOOR_MARGIN ==>
              -250.0 < n.velocityY <= -200.0 && n.y == height - FLOOR_MARGIN + n.velocityY * (delta / 1000.0)
    ensures s.y < height - FLOOR_MARGIN ==>
              n.velocityY == s.velocityY + GRAVITY * (delta / 1000.0) && n.y == s.y + n.velocityY * (delta / 1000.0)
    ensures Abs(n.velocityX) == Abs(s.velocityX)
    ensures s.x <= Config(s.kind).size / 2.0 ==>
              n.velocityX == Abs(s.velocityX) &&
              n.x == Config(s.kind).size / 2.0 + Abs(s.velocityX) * (delta / 1000.0)
    ensures Config(s.kind).size / 2.0 < s.x && s.x >= width - Config(s.kind).size / 2.0 ==>
              n.velocityX == -Abs(s.velocityX) &&
              n.x == width - Config(s.kind).size / 2.0 - Abs(s.velocityX) * (delta / 1000.0)
    ensures Config(s.kind).size / 2.0 < s.x < width - Config(s.kind).size / 2.0 ==>
              n.velocityX == s.velocityX && n.x == s.x + s.velocityX * (delta / 1000.0)
    ensures s.kind == Star && s.isFading ==> n.fadeTimer == s.fadeTimer + delta / 1000.0
    ensures !(s.kind == Star && s.isFading) ==> n.fadeTimer == s.fadeTimer
    ensures n.active <==> s.active && !(s.kind == Star && s.isFading && n.fadeTimer >= FADE_SECONDS)
  {
    AdvanceVertical(s, delta, bounce, width, height);
    AdvanceHorizontal(s, delta, bounce, width, height);
    AdvanceFade(s, delta, bounce, width, height);
  }

  /** The vertical half of `AdvanceBounces`. */
  lemma AdvanceVertical(s: EnemyState, delta: real, bounce: Unit, width: real, height: real)
    ensures var n := Advance(s, delta, bounce, width, height);
            (s.y >= height - FLOOR_MARGIN ==>
              -250.0 < n.velocityY <= -200.0 && n.y == height - FLOOR_MARGIN + n.velocityY * (delta / 1000.0)) &&
            (s.y < height - FLOOR_MARGIN ==>
              n.velocityY == s.velocityY + GRAVITY * (delta / 1000.0) && n.y == s.y + n.velocityY * (delta / 1000.0))
  {
    var dt := delta / 1000.0;
    var b := FloorBounce(Fall(s, dt), bounce, height);
    var m := Move(WallBounce(b, width), dt);
    assert Advance(s, delta, bounce, width, height) == FadeStep(m, dt);
    FadeKeepsMotion(m, dt);
    FloorStep(s, bounce, height, dt);
    WallStep(b, width, dt);
  }

  /** The horizontal half of `AdvanceBounces`. */
  lemma AdvanceHorizontal(s: EnemyState, delta: real, bounce: Unit, width: real, height: real)
    ensures var n := Advance(s, delta, bounce, width, height);
            var half := Config(s.kind).size / 2.0;
            Abs(n.velocityX) == Abs(s.velocityX) &&
            (s.x <= half ==> n.velocityX == Abs(s.velocityX) && n.x == half + Abs(s.velocityX) * (delta / 1000.0)) &&
            (half < s.x && s.x >= width - half ==>
               n.velocityX == -Abs(s.velocityX) && n.x == width - half - Abs(s.velocityX) * (delta / 1000.0)) &&
            (half < s.x < width - half ==> n.velocityX == s.velocityX && n.x == s.x + s.velocityX * (delta / 1000.0))
  {
    var dt := delta / 1000.0;
    var b := FloorBounce(Fall(s, dt), bounce, height);
    var m := Move(WallBounce(b, width), dt);
    assert Advance(s, delta, bounce, width, height) == FadeStep(m, dt);
    FadeKeepsMotion(m, dt);
    FloorStep(s, bounce, height, dt);
    WallStep(b, width, dt);
  }

  /** The fading half of `AdvanceBounces`. */
  lemma AdvanceFade(s: EnemyState, delta: real, bounce: Unit, width: real, height: real)
    ensures var n := Advance(s, delta, bounce, width, height);
            (s.kind == Star && s.isFading ==> n.fadeTimer == s.fadeTimer + delta / 1000.0) &&
            (!(s.kind == Star && s.isFading) ==> n.fadeTimer == s.fadeTimer) &&
            (n.active <==> s.active && !(s.kind == Star && s.isFading && n.fadeTimer >= FADE_SECONDS))
  {
    var dt := delta / 1000.0;
    var b := FloorBounce(Fall(s, dt), bounce, height);
    var m := Move(WallBounce(b, width), dt);
    assert Advance(s, delta, bounce, width, height) == FadeStep(m, dt);
    FadeKeepsMotion(m, dt);
    FloorStep(s, bounce, height, dt);
  }

  /** The fade step changes only the fade timer and the active flag. */
  lemma FadeKeepsMotion(m: EnemyState, dt: real)
    ensures var n := FadeStep(m, dt);
            n.x == m.x && n.y == m.y && n.velocityX == m.velocityX && n.velocityY == m.velocityY &&
            (m.kind == Star && m.isFading ==> n.fadeTimer == m.fadeTimer + dt && (n.active <==> m.active && n.fadeTimer < FADE_SECONDS)) &&
            (!(m.kind == Star && m.isFading) ==> n.fadeTimer == m.fadeTimer && n.active == m.active)
  {
  }

  /** Gravity and the floor bounce: on the floor a bubble is set on it and
      sent upward at 200 to 250 px/s, elsewhere gravity accelerates it. */
  lemma FloorStep(s: EnemyState, bounce: Unit, height: real, dt: real)
    ensures var b := FloorBounce(Fall(s, dt), bounce, height);
            b.x == s.x && b.velocityX == s.velocityX && b.kind == s.kind && b.isFading == s.isFading &&
            b.fadeTimer == s.fadeTimer && b.active == s.active &&
            (s.y >= height - FLOOR_MARGIN ==> -250.0 < b.velocityY <= -200.0 && b.y == height - FLOOR_MARGIN) &&
            (s.y < height - FLOOR_MARGIN ==> b.velocityY == s.velocityY + GRAVITY * dt && b.y == s.y)
  {
  }

  /** The wall bounce followed by motion: a bubble at or past a wall is
      put back on it, heading away from it, and then moves. */
  lemma WallStep(b: EnemyState, width: real, dt: real)
    ensures var m := Move(WallBounce(b, width), dt);
            var half := Config(b.kind).size / 2.0;
            m.kind == b.kind && m.y == b.y + b.velocityY * dt && m.velocityY == b.velocityY &&
            Abs(m.velocityX) == Abs(b.velocityX) &&
            (b.x <= half ==> m.velocityX == Abs(b.velocityX) && m.x == half + Abs(b.velocityX) * dt) &&
            (half < b.x && b.x >= width - half ==>
               m.velocityX == -Abs(b.velocityX) && m.x == width - half - Abs(b.velocityX) * dt) &&
            (half < b.x < width - half ==> m.velocityX == b.velocityX && m.x == b.x + b.velocityX * dt)
  {
    var half := Config(b.kind).size / 2.0;
    if half < b.x && b.x >= width - half {
      assert (-Abs(b.velocityX)) * dt == -(Abs(b.velocityX) * dt);
    }
  }

  /** `startFade()`: only a STAR starts fading. */
  function Faded(s: EnemyState): (n: EnemyState)
    ensures n.isFading <==> s.isFading || s.kind == Star
    ensures n == s.(isFading := n.isFading)
  {
    if s.kind == Star then s.(isFading := true) else s
  }

  /** A fading STAR disappears once two seconds of updates have elapsed;
      no other bubble ever expires on its own. */
  lemma OnlyFadingStarsExpire(s: EnemyState, delta: real, bounce: Unit, width: real, height: real)
    requires s.active
    ensures !Advance(s, delta, bounce, width, height).active <==>
              s.kind == Star && s.isFading && s.fadeTimer + delta / 1000.0 >= FADE_SECONDS
  {
  }

  // ---------------------------------------------------------------------
  // Splitting.

  const PI: real := 3.141592653589793

  datatype SplitPiece = SplitPiece(kind: BanknoteType, angle: real, velocityX: real)

  /** The angle of piece `i` of `n`: (i / n) * PI - PI / 2. */
  function FanAngle(i: nat, n: nat): (a: real)
    requires i < n
    ensures -PI / 2.0 <= a < PI / 2.0
  {
    FanAngleBounds(i, n);
    (i as real / n as real) * PI - PI / 2.0
  }

  lemma FanAngleBounds(i: nat, n: nat)
    requires i < n
    ensures 0.0 <= i as real / n as real < 1.0
  {
    var q := i as real / n as real;
    assert q * n as real == i as real;
  }

  /** `split()`: `splitCount` pieces of the next denomination, piece i
      moving horizontally at 150 * cos(FanAngle(i, n)); `cos` is Math.cos. */
  function Split(t: BanknoteType, cos: real -> Wave): (r: seq<SplitPiece>)
    ensures t == Star <==> r == []
    ensures |r| == Config(t).splitCount
    ensures forall i :: 0 <= i < |r| ==>
              Some(r[i].kind) == Config(t).splitInto &&
              r[i].angle == FanAngle(i, |r|) &&
              r[i].velocityX == cos(r[i].angle) * 150.0 &&
              -150.0 <= r[i].velocityX <= 150.0
  {
    match Config(t).splitInto
    case None => []
    case Some(c) =>
      var n := Config(t).splitCount;
      seq(n, i requires 0 <= i < n => SplitPiece(c, FanAngle(i, n), cos(FanAngle(i, n)) * 150.0))
  }

  /** Every fan angle lies in [-PI/2, PI/2), where the cosine is not
      negative: with a faithful cosine, no piece ever moves left. */
  lemma {:induction false} SplitNeverMovesLeft(t: BanknoteType, cos: real -> Wave)
    requires forall a :: -PI / 2.0 <= a <= PI / 2.0 ==> cos(a) >= 0.0
    ensures forall p :: p in Split(t, cos) ==> p.velocityX >= 0.0
  {
    var r := Split(t, cos);
    forall p | p in r
      ensures p.velocityX >= 0.0
    {
      var i :| 0 <= i < |r| && r[i] == p;
      assert -PI / 2.0 <= r[i].angle < PI / 2.0;
    }
  }

  /** A Phaser container holding one bubble. */
  class Enemy {
    const kind: BanknoteType
    var x: real
    var y: real
    var velocityX: real
    var velocityY: real
    var isFading: bool
    var fadeTimer: real
    var active: bool

    function State(): (s: EnemyState)
      reads this
      ensures s.kind == kind && s.active == active
    {
      EnemyState(kind, x, y, velocityX, velocityY, isFading, fadeTimer, active)
    }

    /** `new Enemy(scene, x, y, type, velocityX?)`; `coin` is the draw that
        picks the direction when no velocity is given. */
    constructor (x0: real, y0: real, kind0: BanknoteType, velocityX0: Option<real>, coin: Unit)
      ensures State() == Spawned(kind0, x0, y0, velocityX0, coin)
    {
      kind := kind0;
      x, y := x0, y0;
      velocityX := match velocityX0 case Some(v) => v case None => if coin > 0.5 then 100.0 else -100.0;
      velocityY := 0.0;
      isFading := false;
      fadeTimer := 0.0;
      active := true;
    }

    method Update(delta: real, bounce: Unit, width: real, height: real)
      modifies this
      ensures State() == Advance(old(State()), delta, bounce, width, height)
    {
      var dt := delta / 1000.0;
      FallAndBounce(dt, bounce, height);
      BounceOffWalls(width);
      MoveAndFade(dt);
    }

    /** Gravity, then the floor bounce. */
    method FallAndBounce(dt: real, bounce: Unit, height: real)
      modifies this
      ensures State() == FloorBounce(Fall(old(State()), dt), bounce, height)
    {
      velocityY := velocityY + GRAVITY * dt;
      if y >= height - FLOOR_MARGIN {
        velocityY := -BOUNCE_SPEED - bounce * 50.0;
        y := height - FLOOR_MARGIN;
      }
    }

    method BounceOffWalls(width: real)
      modifies this
      ensures State() == WallBounce(old(State()), width)
    {
      var half := Config(kind).size / 2.0;
      if x <= half {
        velocityX := Abs(velocityX);
        x := half;
      } else if x >= width - half {
        velocityX := -Abs(velocityX);
        x := width - half;
      }
    }

    /** Motion, then the STAR fade. */
    method MoveAndFade(dt: real)
      modifies this
      ensures State() == FadeStep(Move(old(State()), dt), dt)
    {
      x := x + velocityX * dt;
      y := y + velocityY * dt;
      if kind == Star && isFading {
        fadeTimer := fadeTimer + dt;
        if fadeTimer >= FADE_SECONDS {
          Destroy();
        }
      }
    }

    method StartFade()
      modifies this
      ensures State() == Faded(old(State()))
    {
      if kind == Star {
        isFading := true;
      }
    }

    /** Phaser's `destroy()`: the container is no longer active. */
    method Destroy()
      modifies this
      ensures State() == old(State()).(active := false)
    {
      active := false;
    }
  }
}
