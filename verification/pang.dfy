/** The Pang scene: the per-tick driver that updates the player, the
    bubbles and the gore, resolves beams against bubbles and bubbles
    against the player, advances waves and reports the HUD values. */
module Pang {
  import opened Common
  import opened Banknotes
  import opened EnemyManagement
  import opened Gore
  import opened Players
  import opened Scores

  /** What the scene emits on the event bus. */
  datatype SceneEvent =
    | ScoreUpdate(score: int)
    | HealthUpdate(health: int, maxHealth: int)
    | LevelUpdate(level: int)
    | WaveUpdate(wave: int)
    | GameOver(finalScore: int)

  /** The random draws and trigonometry one tick consumes: `bounce(k)` is
      the floor-bounce draw of bubble `k`, `hitGore(i)` the particle
      stream of the burst caused by beam `i` and `hurtGore(k)` that of
      the splatter caused by touching bubble `k`. */
  datatype TickDraws = TickDraws(spawnX: Unit, coin: Unit, bounce: nat -> Unit,
                                 hitGore: nat -> nat -> ParticleDraw, hurtGore: nat -> nat -> ParticleDraw,
                                 cos: real -> Wave)

  /** The keys held down and the blink clock's sine. */
  datatype Controls = Controls(left: bool, right: bool, blink: Wave)

  /** A beam that has left the screen above this line is destroyed. */
  const BEAM_CEILING: real := -50.0
  const WAVES_PER_LEVEL: int := 3
  const HURT_INTENSITY: real := 0.5
  const STAR_INTENSITY: real := 1.5

  // ---------------------------------------------------------------------
  // Beams against bubbles.

  /** What a beam touches: the bubbles, the score and the gore pool. */
  datatype Arena = Arena(enemies: seq<EnemyState>, score: int, high: int,
                         particles: seq<Particle>, goreOn: bool)

  /** A gore burst, dropped when gore is disabled. */
  function Spray(particles: seq<Particle>, goreOn: bool, burst: seq<Particle>): (ps: seq<Particle>)
  {
    if goreOn then PushAll(particles, burst) else particles
  }

  /** The burst a hit on `e` causes: blood for a STAR, dinars otherwise. */
  function HitBurst(e: EnemyState, draws: nat -> ParticleDraw): (ps: seq<Particle>)
    ensures |ps| == if e.kind == Star then SplatterCount(STAR_INTENSITY) else DINAR_COUNT
  {
    if e.kind == Star then Splatter(e.x, e.y, STAR_INTENSITY, draws) else Explosion(e.x, e.y, draws)
  }

  /** A hit on bubble `j`: its score is added, a burst is sprayed and the
      manager replaces it by its split set. */
  function HitEnemy(a: Arena, j: nat, draws: nat -> ParticleDraw, cos: real -> Wave): (r: Arena)
    requires j < |a.enemies|
  {
    var e := a.enemies[j];
    var s := a.score + Config(e.kind).scoreValue;
    Arena(HitOutcome(a.enemies, j, cos), s, if s > a.high then s else a.high,
          Spray(a.particles, a.goreOn, HitBurst(e, draws)), a.goreOn)
  }

  /** The arena after the score and burst of a hit, once the bubble is
      replaced by its split set, is the arena the hit leads to. */
  lemma HitEnemyIs(a: Arena, j: nat, draws: nat -> ParticleDraw, cos: real -> Wave, rewarded: Arena, es: seq<EnemyState>)
    requires j < |a.enemies| && rewarded.enemies == a.enemies && rewarded.goreOn == a.goreOn
    requires var s := a.score + Config(a.enemies[j].kind).scoreValue;
             rewarded.score == s && rewarded.high == (if s > a.high then s else a.high)
    requires rewarded.particles == Spray(a.particles, a.goreOn, HitBurst(a.enemies[j], draws))
    requires es == HitOutcome(a.enemies, j, cos)
    ensures rewarded.(enemies := es) == HitEnemy(a, j, draws, cos)
  {
  }

  /** The first bubble in list order that `beam` overlaps. */
  function FirstHit(beam: Beam, es: seq<EnemyState>, overlaps: (Beam, EnemyState) -> bool): (r: Option<nat>)
    ensures r.None? <==> forall k :: 0 <= k < |es| ==> !overlaps(beam, es[k])
    ensures r.Some? ==> r.value < |es| && overlaps(beam, es[r.value]) &&
                        forall k :: 0 <= k < r.value ==> !overlaps(beam, es[k])
  {
    if es == [] then None
    else if overlaps(beam, es[0]) then Some(0)
    else match FirstHit(beam, es[1..], overlaps)
      case None => None
      case Some(j) => Some(j + 1)
  }

  lemma FirstHitAt(beam: Beam, es: seq<EnemyState>, overlaps: (Beam, EnemyState) -> bool, k: nat)
    requires k < |es| && overlaps(beam, es[k])
    requires forall m :: 0 <= m < k ==> !overlaps(beam, es[m])
    ensures FirstHit(beam, es, overlaps) == Some(k)
  {
  }

  /** Splicing beam `i` out of the prefix-and-kept list leaves the prefix
      before it followed by the kept beams. */
  lemma Unspliced(B: seq<Beam>, i: nat, kept: seq<Beam>)
    requires i < |B|
    ensures var bs := B[..i + 1] + kept;
            bs[i] == B[i] && bs[..i] + bs[i + 1..] == B[..i] + kept && bs == B[..i] + ([B[i]] + kept)
  {
    var bs := B[..i + 1] + kept;
    assert bs[..i] == B[..i];
    assert bs[i + 1..] == kept;
  }

  /** The beam loop resumed at index `i`: one step on top of the beams
      behind it. */
  lemma SweepFrom(B: seq<Beam>, i: nat, a: Arena, gore: nat -> nat -> ParticleDraw, cos: real -> Wave,
                  overlaps: (Beam, EnemyState) -> bool)
    requires i < |B|
    ensures Sweep(B[i..], i, a, gore, cos, overlaps) ==
            SweepStep(B[i], Sweep(B[i + 1..], i + 1, a, gore, cos, overlaps), gore(i), cos, overlaps)
  {
    assert B[i..][1..] == B[i + 1..];
  }

  datatype BeamFate = Expired | Missed | HitAt(index: nat)

  /** An inactive beam or one above the ceiling is dropped unscored;
      otherwise it hits the first bubble it overlaps, if any. */
  function Fate(beam: Beam, es: seq<EnemyState>, overlaps: (Beam, EnemyState) -> bool): (f: BeamFate)
    ensures f.Expired? <==> !beam.active || beam.y < BEAM_CEILING
    ensures f.HitAt? ==> f.index < |es| && overlaps(beam, es[f.index])
    ensures f.Missed? ==> forall k :: 0 <= k < |es| ==> !overlaps(beam, es[k])
  {
    if !beam.active || beam.y < BEAM_CEILING then Expired
    else match FirstHit(beam, es, overlaps)
      case None => Missed
      case Some(j) => HitAt(j)
  }

  /** The backward beam loop of `update`: the last beam is resolved first.
      Returns the beams kept, the arena afterwards and the kinds hit, in
      the order they were hit. The first of `beams` is beam `at` of the
      scene's list, and the burst beam `i` causes draws from `gore(i)`. */
  function Sweep(beams: seq<Beam>, at: nat, a: Arena, gore: nat -> nat -> ParticleDraw, cos: real -> Wave,
                 overlaps: (Beam, EnemyState) -> bool): (r: (seq<Beam>, Arena, seq<BanknoteType>))
    decreases |beams|
  {
    if beams == [] then ([], a, [])
    else SweepStep(beams[0], Sweep(beams[1..], at + 1, a, gore, cos, overlaps), gore(at), cos, overlaps)
  }

  /** One pass of the beam loop, after the beams behind `beam` are done:
      an expired beam is dropped, a missed one kept, a hitting one dropped
      and its bubble's kind logged. */
  function SweepStep(beam: Beam, prev: (seq<Beam>, Arena, seq<BanknoteType>), draws: nat -> ParticleDraw,
                     cos: real -> Wave, overlaps: (Beam, EnemyState) -> bool): (r: (seq<Beam>, Arena, seq<BanknoteType>))
  {
    var (kept, a1, log) := prev;
    match Fate(beam, a1.enemies, overlaps)
    case Expired => (kept, a1, log)
    case Missed => ([beam] + kept, a1, log)
    case HitAt(j) => (kept, HitEnemy(a1, j, draws, cos), log + [a1.enemies[j].kind])
  }

  function ScoreOf(kinds: seq<BanknoteType>): int
  {
    if kinds == [] then 0 else ScoreOf(kinds[..|kinds| - 1]) + Config(kinds[|kinds| - 1]).scoreValue
  }

  /** Each beam scores at most one bubble: the beams kept and the hits
      together never outnumber the beams; every kept beam is active and
      below the ceiling; the score grows by exactly the value of the notes
      hit, the best score never falls and, if it was not behind the score
      before, it is not behind it after. */
  lemma {:induction false} SweepAccounting(beams: seq<Beam>, at: nat, a: Arena, gore: nat -> nat -> ParticleDraw,
                                           cos: real -> Wave, overlaps: (Beam, EnemyState) -> bool)
    decreases |beams|
    ensures var (kept, b, log) := Sweep(beams, at, a, gore, cos, overlaps);
            |kept| + |log| <= |beams| &&
            (forall k :: 0 <= k < |kept| ==> kept[k].active && kept[k].y >= BEAM_CEILING && kept[k] in beams) &&
            b.score == a.score + ScoreOf(log) &&
            (a.high >= a.score ==> b.high >= b.score) && b.high >= a.high &&
            b.goreOn == a.goreOn
  {
    if beams != [] {
      SweepAccounting(beams[1..], at + 1, a, gore, cos, overlaps);
      var (kept, a1, log) := Sweep(beams[1..], at + 1, a, gore, cos, overlaps);
      match Fate(beams[0], a1.enemies, overlaps)
      case Expired =>
      case Missed =>
      case HitAt(j) =>
        var k := a1.enemies[j].kind;
        assert (log + [k])[..|log|] == log;
    }
  }

  /** A beam that overlaps nothing and is still on screen survives. */
  lemma {:induction false} MissedBeamsSurvive(beams: seq<Beam>, at: nat, a: Arena, gore: nat -> nat -> ParticleDraw,
                                              cos: real -> Wave, overlaps: (Beam, EnemyState) -> bool, i: nat)
    decreases |beams|
    requires i < |beams| && beams[i].active && beams[i].y >= BEAM_CEILING
    requires forall e: EnemyState :: !overlaps(beams[i], e)
    ensures beams[i] in Sweep(beams, at, a, gore, cos, overlaps).0
  {
    if i > 0 {
      MissedBeamsSurvive(beams[1..], at + 1, a, gore, cos, overlaps, i - 1);
      var (kept, a1, log) := Sweep(beams[1..], at + 1, a, gore, cos, overlaps);
      assert beams[1..][i - 1] == beams[i];
    }
  }

  // ---------------------------------------------------------------------
  // Bubbles against the player.

  /** The contact loop: every overlapping bubble calls `takeDamage` and
      sprays blood at the player; a fatal hit ends the loop. Returns the
      player, the gore pool and whether the loop ended in a game over.
      The first of `es` is bubble `at` of the list, and the splatter
      bubble `k` causes draws from `gore(k)`. */
  function Contacts(p: PlayerState, es: seq<EnemyState>, at: nat, particles: seq<Particle>, goreOn: bool,
                    px: real, py: real, gore: nat -> nat -> ParticleDraw, touches: EnemyState -> bool)
    : (r: (PlayerState, seq<Particle>, bool))
    decreases |es|
  {
    if es == [] then (p, particles, false)
    else if touches(es[0]) then
      var (p1, dead) := Damaged(p);
      var g := Spray(particles, goreOn, Splatter(px, py, HURT_INTENSITY, gore(at)));
      if dead then (p1, g, true) else Contacts(p1, es[1..], at + 1, g, goreOn, px, py, gore, touches)
    else Contacts(p, es[1..], at + 1, particles, goreOn, px, py, gore, touches)
  }

  /** However many bubbles overlap the player in one tick, it loses at
      most one hit point, and exactly one when it was vulnerable and some
      bubble overlapped it; the tick ends in a game over exactly when that
      hit took the last point. */
  lemma {:induction false} ContactsLoseAtMostOne(p: PlayerState, es: seq<EnemyState>, at: nat, particles: seq<Particle>,
                                                 goreOn: bool, px: real, py: real,
                                                 gore: nat -> nat -> ParticleDraw, touches: EnemyState -> bool)
    decreases |es|
    ensures var (q, g, dead) := Contacts(p, es, at, particles, goreOn, px, py, gore, touches);
            var touched := exists k :: 0 <= k < |es| && touches(es[k]);
            q.canShoot == p.canShoot &&
            q.health == (if touched && !p.isInvulnerable then p.health - 1 else p.health) &&
            q.isInvulnerable == (touched || p.isInvulnerable) &&
            (dead <==> touched && !p.isInvulnerable && p.health <= 1)
  {
    if es != [] {
      var touchedRest := exists k :: 0 <= k < |es[1..]| && touches(es[1..][k]);
      assert (exists k :: 0 <= k < |es| && touches(es[k])) <==> touches(es[0]) || touchedRest by {
        if touchedRest {
          var k :| 0 <= k < |es[1..]| && touches(es[1..][k]);
          assert touches(es[k + 1]);
        }
      }
      if touches(es[0]) {
        var (p1, dead) := Damaged(p);
        var g := Spray(particles, goreOn, Splatter(px, py, HURT_INTENSITY, gore(at)));
        if !dead {
          ContactsLoseAtMostOne(p1, es[1..], at + 1, g, goreOn, px, py, gore, touches);
        }
      } else {
        ContactsLoseAtMostOne(p, es[1..], at + 1, particles, goreOn, px, py, gore, touches);
      }
    }
  }

  // ---------------------------------------------------------------------
  // The whole scene.

  /** A snapshot of everything the scene's tick reads and writes. */
  datatype World = World(
    player: PlayerState, px: real, py: real,
    manager: ManagerState,
    particles: seq<Particle>, goreOn: bool,
    beams: seq<Beam>,
    score: int, high: int,
    paused: bool, physicsPaused: bool, level: int, wave: int,
    pendingWaves: nat,
    outbox: seq<SceneEvent>)

  /** `nextWave()`: the wave counter wraps after three waves, bumping the
      level and the spawner's difficulty; the respawn is deferred behind a
      tween. */
  function WaveAdvanced(w: World): (r: World)
    ensures 1 <= w.wave <= WAVES_PER_LEVEL ==> 1 <= r.wave <= WAVES_PER_LEVEL
    ensures w.wave >= 1 ==> (r.wave == 1 <==> w.wave >= WAVES_PER_LEVEL)
    ensures r.level == (if w.wave >= WAVES_PER_LEVEL then w.level + 1 else w.level)
    ensures r.manager == (if w.wave >= WAVES_PER_LEVEL then Harder(w.manager) else w.manager)
    ensures r.pendingWaves == w.pendingWaves + 1
    ensures r == w.(wave := r.wave, level := r.level, manager := r.manager, pendingWaves := r.pendingWaves)
  {
    var wave := w.wave + 1;
    if wave > WAVES_PER_LEVEL then
      w.(wave := 1, level := w.level + 1, manager := Harder(w.manager), pendingWaves := w.pendingWaves + 1)
    else
      w.(wave := wave, pendingWaves := w.pendingWaves + 1)
  }

  /** The size of the wave a finished wave tween spawns. */
  function RespawnSize(level: int): (n: int)
    ensures n <= 5 && (level >= 0 ==> n >= 2)
    ensures n == 2 + level || n == 5
  {
    if 2 + level < 5 then 2 + level else 5
  }

  /** `updateHUD()`: the four values pushed to the HUD. */
  function Hud(w: World): (es: seq<SceneEvent>)
  {
    [ScoreUpdate(w.score), HealthUpdate(w.player.health, MAX_HEALTH), LevelUpdate(w.level), WaveUpdate(w.wave)]
  }

  /** The arcade physics step of a beam: it moves by its vertical
      velocity over `dt` seconds. */
  function Flown(b: Beam, dt: real): (r: Beam)
    ensures r.x == b.x && r.velocityY == b.velocityY && r.active == b.active
    ensures b.velocityY < 0.0 && dt > 0.0 ==> r.y < b.y
  {
    b.(y := b.y + b.velocityY * dt)
  }

  function Fly(beams: seq<Beam>, dt: real): (r: seq<Beam>)
    ensures |r| == |beams| && forall k :: 0 <= k < |r| ==> r[k] == Flown(beams[k], dt)
  {
    seq(|beams|, k requires 0 <= k < |beams| => Flown(beams[k], dt))
  }

  /** The physics step of a frame: the beams move, unless the physics is
      paused. */
  function Flew(w: World, delta: real): (r: World)
  {
    if w.physicsPaused then w else w.(beams := Fly(w.beams, delta / 1000.0))
  }

  /** The bubbles and the gore advance by one frame. */
  function Acted(w: World, width: real, height: real, delta: real, d: TickDraws): (r: World)
  {
    w.(manager := UpdateSpec(w.manager, delta, d.spawnX, d.coin, d.bounce, width, height),
       particles := FilterMap(w.particles, Decay(delta / 1000.0)))
  }

  /** The first stage of `update`: the physics step, then the actors. */
  function Stepped(w: World, width: real, height: real, delta: real, d: TickDraws): (r: World)
  {
    Acted(Flew(w, delta), width, height, delta, d)
  }

  function ArenaOf(w: World): Arena
  {
    Arena(w.manager.enemies, w.score, w.high, w.particles, w.goreOn)
  }

  /** The second stage: the beam loop. */
  function Swept(w: World, d: TickDraws, overlaps: (Beam, EnemyState) -> bool): (r: World)
  {
    var (kept, a, _) := Sweep(w.beams, 0, ArenaOf(w), d.hitGore, d.cos, overlaps);
    w.(manager := w.manager.(enemies := a.enemies), particles := a.particles, beams := kept,
       score := a.score, high := a.high)
  }

  /** The third stage: the contact loop, and whether it ended fatally. */
  function Touched(w: World, d: TickDraws, touches: EnemyState -> bool): (r: (World, bool))
  {
    var (p, g, dead) := Contacts(w.player, w.manager.enemies, 0, w.particles, w.goreOn, w.px, w.py, d.hurtGore, touches);
    (w.(player := p, particles := g), dead)
  }

  /** The contact stage is the contact loop on the world's bubbles. */
  lemma TouchedIs(w: World, d: TickDraws, touches: EnemyState -> bool, goal: (PlayerState, seq<Particle>, bool))
    requires goal == Contacts(w.player, w.manager.enemies, 0, w.particles, w.goreOn, w.px, w.py, d.hurtGore, touches)
    ensures Touched(w, d, touches) == (w.(player := goal.0, particles := goal.1), goal.2)
  {
  }

  /** The last stage: a game over, which pauses the physics, or the wave
      check and the HUD refresh. */
  function Settled(w: World, dead: bool): (r: World)
  {
    if dead then w.(physicsPaused := true, outbox := w.outbox + [GameOver(w.score)])
    else
      var w3 := if |w.manager.enemies| == 0 then WaveAdvanced(w) else w;
      w3.(outbox := w3.outbox + Hud(w3))
  }

  /** One call of `update(time, delta)`. */
  function Tick(w: World, width: real, height: real, delta: real, d: TickDraws,
                overlaps: (Beam, EnemyState) -> bool, touches: EnemyState -> bool): (r: World)
  {
    if w.paused then w
    else
      var (w2, dead) := Touched(Swept(Stepped(w, width, height, delta, d), d, overlaps), d, touches);
      Settled(w2, dead)
  }

  /** The scene's standing invariant: the wave counter stays in 1..3, the
      level is positive and the best score is never behind the score. */
  ghost predicate Sane(w: World)
  {
    1 <= w.wave <= WAVES_PER_LEVEL && w.level >= 1 && w.high >= w.score && w.high >= 0
  }

  /** A tick keeps the scene sane; a paused tick changes nothing; a tick
      that ends in a game over emits only the GAME_OVER event (no HUD
      refresh, no wave advance); every other unpaused tick ends with one
      HUD refresh. */
  lemma TickFacts(w: World, width: real, height: real, delta: real, d: TickDraws,
                  overlaps: (Beam, EnemyState) -> bool, touches: EnemyState -> bool)
    requires Sane(w)
    ensures var r := Tick(w, width, height, delta, d, overlaps, touches);
            Sane(r) &&
            (w.paused ==> r == w) &&
            (!w.paused ==>
              (r.outbox == w.outbox + [GameOver(r.score)] && r.wave == w.wave && r.level == w.level) ||
              r.outbox == w.outbox + Hud(r)) &&
            r.level >= w.level && r.high >= w.high
  {
    if !w.paused {
      var w1 := Stepped(w, width, height, delta, d);
      SweepAccounting(w1.beams, 0, ArenaOf(w1), d.hitGore, d.cos, overlaps);
    }
  }

  /** After an unpaused tick every beam left is active and not above
      y = -50, and is one of the beams before the tick moved by the
      physics step, or left in place while the physics is paused: a beam
      that flies above the line is dropped in the same tick. */
  lemma TickBeams(w: World, width: real, height: real, delta: real, d: TickDraws,
                  overlaps: (Beam, EnemyState) -> bool, touches: EnemyState -> bool)
    ensures var r := Tick(w, width, height, delta, d, overlaps, touches);
            !w.paused ==>
              forall b :: b in r.beams ==>
                b.active && b.y >= BEAM_CEILING &&
                if w.physicsPaused then b in w.beams else b in Fly(w.beams, delta / 1000.0)
  {
    if !w.paused {
      var w1 := Stepped(w, width, height, delta, d);
      SweepAccounting(w1.beams, 0, ArenaOf(w1), d.hitGore, d.cos, overlaps);
    }
  }

  /** A tick costs the player at most one hit point, and a game over
      happens only on the hit that takes the last one. */
  lemma TickHealth(w: World, width: real, height: real, delta: real, d: TickDraws,
                   overlaps: (Beam, EnemyState) -> bool, touches: EnemyState -> bool)
    ensures var r := Tick(w, width, height, delta, d, overlaps, touches);
            w.player.health - 1 <= r.player.health <= w.player.health &&
            (r.player.health < w.player.health ==> !w.player.isInvulnerable && r.player.isInvulnerable) &&
            (|r.outbox| > 0 && r.outbox[|r.outbox| - 1].GameOver? && !w.paused ==>
               r.player.health <= 0 && w.player.health == 1 + r.player.health)
  {
    if !w.paused {
      var w2 := Swept(Stepped(w, width, height, delta, d), d, overlaps);
      ContactsLoseAtMostOne(w2.player, w2.manager.enemies, 0, w2.particles, w2.goreOn, w2.px, w2.py, d.hurtGore, touches);
    }
  }

  // ---------------------------------------------------------------------
  // The scene object.

  class PangScene {
    const width: real
    const height: real
    const player: Player
    const enemyManager: EnemyManager
    const goreManager: GoreManager
    const scores: ScoreService
    var beams: seq<Beam>
    var isPaused: bool
    /** Whether the arcade physics is paused: by ESC, and for good by a
        game over. */
    var physicsPaused: bool
    var level: int
    var waveNumber: int
    /** Wave tweens started by `nextWave` whose completion is still due. */
    var pendingWaves: nat
    /** The events emitted on the event bus, oldest first. */
    var outbox: seq<SceneEvent>

    ghost predicate Valid()
      reads this, enemyManager, goreManager, scores
    {
      enemyManager.Valid() && goreManager.Valid() && scores.Valid() &&
      enemyManager.width == width && enemyManager.height == height &&
      1 <= waveNumber <= WAVES_PER_LEVEL && level >= 1
    }

    function Observed(): Arena
      reads enemyManager, enemyManager.enemies, goreManager, scores
    {
      Arena(enemyManager.States(), scores.currentScore, scores.highScore, goreManager.particles, goreManager.enabled)
    }

    function Snapshot(): World
      reads this, player, enemyManager, enemyManager.enemies, goreManager, scores
    {
      World(player.State(), player.x, player.y, enemyManager.Model(),
            goreManager.particles, goreManager.enabled, beams,
            scores.currentScore, scores.highScore, isPaused, physicsPaused, level, waveNumber, pendingWaves, outbox)
    }

    /** `create()`: the score is reset, the managers and the player are
        built and an initial wave of two bubbles is spawned. */
    constructor (scoreService: ScoreService, width0: real, height0: real, jitter: nat -> Unit)
      requires scoreService.Valid()
      modifies scoreService
      ensures Valid()
      ensures Snapshot() == World(SPAWNED, width0 / 2.0, height0 - 100.0,
                               INITIAL.(enemies := WaveStates(2, width0, jitter)),
                               [], true, [], 0, old(scoreService.highScore), false, false, 1, 1, 0, [])
    {
      width, height := width0, height0;
      scores := scoreService;
      scoreService.ResetScore();
      goreManager := new GoreManager();
      var manager := new EnemyManager(width0, height0);
      enemyManager := manager;
      player := new Player(width0 / 2.0, height0 - 100.0);
      beams := [];
      isPaused, physicsPaused := false, false;
      level, waveNumber := 1, 1;
      pendingWaves := 0;
      outbox := [];
      new;
      manager.SpawnWave(jitter, 2);
    }

    /** The SPACE handler: ignored while paused. */
    method Shoot()
      modifies this, player
      ensures isPaused ==> player.State() == old(player.State()) && beams == old(beams)
      ensures !isPaused && !old(player.canShoot) ==> player.State() == old(player.State()) && beams == old(beams)
      ensures !isPaused && old(player.canShoot) ==>
                player.State() == old(player.State()).(canShoot := false) &&
                beams == old(beams) + [Beam(player.x, player.y - 30.0, -BEAM_SPEED, true)]
      ensures isPaused == old(isPaused) && physicsPaused == old(physicsPaused)
      ensures level == old(level) && waveNumber == old(waveNumber)
      ensures pendingWaves == old(pendingWaves) && outbox == old(outbox)
      ensures player.x == old(player.x) && player.y == old(player.y)
    {
      if isPaused {
        return;
      }
      var beam := player.Shoot();
      if beam.Some? {
        beams := beams + [beam.value];
      }
    }

    /** The ESC handler: pausing also pauses the physics and resuming
        resumes it (the overlay is not modelled). */
    method TogglePause()
      modifies this
      ensures isPaused == !old(isPaused) && physicsPaused == isPaused
      ensures beams == old(beams) && level == old(level) && waveNumber == old(waveNumber)
      ensures pendingWaves == old(pendingWaves) && outbox == old(outbox)
    {
      isPaused := !isPaused;
      physicsPaused := isPaused;
    }

    /** `update(time, delta)`. */
    method Update(delta: real, c: Controls, d: TickDraws,
                  overlaps: (Beam, EnemyState) -> bool, touches: EnemyState -> bool)
      requires Valid()
      modifies this, player, enemyManager, enemyManager.enemies, goreManager, scores
      ensures Valid()
      ensures Snapshot() == Tick(old(Snapshot()), width, height, delta, d, overlaps, touches)
      ensures forall k :: 0 <= k < |enemyManager.enemies| ==> enemyManager.enemies[k] in old(enemyManager.enemies) || fresh(enemyManager.enemies[k])
    {
      if isPaused {
        return;
      }
      ghost var e0 := enemyManager.enemies;
      FlyBeams(delta);
      StepActors(delta, c, d);
      ghost var e1 := enemyManager.enemies;
      SweepBeams(d, overlaps);
      forall k | 0 <= k < |enemyManager.enemies|
        ensures enemyManager.enemies[k] in e0 || fresh(enemyManager.enemies[k])
      {
        if enemyManager.enemies[k] in e1 {
          var j :| 0 <= j < |e1| && e1[j] == enemyManager.enemies[k];
        }
      }
      var dead := ResolveContacts(d, touches);
      Settle(dead);
    }

    /** The arcade physics step that precedes `update`: the beams move by
        their velocity over the frame, unless the physics is paused. */
    method FlyBeams(delta: real)
      modifies this
      ensures Snapshot() == Flew(old(Snapshot()), delta)
      ensures isPaused == old(isPaused) && level == old(level) && waveNumber == old(waveNumber)
    {
      if !physicsPaused {
        beams := Fly(beams, delta / 1000.0);
      }
    }

    /** The player, the enemy manager and the gore manager advance. */
    method StepActors(delta: real, c: Controls, d: TickDraws)
      requires Valid()
      modifies player, enemyManager, enemyManager.enemies, goreManager
      ensures Valid()
      ensures Snapshot() == Acted(old(Snapshot()), width, height, delta, d)
      ensures forall k :: 0 <= k < |enemyManager.enemies| ==> enemyManager.enemies[k] in old(enemyManager.enemies) || fresh(enemyManager.enemies[k])
    {
      ghost var w := Snapshot();
      player.Update(c.left, c.right, c.blink);
      enemyManager.Update(delta, d.spawnX, d.coin, d.bounce);
      ghost var m := enemyManager.Model();
      goreManager.Update(delta);
      assert enemyManager.Model() == m;
    }

    /** The beam loop, on the whole scene. */
    method SweepBeams(d: TickDraws, overlaps: (Beam, EnemyState) -> bool)
      requires Valid()
      modifies this, enemyManager, enemyManager.enemies, goreManager, scores
      ensures Valid()
      ensures Snapshot() == Swept(old(Snapshot()), d, overlaps)
      ensures forall k :: 0 <= k < |enemyManager.enemies| ==> enemyManager.enemies[k] in old(enemyManager.enemies) || fresh(enemyManager.enemies[k])
    {
      ghost var w := Snapshot();
      assert Observed() == ArenaOf(w);
      ResolveBeams(d, overlaps);
      ghost var r := Sweep(w.beams, 0, ArenaOf(w), d.hitGore, d.cos, overlaps);
      SweepAccounting(w.beams, 0, ArenaOf(w), d.hitGore, d.cos, overlaps);
      assert enemyManager.Model() == w.manager.(enemies := r.1.enemies);
    }

    /** What follows the contact loop: `gameOver()`, or the wave check and
        `updateHUD()`. */
    method Settle(dead: bool)
      requires Valid()
      modifies this, enemyManager
      ensures Valid()
      ensures Snapshot() == Settled(old(Snapshot()), dead)
      ensures enemyManager.enemies == old(enemyManager.enemies)
    {
      if dead {
        physicsPaused := true;
        outbox := outbox + [GameOver(scores.currentScore)];
        return;
      }
      if enemyManager.EnemyCount() == 0 {
        NextWave();
      }
      outbox := outbox + Hud(Snapshot());
    }

    /** The backward beam loop of `update`. */
    method ResolveBeams(d: TickDraws, overlaps: (Beam, EnemyState) -> bool)
      requires Valid()
      modifies this, enemyManager, enemyManager.enemies, goreManager, scores
      ensures Valid()
      ensures var r := Sweep(old(beams), 0, old(Observed()), d.hitGore, d.cos, overlaps);
              beams == r.0 && Observed() == r.1
      ensures enemyManager.Settings() == old(enemyManager.Settings())
      ensures isPaused == old(isPaused) && physicsPaused == old(physicsPaused)
      ensures level == old(level) && waveNumber == old(waveNumber)
      ensures pendingWaves == old(pendingWaves) && outbox == old(outbox)
      ensures forall k :: 0 <= k < |enemyManager.enemies| ==> enemyManager.enemies[k] in old(enemyManager.enemies) || fresh(enemyManager.enemies[k])
    {
      ghost var B := beams;
      ghost var a0 := Observed();
      ghost var cur := Sweep([], |B|, a0, d.hitGore, d.cos, overlaps);
      assert B[..|B|] == B && B[|B|..] == [];
      var i := |beams|;
      while i > 0
        invariant 0 <= i <= |B| && Valid()
        invariant cur == Sweep(B[i..], i, a0, d.hitGore, d.cos, overlaps)
        invariant beams == B[..i] + cur.0 && Observed() == cur.1
        invariant enemyManager.Settings() == old(enemyManager.Settings())
        invariant isPaused == old(isPaused) && physicsPaused == old(physicsPaused)
        invariant level == old(level) && waveNumber == old(waveNumber)
        invariant pendingWaves == old(pendingWaves) && outbox == old(outbox)
        invariant forall k :: 0 <= k < |enemyManager.enemies| ==> enemyManager.enemies[k] in old(enemyManager.enemies) || fresh(enemyManager.enemies[k])
      {
        i := i - 1;
        cur := SweepPass(i, B, a0, cur, d, overlaps);
      }
      assert B[0..] == B && B[..0] == [];
      assert beams == cur.0;
    }

    /** The body of the beam loop at index `i`: the beam's hit is resolved
        and the beam spliced out when it is destroyed. */
    method SweepPass(i: nat, ghost B: seq<Beam>, ghost a0: Arena, ghost cur: (seq<Beam>, Arena, seq<BanknoteType>),
                     d: TickDraws, overlaps: (Beam, EnemyState) -> bool) returns (ghost next: (seq<Beam>, Arena, seq<BanknoteType>))
      requires i < |B| && Valid()
      requires cur == Sweep(B[i + 1..], i + 1, a0, d.hitGore, d.cos, overlaps)
      requires beams == B[..i + 1] + cur.0 && Observed() == cur.1
      modifies this, enemyManager, enemyManager.enemies, goreManager, scores
      ensures Valid() && next == Sweep(B[i..], i, a0, d.hitGore, d.cos, overlaps)
      ensures beams == B[..i] + next.0 && Observed() == next.1
      ensures enemyManager.Settings() == old(enemyManager.Settings())
      ensures isPaused == old(isPaused) && physicsPaused == old(physicsPaused)
      ensures level == old(level) && waveNumber == old(waveNumber)
      ensures pendingWaves == old(pendingWaves) && outbox == old(outbox)
      ensures forall k :: 0 <= k < |enemyManager.enemies| ==> enemyManager.enemies[k] in old(enemyManager.enemies) || fresh(enemyManager.enemies[k])
    {
      SweepFrom(B, i, a0, d.hitGore, d.cos, overlaps);
      Unspliced(B, i, cur.0);
      var drop := BeamAt(beams[i], cur, d.hitGore(i), d.cos, overlaps);
      if drop {
        beams := beams[..i] + beams[i + 1..];
      }
      next := SweepStep(B[i], cur, d.hitGore(i), d.cos, overlaps);
    }

    /** One pass of the beam loop, for `beam`: resolves its hit, if any,
        and says whether the beam is destroyed and spliced out; `draws` is
        the particle stream of its burst. */
    method BeamAt(beam: Beam, ghost prev: (seq<Beam>, Arena, seq<BanknoteType>),
                  draws: nat -> ParticleDraw, cos: real -> Wave, overlaps: (Beam, EnemyState) -> bool) returns (drop: bool)
      requires Valid() && Observed() == prev.1
      modifies enemyManager, enemyManager.enemies, goreManager, scores
      ensures Valid()
      ensures var r := SweepStep(beam, prev, draws, cos, overlaps);
              Observed() == r.1 && r.0 == if drop then prev.0 else [beam] + prev.0
      ensures enemyManager.Settings() == old(enemyManager.Settings())
      ensures forall k :: 0 <= k < |enemyManager.enemies| ==> enemyManager.enemies[k] in old(enemyManager.enemies) || fresh(enemyManager.enemies[k])
    {
      var fate := FateOf(beam, overlaps);
      if fate.HitAt? {
        HitEnemyAt(fate.index, draws, cos);
      }
      drop := !fate.Missed?;
    }

    /** The expiry test and the inner loop, for one beam. */
    method FateOf(beam: Beam, overlaps: (Beam, EnemyState) -> bool) returns (fate: BeamFate)
      ensures fate == Fate(beam, enemyManager.States(), overlaps)
    {
      if !beam.active || beam.y < BEAM_CEILING {
        return Expired;
      }
      var j := FindHit(beam, overlaps);
      fate := if j.Some? then HitAt(j.value) else Missed;
    }

    /** The inner loop over the bubbles, up to its `break`. */
    method FindHit(beam: Beam, overlaps: (Beam, EnemyState) -> bool) returns (j: Option<nat>)
      ensures j == FirstHit(beam, enemyManager.States(), overlaps)
    {
      var k := 0;
      while k < |enemyManager.enemies|
        invariant 0 <= k <= |enemyManager.enemies|
        invariant forall m :: 0 <= m < k ==> !overlaps(beam, enemyManager.States()[m])
      {
        if overlaps(beam, enemyManager.enemies[k].State()) {
          FirstHitAt(beam, enemyManager.States(), overlaps, k);
          return Some(k);
        }
        k := k + 1;
      }
      return None;
    }

    /** A hit on the bubble at `k`: the score, the gore burst, and
        `handleHit`. */
    method HitEnemyAt(k: nat, draws: nat -> ParticleDraw, cos: real -> Wave)
      requires Valid() && k < |enemyManager.enemies|
      modifies enemyManager, enemyManager.enemies, goreManager, scores
      ensures Valid()
      ensures Observed() == HitEnemy(old(Observed()), k, draws, cos)
      ensures enemyManager.Settings() == old(enemyManager.Settings())
      ensures forall k :: 0 <= k < |enemyManager.enemies| ==> enemyManager.enemies[k] in old(enemyManager.enemies) || fresh(enemyManager.enemies[k])
    {
      var e := enemyManager.enemies[k];
      ghost var a := Observed();
      assert e.State() == a.enemies[k];
      IndexOfDistinct(enemyManager.enemies, k);
      Reward(e, draws);
      assert enemyManager.States() == a.enemies;
      ghost var b := Observed();
      var spawned := enemyManager.HandleHit(e, cos);
      HitEnemyIs(a, k, draws, cos, b, enemyManager.States());
    }

    /** The score and the gore burst of a hit on `e`. */
    method Reward(e: Enemy, draws: nat -> ParticleDraw)
      requires goreManager.Valid() && scores.Valid()
      modifies goreManager, scores
      ensures goreManager.Valid() && scores.Valid() && goreManager.enabled == old(goreManager.enabled)
      ensures scores.currentScore == old(scores.currentScore) + Config(e.kind).scoreValue
      ensures scores.highScore == if scores.currentScore > old(scores.highScore) then scores.currentScore else old(scores.highScore)
      ensures goreManager.particles == Spray(old(goreManager.particles), goreManager.enabled, HitBurst(e.State(), draws))
    {
      scores.AddScore(Config(e.kind).scoreValue);
      if e.kind == Star {
        goreManager.SpawnBloodSplatter(e.x, e.y, draws, STAR_INTENSITY);
      } else {
        goreManager.SpawnDinarExplosion(e.x, e.y, draws);
      }
    }

    /** The player-contact loop of `update`; returns whether a hit was fatal. */
    method ResolveContacts(d: TickDraws, touches: EnemyState -> bool) returns (dead: bool)
      requires Valid()
      modifies player, goreManager
      ensures Valid()
      ensures (Snapshot(), dead) == Touched(old(Snapshot()), d, touches)
      ensures goreManager.enabled == old(goreManager.enabled)
      ensures player.x == old(player.x) && player.y == old(player.y)
    {
      ghost var w := Snapshot();
      ghost var es := enemyManager.States();
      ghost var goal := Contacts(player.State(), es, 0, goreManager.particles, goreManager.enabled,
                                 player.x, player.y, d.hurtGore, touches);
      var k := 0;
      while k < |enemyManager.enemies|
        invariant 0 <= k <= |es| && Valid()
        invariant goreManager.enabled == old(goreManager.enabled)
        invariant player.x == old(player.x) && player.y == old(player.y)
        invariant goal == Contacts(player.State(), es[k..], k, goreManager.particles, goreManager.enabled,
                                   player.x, player.y, d.hurtGore, touches)
      {
        dead := ContactAt(k, es, d, touches);
        if dead {
          TouchedIs(w, d, touches, goal);
          assert Snapshot() == w.(player := goal.0, particles := goal.1);
          return;
        }
        k := k + 1;
      }
      dead := false;
      assert es[k..] == [];
      TouchedIs(w, d, touches, goal);
      assert Snapshot() == w.(player := goal.0, particles := goal.1);
    }

    /** One pass of the contact loop, for the bubble at `k`: a touch costs
        a hit point and sprays blood, and ends the loop when it kills. */
    method ContactAt(k: nat, ghost es: seq<EnemyState>, d: TickDraws, touches: EnemyState -> bool) returns (dead: bool)
      requires Valid() && k < |es| && es == enemyManager.States()
      modifies player, goreManager
      ensures Valid()
      ensures goreManager.enabled == old(goreManager.enabled)
      ensures player.x == old(player.x) && player.y == old(player.y)
      ensures var r := Contacts(old(player.State()), es[k..], k, old(goreManager.particles), goreManager.enabled,
                                player.x, player.y, d.hurtGore, touches);
              if dead then r == (player.State(), goreManager.particles, true)
              else r == Contacts(player.State(), es[k + 1..], k + 1, goreManager.particles, goreManager.enabled,
                                 player.x, player.y, d.hurtGore, touches)
    {
      assert es[k..][1..] == es[k + 1..];
      dead := false;
      if touches(enemyManager.enemies[k].State()) {
        dead := player.TakeDamage();
        goreManager.SpawnBloodSplatter(player.x, player.y, d.hurtGore(k), HURT_INTENSITY);
      }
    }

    /** `nextWave()`; the deferred respawn is `WaveTweenComplete`. */
    method NextWave()
      requires Valid()
      modifies this, enemyManager
      ensures Valid()
      ensures Snapshot() == WaveAdvanced(old(Snapshot()))
      ensures enemyManager.enemies == old(enemyManager.enemies)
    {
      waveNumber := waveNumber + 1;
      if waveNumber > WAVES_PER_LEVEL {
        waveNumber := 1;
        level := level + 1;
        enemyManager.IncreaseDifficulty();
      }
      pendingWaves := pendingWaves + 1;
    }

    /** The completion of a wave tween: a wave of `min(2 + level, 5)`
        bubbles, sized by the level at completion time. */
    method WaveTweenComplete(jitter: nat -> Unit)
      requires Valid() && pendingWaves > 0
      modifies this, enemyManager
      ensures Valid()
      ensures pendingWaves == old(pendingWaves) - 1
      ensures enemyManager.States() == old(enemyManager.States()) + WaveStates(RespawnSize(level), width, jitter)
      ensures enemyManager.Settings() == old(enemyManager.Settings())
      ensures beams == old(beams) && level == old(level) && waveNumber == old(waveNumber) && outbox == old(outbox)
      ensures isPaused == old(isPaused) && physicsPaused == old(physicsPaused)
    {
      pendingWaves := pendingWaves - 1;
      enemyManager.SpawnWave(jitter, RespawnSize(level));
    }

    /** `shutdown()`: the gore pool is emptied and every bubble destroyed. */
    method Shutdown()
      requires Valid()
      modifies goreManager, enemyManager, enemyManager.enemies
      ensures Valid() && goreManager.particles == [] && enemyManager.Model() == INITIAL
      ensures forall e :: e in old(enemyManager.enemies) ==> !e.active
    {
      goreManager.Destroy();
      enemyManager.Reset();
    }
  }
}
