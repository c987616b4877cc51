/** The enemy manager: the list of live bubbles, timed auto-spawning,
    waves, hit handling (remove and split), difficulty and reset. */
module EnemyManagement {
  import opened Common
  import opened Banknotes

  /** No bubble appears twice in the list. */
  ghost predicate Distinct(es: seq<Enemy>)
  {
    forall i, j :: 0 <= i < j < |es| ==> es[i] != es[j]
  }

  function StatesOf(es: seq<Enemy>): (r: seq<EnemyState>)
    reads es
    ensures |r| == |es|
    ensures forall i {:trigger r[i]} :: 0 <= i < |es| ==> r[i] == es[i].State()
  {
    if es == [] then [] else [es[0].State()] + StatesOf(es[1..])
  }

  datatype ManagerState = ManagerState(
    enemies: seq<EnemyState>,
    spawnTimer: real,
    spawnInterval: real,
    maxEnemies: int,
    difficulty: real)

  /** A freshly constructed (or reset) manager. */
  const INITIAL: ManagerState := ManagerState([], 0.0, 3000.0, 10, 1.0)

  /** The bounds `increaseDifficulty` keeps the spawn parameters in. */
  predicate Tuned(m: ManagerState)
  {
    1500.0 <= m.spawnInterval <= 3000.0 && 10 <= m.maxEnemies <= 15
  }

  // ---------------------------------------------------------------------
  // The manager's operations on values.

  /** A draw in [0, 1) scales a non-negative span to at most the span. */
  lemma ScaleBelow(r: Unit, c: real)
    requires c >= 0.0
    ensures 0.0 <= r * c <= c
  {
    assert c - r * c == (1.0 - r) * c;
  }

  /** `100 + r * (width - 200)` lies in [100, width - 100]. */
  lemma SpawnSpan(width: real, r: Unit)
    requires width >= 200.0
    ensures 100.0 <= 100.0 + r * (width - 200.0) <= width - 100.0
  {
    var c := width - 200.0;
    var t := r * c;
    ScaleBelow(r, c);
    assert 100.0 + t <= 100.0 + c;
  }

  /** Where an auto-spawned bubble appears: `100 + random * (width - 200)`,
      100 px down, a 500B by default. */
  function AutoSpawned(width: real, spawnX: Unit, coin: Unit): (s: EnemyState)
    ensures s.kind == B500 && s.y == 100.0 && s.active && !s.isFading
    ensures width >= 200.0 ==> 100.0 <= s.x <= width - 100.0
  {
    if width >= 200.0 then SpawnSpan(width, spawnX); Spawned(B500, 100.0 + spawnX * (width - 200.0), 100.0, None, coin)
    else Spawned(B500, 100.0 + spawnX * (width - 200.0), 100.0, None, coin)
  }

  /** Bubble i of `spawnWave(count)`: x spread evenly from 100, y jittered
      in [80, 130); `jitter(2i)` is its y draw and `jitter(2i + 1)` its
      direction draw. */
  function WaveBubble(i: nat, count: int, width: real, jitter: nat -> Unit): (s: EnemyState)
    requires count > 0
    ensures s.kind == B500 && s.active && !s.isFading && 80.0 <= s.y < 130.0
    ensures s.x == 100.0 + (i as real / count as real) * (width - 200.0)
  {
    Spawned(B500, 100.0 + (i as real / count as real) * (width - 200.0), 80.0 + jitter(2 * i) * 50.0, None, jitter(2 * i + 1))
  }

  /** The bubbles of `spawnWave(count)`; none when count is not positive. */
  function WaveStates(count: int, width: real, jitter: nat -> Unit): (r: seq<EnemyState>)
    ensures |r| == if count > 0 then count else 0
    ensures forall i :: 0 <= i < |r| ==> r[i] == WaveBubble(i, count, width, jitter)
  {
    if count <= 0 then []
    else seq(count, i requires 0 <= i < count => WaveBubble(i, count, width, jitter))
  }

  /** One `update(delta)`: the spawn timer, at most one auto-spawn, then
      every inactive bubble dropped and every active one advanced; bubble
      `k` of the list after the spawn floor-bounces with its own draw
      `bounce(k)`. */
  function UpdateSpec(m: ManagerState, delta: real, spawnX: Unit, coin: Unit, bounce: nat -> Unit,
                      width: real, height: real): (n: ManagerState)
  {
    var spawned := m.spawnTimer + delta >= m.spawnInterval && |m.enemies| < m.maxEnemies;
    var pre := m.enemies + if spawned then [AutoSpawned(width, spawnX, coin)] else [];
    m.(enemies := AdvancedFrom(pre, 0, delta, bounce, width, height),
       spawnTimer := if spawned then 0.0 else m.spawnTimer + delta)
  }

  /** The update loop over `pre`, whose first bubble sits at index `at` of
      the whole list: an inactive bubble is dropped, the bubble at index
      `k` advanced with the draw `bounce(k)`. */
  function AdvancedFrom(pre: seq<EnemyState>, at: nat, delta: real, bounce: nat -> Unit,
                        width: real, height: real): (r: seq<EnemyState>)
    ensures |r| <= |pre|
    decreases |pre|
  {
    if pre == [] then []
    else (if pre[0].active then [Advance(pre[0], delta, bounce(at), width, height)] else [])
         + AdvancedFrom(pre[1..], at + 1, delta, bounce, width, height)
  }

  /** Every bubble the update loop keeps is some active bubble `k` of the
      list advanced with its own draw `bounce(at + k)`. */
  lemma {:induction false} AdvancedOrigin(pre: seq<EnemyState>, at: nat, delta: real, bounce: nat -> Unit,
                                          width: real, height: real, i: nat) returns (k: nat)
    requires i < |AdvancedFrom(pre, at, delta, bounce, width, height)|
    ensures k < |pre| && pre[k].active &&
            AdvancedFrom(pre, at, delta, bounce, width, height)[i] == Advance(pre[k], delta, bounce(at + k), width, height)
    decreases |pre|
  {
    var head := if pre[0].active then [Advance(pre[0], delta, bounce(at), width, height)] else [];
    var rest := AdvancedFrom(pre[1..], at + 1, delta, bounce, width, height);
    assert AdvancedFrom(pre, at, delta, bounce, width, height) == head + rest;
    if i < |head| {
      k := 0;
    } else {
      var k1 := AdvancedOrigin(pre[1..], at + 1, delta, bounce, width, height, i - |head|);
      k := k1 + 1;
    }
  }

  /** An update spawns at most one bubble and never lets the list exceed the
      cap by spawning: under the cap it stays within it, and at or over the
      cap (split pieces and waves are appended without a check) it does not
      grow. Which bubbles are kept is `SurvivorStates`. */
  lemma {:induction false} UpdateBounds(m: ManagerState, delta: real, spawnX: Unit, coin: Unit, bounce: nat -> Unit,
                                        width: real, height: real)
    ensures var n := UpdateSpec(m, delta, spawnX, coin, bounce, width, height);
            (|m.enemies| < m.maxEnemies ==> |n.enemies| <= m.maxEnemies) &&
            (|m.enemies| >= m.maxEnemies ==> |n.enemies| <= |m.enemies|) &&
            |n.enemies| <= |m.enemies| + 1 &&
            (forall e :: e in n.enemies ==> e.kind != Star || e.isFading || exists o :: o in m.enemies && o.kind == Star && !o.isFading)
  {
    var n := UpdateSpec(m, delta, spawnX, coin, bounce, width, height);
    var spawned := m.spawnTimer + delta >= m.spawnInterval && |m.enemies| < m.maxEnemies;
    var pre := m.enemies + if spawned then [AutoSpawned(width, spawnX, coin)] else [];
    forall e | e in n.enemies
      ensures e.kind != Star || e.isFading || exists o :: o in m.enemies && o.kind == Star && !o.isFading
    {
      var i :| 0 <= i < |n.enemies| && n.enemies[i] == e;
      var k := AdvancedOrigin(pre, 0, delta, bounce, width, height, i);
      var o := pre[k];
      if k < |m.enemies| {
        assert o in m.enemies;
      } else {
        assert o == AutoSpawned(width, spawnX, coin);
      }
    }
  }

  function RemoveAt<T>(s: seq<T>, i: nat): (r: seq<T>)
    requires i < |s|
    ensures |r| == |s| - 1
    ensures forall k :: 0 <= k < i ==> r[k] == s[k]
    ensures forall k :: i <= k < |r| ==> r[k] == s[k + 1]
  {
    s[..i] + s[i + 1..]
  }

  /** The bubbles the spawn loop of `handleHit` creates: one per split
      piece, at (x, y), with the piece's horizontal velocity; STARs start
      fading at once. */
  function PieceStates(pieces: seq<SplitPiece>, x: real, y: real): (r: seq<EnemyState>)
    ensures |r| == |pieces|
    ensures forall k :: 0 <= k < |r| ==>
              r[k] == Faded(Spawned(pieces[k].kind, x, y, Some(pieces[k].velocityX), 0.0))
  {
    seq(|pieces|, k requires 0 <= k < |pieces| =>
      Faded(Spawned(pieces[k].kind, x, y, Some(pieces[k].velocityX), 0.0)))
  }

  /** The bubbles a hit on `s` spawns. */
  function SplitStates(s: EnemyState, cos: real -> Wave): (r: seq<EnemyState>)
    ensures |r| == Config(s.kind).splitCount
    ensures forall k :: 0 <= k < |r| ==>
              Some(r[k].kind) == Config(s.kind).splitInto && r[k].active &&
              r[k].x == s.x && r[k].y == s.y && r[k].velocityY == 0.0 &&
              r[k].velocityX == Split(s.kind, cos)[k].velocityX &&
              (r[k].isFading <==> r[k].kind == Star)
  {
    PieceStates(Split(s.kind, cos), s.x, s.y)
  }

  /** `handleHit` on the list of states: the hit bubble is removed and its
      pieces are appended. */
  function HitOutcome(es: seq<EnemyState>, i: nat, cos: real -> Wave): (r: seq<EnemyState>)
    requires i < |es|
    ensures |r| == |es| - 1 + Config(es[i].kind).splitCount
    ensures r[..|es| - 1] == RemoveAt(es, i)
    ensures r[|es| - 1..] == SplitStates(es[i], cos)
  {
    RemoveAt(es, i) + SplitStates(es[i], cos)
  }

  /** Hitting a STAR removes it; hitting any other note grows the list. */
  lemma HitChangesCount(es: seq<EnemyState>, i: nat, cos: real -> Wave)
    requires i < |es|
    ensures es[i].kind == Star ==> |HitOutcome(es, i, cos)| == |es| - 1
    ensures es[i].kind != Star ==> |HitOutcome(es, i, cos)| > |es|
  {
    match es[i].kind {
      case B500 =>
      case B50 =>
      case M5 =>
      case Star =>
    }
  }

  /** `increaseDifficulty()`. */
  function Harder(m: ManagerState): (n: ManagerState)
    ensures Tuned(m) ==> Tuned(n) && n.spawnInterval <= m.spawnInterval && n.maxEnemies >= m.maxEnemies
    ensures n.enemies == m.enemies && n.spawnTimer == m.spawnTimer
  {
    m.(difficulty := m.difficulty + 0.2,
       spawnInterval := Max(1500.0, m.spawnInterval - 100.0),
       maxEnemies := if m.maxEnemies + 1 <= 15 then m.maxEnemies + 1 else 15)
  }

  function HarderTimes(m: ManagerState, k: nat): ManagerState
  {
    if k == 0 then m else Harder(HarderTimes(m, k - 1))
  }

  /** After k difficulty increases from a fresh manager, the spawn interval
      is max(1500, 3000 - 100k), the cap min(15, 10 + k) and the difficulty
      1 + 0.2k: the floors are reached after 15 and 5 increases. */
  lemma {:induction false} DifficultyAfter(k: nat)
    ensures HarderTimes(INITIAL, k).spawnInterval == Max(1500.0, 3000.0 - 100.0 * k as real)
    ensures HarderTimes(INITIAL, k).maxEnemies == if k <= 5 then 10 + k else 15
    ensures HarderTimes(INITIAL, k).difficulty == 1.0 + 0.2 * k as real
  {
    if k > 0 {
      DifficultyAfter(k - 1);
    }
  }

  // ---------------------------------------------------------------------
  // The manager object.

  /** The references kept by the update loop: those whose state is active. */
  function Survivors(refs: seq<Enemy>, states: seq<EnemyState>): (r: seq<Enemy>)
    requires |refs| == |states|
    ensures forall e :: e in r ==> e in refs
  {
    if refs == [] then []
    else (if states[0].active then [refs[0]] else []) + Survivors(refs[1..], states[1..])
  }

  lemma {:induction false} SurvivorsDistinct(refs: seq<Enemy>, states: seq<EnemyState>)
    requires |refs| == |states| && Distinct(refs)
    ensures Distinct(Survivors(refs, states))
  {
    if refs != [] {
      SurvivorsDistinct(refs[1..], states[1..]);
      var rest := Survivors(refs[1..], states[1..]);
      assert refs[0] !in refs[1..];
      assert refs[0] !in rest;
    }
  }

  /** The surviving references hold exactly the advanced states. */
  lemma {:induction false} SurvivorStates(refs: seq<Enemy>, pre: seq<EnemyState>, at: nat, delta: real,
                                          bounce: nat -> Unit, width: real, height: real)
    requires |refs| == |pre|
    requires forall k :: 0 <= k < |refs| && pre[k].active ==>
               refs[k].State() == Advance(pre[k], delta, bounce(at + k), width, height)
    ensures StatesOf(Survivors(refs, pre)) == AdvancedFrom(pre, at, delta, bounce, width, height)
    decreases |refs|
  {
    if refs != [] {
      forall k | 0 <= k < |refs[1..]| && pre[1..][k].active
        ensures refs[1..][k].State() == Advance(pre[1..][k], delta, bounce(at + 1 + k), width, height)
      {
        assert refs[1..][k] == refs[k + 1] && pre[1..][k] == pre[k + 1];
      }
      SurvivorStates(refs[1..], pre[1..], at + 1, delta, bounce, width, height);
      if pre[0].active {
        assert Survivors(refs, pre) == [refs[0]] + Survivors(refs[1..], pre[1..]);
        assert StatesOf([refs[0]] + Survivors(refs[1..], pre[1..]))
            == [refs[0].State()] + StatesOf(Survivors(refs[1..], pre[1..]));
      }
    }
  }

  function IndexOf(es: seq<Enemy>, e: Enemy): (i: int)
    ensures -1 <= i < |es|
    ensures i == -1 <==> e !in es
    ensures 0 <= i ==> es[i] == e
  {
    if es == [] then -1
    else if es[0] == e then 0
    else var j := IndexOf(es[1..], e); if j == -1 then -1 else j + 1
  }

  class EnemyManager {
    const width: real
    const height: real
    var enemies: seq<Enemy>
    var spawnTimer: real
    var spawnInterval: real
    var maxEnemies: int
    var difficulty: real

    ghost predicate Valid()
      reads this
    {
      Distinct(enemies) && 1500.0 <= spawnInterval <= 3000.0 && 10 <= maxEnemies <= 15
    }

    function States(): (r: seq<EnemyState>)
      reads this, enemies
    {
      StatesOf(enemies)
    }

    /** The spawn settings: timer, interval, cap and difficulty. */
    function Settings(): (real, real, int, real)
      reads this
    {
      (spawnTimer, spawnInterval, maxEnemies, difficulty)
    }

    function Model(): (m: ManagerState)
      reads this, enemies
      ensures m.enemies == States()
      ensures (m.spawnTimer, m.spawnInterval, m.maxEnemies, m.difficulty) == Settings()
    {
      ManagerState(StatesOf(enemies), spawnTimer, spawnInterval, maxEnemies, difficulty)
    }

    constructor (width0: real, height0: real)
      ensures Valid() && Model() == INITIAL
      ensures width == width0 && height == height0
    {
      width, height := width0, height0;
      enemies := [];
      spawnTimer := 0.0;
      spawnInterval := 3000.0;
      maxEnemies := 10;
      difficulty := 1.0;
    }

    /** `spawnEnemy(x?, y?, type?, velocityX?)`; `spawnX` is the draw used
        when no x is given, `coin` the direction draw when no velocity is. */
    method SpawnEnemy(x: Option<real>, y: Option<real>, kind: Option<BanknoteType>, velocityX: Option<real>,
                      spawnX: Unit, coin: Unit) returns (e: Enemy)
      requires Valid()
      modifies this
      ensures Valid() && fresh(e)
      ensures enemies == old(enemies) + [e]
      ensures e.State() == Spawned(match kind case Some(k) => k case None => B500,
                                   match x case Some(v) => v case None => 100.0 + spawnX * (width - 200.0),
                                   match y case Some(v) => v case None => 100.0,
                                   velocityX, coin)
      ensures States() == old(States()) + [e.State()]
      ensures Settings() == old(Settings())
    {
      var sx := match x case Some(v) => v case None => 100.0 + spawnX * (width - 200.0);
      var sy := match y case Some(v) => v case None => 100.0;
      var k := match kind case Some(t) => t case None => B500;
      e := new Enemy(sx, sy, k, velocityX, coin);
      DistinctAppend(enemies, e);
      enemies := enemies + [e];
      StatesOfAppend(old(enemies), e);
    }

    /** `spawnWave(count = 3)`. */
    method SpawnWave(jitter: nat -> Unit, count: int := 3)
      requires Valid()
      modifies this
      ensures Valid()
      ensures States() == old(States()) + WaveStates(count, width, jitter)
      ensures Settings() == old(Settings())
      ensures enemies[..|old(enemies)|] == old(enemies)
      ensures forall k :: 0 <= k < |enemies| ==> enemies[k] in old(enemies) || fresh(enemies[k])
    {
      ghost var wave := WaveStates(count, width, jitter);
      var i := 0;
      while i < count
        invariant 0 <= i <= |wave|
        invariant i <= count || count <= 0
        invariant Valid() && Settings() == old(Settings())
        invariant |enemies| == |old(enemies)| + i
        invariant enemies[..|old(enemies)|] == old(enemies)
        invariant States() == old(States()) + wave[..i]
        invariant forall k :: |old(enemies)| <= k < |enemies| ==> fresh(enemies[k])
      {
        var x := 100.0 + (i as real / count as real) * (width - 200.0);
        var e := SpawnEnemy(Some(x), Some(80.0 + jitter(2 * i) * 50.0), None, None, 0.0, jitter(2 * i + 1));
        assert e.State() == wave[i];
        assert wave[..i + 1] == wave[..i] + [wave[i]];
        i := i + 1;
      }
      assert wave[..|wave|] == wave;
    }

    /** `update(delta)`: `spawnX` and `coin` are the draws of an auto-spawn,
        `bounce(k)` the floor-bounce draw of the bubble at index `k`. */
    method Update(delta: real, spawnX: Unit, coin: Unit, bounce: nat -> Unit)
      requires Valid()
      modifies this, enemies
      ensures Valid()
      ensures Model() == UpdateSpec(old(Model()), delta, spawnX, coin, bounce, width, height)
      ensures forall k :: 0 <= k < |enemies| ==> enemies[k] in old(enemies) || fresh(enemies[k])
    {
      ghost var m := Model();
      ghost var spawned := m.spawnTimer + delta >= m.spawnInterval && |m.enemies| < m.maxEnemies;
      spawnTimer := spawnTimer + delta;
      if spawnTimer >= spawnInterval && |enemies| < maxEnemies {
        var e := SpawnEnemy(None, None, None, None, spawnX, coin);
        assert e.State() == AutoSpawned(width, spawnX, coin);
        spawnTimer := 0.0;
      }
      assert States() == m.enemies + if spawned then [AutoSpawned(width, spawnX, coin)] else [];
      AdvanceAll(delta, bounce);
    }

    /** The backward loop of `update`: inactive bubbles are spliced out,
        active ones updated. */
    method AdvanceAll(delta: real, bounce: nat -> Unit)
      requires Valid()
      modifies this, enemies
      ensures Valid() && Settings() == old(Settings())
      ensures States() == AdvancedFrom(old(States()), 0, delta, bounce, width, height)
      ensures forall k :: 0 <= k < |enemies| ==> enemies[k] in old(enemies) || fresh(enemies[k])
    {
      ghost var L := enemies;
      ghost var pre := StatesOf(L);
      assert L[..|L|] == L && pre[|L|..] == [] && L[|L|..] == [];
      var i := |enemies|;
      while i > 0
        invariant 0 <= i <= |L| == |pre| && Distinct(L)
        invariant enemies == L[..i] + Survivors(L[i..], pre[i..])
        invariant Swept(i, L, pre, delta, bounce)
        invariant Settings() == old(Settings())
      {
        i := i - 1;
        AdvanceAt(i, L, pre, delta, bounce);
      }
      assert L[0..] == L && pre[0..] == pre && L[..0] == [];
      assert enemies == Survivors(L, pre);
      SurvivorsDistinct(L, pre);
      SurvivorStates(L, pre, 0, delta, bounce, width, height);
    }

    /** The bubbles of `L` from `i` on hold their advanced states (when
        active), those below `i` their states `pre` before the loop. */
    ghost predicate Swept(i: nat, L: seq<Enemy>, pre: seq<EnemyState>, delta: real, bounce: nat -> Unit)
      requires |L| == |pre|
      reads L
    {
      forall k :: 0 <= k < |L| ==>
        L[k].State() == if i <= k && pre[k].active then Advance(pre[k], delta, bounce(k), width, height) else pre[k]
    }

    /** One iteration of the backward loop of `update`: the bubble at `i`
        is spliced out when inactive and updated otherwise. */
    method AdvanceAt(i: nat, ghost L: seq<Enemy>, ghost pre: seq<EnemyState>, delta: real, bounce: nat -> Unit)
      requires i < |L| == |pre| && Distinct(L)
      requires enemies == L[..i + 1] + Survivors(L[i + 1..], pre[i + 1..])
      requires Swept(i + 1, L, pre, delta, bounce)
      modifies this, L[i]
      ensures enemies == L[..i] + Survivors(L[i..], pre[i..])
      ensures Swept(i, L, pre, delta, bounce)
      ensures Settings() == old(Settings())
    {
      ghost var rest := Survivors(L[i + 1..], pre[i + 1..]);
      SurvivorsStep(L, pre, i);
      var e := enemies[i];
      assert e == L[i] && e.State() == pre[i];
      if !e.active {
        SpliceAt(L[..i], e, rest);
        enemies := enemies[..i] + enemies[i + 1..];
      } else {
        assert enemies == L[..i] + ([e] + rest);
        e.Update(delta, bounce(i), width, height);
      }
    }

    /** `handleHit(enemy)`: removes the bubble if listed, destroys it and
        spawns its split pieces (STARs fading). */
    method HandleHit(e: Enemy, cos: real -> Wave) returns (spawned: seq<Enemy>)
      requires Valid()
      modifies this, e
      ensures Valid() && !e.active && Settings() == old(Settings())
      ensures |spawned| == Config(e.kind).splitCount
      ensures e in old(enemies) ==> States() == HitOutcome(old(States()), IndexOf(old(enemies), e), cos)
      ensures e !in old(enemies) ==> States() == old(States()) + SplitStates(old(e.State()), cos)
      ensures forall k :: 0 <= k < |enemies| ==> enemies[k] in old(enemies) || fresh(enemies[k])
    {
      ghost var before := States();
      ghost var split := SplitStates(e.State(), cos);
      var pieces := Split(e.kind, cos);
      var x, y := e.x, e.y;
      Forget(e);
      ghost var rest := States();
      e.Destroy();
      spawned := SpawnPieces(pieces, x, y);
      assert States() == rest + split;
    }

    /** The removal step of `handleHit`: `indexOf` and `splice`. */
    method Forget(e: Enemy)
      requires Valid()
      modifies this
      ensures Valid() && Settings() == old(Settings()) && e !in enemies
      ensures e in old(enemies) ==> States() == RemoveAt(old(States()), IndexOf(old(enemies), e))
      ensures e !in old(enemies) ==> enemies == old(enemies)
      ensures forall k :: 0 <= k < |enemies| ==> enemies[k] in old(enemies) || fresh(enemies[k])
    {
      var index := IndexOf(enemies, e);
      if index > -1 {
        RemoveDistinct(enemies, index);
        enemies := enemies[..index] + enemies[index + 1..];
      }
    }

    /** The spawn loop of `handleHit`. */
    method SpawnPieces(pieces: seq<SplitPiece>, x: real, y: real) returns (spawned: seq<Enemy>)
      requires Valid()
      modifies this
      ensures Valid() && Settings() == old(Settings())
      ensures |spawned| == |pieces|
      ensures States() == old(States()) + PieceStates(pieces, x, y)
      ensures forall k :: 0 <= k < |enemies| ==> enemies[k] in old(enemies) || fresh(enemies[k])
    {
      ghost var born := PieceStates(pieces, x, y);
      spawned := [];
      var k := 0;
      while k < |pieces|
        invariant 0 <= k <= |pieces| && |spawned| == k
        invariant Valid() && Settings() == old(Settings())
        invariant States() == old(States()) + born[..k]
        invariant forall k :: 0 <= k < |enemies| ==> enemies[k] in old(enemies) || fresh(enemies[k])
      {
        var n := SpawnPiece(pieces[k], x, y);
        assert born[..k + 1] == born[..k] + [born[k]];
        spawned := spawned + [n];
        k := k + 1;
      }
      assert born[..|pieces|] == born;
    }

    /** One pass of the spawn loop: a bubble for `piece`, set fading at
        once when it is a STAR. */
    method SpawnPiece(piece: SplitPiece, x: real, y: real) returns (n: Enemy)
      requires Valid()
      modifies this
      ensures Valid() && Settings() == old(Settings())
      ensures States() == old(States()) + [Faded(Spawned(piece.kind, x, y, Some(piece.velocityX), 0.0))]
      ensures forall k :: 0 <= k < |enemies| ==> enemies[k] in old(enemies) || fresh(enemies[k])
    {
      ghost var prior := enemies;
      n := SpawnEnemy(Some(x), Some(y), Some(piece.kind), Some(piece.velocityX), 0.0, 0.0);
      if piece.kind == Star {
        n.StartFade();
      }
      StatesOfAppend(prior, n);
    }

    function EnemyCount(): (n: nat)
      reads this, enemies
      ensures n == |States()|
    {
      |enemies|
    }

    method IncreaseDifficulty()
      requires Valid()
      modifies this
      ensures Valid() && Model() == Harder(old(Model()))
      ensures enemies == old(enemies)
    {
      difficulty := difficulty + 0.2;
      spawnInterval := Max(1500.0, spawnInterval - 100.0);
      maxEnemies := if maxEnemies + 1 <= 15 then maxEnemies + 1 else 15;
    }

    /** `reset()` (and `destroy()`, which only calls it): every bubble is
        destroyed and the manager returns to its initial settings. */
    method Reset()
      modifies this, enemies
      ensures Valid() && Model() == INITIAL
      ensures forall e :: e in old(enemies) ==> !e.active
    {
      var i := 0;
      while i < |enemies|
        invariant 0 <= i <= |enemies| && enemies == old(enemies)
        invariant forall k :: 0 <= k < i ==> !enemies[k].active
      {
        enemies[i].Destroy();
        i := i + 1;
      }
      enemies := [];
      spawnTimer := 0.0;
      difficulty := 1.0;
      spawnInterval := 3000.0;
      maxEnemies := 10;
    }
  }

  /** In a list without repetitions, `indexOf` finds each element at its
      own position. */
  lemma {:induction false} IndexOfDistinct(es: seq<Enemy>, k: nat)
    requires Distinct(es) && k < |es|
    ensures IndexOf(es, es[k]) == k
  {
    if k > 0 {
      assert es[1..][k - 1] == es[k];
      IndexOfDistinct(es[1..], k - 1);
    }
  }

  lemma DistinctAppend(es: seq<Enemy>, e: Enemy)
    requires Distinct(es) && e !in es
    ensures Distinct(es + [e])
  {
  }

  lemma RemoveDistinct(es: seq<Enemy>, i: nat)
    requires Distinct(es) && i < |es|
    ensures Distinct(es[..i] + es[i + 1..]) && es[i] !in es[..i] + es[i + 1..]
  {
  }

  lemma StatesOfAppend(es: seq<Enemy>, e: Enemy)
    ensures StatesOf(es + [e]) == StatesOf(es) + [e.State()]
  {
    assert (es + [e])[..|es|] == es;
  }

  /** One step of `Survivors` at index `i`. */
  lemma SurvivorsStep(L: seq<Enemy>, pre: seq<EnemyState>, i: nat)
    requires i < |L| == |pre|
    ensures L[..i + 1] == L[..i] + [L[i]]
    ensures Survivors(L[i..], pre[i..]) == (if pre[i].active then [L[i]] else []) + Survivors(L[i + 1..], pre[i + 1..])
  {
    assert L[i..][1..] == L[i + 1..] && pre[i..][1..] == pre[i + 1..];
  }

  lemma SpliceAt<T>(a: seq<T>, x: T, b: seq<T>)
    ensures (a + [x] + b)[..|a|] + (a + [x] + b)[|a| + 1..] == a + b
  {
    assert (a + [x] + b)[..|a|] == a;
    assert (a + [x] + b)[|a| + 1..] == b;
  }
}
