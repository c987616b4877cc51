/** Shared vocabulary of the simulation model: optional values, random draws,
    countdown timers, the distance parameter that replaces `Math.sqrt`, the
    backward prune loop every update uses, and the `takeDamage` shape all
    archetypes share. */
module Common {

  datatype Option<T> = None | Some(value: T)

  /** One draw of `Math.random()`: a real in [0, 1). */
  type Unit = r: real | 0.0 <= r < 1.0

  /** A sine or cosine value computed outside the model. */
  type Wave = r: real | -1.0 <= r <= 1.0

  function Min(a: real, b: real): (m: real)
    ensures m <= a && m <= b && (m == a || m == b)
  {
    if a <= b then a else b
  }

  function Max(a: real, b: real): (m: real)
    ensures m >= a && m >= b && (m == a || m == b)
  {
    if a >= b then a else b
  }

  function Abs(a: real): (m: real)
    ensures m >= 0.0 && (m == a || m == -a)
  {
    if a < 0.0 then -a else a
  }

  /** `Math.sign`. */
  function Sign(a: real): (s: real)
    ensures s * a == Abs(a)
    ensures s == 0.0 <==> a == 0.0
  {
    if a > 0.0 then 1.0 else if a < 0.0 then -1.0 else 0.0
  }

  /** The countdown most archetypes use: `if (c > 0) c -= delta`. */
  function CountDown(c: real, delta: real): (r: real)
    ensures c <= 0.0 ==> r == c
    ensures c > 0.0 ==> r == c - delta
    ensures delta >= 0.0 ==> r <= c
    ensures delta >= 0.0 && c > 0.0 ==> r > -delta
  {
    if c > 0.0 then c - delta else c
  }

  /** The clamped countdown of the bosses: `Math.max(0, c - delta)`. */
  function ClampedCountDown(c: real, delta: real): (r: real)
    ensures r >= 0.0
    ensures delta >= 0.0 && c >= 0.0 ==> r <= c
    ensures r == 0.0 <==> c - delta <= 0.0
  {
    Max(0.0, c - delta)
  }

  /** `dist` is the Euclidean length of (dx, dy): the value the source
      obtains from `Math.sqrt(dx * dx + dy * dy)`. */
  predicate IsDistance(dist: real, dx: real, dy: real)
  {
    dist >= 0.0 && dist * dist == dx * dx + dy * dy
  }

  /** A point moved `step` along the unit vector (dx, dy) / dist:
      `x += (dx / dist) * step; y += (dy / dist) * step`. */
  datatype Point = Point(x: real, y: real)

  function StepAlong(x: real, y: real, dx: real, dy: real, dist: real, step: real): (p: Point)
    requires dist > 0.0
  {
    Point(x + (dx / dist) * step, y + (dy / dist) * step)
  }

  /** Moving `step` toward a target at distance `dist` leaves it at
      distance |dist - step|; a negative step (a retreat) adds to it. */
  lemma StepAlongDistance(x: real, y: real, tx: real, ty: real, dist: real, step: real)
    requires dist > 0.0 && IsDistance(dist, tx - x, ty - y)
    ensures var p := StepAlong(x, y, tx - x, ty - y, dist, step);
            IsDistance(Abs(dist - step), tx - p.x, ty - p.y)
  {
    var dx, dy := tx - x, ty - y;
    var k := 1.0 - step / dist;
    var p := StepAlong(x, y, dx, dy, dist, step);
    assert tx - p.x == dx * k;
    assert ty - p.y == dy * k;
    calc {
      (tx - p.x) * (tx - p.x) + (ty - p.y) * (ty - p.y);
      (dx * dx + dy * dy) * (k * k);
      (dist * dist) * (k * k);
      (dist * k) * (dist * k);
      { assert dist * k == dist - step; }
      (dist - step) * (dist - step);
      Abs(dist - step) * Abs(dist - step);
    }
  }

  // ---------------------------------------------------------------------
  // Filtering with an in-place update, as the backward `splice` loops do.

  /** Keep the elements `f` maps to `Some`, replaced by what it maps them to,
      in their original order. */
  function FilterMap<T>(s: seq<T>, f: T -> Option<T>): (r: seq<T>)
    ensures |r| <= |s|
  {
    if s == [] then []
    else (match f(s[0]) case Some(v) => [v] case None => []) + FilterMap(s[1..], f)
  }

  /** The pure filter as a FilterMap step. */
  function Keep<T>(p: T -> bool): T -> Option<T>
  {
    x => if p(x) then Some(x) else None
  }

  lemma {:induction false} FilterMapAppend<T>(a: seq<T>, b: seq<T>, f: T -> Option<T>)
    ensures FilterMap(a + b, f) == FilterMap(a, f) + FilterMap(b, f)
  {
    if a == [] {
      assert a + b == b;
    } else {
      assert (a + b)[0] == a[0];
      assert (a + b)[1..] == a[1..] + b;
      FilterMapAppend(a[1..], b, f);
    }
  }

  /** Every element of a FilterMap result comes from some input element. */
  lemma {:induction false} FilterMapOrigin<T>(s: seq<T>, f: T -> Option<T>, x: T) returns (o: T)
    requires x in FilterMap(s, f)
    ensures o in s && f(o) == Some(x)
  {
    if f(s[0]) == Some(x) {
      o := s[0];
    } else {
      match f(s[0]) {
        case None =>
        case Some(v) =>
          assert FilterMap(s, f) == [v] + FilterMap(s[1..], f);
      }
      o := FilterMapOrigin(s[1..], f, x);
    }
  }

  /** A filter keeps exactly the elements satisfying its predicate. */
  lemma {:induction false} KeepExactly<T>(s: seq<T>, p: T -> bool, x: T)
    ensures x in FilterMap(s, Keep(p)) <==> x in s && p(x)
  {
    if s != [] {
      KeepExactly(s[1..], p, x);
      assert s == [s[0]] + s[1..];
    }
  }

  /** Survivors keep their relative order: `a` can be obtained from `b` by
      deleting elements. */
  ghost predicate IsSubsequence<T>(a: seq<T>, b: seq<T>)
    decreases |b|
  {
    a == [] ||
    (b != [] && ((a[0] == b[0] && IsSubsequence(a[1..], b[1..])) || IsSubsequence(a, b[1..])))
  }

  lemma {:induction false} KeepIsSubsequence<T>(s: seq<T>, p: T -> bool)
    ensures IsSubsequence(FilterMap(s, Keep(p)), s)
  {
    if s != [] {
      KeepIsSubsequence(s[1..], p);
      var r := FilterMap(s[1..], Keep(p));
      if p(s[0]) {
        assert FilterMap(s, Keep(p)) == [s[0]] + r;
        assert ([s[0]] + r)[1..] == r;
      } else {
        assert FilterMap(s, Keep(p)) == r;
      }
    }
  }

  /** The reverse loop `for (i = s.length - 1; i >= 0; i--)` that replaces
      `s[i]` by its updated value or splices it out. */
  method PruneBackward<T>(s: seq<T>, f: T -> Option<T>) returns (r: seq<T>)
    ensures r == FilterMap(s, f)
  {
    r := s;
    var i := |s|;
    while i > 0
      invariant 0 <= i <= |s|
      invariant r == s[..i] + FilterMap(s[i..], f)
    {
      i := i - 1;
      assert s[i..] == [s[i]] + s[i + 1..];
      assert s[..i + 1] == s[..i] + [s[i]];
      match f(r[i]) {
        case None =>
          r := r[..i] + r[i + 1..];
        case Some(v) =>
          r := r[..i] + [v] + r[i + 1..];
      }
    }
    assert s[0..] == s;
  }

  // ---------------------------------------------------------------------
  // A timer callback that switches off the spawned body it was made for.

  /** The callback for the body numbered `id` fires: that body becomes
      `off` of itself, every other body of the list is left as it was. */
  function Retire<T>(s: seq<T>, id: nat, idOf: T -> nat, off: T -> T): (r: seq<T>)
    ensures |r| == |s|
    ensures forall i :: 0 <= i < |r| && idOf(s[i]) != id ==> r[i] == s[i]
    ensures forall i :: 0 <= i < |r| && idOf(s[i]) == id ==> r[i] == off(s[i])
  {
    seq(|s|, i requires 0 <= i < |s| => if idOf(s[i]) == id then off(s[i]) else s[i])
  }

  /** When switching off keeps the number and is itself idempotent, a
      callback that fires twice does no more than one that fires once. */
  lemma RetireIdempotent<T>(s: seq<T>, id: nat, idOf: T -> nat, off: T -> T)
    requires forall x :: idOf(off(x)) == idOf(x) && off(off(x)) == off(x)
    ensures Retire(Retire(s, id, idOf, off), id, idOf, off) == Retire(s, id, idOf, off)
  {
    var once := Retire(s, id, idOf, off);
    var twice := Retire(once, id, idOf, off);
    forall i | 0 <= i < |s|
      ensures twice[i] == once[i]
    {
      if idOf(s[i]) == id {
        assert idOf(once[i]) == id;
      } else {
        assert idOf(once[i]) != id;
      }
    }
  }

  // ---------------------------------------------------------------------
  // The `takeDamage` shape: `health -= amount; return health <= 0`.

  /** One `takeDamage(amount)`: the new health and the returned flag. */
  function Hit(h: real, amount: real): (r: (real, bool))
  {
    (h - amount, h - amount <= 0.0)
  }

  /** What a sequence of `takeDamage(amounts[k])` calls returns, starting
      from health `h`. */
  function HitResults(h: real, amounts: seq<real>): (r: seq<bool>)
    decreases |amounts|
    ensures |r| == |amounts|
  {
    if amounts == [] then []
    else var (h1, dead) := Hit(h, amounts[0]); [dead] + HitResults(h1, amounts[1..])
  }

  /** Health after a sequence of hits: the starting value less their sum;
      the last call reports death exactly when that is not positive. */
  lemma {:induction false} HitsAccumulate(h: real, amounts: seq<real>)
    decreases |amounts|
    requires amounts != []
    ensures HitResults(h, amounts)[|amounts| - 1] <==> h - SumOf(amounts) <= 0.0
  {
    if |amounts| > 1 {
      HitsAccumulate(h - amounts[0], amounts[1..]);
      SumOfCons(amounts);
    } else {
      SumOfCons(amounts);
    }
  }

  /** With non-negative damage, death is final: once a call reports it,
      every later call reports it again. */
  lemma {:induction false} DeathIsFinal(h: real, amounts: seq<real>, i: nat, j: nat)
    decreases |amounts|
    requires forall k :: 0 <= k < |amounts| ==> amounts[k] >= 0.0
    requires i <= j < |amounts| && HitResults(h, amounts)[i]
    ensures HitResults(h, amounts)[j]
  {
    if i > 0 {
      DeathIsFinal(h - amounts[0], amounts[1..], i - 1, j - 1);
    } else if j > 0 {
      StaysDead(h - amounts[0], amounts[1..], j - 1);
    }
  }

  lemma {:induction false} StaysDead(h: real, amounts: seq<real>, j: nat)
    decreases |amounts|
    requires h <= 0.0 && j < |amounts|
    requires forall k :: 0 <= k < |amounts| ==> amounts[k] >= 0.0
    ensures HitResults(h, amounts)[j]
  {
    if j > 0 {
      StaysDead(h - amounts[0], amounts[1..], j - 1);
    }
  }

  // ---------------------------------------------------------------------
  // Cooldowns over several frames.

  function SumOf(s: seq<real>): real
  {
    if s == [] then 0.0 else s[0] + SumOf(s[1..])
  }

  lemma SumOfCons(s: seq<real>)
    requires s != []
    ensures SumOf(s) == s[0] + SumOf(s[1..])
  {
  }

  /** A countdown timer after one frame per entry of `deltas`. */
  function CountDownRun(c: real, deltas: seq<real>): real
    decreases |deltas|
  {
    if deltas == [] then c else CountDownRun(CountDown(c, deltas[0]), deltas[1..])
  }

  /** A cooldown reset to `c` keeps its action locked out until frames
      adding up to `c` have passed: while the elapsed time is below `c`,
      the timer is exactly `c` less the elapsed time, hence positive. */
  lemma {:induction false} CooldownSpacing(c: real, deltas: seq<real>)
    decreases |deltas|
    requires forall k :: 0 <= k < |deltas| ==> deltas[k] >= 0.0
    requires SumOf(deltas) < c
    ensures CountDownRun(c, deltas) == c - SumOf(deltas) > 0.0
  {
    if deltas != [] {
      NonNegativeSum(deltas[1..]);
      CooldownSpacing(c - deltas[0], deltas[1..]);
    }
  }

  lemma {:induction false} NonNegativeSum(s: seq<real>)
    decreases |s|
    requires forall k :: 0 <= k < |s| ==> s[k] >= 0.0
    ensures SumOf(s) >= 0.0
  {
    if s != [] {
      NonNegativeSum(s[1..]);
    }
  }

  /** The clamped timer of the bosses after one frame per entry of `deltas`. */
  function ClampedRun(c: real, deltas: seq<real>): real
    decreases |deltas|
  {
    if deltas == [] then c else ClampedRun(ClampedCountDown(c, deltas[0]), deltas[1..])
  }

  /** With non-negative frame times the clamped timer is the reset value
      less the elapsed time, floored at zero. */
  lemma {:induction false} ClampedRunValue(c: real, deltas: seq<real>)
    decreases |deltas|
    requires c >= 0.0
    requires forall k :: 0 <= k < |deltas| ==> deltas[k] >= 0.0
    ensures ClampedRun(c, deltas) == Max(0.0, c - SumOf(deltas))
  {
    if deltas != [] {
      ClampedRunValue(ClampedCountDown(c, deltas[0]), deltas[1..]);
      NonNegativeSum(deltas[1..]);
    }
  }

  // ---------------------------------------------------------------------
  // The shooters' interval timer: `timer += delta; if (timer >= period &&
  // ready) { timer = 0; fire(); }`.

  /** One frame of the timer: the new timer and whether a shot is fired. */
  function Interval(timer: real, delta: real, period: real, ready: bool): (r: (real, bool))
    ensures r.1 <==> timer + delta >= period && ready
    ensures r.1 ==> r.0 == 0.0
    ensures !r.1 ==> r.0 == timer + delta
  {
    if timer + delta >= period && ready then (0.0, true) else (timer + delta, false)
  }

  /** The timer after one frame per entry of `deltas`, `ready[k]` saying
      whether frame `k` allows a shot, and the number of shots fired. */
  function IntervalRun(timer: real, deltas: seq<real>, period: real, ready: seq<bool>): (r: (real, nat))
    requires |ready| == |deltas|
    decreases |deltas|
  {
    if deltas == [] then (timer, 0)
    else
      var (t, fired) := Interval(timer, deltas[0], period, ready[0]);
      var (t2, n) := IntervalRun(t, deltas[1..], period, ready[1..]);
      (t2, n + (if fired then 1 else 0))
  }

  /** Shots cost time: every shot uses up a full period of the elapsed
      time, and what the timer holds at the end is time not yet spent, so
      `n` shots need at least `n * period` ms beyond the starting timer. */
  lemma {:induction false} ShotsNeedTime(timer: real, deltas: seq<real>, period: real, ready: seq<bool>)
    requires |ready| == |deltas|
    decreases |deltas|
    ensures var (t, n) := IntervalRun(timer, deltas, period, ready);
            (n as real) * period + t <= timer + SumOf(deltas)
  {
    if deltas != [] {
      var (t, fired) := Interval(timer, deltas[0], period, ready[0]);
      ShotsNeedTime(t, deltas[1..], period, ready[1..]);
      var (t2, n) := IntervalRun(t, deltas[1..], period, ready[1..]);
      assert ((n + 1) as real) * period == (n as real) * period + period;
    }
  }

  /** From a non-negative timer and non-negative frames, the timer never
      goes negative. */
  lemma {:induction false} IntervalRunNonNegative(timer: real, deltas: seq<real>, period: real, ready: seq<bool>)
    requires |ready| == |deltas| && timer >= 0.0
    requires forall k :: 0 <= k < |deltas| ==> deltas[k] >= 0.0
    decreases |deltas|
    ensures IntervalRun(timer, deltas, period, ready).0 >= 0.0
  {
    if deltas != [] {
      var (t, fired) := Interval(timer, deltas[0], period, ready[0]);
      IntervalRunNonNegative(t, deltas[1..], period, ready[1..]);
    }
  }

  /** A shooter whose timer starts at zero fires at most once per full
      period of elapsed time: `n` shots take at least `n * period` ms. */
  lemma ShotBudget(deltas: seq<real>, period: real, ready: seq<bool>)
    requires |ready| == |deltas|
    requires forall k :: 0 <= k < |deltas| ==> deltas[k] >= 0.0
    ensures (IntervalRun(0.0, deltas, period, ready).1 as real) * period <= SumOf(deltas)
  {
    ShotsNeedTime(0.0, deltas, period, ready);
    IntervalRunNonNegative(0.0, deltas, period, ready);
  }
}
