/** The rate bound: what both pools together can grant in a stretch of time. */
module LimiterWindow {
  import opened Text
  import opened LimiterSpec
  import opened LimiterLimits
  import opened LimiterInv
  import opened LimiterRuns
  import opened LimiterTheorems

  /** How many grants a run makes from `w` on, from one of the pools. */
  function Granted(w: World, run: seq<Timed>, reserved: bool): (n: nat)
    decreases |run|
  {
    if run == [] then 0
    else
      var before := Exec(w, run[..|run| - 1]);
      var t := run[|run| - 1];
      Granted(w, run[..|run| - 1], reserved) + GrantOf(before, t, reserved)
  }

  function GrantOf(w: World, t: Timed, reserved: bool): (n: nat) {
    if t.op.Acquire? then
      var g := TryAcquire(w.l, t.op.attempt, t.now).grant;
      if g.Some? && g.value.reserved == reserved then 1 else 0
    else 0
  }

  predicate Monotone(run: seq<Timed>) {
    forall i, j :: 0 <= i < j < |run| ==> run[i].now <= run[j].now
  }

  function PoolOf(l: Limiter, reserved: bool): (p: Pool) { if reserved then l.reserved else l.shared }

  /** Tokens are only spent, since time `s`, out of the burst and what was gained since then. */
  predicate Spent(p: Pool, s: real, count: int) {
    && p.bucket.tokens <= p.burst as real
    && (count == 0 ||
        (p.bucket.last.Some? && p.bucket.last.value >= s
         && count as real + p.bucket.tokens <= p.burst as real + Gained(p.bucket.last.value - s, p.rate as real)))
  }

  predicate NotAfter(p: Pool, now: real) { p.bucket.last.Some? ==> p.bucket.last.value <= now }

  lemma GainAdds(a: real, b: real, rate: real)
    ensures Gained(a, rate) + Gained(b, rate) == Gained(a + b, rate)
  {}

  lemma ReadySpent(p: Pool, s: real, count: int, now: real)
    requires Spent(p, s, count) && NotAfter(p, now) && s <= now && p.rate >= 0
    ensures Spent(p.Ready(now), s, count) && NotAfter(p.Ready(now), now)
    ensures !p.Disabled() ==> p.Ready(now).bucket.last == Some(now)
  {
    if !p.Disabled() && p.bucket.last.Some? {
      var last := p.bucket.last.value;
      GainAdds(last - s, now - last, p.rate as real);
      assert last - s + (now - last) == now - s;
    }
    hide Gained;
  }

  lemma TakeSpent(p: Pool, s: real, count: int, now: real)
    requires Spent(p, s, count) && p.bucket.last == Some(now) && s <= now && count >= 0 && p.rate >= 0
    ensures Spent(p.Take(), s, count + 1)
  {
    GainIsPositive(now - s, p.rate as real);
    hide Gained;
  }

  /** What one operation does to a pool: nothing, a look at it, a grant or a release. */
  predicate PoolMoved(p: Pool, p': Pool, now: real, granted: nat) {
    || (granted == 0 && (p' == p || p' == p.Ready(now) || p' == p.Give()))
    || (granted == 1 && p.Ready(now).Open() && p' == p.Ready(now).Take())
  }

  lemma StepMovesPool(w: World, t: Timed, reserved: bool)
    ensures PoolMoved(PoolOf(w.l, reserved), PoolOf(Step(w, t).l, reserved), t.now, GrantOf(w, t, reserved))
  {
    if t.op.Acquire? {
      AdmitFrame(w.l, t.op.attempt, t.now);
      hide Admit, TakeKey, OpenKey, CheckTrust, Refill;
    } else {
      hide AllowKey, RefundKey, MarkKey, Allowed, GiveKey;
    }
  }

  lemma MoveSpent(p: Pool, p': Pool, s: real, count: int, now: real, granted: nat)
    requires PoolMoved(p, p', now, granted) && Spent(p, s, count) && NotAfter(p, now) && s <= now && p.rate >= 0 && count >= 0
    ensures Spent(p', s, count + granted) && NotAfter(p', now)
  {
    ReadySpent(p, s, count, now);
    if granted == 1 { TakeSpent(p.Ready(now), s, count, now); }
    hide Gained, Refill;
  }

  /** The clock of a pool never runs ahead of the operations. */
  lemma {:induction false} ClockOk(limits: Limits, run: seq<Timed>, now: real, reserved: bool)
    requires Monotone(run) && forall i :: 0 <= i < |run| ==> run[i].now <= now
    ensures NotAfter(PoolOf(Exec(Init(limits), run).l, reserved), now)
    decreases |run|
  {
    hide Step, Refill;
    if run == [] {
      assert Exec(Init(limits), run) == Init(limits);
    } else {
      var before, t := run[..|run| - 1], run[|run| - 1];
      ClockOk(limits, before, t.now, reserved);
      StepMovesPool(Exec(Init(limits), before), t, reserved);
      MoveClock(PoolOf(Exec(Init(limits), before).l, reserved), PoolOf(Exec(Init(limits), run).l, reserved), t.now,
                GrantOf(Exec(Init(limits), before), t, reserved));
    }
  }

  lemma MoveClock(p: Pool, p': Pool, now: real, granted: nat)
    requires PoolMoved(p, p', now, granted) && NotAfter(p, now)
    ensures NotAfter(p', now)
  {
    hide Gained;
  }

  lemma JoinRuns(w: World, a: seq<Timed>, b: seq<Timed>)
    ensures Exec(w, a + b) == Exec(Exec(w, a), b)
    decreases |b|
  {
    hide Step;
    if b == [] {
      assert a + b == a;
    } else {
      JoinRuns(w, a, b[..|b| - 1]);
      assert (a + b)[..|a + b| - 1] == a + b[..|b| - 1];
    }
  }

  lemma PoolsKeepLimits(limits: Limits, run: seq<Timed>, reserved: bool)
    ensures var p := PoolOf(Exec(Init(limits), run).l, reserved);
            p.rate >= 0 && p.burst >= 0 && 0.0 <= p.bucket.tokens <= p.burst as real
  {
    ReachableInv(limits, run);
    hide Exec, Init, KeyedOk, TrustOk, IngressOk, NormalizeLimits;
  }

  lemma {:induction false} WindowSpent(limits: Limits, before: seq<Timed>, window: seq<Timed>, s: real, reserved: bool)
    requires Monotone(before + window) && forall i :: 0 <= i < |window| ==> s <= window[i].now
    ensures Spent(PoolOf(Exec(Init(limits), before + window).l, reserved), s,
                  Granted(Exec(Init(limits), before), window, reserved))
    decreases |window|
  {
    hide Step, Init, Gained, Spent, PoolMoved;
    var w := Exec(Init(limits), before);
    if window == [] {
      assert before + window == before;
      PoolsKeepLimits(limits, before, reserved);
      NothingSpent(PoolOf(w.l, reserved), s);
    } else {
      var less, t := window[..|window| - 1], window[|window| - 1];
      var run := before + less;
      LessIsMonotone(before, window, less, t);
      hide Monotone;
      WindowSpent(limits, before, less, s, reserved);
      JoinRuns(Init(limits), before, less);
      ClockOk(limits, run, t.now, reserved);
      var u := Exec(Init(limits), run);
      StepMovesPool(u, t, reserved);
      PoolsKeepLimits(limits, run, reserved);
      MoveSpent(PoolOf(u.l, reserved), PoolOf(Step(u, t).l, reserved), s, Granted(w, less, reserved), t.now, GrantOf(u, t, reserved));
    }
  }

  lemma LessIsMonotone(before: seq<Timed>, window: seq<Timed>, less: seq<Timed>, t: Timed)
    requires Monotone(before + window) && window != [] && less == window[..|window| - 1] && t == window[|window| - 1]
    ensures (before + window)[..|before + window| - 1] == before + less && (before + window)[|before + less|] == t
    ensures Monotone(before + less) && forall i :: 0 <= i < |before + less| ==> (before + less)[i].now <= t.now
  {
    var all, run := before + window, before + less;
    assert all[..|all| - 1] == run && all[|run|] == t;
    forall i | 0 <= i < |run| ensures run[i] == all[i] {}
  }

  lemma NothingSpent(p: Pool, s: real)
    requires p.bucket.tokens <= p.burst as real
    ensures Spent(p, s, 0)
  {}

  lemma GainGrows(a: real, b: real, rate: real)
    requires a <= b && rate >= 0.0
    ensures Gained(a, rate) <= Gained(b, rate)
  {
    GainIsPositive(b - a, rate);
    GainAdds(a, b - a, rate);
    assert a + (b - a) == b;
  }

  lemma PoolBound(limits: Limits, before: seq<Timed>, window: seq<Timed>, s: real, d: real, reserved: bool)
    requires Monotone(before + window) && d >= 0.0
    requires forall i :: 0 <= i < |window| ==> s <= window[i].now <= s + d
    ensures var p := PoolOf(Exec(Init(limits), before + window).l, reserved);
            Granted(Exec(Init(limits), before), window, reserved) as real <= p.burst as real + Gained(d, p.rate as real)
  {
    hide Exec, Init, Gained, Granted;
    var run := before + window;
    WindowSpent(limits, before, window, s, reserved);
    PoolsKeepLimits(limits, run, reserved);
    var p := PoolOf(Exec(Init(limits), run).l, reserved);
    GainIsPositive(d, p.rate as real);
    if window != [] {
      var end := window[|window| - 1].now;
      forall i | 0 <= i < |run| ensures run[i].now <= end { assert run[|run| - 1] == window[|window| - 1]; }
      ClockOk(limits, run, end, reserved);
      if p.bucket.last.Some? { GainGrows(p.bucket.last.value - s, d, p.rate as real); }
    } else {
      assert Granted(Exec(Init(limits), before), window, reserved) == 0 by { NoGrant(Exec(Init(limits), before), reserved); }
    }
  }

  lemma NoGrant(w: World, reserved: bool)
    ensures Granted(w, [], reserved) == 0
  {}

  lemma BothPools(limits: Limits, before: seq<Timed>, window: seq<Timed>, s: real, d: real)
    requires Monotone(before + window) && d >= 0.0
    requires forall i :: 0 <= i < |window| ==> s <= window[i].now <= s + d
    ensures var w := Exec(Init(limits), before); var n := NormalizeLimits(limits);
            (Granted(w, window, false) + Granted(w, window, true)) as real <= n.burst as real + n.rate as real * d
  {
    hide Exec, Init, Gained, Granted, NormalizeLimits, Monotone;
    PoolBound(limits, before, window, s, d, false);
    PoolBound(limits, before, window, s, d, true);
    PoolsSplitLimits(limits, before + window);
    var l := Exec(Init(limits), before + window).l;
    GainOfBoth(d, l.shared.rate, l.reserved.rate);
  }

  /** In any stretch of time of length `d`, after any history, the shared and the reserved pool
      together grant at most Burst + RatePerSecond * d, for the configured limits. */
  lemma WindowBound(limits: Limits, before: seq<Timed>, window: seq<Timed>, s: real, d: real)
    requires Monotone(before + window) && d >= 0.0
    requires forall i :: 0 <= i < |window| ==> s <= window[i].now <= s + d
    ensures var w := Exec(Init(limits), before);
            (Granted(w, window, false) + Granted(w, window, true)) as real <= Or1(limits.burst) as real + Or1(limits.rate) as real * d
  {
    LimitsAreKept(limits);
    hide Exec, Init, Granted, NormalizeLimits, Monotone, Or1;
    BothPools(limits, before, window, s, d);
  }

  /** The reserve alone grants at most its own burst and rate, however many credentials are trusted. */
  lemma ReserveBound(limits: Limits, before: seq<Timed>, window: seq<Timed>, s: real, d: real)
    requires Monotone(before + window) && d >= 0.0
    requires forall i :: 0 <= i < |window| ==> s <= window[i].now <= s + d
    ensures var w := Exec(Init(limits), before); var n := NormalizeLimits(limits);
            Granted(w, window, true) as real <= n.reservedBurst as real + n.reservedRate as real * d
  {
    hide Exec, Init, Gained, Granted, NormalizeLimits, Monotone;
    PoolBound(limits, before, window, s, d, true);
    PoolsSplitLimits(limits, before + window);
    GainOfOne(d, NormalizeLimits(limits).reservedRate);
  }

  lemma GainOfOne(d: real, a: int)
    ensures Gained(d, a as real) == a as real * d
  {}

  lemma PoolsSplitLimits(limits: Limits, run: seq<Timed>)
    ensures var l := Exec(Init(limits), run).l; var n := NormalizeLimits(limits);
            && l.shared.burst + l.reserved.burst == n.burst && l.shared.rate + l.reserved.rate == n.rate
            && l.reserved.burst == n.reservedBurst && l.reserved.rate == n.reservedRate
  {
    ReachableInv(limits, run);
    hide Exec, Init, NormalizeLimits, KeyedOk, TrustOk, IngressOk, PoolOk;
  }

  lemma GainOfBoth(d: real, a: int, b: int)
    ensures Gained(d, a as real) + Gained(d, b as real) == (a + b) as real * d
  {
    assert (a + b) as real == a as real + b as real;
  }
}
