/** The rate bound of one client or one principal: it holds from eviction to eviction. */
module LimiterKeys {
  import opened Text
  import LruLists
  import opened LimiterSpec
  import opened LimiterLimits
  import opened LimiterInv
  import opened LimiterRuns
  import opened LimiterTheorems
  import opened LimiterWindow

  function KeyedOf(l: Limiter, clients: bool): (k: Keyed) { if clients then l.clients else l.principals }

  function SideOf(a: Attempt, clients: bool): (key: Key) { if clients then a.client else a.principal }

  function GrantTo(w: World, t: Timed, clients: bool, key: Key): (n: nat) {
    if t.op.Acquire? && TryAcquire(w.l, t.op.attempt, t.now).grant.Some? && SideOf(t.op.attempt, clients) == key then 1 else 0
  }

  /** The grants of a run from `w` on to one client or principal. */
  function GrantsTo(w: World, run: seq<Timed>, clients: bool, key: Key): (n: nat)
    decreases |run|
  {
    if run == [] then 0
    else
      var less := run[..|run| - 1];
      GrantsTo(w, less, clients, key) + GrantTo(Exec(w, less), run[|run| - 1], clients, key)
  }

  function EvictedBy(w: World, t: Timed, clients: bool, key: Key): (n: nat) {
    if key in KeyedOf(w.l, clients).states && key !in KeyedOf(Step(w, t).l, clients).states then 1 else 0
  }

  /** How often a run from `w` on evicts the entry of `key`. */
  function Evictions(w: World, run: seq<Timed>, clients: bool, key: Key): (n: nat)
    decreases |run|
  {
    if run == [] then 0
    else
      var less := run[..|run| - 1];
      Evictions(w, less, clients, key) + EvictedBy(Exec(w, less), run[|run| - 1], clients, key)
  }

  // ------------------------------------------------------------------- what a step does to a key

  function BucketOf(k: Keyed, key: Key): (b: Option<Bucket>) {
    if key in k.states then Some(k.states[key].bucket) else None
  }

  /** The entry after state: as it was, dropped in favour of another, or new. */
  predicate Touched(b: Option<Bucket>, b': Option<Bucket>) {
    b' == b || b'.None? || (b.None? && b' == Some(EMPTY))
  }

  function Filled(b: Option<Bucket>, now: real, rate: int, burst: int): (r: Option<Bucket>) {
    if b.None? then None else Some(Refill(b.value, now, rate as real, burst as real))
  }

  /** One operation: the entry is touched, which leaves `m`, maybe refilled, and for a grant one token is taken. */
  predicate KeyMoved(b: Option<Bucket>, m: Option<Bucket>, b': Option<Bucket>, now: real, rate: int, burst: int, granted: nat) {
    Touched(b, m) &&
    (if granted == 0 then b' == m || b' == Filled(m, now, rate, burst)
     else granted == 1 && m.Some? && b' == Some(Paid(Filled(m, now, rate, burst).value)))
  }

  function Paid(b: Bucket): (r: Bucket) { b.(tokens := b.tokens - 1.0) }

  lemma TouchKey(k: Keyed, key: Key, other: Key)
    ensures Touched(BucketOf(k, other), BucketOf(Touch(k, key), other))
    ensures SameLimits(k, Touch(k, key))
  {
    if key !in k.states {
      RoomOnlyDrops(k);
      hide MakeRoom;
    }
  }

  lemma ReadyBucket(k: Keyed, key: Key, now: real, other: Key)
    requires !k.Disabled()
    ensures BucketOf(ReadyKey(k, key, now), other) ==
            if other == key then Filled(BucketOf(k, key), now, k.rate, k.burst) else BucketOf(k, other)
  {
    hide Refill;
  }

  lemma TakeBucket(k: Keyed, key: Key, other: Key)
    requires key in k.states
    ensures BucketOf(TakeKey(k, key), other) ==
            if other == key then Some(Paid(k.states[key].bucket)) else BucketOf(k, other)
  {}

  lemma FilledSome(m: Option<Bucket>, now: real, rate: int, burst: int)
    ensures Filled(m, now, rate, burst).Some? <==> m.Some?
  {}

  lemma GiveBucket(k: Keyed, key: Key, other: Key)
    ensures BucketOf(GiveKey(k, key), other) == BucketOf(k, other)
  {}

  /** TryAcquire takes from the two entries it found open, exactly for a grant. */
  lemma AcquireKeyed(l: Limiter, a: Attempt, now: real, clients: bool)
    ensures var m, r := KeyedOf(Admit(l, a, now), clients), TryAcquire(l, a, now);
            && (r.grant.Some? ==> Admitted(Admit(l, a, now), a) && SideOf(a, clients) in m.states)
            && KeyedOf(r.after, clients) == if r.grant.Some? then TakeKey(m, SideOf(a, clients)) else m
  {
    hide Admit, Trusted, CheckTrust, Pool.Ready, Pool.Open, Pool.Take, TakeKey;
  }

  /** Admission touches the entry and refills it, at any rate where everything is open. */
  lemma AdmitKeyed(l: Limiter, a: Attempt, now: real, clients: bool)
    ensures var m, t := KeyedOf(Admit(l, a, now), clients), Touch(KeyedOf(l, clients), SideOf(a, clients));
            && (m == t || m == ReadyKey(t, SideOf(a, clients), now))
            && (Admitted(Admit(l, a, now), a) ==> m == ReadyKey(t, SideOf(a, clients), now))
  {
    hide Touch, ReadyKey, OpenKey;
  }

  lemma AcquireMoves(l: Limiter, a: Attempt, now: real, clients: bool, key: Key)
    requires Enabled(KeyedOf(l, clients))
    ensures var k, r := KeyedOf(l, clients), TryAcquire(l, a, now);
            KeyMoved(BucketOf(k, key), BucketOf(Touch(k, SideOf(a, clients)), key), BucketOf(KeyedOf(r.after, clients), key), now,
                     k.rate, k.burst, if r.grant.Some? && SideOf(a, clients) == key then 1 else 0)
  {
    hide TryAcquire, Admit, Admitted, Touch, ReadyKey, TakeKey, Filled, Touched;
    var k, side := KeyedOf(l, clients), SideOf(a, clients);
    AcquireKeyed(l, a, now, clients);
    AdmitKeyed(l, a, now, clients);
    TouchKey(k, side, key);
    ReadyBucket(Touch(k, side), side, now, key);
    FilledSome(BucketOf(Touch(k, side), key), now, k.rate, k.burst);
    if TryAcquire(l, a, now).grant.Some? { TakeBucket(KeyedOf(Admit(l, a, now), clients), side, key); }
  }

  lemma StepMovesKey(w: World, t: Timed, clients: bool, key: Key) returns (m: Option<Bucket>)
    requires Enabled(KeyedOf(w.l, clients))
    ensures var k := KeyedOf(w.l, clients);
            KeyMoved(BucketOf(k, key), m, BucketOf(KeyedOf(Step(w, t).l, clients), key), t.now, k.rate, k.burst,
                     GrantTo(w, t, clients, key))
    ensures m.None? <==> BucketOf(KeyedOf(Step(w, t).l, clients), key).None?
    ensures m == BucketOf(if t.op.Acquire? then Touch(KeyedOf(w.l, clients), SideOf(t.op.attempt, clients)) else KeyedOf(w.l, clients), key)
  {
    var k := KeyedOf(w.l, clients);
    if t.op.Acquire? {
      m := BucketOf(Touch(k, SideOf(t.op.attempt, clients)), key);
      hide TryAcquire, Touch, Touched;
      AcquireMoves(w.l, t.op.attempt, t.now, clients, key);
    } else {
      m := BucketOf(k, key);
      hide TryAcquire, AllowKey, RefundKey, MarkKey, Allowed, GiveKey, BucketOf;
      if t.op.Finish? && 0 <= t.op.index < |w.grants| {
        GiveBucket(k, Side(w.grants[t.op.index], clients), key);
      }
    }
  }

  // -------------------------------------------------------------------------------- the bound

  function Bursts(count: nat, burst: int): (tokens: real) { (count * burst) as real }

  lemma OneMoreBurst(count: nat, burst: int)
    requires burst >= 0
    ensures Bursts(count + 1, burst) == Bursts(count, burst) + burst as real
    ensures Bursts(count, burst) >= 0.0
  {
    assert (count + 1) * burst == count * burst + burst;
  }

  /** Between `s` and `now` a key spends a burst for every entry it had, and what it gained. */
  predicate SpentKey(b: Option<Bucket>, s: real, now: real, rate: int, burst: int, count: nat, evicted: nat) {
    if b.None? || b.value.last.None? then count as real <= Bursts(evicted, burst) + Gained(now - s, rate as real)
    else count == 0 ||
         (b.value.last.value >= s
          && count as real + b.value.tokens <= Bursts(evicted + 1, burst) + Gained(b.value.last.value - s, rate as real))
  }

  /** Tokens are within the burst and the entry's clock is not ahead. */
  predicate BucketAt(b: Option<Bucket>, now: real, burst: int) {
    b.Some? ==> BucketOk(b.value, burst) && (b.value.last.Some? ==> b.value.last.value <= now)
  }

  lemma TouchSpent(b: Option<Bucket>, m: Option<Bucket>, s: real, before: real, now: real, rate: int, burst: int, count: nat, evicted: nat)
    requires Touched(b, m) && SpentKey(b, s, before, rate, burst, count, evicted) && BucketAt(b, now, burst)
    requires s <= before <= now && rate >= 0 && burst >= 0
    ensures SpentKey(m, s, now, rate, burst, count, evicted + if b.Some? && m.None? then 1 else 0)
    ensures BucketAt(m, now, burst)
  {
    GainGrows(before - s, now - s, rate as real);
    GainIsPositive(now - s, rate as real);
    OneMoreBurst(evicted, burst);
    if b.Some? && b.value.last.Some? && b.value.last.value >= s { GainGrows(b.value.last.value - s, now - s, rate as real); }
    hide Gained, Bursts;
  }

  lemma FillSpent(m: Option<Bucket>, s: real, now: real, rate: int, burst: int, count: nat, evicted: nat)
    requires SpentKey(m, s, now, rate, burst, count, evicted) && BucketAt(m, now, burst) && s <= now && rate >= 0 && burst >= 0
    ensures var r := Filled(m, now, rate, burst);
            && SpentKey(r, s, now, rate, burst, count, evicted) && BucketAt(r, now, burst)
            && (r.Some? ==> r.value.last == Some(now))
  {
    OneMoreBurst(evicted, burst);
    if m.Some? {
      RefillOk(m.value, now, rate, burst);
      if m.value.last.Some? {
        var last := m.value.last.value;
        GainAdds(last - s, now - last, rate as real);
        assert last - s + (now - last) == now - s;
      }
    }
    hide Gained, Bursts;
  }

  lemma PaySpent(b: Bucket, s: real, now: real, rate: int, burst: int, count: nat, evicted: nat)
    requires SpentKey(Some(b), s, now, rate, burst, count, evicted) && BucketAt(Some(b), now, burst)
    requires b.last == Some(now) && s <= now && rate >= 0 && burst >= 0
    ensures SpentKey(Some(Paid(b)), s, now, rate, burst, count + 1, evicted)
  {
    OneMoreBurst(evicted, burst);
    GainIsPositive(now - s, rate as real);
    hide Gained, Bursts;
  }

  lemma MoveSpentKey(b: Option<Bucket>, m: Option<Bucket>, b': Option<Bucket>, s: real, before: real, now: real, rate: int, burst: int,
                     count: nat, evicted: nat, granted: nat)
    requires KeyMoved(b, m, b', now, rate, burst, granted) && SpentKey(b, s, before, rate, burst, count, evicted)
    requires BucketAt(b, now, burst) && s <= before <= now && rate >= 0 && burst >= 0
    ensures SpentKey(b', s, now, rate, burst, count + granted, evicted + if b.Some? && m.None? then 1 else 0)
  {
    hide SpentKey, Touched, Filled, Paid, BucketAt;
    var gone := if b.Some? && m.None? then 1 else 0;
    TouchSpent(b, m, s, before, now, rate, burst, count, evicted);
    FillSpent(m, s, now, rate, burst, count, evicted + gone);
    if granted == 1 {
      FilledSome(m, now, rate, burst);
      PaySpent(Filled(m, now, rate, burst).value, s, now, rate, burst, count, evicted + gone);
    }
  }

  // ------------------------------------------------------------------------------------ runs

  function KeyRate(n: Limits, clients: bool): (rate: int) { if clients then n.clientRate else n.principalRate }

  function KeyBurst(n: Limits, clients: bool): (burst: int) { if clients then n.clientBurst else n.principalBurst }

  lemma KeyedInv(limits: Limits, run: seq<Timed>, clients: bool, key: Key)
    ensures var n := NormalizeLimits(limits); var k := KeyedOf(Exec(Init(limits), run).l, clients);
            && Enabled(k) && k.rate == KeyRate(n, clients) && k.burst == KeyBurst(n, clients) && k.maxEntries == n.maxKeys
            && (key in k.states ==> BucketOk(k.states[key].bucket, k.burst))
  {
    ReachableInv(limits, run);
    hide Exec, Init, NormalizeLimits, PoolOk, TrustOk, IngressOk, LruLists.Lists, Tallies;
  }

  lemma MoveKeyClock(b: Option<Bucket>, m: Option<Bucket>, b': Option<Bucket>, now: real, rate: int, burst: int, granted: nat)
    requires KeyMoved(b, m, b', now, rate, burst, granted) && (b.Some? && b.value.last.Some? ==> b.value.last.value <= now)
    ensures b'.Some? && b'.value.last.Some? ==> b'.value.last.value <= now
  {
    hide Gained;
  }

  /** The clock of an entry never runs ahead of the operations. */
  lemma {:induction false} KeyClock(limits: Limits, run: seq<Timed>, now: real, clients: bool, key: Key)
    requires Monotone(run) && forall i :: 0 <= i < |run| ==> run[i].now <= now
    ensures BucketAt(BucketOf(KeyedOf(Exec(Init(limits), run).l, clients), key), now, KeyBurst(NormalizeLimits(limits), clients))
    decreases |run|
  {
    KeyedInv(limits, run, clients, key);
    if run == [] {
      NoEntries(limits, clients);
    } else {
      var before, t := run[..|run| - 1], run[|run| - 1];
      KeyClock(limits, before, t.now, clients, key);
      KeyedInv(limits, before, clients, key);
      hide Step, Init, NormalizeLimits, KeyMoved, Monotone;
      var w := Exec(Init(limits), before);
      var k := KeyedOf(w.l, clients);
      var m := StepMovesKey(w, t, clients, key);
      MoveKeyClock(BucketOf(k, key), m, BucketOf(KeyedOf(Step(w, t).l, clients), key), t.now, k.rate, k.burst, GrantTo(w, t, clients, key));
    }
  }

  lemma NoEntries(limits: Limits, clients: bool)
    ensures KeyedOf(Exec(Init(limits), []).l, clients).states == map[]
  {
    hide NormalizeLimits;
  }

  lemma {:induction false} WindowSpentKey(limits: Limits, before: seq<Timed>, window: seq<Timed>, s: real, now: real, clients: bool, key: Key)
    requires Monotone(before + window) && s <= now && forall i :: 0 <= i < |window| ==> s <= window[i].now <= now
    ensures var w := Exec(Init(limits), before); var n := NormalizeLimits(limits);
            SpentKey(BucketOf(KeyedOf(Exec(Init(limits), before + window).l, clients), key), s, now, KeyRate(n, clients), KeyBurst(n, clients),
                     GrantsTo(w, window, clients, key), Evictions(w, window, clients, key))
    decreases |window|
  {
    hide Step, Init, SpentKey, KeyMoved, NormalizeLimits, GrantTo, BucketAt;
    var w, n := Exec(Init(limits), before), NormalizeLimits(limits);
    KeyedInv(limits, before, clients, key);
    if window == [] {
      assert before + window == before;
      NothingSpentKey(BucketOf(KeyedOf(w.l, clients), key), s, now, KeyRate(n, clients), KeyBurst(n, clients));
    } else {
      var less, t := window[..|window| - 1], window[|window| - 1];
      var run := before + less;
      LessIsMonotone(before, window, less, t);
      forall i | 0 <= i < |less| ensures s <= less[i].now <= t.now { assert run[|before| + i] == less[i]; }
      hide Monotone;
      WindowSpentKey(limits, before, less, s, t.now, clients, key);
      JoinRuns(Init(limits), before, less);
      KeyClock(limits, run, t.now, clients, key);
      KeyedInv(limits, run, clients, key);
      KeyStep(Exec(Init(limits), run), t, s, now, clients, key, KeyRate(n, clients), KeyBurst(n, clients),
              GrantsTo(w, less, clients, key), Evictions(w, less, clients, key));
    }
  }

  lemma NothingSpentKey(b: Option<Bucket>, s: real, now: real, rate: int, burst: int)
    requires s <= now && rate >= 0 && burst >= 0
    ensures SpentKey(b, s, now, rate, burst, 0, 0)
  {
    GainIsPositive(now - s, rate as real);
    hide Gained;
  }

  lemma KeyStep(w: World, t: Timed, s: real, now: real, clients: bool, key: Key, rate: int, burst: int, count: nat, evicted: nat)
    requires var k := KeyedOf(w.l, clients); Enabled(k) && k.rate == rate && k.burst == burst
    requires var b := BucketOf(KeyedOf(w.l, clients), key);
             SpentKey(b, s, t.now, rate, burst, count, evicted) && BucketAt(b, t.now, burst) && s <= t.now <= now
    ensures SpentKey(BucketOf(KeyedOf(Step(w, t).l, clients), key), s, now, rate, burst,
                     count + GrantTo(w, t, clients, key), evicted + EvictedBy(w, t, clients, key))
  {
    hide Step, KeyMoved, SpentKey, BucketAt, GrantTo;
    var b, b' := BucketOf(KeyedOf(w.l, clients), key), BucketOf(KeyedOf(Step(w, t).l, clients), key);
    var m := StepMovesKey(w, t, clients, key);
    MoveSpentKey(b, m, b', s, t.now, t.now, rate, burst, count, evicted, GrantTo(w, t, clients, key));
    LaterSpent(b', s, t.now, now, rate, burst, count + GrantTo(w, t, clients, key), evicted + EvictedBy(w, t, clients, key));
  }

  lemma LaterSpent(b: Option<Bucket>, s: real, now: real, later: real, rate: int, burst: int, count: nat, evicted: nat)
    requires SpentKey(b, s, now, rate, burst, count, evicted) && s <= now <= later && rate >= 0
    ensures SpentKey(b, s, later, rate, burst, count, evicted)
  {
    GainGrows(now - s, later - s, rate as real);
    hide Gained, Bursts;
  }

  /** In any stretch of time of length `d`, after any history, one client or principal gets at most
      its rate times `d` and one burst for every entry it has in that time: one, and one more
      whenever its entry is evicted. */
  lemma KeyWindow(limits: Limits, before: seq<Timed>, window: seq<Timed>, s: real, d: real, clients: bool, key: Key)
    requires Monotone(before + window) && d >= 0.0
    requires forall i :: 0 <= i < |window| ==> s <= window[i].now <= s + d
    ensures var w := Exec(Init(limits), before); var n := NormalizeLimits(limits);
            GrantsTo(w, window, clients, key) as real <=
            ((1 + Evictions(w, window, clients, key)) * KeyBurst(n, clients)) as real + KeyRate(n, clients) as real * d
  {
    var w, n := Exec(Init(limits), before), NormalizeLimits(limits);
    hide Exec, Init, NormalizeLimits, GrantsTo, Evictions, Gained, Bursts;
    KeyedInv(limits, before, clients, key);
    if window == [] {
      NoGrantTo(w, clients, key);
      SpentInAll(None, s, d, KeyRate(n, clients), KeyBurst(n, clients), 0, 0);
    } else {
      var run := before + window;
      forall i | 0 <= i < |run| ensures run[i].now <= s + d { assert run[|run| - 1] == window[|window| - 1]; }
      hide Monotone;
      WindowSpentKey(limits, before, window, s, s + d, clients, key);
      KeyClock(limits, run, s + d, clients, key);
      SpentInAll(BucketOf(KeyedOf(Exec(Init(limits), run).l, clients), key), s, d, KeyRate(n, clients), KeyBurst(n, clients),
                 GrantsTo(w, window, clients, key), Evictions(w, window, clients, key));
    }
  }

  lemma SpentInAll(b: Option<Bucket>, s: real, d: real, rate: int, burst: int, count: nat, evicted: nat)
    requires SpentKey(b, s, s + d, rate, burst, count, evicted) || count == 0
    requires BucketAt(b, s + d, burst) && d >= 0.0 && rate >= 0 && burst >= 0
    ensures count as real <= ((1 + evicted) * burst) as real + rate as real * d
  {
    OneMoreBurst(evicted, burst);
    GainIsPositive(d, rate as real);
    assert Gained(d, rate as real) == rate as real * d;
    assert Bursts(evicted + 1, burst) == ((1 + evicted) * burst) as real;
    assert s + d - s == d;
    if b.Some? && b.value.last.Some? && b.value.last.value >= s { GainGrows(b.value.last.value - s, d, rate as real); }
    hide Gained, Bursts;
  }

  lemma NoGrantTo(w: World, clients: bool, key: Key)
    ensures GrantsTo(w, [], clients, key) == 0 && Evictions(w, [], clients, key) == 0
  {}

  // -------------------------------------------------------------------------- few keys stay

  /** The clients or principals that a run names. */
  function Seen(run: seq<Timed>, clients: bool): (keys: set<Key>)
    decreases |run|
  {
    if run == [] then {}
    else
      var t := run[|run| - 1];
      Seen(run[..|run| - 1], clients) + if t.op.Acquire? then {SideOf(t.op.attempt, clients)} else {}
  }

  lemma {:induction false} SeenPrefix(a: seq<Timed>, b: seq<Timed>, clients: bool)
    ensures Seen(a, clients) <= Seen(a + b, clients)
    decreases |b|
  {
    if b == [] {
      assert a + b == a;
    } else {
      SeenPrefix(a, b[..|b| - 1], clients);
      assert (a + b)[..|a + b| - 1] == a + b[..|b| - 1];
    }
  }

  lemma TouchOnly(k: Keyed, key: Key, other: Key)
    ensures other in Touch(k, key).states ==> other in k.states || other == key
    ensures (key in k.states || |k.states| < k.maxEntries) && other in k.states ==> other in Touch(k, key).states
  {
    if key !in k.states {
      RoomOnlyDrops(k);
    }
  }

  /** Only keys that were named have entries. */
  lemma {:induction false} EntriesAreSeen(limits: Limits, run: seq<Timed>, clients: bool)
    ensures KeyedOf(Exec(Init(limits), run).l, clients).states.Keys <= Seen(run, clients)
    decreases |run|
  {
    if run == [] {
      NoEntries(limits, clients);
    } else {
      var less, t := run[..|run| - 1], run[|run| - 1];
      var w := Exec(Init(limits), less);
      EntriesAreSeen(limits, less, clients);
      hide Step, Init, KeyMoved, Touch;
      forall key | key in KeyedOf(Step(w, t).l, clients).states ensures key in Seen(run, clients) {
        KeyedInv(limits, less, clients, key);
        var m := StepMovesKey(w, t, clients, key);
        if t.op.Acquire? { TouchOnly(KeyedOf(w.l, clients), SideOf(t.op.attempt, clients), key); }
      }
    }
  }

  lemma FewerEntries(states: map<Key, Entry>, key: Key, keys: set<Key>)
    requires states.Keys <= keys && key in keys && key !in states
    ensures |states| < |keys|
  {
    assert |states.Keys| == |states|;
    SubsetSize(states.Keys, keys - {key});
  }

  lemma {:induction false} SubsetSize(a: set<Key>, b: set<Key>)
    requires a <= b
    ensures |a| <= |b|
    decreases a
  {
    if a != {} {
      var x :| x in a;
      SubsetSize(a - {x}, b - {x});
    }
  }

  lemma NoEviction(limits: Limits, run: seq<Timed>, t: Timed, clients: bool, key: Key)
    requires |Seen(run + [t], clients)| <= NormalizeLimits(limits).maxKeys
    ensures EvictedBy(Exec(Init(limits), run), t, clients, key) == 0
  {
    var w := Exec(Init(limits), run);
    var k := KeyedOf(w.l, clients);
    EntriesAreSeen(limits, run, clients);
    KeyedInv(limits, run, clients, key);
    assert (run + [t])[..|run|] == run;
    hide Step, Init, KeyMoved, Touch, NormalizeLimits, Exec;
    var m := StepMovesKey(w, t, clients, key);
    if t.op.Acquire? {
      var side := SideOf(t.op.attempt, clients);
      if side !in k.states { FewerEntries(k.states, side, Seen(run + [t], clients)); }
      TouchOnly(k, side, key);
    }
  }

  /** A run that never names more clients or principals than the limiter keeps evicts none of them. */
  lemma {:induction false} FewKeysStay(limits: Limits, before: seq<Timed>, window: seq<Timed>, clients: bool, key: Key)
    requires |Seen(before + window, clients)| <= NormalizeLimits(limits).maxKeys
    ensures Evictions(Exec(Init(limits), before), window, clients, key) == 0
    decreases |window|
  {
    hide Step, Init, NormalizeLimits, EvictedBy, Seen;
    if window != [] {
      var less, t := window[..|window| - 1], window[|window| - 1];
      assert before + window == before + less + [t];
      SeenPrefix(before + less, [t], clients);
      SubsetSize(Seen(before + less, clients), Seen(before + window, clients));
      FewKeysStay(limits, before, less, clients, key);
      JoinRuns(Init(limits), before, less);
      NoEviction(limits, before + less, t, clients, key);
    }
  }

  /** Where the run names at most maxKeys of them, every client and principal keeps to its own rate. */
  lemma FewKeysBound(limits: Limits, before: seq<Timed>, window: seq<Timed>, s: real, d: real, clients: bool, key: Key)
    requires Monotone(before + window) && d >= 0.0
    requires forall i :: 0 <= i < |window| ==> s <= window[i].now <= s + d
    requires |Seen(before + window, clients)| <= NormalizeLimits(limits).maxKeys
    ensures var n := NormalizeLimits(limits);
            GrantsTo(Exec(Init(limits), before), window, clients, key) as real <= KeyBurst(n, clients) as real + KeyRate(n, clients) as real * d
    ensures KeyBurst(limits, clients) >= 1 && KeyRate(limits, clients) >= 1 ==>
              GrantsTo(Exec(Init(limits), before), window, clients, key) as real <=
              KeyBurst(limits, clients) as real + KeyRate(limits, clients) as real * d
  {
    LimitsAreKept(limits);
    hide Exec, Init, NormalizeLimits, GrantsTo, Evictions, Seen, Monotone;
    KeyWindow(limits, before, window, s, d, clients, key);
    FewKeysStay(limits, before, window, clients, key);
  }
}
