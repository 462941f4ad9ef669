/** Runs of the limiter: any operations in any order, each at its own time. */
module LimiterRuns {
  import opened Text
  import opened LimiterSpec
  import opened Sizes
  import opened LruLists
  import opened LimiterInv

  datatype Op =
    | AllowIngress(client: Key)
    | RefundIngress(client: Key)
    | Acquire(attempt: Attempt)
    | Finish(index: int)          // the release function of an outstanding grant, once
    | MarkAuthenticated(attempt: Attempt)

  datatype Timed = Timed(op: Op, now: real)

  /** The limiter, its outstanding grants, when each credential was last marked, and how many
      ingress admissions each client has not got back. */
  datatype World = World(l: Limiter, grants: seq<Grant>, marks: map<Key, real>, owed: map<Key, int>)

  function Owed(owed: map<Key, int>, key: Key): (n: int) { if key in owed then owed[key] else 0 }

  function Step(w: World, t: Timed): (r: World) {
    match t.op
    case AllowIngress(client) =>
      w.(l := w.l.(ingress := AllowKey(w.l.ingress, client, t.now)),
         owed := if Allowed(w.l.ingress, client, t.now) then w.owed[client := Owed(w.owed, client) + 1] else w.owed)
    case RefundIngress(client) =>
      w.(l := w.l.(ingress := RefundKey(w.l.ingress, client, t.now)),
         owed := if Owed(w.owed, client) > 0 then w.owed[client := Owed(w.owed, client) - 1] else w.owed)
    case Acquire(attempt) =>
      var r := TryAcquire(w.l, attempt, t.now);
      w.(l := r.after, grants := if r.grant.Some? then w.grants + [r.grant.value] else w.grants)
    case Finish(index) =>
      if 0 <= index < |w.grants|
      then w.(l := Release(w.l, w.grants[index]), grants := w.grants[..index] + w.grants[index + 1..])
      else w
    case MarkAuthenticated(attempt) =>
      w.(l := w.l.(trust := MarkKey(w.l.trust, attempt.credential, t.now)), marks := w.marks[attempt.credential := t.now])
  }

  function Init(limits: Limits): (w: World) { World(NewLimiter(limits), [], map[], map[]) }

  function Exec(w: World, run: seq<Timed>): (r: World)
    decreases |run|
  {
    if run == [] then w else Step(Exec(w, run[..|run| - 1]), run[|run| - 1])
  }

  // ------------------------------------------------------------------------- the invariant

  predicate HasLimits(k: Keyed, maxEntries: int, maxConcurrent: int, rate: int, burst: int) {
    k.maxEntries == maxEntries && k.maxConcurrent == maxConcurrent && k.rate == rate && k.burst == burst
  }

  /** The pools split the totals of the normalized limits, and every list has the configured size. */
  predicate Configured(l: Limiter, n: Limits) {
    && l.shared.max + l.reserved.max == n.maxConcurrent && l.reserved.max == n.reservedConcurrent
    && l.shared.rate + l.reserved.rate == n.rate && l.reserved.rate == n.reservedRate
    && l.shared.burst + l.reserved.burst == n.burst && l.reserved.burst == n.reservedBurst
    && l.shared.max >= 1 && l.shared.rate >= 1 && l.shared.burst >= 1
    && HasLimits(l.clients, n.maxKeys, n.clientConcurrent, n.clientRate, n.clientBurst)
    && HasLimits(l.principals, n.maxKeys, n.principalConcurrent, n.principalRate, n.principalBurst)
    && HasLimits(l.ingress, n.maxKeys, 1, n.ingressRate, n.ingressBurst)
    && l.trust.ttl == n.trustedTtl && l.trust.maxKeys == n.maxKeys >= 1
  }

  /** A trusted credential expires its lifetime after it was last marked. */
  ghost predicate TrustOk(t: Trust, marks: map<Key, real>) {
    && Lists(t.lru, t.expires.Keys) && |t.expires| <= t.maxKeys
    && Expiries(t.expires, marks, t.ttl)
  }

  ghost predicate Expiries(expires: map<Key, real>, marks: map<Key, real>, ttl: real) {
    forall c :: c in expires ==> c in marks && expires[c] == marks[c] + ttl
  }

  lemma MarkExpiries(expires: map<Key, real>, marks: map<Key, real>, ttl: real, key: Key, now: real)
    requires Expiries(expires, marks, ttl)
    ensures Expiries(expires[key := now + ttl], marks[key := now], ttl)
  {}

  /** A client's ingress tokens lack no more than it has not got back. */
  ghost predicate IngressOk(states: map<Key, Entry>, burst: int, owed: map<Key, int>) {
    && (forall key :: key in owed ==> owed[key] >= 0)
    && forall key :: key in states ==>
         states[key].bucket.last.Some? && states[key].bucket.tokens >= (burst - Owed(owed, key)) as real
  }

  ghost predicate PoolsOk(l: Limiter, grants: seq<Grant>) {
    PoolOk(l.shared, grants, false) && PoolOk(l.reserved, grants, true)
  }

  ghost predicate Inv(w: World, n: Limits) {
    && Configured(w.l, n) && PoolsOk(w.l, w.grants)
    && KeyedOk(w.l.clients, w.grants, true) && KeyedOk(w.l.principals, w.grants, false)
    && KeyedOk(w.l.ingress, [], true) && IngressOk(w.l.ingress.states, w.l.ingress.burst, w.owed)
    && TrustOk(w.l.trust, w.marks)
  }

  // ----------------------------------------------------------------------------- the steps

  lemma InitOk(limits: Limits)
    ensures Inv(Init(limits), NormalizeLimits(limits))
  {
    hide NormalizeReserve;
  }

  lemma ReadyPool(p: Pool, now: real, grants: seq<Grant>, reserved: bool)
    requires PoolOk(p, grants, reserved)
    ensures PoolOk(p.Ready(now), grants, reserved)
  {
    hide CountPool, Refill;
    RefillOk(p.bucket, now, p.rate, p.burst);
  }

  lemma TakePool(p: Pool, grants: seq<Grant>, g: Grant, other: Pool)
    requires PoolOk(p, grants, g.reserved) && p.Open() && PoolOk(other, grants, !g.reserved)
    ensures PoolOk(p.Take(), grants + [g], g.reserved) && PoolOk(other, grants + [g], !g.reserved)
  {
    CountPoolSplit(grants, g, [], g.reserved);
    CountPoolSplit(grants, g, [], !g.reserved);
    assert grants + [g] + [] == grants + [g] && grants + [] == grants;
    hide CountPool;
  }

  lemma GivePool(p: Pool, a: seq<Grant>, g: Grant, b: seq<Grant>, other: Pool)
    requires PoolOk(p, a + [g] + b, g.reserved) && PoolOk(other, a + [g] + b, !g.reserved)
    ensures PoolOk(p.Give(), a + b, g.reserved) && PoolOk(other, a + b, !g.reserved)
  {
    CountPoolSplit(a, g, b, g.reserved);
    CountPoolSplit(a, g, b, !g.reserved);
    hide CountPool;
  }

  // ------------------------------------------------------------------ trusted credentials

  lemma {:induction false} DropOldestKeeps(t: Trust, marks: map<Key, real>)
    requires TrustOk(t, marks)
    ensures TrustOk(DropOldest(t), marks) && DropOldest(t).expires.Keys <= t.expires.Keys
    ensures t.maxKeys >= 1 ==> |DropOldest(t).expires| < t.maxKeys
    decreases |t.lru|
  {
    if |t.expires| >= t.maxKeys && t.lru != [] {
      var last := |t.lru| - 1;
      var victim := t.lru[last];
      RemoveAt(t.lru, last, t.expires.Keys);
      assert t.lru[..last] + t.lru[last + 1..] == t.lru[..last];
      SizeRemove(t.expires, victim);
      assert (t.expires - {victim}).Keys == t.expires.Keys - {victim};
      hide Lists;
      DropOldestKeeps(t.(expires := t.expires - {victim}, lru := t.lru[..last]), marks);
    } else if t.lru == [] {
      assert t.expires.Keys == {};
      assert |t.expires.Keys| == |t.expires|;
    }
  }

  lemma MarkKeeps(t: Trust, key: Key, now: real, marks: map<Key, real>)
    requires TrustOk(t, marks) && t.maxKeys >= 1
    ensures TrustOk(MarkKey(t, key, now), marks[key := now])
  {
    if key in t.expires { MarkAgain(t, key, now, marks); } else { MarkNew(t, key, now, marks); }
  }

  lemma MarkAgain(t: Trust, key: Key, now: real, marks: map<Key, real>)
    requires TrustOk(t, marks) && key in t.expires
    ensures TrustOk(MarkKey(t, key, now), marks[key := now])
  {
    hide Lists, DropOldest, Expiries, Without;
    MoveToFront(t.lru, key, t.expires.Keys);
    MarkExpiries(t.expires, marks, t.ttl, key, now);
    Put(t.expires, key, now + t.ttl);
    assert t.expires.Keys + {key} == t.expires.Keys;
  }

  lemma MarkNew(t: Trust, key: Key, now: real, marks: map<Key, real>)
    requires TrustOk(t, marks) && t.maxKeys >= 1 && key !in t.expires
    ensures TrustOk(MarkKey(t, key, now), marks[key := now])
  {
    hide Lists, DropOldest, Expiries;
    DropOldestKeeps(t, marks);
    var e := DropOldest(t);
    PushFront(e.lru, key, e.expires.Keys);
    MarkExpiries(e.expires, marks, e.ttl, key, now);
    Put(e.expires, key, now + e.ttl);
  }

  lemma Put(m: map<Key, real>, key: Key, v: real)
    ensures m[key := v].Keys == m.Keys + {key}
    ensures |m[key := v]| == |m| + if key in m then 0 else 1
  {
    SizeUpdate(m, key, v);
  }

  lemma CheckKeeps(t: Trust, key: Key, now: real, marks: map<Key, real>)
    requires TrustOk(t, marks)
    ensures TrustOk(CheckTrust(t, key, now), marks)
  {
    hide Lists, Without;
    if key in t.expires {
      if now > t.expires[key] {
        RemoveKey(t.lru, key, t.expires.Keys);
        SizeRemove(t.expires, key);
        assert (t.expires - {key}).Keys == t.expires.Keys - {key};
      } else {
        MoveToFront(t.lru, key, t.expires.Keys);
      }
    }
  }

  // ------------------------------------------------------------------------------- ingress

  /** Without grants no entry is busy, so there is always room; ingress entries are of this kind. */
  lemma {:induction false} IdleMakesRoom(k: Keyed, clients: bool)
    requires KeyedOk(k, [], clients)
    ensures |MakeRoom(k).states| < k.maxEntries
    decreases |k.states|
  {
    RoomKeeps(k, [], clients);
    if |k.states| >= k.maxEntries {
      var v := LastIdle(k.lru, k.states);
      assert |k.states.Keys| == |k.states|;
      assert k.states.Keys != {};
      var some :| some in k.states.Keys;
      assert some in k.lru && k.states[some].inFlight == 0;
      SizeRemove(k.states, k.lru[v]);
      DropKeeps(k, v, [], clients);
      IdleMakesRoom(k.(states := k.states - {k.lru[v]}, lru := k.lru[..v] + k.lru[v + 1..]), clients);
    }
  }

  predicate Part(some: map<Key, Entry>, all: map<Key, Entry>) {
    forall key :: key in some ==> key in all && some[key] == all[key]
  }

  lemma {:induction false} RoomOnlyDrops(k: Keyed)
    ensures Part(MakeRoom(k).states, k.states)
    decreases |k.states|
  {
    var v := LastIdle(k.lru, k.states);
    if |k.states| >= k.maxEntries && v >= 0 {
      SizeRemove(k.states, k.lru[v]);
      var less := k.(states := k.states - {k.lru[v]}, lru := k.lru[..v] + k.lru[v + 1..]);
      RoomOnlyDrops(less);
      assert MakeRoom(k) == MakeRoom(less);
      hide MakeRoom;
    }
  }

  /** Without grants, after touching an entry it is there, as it was or new, and the others are as they were. */
  lemma TouchIdle(k: Keyed, key: Key, clients: bool)
    requires KeyedOk(k, [], clients)
    ensures var t := Touch(k, key);
            && KeyedOk(t, [], clients) && SameLimits(k, t) && key in t.states
            && t.states[key] == (if key in k.states then k.states[key] else Entry(0, EMPTY))
            && forall x :: x in t.states && x != key ==> x in k.states && t.states[x] == k.states[x]
  {
    TouchKeeps(k, key, [], clients);
    if key !in k.states {
      IdleMakesRoom(k, clients);
      RoomOnlyDrops(k);
    }
    hide KeyedOk, MakeRoom;
  }

  /** The refilled tokens of a touched client cover what it has not got back. */
  lemma RefilledCovers(b: Bucket, now: real, rate: int, burst: int, owed: int)
    requires rate >= 0 && owed >= 0
    requires b.last.Some? ==> b.tokens >= (burst - owed) as real
    ensures var r := Refill(b, now, rate as real, burst as real);
            r.last.Some? && r.tokens >= (burst - owed) as real
  {
    if b.last.Some? && now > b.last.value { GainIsPositive(now - b.last.value, rate as real); }
    hide Gained;
  }

  /** One client's entry and debt change, the others stay or go. */
  lemma IngressPut(before: map<Key, Entry>, after: map<Key, Entry>, burst: int, owed: map<Key, int>, owed': map<Key, int>,
                   key: Key, e: Entry)
    requires IngressOk(before, burst, owed)
    requires forall x :: x in after && x != key ==> x in before && after[x] == before[x]
    requires owed' == owed || (key in owed' && owed'[key] >= 0 && owed' == owed[key := owed'[key]])
    requires e.bucket.last.Some? && e.bucket.tokens >= (burst - Owed(owed', key)) as real
    ensures IngressOk(after[key := e], burst, owed')
  {}

  /** Taking a token and giving the slot back at once leaves no grant behind. */
  lemma TakeAndGive(k: Keyed, key: Key)
    requires KeyedOk(k, [], true) && OpenKey(k, key)
    ensures KeyedOk(GiveKey(TakeKey(k, key), key), [], true)
  {
    var g := Grant(key, key, false);
    TakeKeeps(k, [], g, true);
    assert [] + [g] == [g] && [] + [g] + [] == [g];
    hide KeyedOk, TakeKey;
    GiveKeeps(TakeKey(k, key), [], g, [], true);
    var none: seq<Grant> := [];
    assert none + none == none;
  }

  lemma AllowKeepsEntries(k: Keyed, key: Key, now: real)
    requires KeyedOk(k, [], true)
    ensures KeyedOk(AllowKey(k, key, now), [], true) && SameLimits(k, AllowKey(k, key, now))
  {
    hide KeyedOk, Touch, OpenKey, Refill;
    TouchIdle(k, key, true);
    ReadyKeeps(Touch(k, key), key, now, [], true);
    var ready := ReadyKey(Touch(k, key), key, now);
    if OpenKey(ready, key) { TakeAndGive(ready, key); }
  }

  /** What allow leaves of a touched, idle entry. */
  lemma AllowResult(k: Keyed, key: Key, now: real)
    requires var t := Touch(k, key); key in t.states && !t.Disabled() && t.states[key].inFlight == 0
    ensures var t := Touch(k, key);
            var b := Refill(t.states[key].bucket, now, t.rate as real, t.burst as real);
            var r := AllowKey(k, key, now);
            && (Allowed(k, key, now) <==> b.tokens >= 1.0) && r.burst == t.burst
            && r.states == t.states[key := Entry(0, b.(tokens := if b.tokens >= 1.0 then b.tokens - 1.0 else b.tokens))]
  {
    hide Touch, Refill;
  }

  lemma AllowKeeps(k: Keyed, key: Key, now: real, owed: map<Key, int>)
    requires KeyedOk(k, [], true) && k.maxConcurrent == 1 && IngressOk(k.states, k.burst, owed)
    ensures var r := AllowKey(k, key, now);
            IngressOk(r.states, r.burst, if Allowed(k, key, now) then owed[key := Owed(owed, key) + 1] else owed)
    ensures Owed(owed, key) < k.burst ==> Allowed(k, key, now)
  {
    hide Lists, Tallies, Touch, Refill, Buckets, AllowKey, Allowed;
    TouchIdle(k, key, true);
    var t := Touch(k, key);
    RefilledCovers(t.states[key].bucket, now, t.rate, t.burst, Owed(owed, key));
    Idle(t.states, t.maxConcurrent, key, true);
    AllowResult(k, key, now);
    AllowDebt(k, key, now, owed);
  }

  lemma AllowDebt(k: Keyed, key: Key, now: real, owed: map<Key, int>)
    requires IngressOk(k.states, k.burst, owed)
    requires var t := Touch(k, key);
             && key in t.states && !t.Disabled() && t.states[key].inFlight == 0 && t.burst == k.burst
             && (forall x :: x in t.states && x != key ==> x in k.states && t.states[x] == k.states[x])
    requires var t := Touch(k, key); var b := Refill(t.states[key].bucket, now, t.rate as real, t.burst as real);
             b.last.Some? && b.tokens >= (t.burst - Owed(owed, key)) as real
    ensures var r := AllowKey(k, key, now);
            IngressOk(r.states, r.burst, if Allowed(k, key, now) then owed[key := Owed(owed, key) + 1] else owed)
  {
    assert Owed(owed, key) >= 0;
    hide Touch, Refill, AllowKey, Allowed, IngressOk;
    AllowResult(k, key, now);
    var t, r := Touch(k, key), AllowKey(k, key, now);
    var owed' := if Allowed(k, key, now) then owed[key := Owed(owed, key) + 1] else owed;
    IngressPut(k.states, t.states, k.burst, owed, owed', key, r.states[key]);
  }

  lemma Idle(states: map<Key, Entry>, max: int, key: Key, clients: bool)
    requires Tallies(states, max, [], clients) && key in states
    ensures states[key].inFlight == 0
  {}

  lemma RefundKeepsEntries(k: Keyed, key: Key, now: real)
    requires KeyedOk(k, [], true)
    ensures KeyedOk(RefundKey(k, key, now), [], true) && SameLimits(k, RefundKey(k, key, now))
  {
    hide Lists, Tallies, Touch, Refill;
    TouchIdle(k, key, true);
    var t := Touch(k, key);
    RefillOk(t.states[key].bucket, now, t.rate, t.burst);
    var r := RefundKey(k, key, now);
    TalliesBucket(t.states, t.maxConcurrent, [], true, key, r.states[key].bucket);
    assert r.states.Keys == t.states.Keys;
  }

  /** What refund leaves of a touched entry. */
  lemma RefundResult(k: Keyed, key: Key, now: real)
    requires key in Touch(k, key).states
    ensures var t := Touch(k, key);
            var b := Refill(t.states[key].bucket, now, t.rate as real, t.burst as real);
            var r := RefundKey(k, key, now);
            && r.burst == t.burst && key in r.states && r.states == t.states[key := r.states[key]]
            && r.states[key].bucket.last == b.last
            && (r.states[key].bucket.tokens == b.tokens + 1.0 || r.states[key].bucket.tokens == t.burst as real)
  {
    hide Touch, Refill;
  }

  lemma RefundKeeps(k: Keyed, key: Key, now: real, owed: map<Key, int>)
    requires KeyedOk(k, [], true) && IngressOk(k.states, k.burst, owed)
    ensures var r := RefundKey(k, key, now);
            IngressOk(r.states, r.burst, if Owed(owed, key) > 0 then owed[key := Owed(owed, key) - 1] else owed)
  {
    hide Lists, Tallies, Buckets, Touch, Refill, RefundKey;
    TouchIdle(k, key, true);
    var t := Touch(k, key);
    RefilledCovers(t.states[key].bucket, now, t.rate, t.burst, Owed(owed, key));
    RefundResult(k, key, now);
    RefundDebt(k.states, t.states, k.burst, owed, key, RefundKey(k, key, now).states[key]);
  }

  lemma RefundDebt(before: map<Key, Entry>, after: map<Key, Entry>, burst: int, owed: map<Key, int>, key: Key, e: Entry)
    requires IngressOk(before, burst, owed)
    requires forall x :: x in after && x != key ==> x in before && after[x] == before[x]
    requires e.bucket.last.Some?
    requires e.bucket.tokens >= (burst - Owed(owed, key)) as real + 1.0 || e.bucket.tokens == burst as real
    ensures IngressOk(after[key := e], burst, if Owed(owed, key) > 0 then owed[key := Owed(owed, key) - 1] else owed)
  {
    var debt := Owed(owed, key) - 1;
    assert debt >= -1;
    hide IngressOk;
    IngressPut(before, after, burst, owed, if debt >= 0 then owed[key := debt] else owed, key, e);
  }

  // ------------------------------------------------------------------------------ acquiring

  lemma AdmitKeeps(l: Limiter, a: Attempt, now: real, grants: seq<Grant>)
    requires KeyedOk(l.clients, grants, true) && KeyedOk(l.principals, grants, false)
    ensures KeyedOk(Admit(l, a, now).clients, grants, true) && KeyedOk(Admit(l, a, now).principals, grants, false)
    ensures SameLimits(l.clients, Admit(l, a, now).clients) && SameLimits(l.principals, Admit(l, a, now).principals)
  {
    hide KeyedOk, Refill, OpenKey;
    TouchKeeps(l.clients, a.client, grants, true);
    ReadyKeeps(Touch(l.clients, a.client), a.client, now, grants, true);
    TouchKeeps(l.principals, a.principal, grants, false);
    ReadyKeeps(Touch(l.principals, a.principal), a.principal, now, grants, false);
    hide MakeRoom;
  }

  lemma ChooseKeeps(l: Limiter, a: Attempt, now: real, grants: seq<Grant>, marks: map<Key, real>)
    requires PoolsOk(l, grants) && TrustOk(l.trust, marks)
    ensures var c := ChoosePool(l, a, now);
            && PoolsOk(c, grants) && TrustOk(c.trust, marks)
            && c == l.(shared := c.shared, reserved := c.reserved, trust := c.trust)
            && c.trust.ttl == l.trust.ttl && c.trust.maxKeys == l.trust.maxKeys
            && SamePool(l.shared, c.shared) && SamePool(l.reserved, c.reserved)
  {
    ReadyPool(l.shared, now, grants, false);
    ReadyPool(l.reserved, now, grants, true);
    CheckKeeps(l.trust, a.credential, now, marks);
    hide PoolOk, TrustOk, Refill;
  }

  predicate SamePool(p: Pool, q: Pool) { p.max == q.max && p.rate == q.rate && p.burst == q.burst }

  lemma AcquireKeeps(w: World, a: Attempt, now: real, n: Limits)
    requires Inv(w, n)
    ensures Inv(Step(w, Timed(Acquire(a), now)), n)
  {
    hide KeyedOk, PoolOk, TrustOk, IngressOk, Admit, ChoosePool, OpenKey, TakeKey;
    var m := Admit(w.l, a, now);
    assert m == w.l.(clients := m.clients, principals := m.principals) by { AdmitFrame(w.l, a, now); }
    AdmitKeeps(w.l, a, now, w.grants);
    if Admitted(m, a) {
      var c := ChoosePool(m, a, now);
      ChooseKeeps(m, a, now, w.grants, w.marks);
      var r := TryAcquire(w.l, a, now);
      if r.grant.Some? {
        var g := r.grant.value;
        TakeKeeps(c.clients, w.grants, g, true);
        TakeKeeps(c.principals, w.grants, g, false);
        TakeFrame(c.clients, a.client);
        TakeFrame(c.principals, a.principal);
        if g.reserved {
          TakePool(c.reserved, w.grants, g, c.shared);
        } else {
          TakePool(c.shared, w.grants, g, c.reserved);
        }
      }
    }
  }

  lemma AdmitFrame(l: Limiter, a: Attempt, now: real)
    ensures var m := Admit(l, a, now); m == l.(clients := m.clients, principals := m.principals)
  {
    hide Touch, ReadyKey, OpenKey;
  }

  lemma TakeFrame(k: Keyed, key: Key)
    requires OpenKey(k, key)
    ensures key in k.states && SameLimits(k, TakeKey(k, key))
  {}

  lemma FinishKeeps(w: World, index: int, now: real, n: Limits)
    requires Inv(w, n)
    ensures Inv(Step(w, Timed(Finish(index), now)), n)
  {
    if 0 <= index < |w.grants| {
      hide KeyedOk, PoolOk, TrustOk, IngressOk;
      var a, g, b := w.grants[..index], w.grants[index], w.grants[index + 1..];
      assert w.grants == a + [g] + b;
      GiveKeeps(w.l.clients, a, g, b, true);
      GiveKeeps(w.l.principals, a, g, b, false);
      if g.reserved {
        GivePool(w.l.reserved, a, g, b, w.l.shared);
      } else {
        GivePool(w.l.shared, a, g, b, w.l.reserved);
      }
    }
  }

  lemma AllowStep(w: World, client: Key, now: real, n: Limits)
    requires Inv(w, n)
    ensures Inv(Step(w, Timed(AllowIngress(client), now)), n)
  {
    hide KeyedOk, PoolOk, TrustOk, IngressOk, AllowKey, Allowed;
    AllowKeepsEntries(w.l.ingress, client, now);
    AllowKeeps(w.l.ingress, client, now, w.owed);
  }

  lemma RefundStep(w: World, client: Key, now: real, n: Limits)
    requires Inv(w, n)
    ensures Inv(Step(w, Timed(RefundIngress(client), now)), n)
  {
    hide KeyedOk, PoolOk, TrustOk, IngressOk, RefundKey;
    RefundKeepsEntries(w.l.ingress, client, now);
    RefundKeeps(w.l.ingress, client, now, w.owed);
  }

  lemma MarkStep(w: World, a: Attempt, now: real, n: Limits)
    requires Inv(w, n)
    ensures Inv(Step(w, Timed(MarkAuthenticated(a), now)), n)
  {
    hide KeyedOk, PoolOk, TrustOk, IngressOk, MarkKey;
    MarkKeeps(w.l.trust, a.credential, now, w.marks);
    MarkFrame(w.l.trust, a.credential, now);
  }

  lemma StepKeeps(w: World, t: Timed, n: Limits)
    requires Inv(w, n)
    ensures Inv(Step(w, t), n)
  {
    hide Inv, Step;
    match t.op
    case AllowIngress(client) => AllowStep(w, client, t.now, n);
    case RefundIngress(client) => RefundStep(w, client, t.now, n);
    case Acquire(attempt) => AcquireKeeps(w, attempt, t.now, n);
    case Finish(index) => FinishKeeps(w, index, t.now, n);
    case MarkAuthenticated(attempt) => MarkStep(w, attempt, t.now, n);
  }

  lemma MarkFrame(t: Trust, key: Key, now: real)
    ensures MarkKey(t, key, now).ttl == t.ttl && MarkKey(t, key, now).maxKeys == t.maxKeys
  {}

  lemma {:induction false} RunKeeps(w: World, run: seq<Timed>, n: Limits)
    requires Inv(w, n)
    ensures Inv(Exec(w, run), n)
    decreases |run|
  {
    hide Inv, Step;
    if run != [] {
      RunKeeps(w, run[..|run| - 1], n);
      StepKeeps(Exec(w, run[..|run| - 1]), run[|run| - 1], n);
    }
  }
}
