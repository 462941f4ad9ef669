/** What holds of every run. */
module LimiterTheorems {
  import opened Text
  import opened LimiterSpec
  import opened LimiterLimits
  import opened LruLists
  import opened LimiterInv
  import opened LimiterRuns

  lemma ReachableInv(limits: Limits, run: seq<Timed>)
    ensures Inv(Exec(Init(limits), run), NormalizeLimits(limits))
  {
    InitOk(limits);
    hide Inv, Init;
    RunKeeps(Init(limits), run, NormalizeLimits(limits));
  }

  // --------------------------------------------------------------------------- conservation

  function SumInFlight(lru: seq<Key>, states: map<Key, Entry>): (n: int)
    requires forall i :: 0 <= i < |lru| ==> lru[i] in states
  {
    if lru == [] then 0 else states[lru[0]].inFlight + SumInFlight(lru[1..], states)
  }

  function SumCounts(lru: seq<Key>, grants: seq<Grant>, clients: bool): (n: int) {
    if lru == [] then 0 else CountKey(grants, clients, lru[0]) + SumCounts(lru[1..], grants, clients)
  }

  lemma {:induction false} SumsAgree(lru: seq<Key>, states: map<Key, Entry>, max: int, grants: seq<Grant>, clients: bool)
    requires Tallies(states, max, grants, clients) && forall i :: 0 <= i < |lru| ==> lru[i] in states
    ensures SumInFlight(lru, states) == SumCounts(lru, grants, clients)
  {
    if lru != [] {
      assert lru[0] in states;
      SumsAgree(lru[1..], states, max, grants, clients);
    }
  }

  /** One more grant is counted at exactly one position of a list that names its key once. */
  lemma {:induction false} SumGrows(lru: seq<Key>, g: Grant, rest: seq<Grant>, clients: bool)
    requires NoDup(lru)
    ensures SumCounts(lru, [g] + rest, clients) ==
            SumCounts(lru, rest, clients) + if Side(g, clients) in lru then 1 else 0
  {
    if lru != [] {
      SumGrows(lru[1..], g, rest, clients);
      assert ([g] + rest)[1..] == rest;
      assert lru == [lru[0]] + lru[1..];
    }
  }

  lemma {:induction false} SumIsAll(lru: seq<Key>, grants: seq<Grant>, clients: bool)
    requires NoDup(lru) && forall i :: 0 <= i < |grants| ==> Side(grants[i], clients) in lru
    ensures SumCounts(lru, grants, clients) == |grants|
    decreases |grants|
  {
    if grants == [] {
      SumOfNone(lru, clients);
    } else {
      assert grants == [grants[0]] + grants[1..];
      SumGrows(lru, grants[0], grants[1..], clients);
      SumIsAll(lru, grants[1..], clients);
    }
  }

  lemma {:induction false} SumOfNone(lru: seq<Key>, clients: bool)
    ensures SumCounts(lru, [], clients) == 0
  {
    if lru != [] { SumOfNone(lru[1..], clients); }
  }

  lemma EveryGrantListed(k: Keyed, grants: seq<Grant>, clients: bool)
    requires KeyedOk(k, grants, clients)
    ensures forall i :: 0 <= i < |grants| ==> Side(grants[i], clients) in k.lru
  {
    forall i | 0 <= i < |grants| ensures Side(grants[i], clients) in k.lru {
      var a, g, b := grants[..i], grants[i], grants[i + 1..];
      assert grants == a + [g] + b;
      GrantIsBusy(k.states, k.maxConcurrent, a, g, b, clients);
    }
  }

  lemma KeyedConserves(k: Keyed, grants: seq<Grant>, clients: bool)
    requires KeyedOk(k, grants, clients)
    ensures SumInFlight(k.lru, k.states) == |grants|
  {
    SumsAgree(k.lru, k.states, k.maxConcurrent, grants, clients);
    EveryGrantListed(k, grants, clients);
    SumIsAll(k.lru, grants, clients);
  }

  /** After every step the outstanding grants are the slots in use in the two pools, in the
      clients and in the principals, each within its maximum; each keyed map and its list hold the
      same keys, at most the configured number of them, and no entry with work in flight is missing. */
  lemma GrantsAreConserved(limits: Limits, run: seq<Timed>)
    ensures var n := NormalizeLimits(limits); var w := Exec(Init(limits), run);
            && w.l.shared.inFlight + w.l.reserved.inFlight == |w.grants| <= n.maxConcurrent
            && 0 <= w.l.shared.inFlight <= w.l.shared.max && 0 <= w.l.reserved.inFlight <= w.l.reserved.max
            && KeyedOk(w.l.clients, w.grants, true) && SumInFlight(w.l.clients.lru, w.l.clients.states) == |w.grants|
            && KeyedOk(w.l.principals, w.grants, false) && SumInFlight(w.l.principals.lru, w.l.principals.states) == |w.grants|
            && w.l.clients.maxConcurrent == n.clientConcurrent && w.l.principals.maxConcurrent == n.principalConcurrent
            && w.l.clients.maxEntries == w.l.principals.maxEntries == n.maxKeys
            && n.maxConcurrent == Or1(limits.maxConcurrent) && n.maxKeys == Or1(limits.maxKeys)
            && n.clientConcurrent == Or1(limits.clientConcurrent) && n.principalConcurrent == Or1(limits.principalConcurrent)
  {
    LimitsAreKept(limits);
    ReachableInv(limits, run);
    hide Exec, KeyedOk, Init, NormalizeLimits;
    var w := Exec(Init(limits), run);
    PoolsPartition(w.grants);
    KeyedConserves(w.l.clients, w.grants, true);
    KeyedConserves(w.l.principals, w.grants, false);
  }

  /** The ingress entries hold no slot between operations; they and the trusted credentials are
      listed once each, at most the configured number of them. */
  lemma ListsAreBounded(limits: Limits, run: seq<Timed>)
    ensures var n := NormalizeLimits(limits); var l := Exec(Init(limits), run).l;
            && KeyedOk(l.ingress, [], true) && |l.ingress.lru| == |l.ingress.states| <= n.maxKeys
            && (forall key :: key in l.ingress.states ==> l.ingress.states[key].inFlight == 0)
            && Lists(l.trust.lru, l.trust.expires.Keys) && |l.trust.lru| == |l.trust.expires| <= n.maxKeys
  {
    ReachableInv(limits, run);
    hide Exec, Init, NormalizeLimits, PoolOk, IngressOk, Buckets, Lists, Expiries;
    var l := Exec(Init(limits), run).l;
    forall key | key in l.ingress.states ensures l.ingress.states[key].inFlight == 0 {
      Idle(l.ingress.states, l.ingress.maxConcurrent, key, true);
    }
    ListLength(l.ingress.lru, l.ingress.states.Keys);
    ListLength(l.trust.lru, l.trust.expires.Keys);
  }

  lemma {:induction false} ListLength(lru: seq<Key>, keys: set<Key>)
    requires Lists(lru, keys)
    ensures |lru| == |keys|
    decreases |lru|
  {
    if lru != [] {
      RemoveAt(lru, 0, keys);
      assert lru[..0] + lru[0 + 1..] == lru[1..];
      ListLength(lru[1..], keys - {lru[0]});
    }
  }

  /** Each outstanding grant still has its two entries: a busy entry is never evicted. */
  lemma BusyIsNeverEvicted(limits: Limits, run: seq<Timed>, i: nat)
    requires i < |Exec(Init(limits), run).grants|
    ensures var w := Exec(Init(limits), run); var g := w.grants[i];
            && g.client in w.l.clients.states && w.l.clients.states[g.client].inFlight > 0
            && g.principal in w.l.principals.states && w.l.principals.states[g.principal].inFlight > 0
  {
    ReachableInv(limits, run);
    hide Exec, Init, NormalizeLimits, Tallies, Lists, Buckets;
    var w := Exec(Init(limits), run);
    var a, g, b := w.grants[..i], w.grants[i], w.grants[i + 1..];
    assert w.grants == a + [g] + b;
    GrantIsBusy(w.l.clients.states, w.l.clients.maxConcurrent, a, g, b, true);
    GrantIsBusy(w.l.principals.states, w.l.principals.maxConcurrent, a, g, b, false);
  }

  // --------------------------------------------------------------------- trusted credentials

  lemma {:induction false} MarksAreReal(limits: Limits, run: seq<Timed>, c: Key) returns (i: nat)
    requires c in Exec(Init(limits), run).marks
    ensures i < |run| && run[i].op.MarkAuthenticated? && run[i].op.attempt.credential == c
    ensures run[i].now == Exec(Init(limits), run).marks[c]
    decreases |run|
  {
    hide TryAcquire, Release, AllowKey, RefundKey, MarkKey, Allowed, NewLimiter;
    var last := |run| - 1;
    if run[last].op.MarkAuthenticated? && run[last].op.attempt.credential == c {
      i := last;
    } else {
      i := MarksAreReal(limits, run[..last], c);
    }
  }

  /** A grant from the reserve is for a credential that was marked authenticated earlier in the
      run, no longer ago than its lifetime. */
  lemma ReserveIsForTrusted(limits: Limits, run: seq<Timed>, a: Attempt, now: real) returns (i: nat)
    requires TryAcquire(Exec(Init(limits), run).l, a, now).grant == Some(Grant(a.client, a.principal, true))
    ensures i < |run| && run[i].op.MarkAuthenticated? && run[i].op.attempt.credential == a.credential
    ensures now <= run[i].now + NormalizeLimits(limits).trustedTtl
  {
    ReachableInv(limits, run);
    hide Exec, Init, NormalizeLimits, KeyedOk, PoolOk, IngressOk, ChoosePool, TakeKey, OpenKey;
    var w := Exec(Init(limits), run);
    AdmitFrame(w.l, a, now);
    hide Admit;
    i := MarksAreReal(limits, run, a.credential);
  }

  // ------------------------------------------------------------------------------- ingress

  /** A client with fewer unrefunded admissions than its burst is never refused, whatever was
      evicted in between. */
  lemma IngressIsNotRefused(limits: Limits, run: seq<Timed>, client: Key, now: real)
    ensures var w := Exec(Init(limits), run);
            && (Owed(w.owed, client) < NormalizeLimits(limits).ingressBurst ==> Allowed(w.l.ingress, client, now))
            && (Owed(w.owed, client) < limits.ingressBurst ==> Allowed(w.l.ingress, client, now))
  {
    LimitsAreKept(limits);
    ReachableInv(limits, run);
    hide Exec, Init, NormalizeLimits, KeyedOk, PoolOk, IngressOk, TrustOk, Allowed;
    var w := Exec(Init(limits), run);
    AllowKeeps(w.l.ingress, client, now, w.owed);
  }

  function Admissions(limits: Limits, run: seq<Timed>, client: Key): (n: nat)
    decreases |run|
  {
    if run == [] then 0
    else
      var t, before := run[|run| - 1], run[..|run| - 1];
      Admissions(limits, before, client)
      + if t.op == AllowIngress(client) && Allowed(Exec(Init(limits), before).l.ingress, client, t.now) then 1 else 0
  }

  function Refunds(run: seq<Timed>, client: Key): (n: nat)
    decreases |run|
  {
    if run == [] then 0
    else Refunds(run[..|run| - 1], client) + if run[|run| - 1].op == RefundIngress(client) then 1 else 0
  }

  /** Where refunds never exceed admissions, what a client has not got back is the difference. */
  lemma {:induction false} OwedIsDifference(limits: Limits, run: seq<Timed>, client: Key)
    requires forall k :: 0 <= k <= |run| ==> Refunds(run[..k], client) <= Admissions(limits, run[..k], client)
    ensures Owed(Exec(Init(limits), run).owed, client) == Admissions(limits, run, client) - Refunds(run, client)
    decreases |run|
  {
    hide TryAcquire, Release, AllowKey, RefundKey, MarkKey, Allowed, NewLimiter;
    if run != [] {
      var before := run[..|run| - 1];
      forall k | 0 <= k <= |before| ensures Refunds(before[..k], client) <= Admissions(limits, before[..k], client) {
        assert before[..k] == run[..k];
      }
      OwedIsDifference(limits, before, client);
      assert run[..|run|] == run;
    }
  }

  /** A client's tokens never fall below its burst less what it has not got back. */
  lemma IngressTokensCoverDebt(limits: Limits, run: seq<Timed>, client: Key)
    requires forall k :: 0 <= k <= |run| ==> Refunds(run[..k], client) <= Admissions(limits, run[..k], client)
    ensures var k := Exec(Init(limits), run).l.ingress;
            client in k.states ==>
              k.states[client].bucket.tokens >=
              (NormalizeLimits(limits).ingressBurst - (Admissions(limits, run, client) - Refunds(run, client))) as real
  {
    ReachableInv(limits, run);
    OwedIsDifference(limits, run, client);
    hide Exec, Init, NormalizeLimits, KeyedOk, PoolOk, TrustOk, Admissions, Refunds;
  }

  // ---------------------------------------------------------------------------- availability

  /** A bucket that was never used, or has had the time to gain a token. */
  predicate Rested(b: Bucket, now: real, rate: int) {
    b.last.None? || (now > b.last.value && Gained(now - b.last.value, rate as real) >= 1.0)
  }

  lemma RestedHasToken(b: Bucket, now: real, rate: int, burst: int)
    requires Rested(b, now, rate) && BucketOk(b, burst) && burst >= 1
    ensures Refill(b, now, rate as real, burst as real).tokens >= 1.0
  {
    hide Gained;
  }

  lemma RestedKeyIsOpen(k: Keyed, key: Key, now: real, clients: bool)
    requires KeyedOk(k, [], clients) && (key in k.states ==> Rested(k.states[key].bucket, now, k.rate))
    ensures OpenKey(ReadyKey(Touch(k, key), key, now), key)
  {
    hide Touch, Refill, Lists;
    TouchIdle(k, key, clients);
    var t := Touch(k, key);
    Idle(t.states, t.maxConcurrent, key, clients);
    RestedHasToken(t.states[key].bucket, now, t.rate, t.burst);
  }

  /** With nothing in flight, an attempt whose client, principal and pool have had the time to gain
      a token is granted, from the shared pool, whatever the run did before. */
  lemma RestedAttemptIsGranted(limits: Limits, run: seq<Timed>, a: Attempt, now: real)
    requires Exec(Init(limits), run).grants == []
    requires var l := Exec(Init(limits), run).l;
             && Rested(l.shared.bucket, now, l.shared.rate)
             && (a.client in l.clients.states ==> Rested(l.clients.states[a.client].bucket, now, l.clients.rate))
             && (a.principal in l.principals.states ==> Rested(l.principals.states[a.principal].bucket, now, l.principals.rate))
    ensures TryAcquire(Exec(Init(limits), run).l, a, now).grant == Some(Grant(a.client, a.principal, false))
  {
    ReachableInv(limits, run);
    var l := Exec(Init(limits), run).l;
    hide Exec, Init, NormalizeLimits, KeyedOk, TrustOk, IngressOk, Touch, ReadyKey, OpenKey, TakeKey, Rested, Refill, CheckTrust, Trusted;
    RestedKeyIsOpen(l.clients, a.client, now, true);
    RestedKeyIsOpen(l.principals, a.principal, now, false);
    RestedHasToken(l.shared.bucket, now, l.shared.rate, l.shared.burst);
    NoSlotUsed(l);
  }

  lemma NoSlotUsed(l: Limiter)
    requires PoolsOk(l, [])
    ensures l.shared.inFlight == 0 && l.reserved.inFlight == 0
  {}

  /** A credential that is still listed within its lifetime gets the reserve when the shared pool has
      nothing to give: that is what the reserve is for. */
  lemma TrustedGetsReserve(limits: Limits, run: seq<Timed>, a: Attempt, now: real)
    requires Exec(Init(limits), run).grants == [] && NormalizeLimits(limits).reservedConcurrent > 0
    requires var w := Exec(Init(limits), run);
             && a.credential in w.l.trust.expires && a.credential in w.marks
             && now <= w.marks[a.credential] + NormalizeLimits(limits).trustedTtl
             && !w.l.shared.Ready(now).Open() && Rested(w.l.reserved.bucket, now, w.l.reserved.rate)
             && (a.client in w.l.clients.states ==> Rested(w.l.clients.states[a.client].bucket, now, w.l.clients.rate))
             && (a.principal in w.l.principals.states ==> Rested(w.l.principals.states[a.principal].bucket, now, w.l.principals.rate))
    ensures TryAcquire(Exec(Init(limits), run).l, a, now).grant == Some(Grant(a.client, a.principal, true))
  {
    ReachableInv(limits, run);
    var l := Exec(Init(limits), run).l;
    hide Exec, Init, KeyedOk, IngressOk, Touch, ReadyKey, OpenKey, TakeKey, Rested, Refill, CheckTrust, NormalizeReserve, Lists;
    RestedKeyIsOpen(l.clients, a.client, now, true);
    RestedKeyIsOpen(l.principals, a.principal, now, false);
    RestedHasToken(l.reserved.bucket, now, l.reserved.rate, l.reserved.burst);
    NoSlotUsed(l);
  }

  /** Marking lists the credential, for its lifetime from then on. */
  lemma MarkedIsListed(limits: Limits, run: seq<Timed>, a: Attempt, now: real)
    ensures var w := Exec(Init(limits), run + [Timed(MarkAuthenticated(a), now)]);
            && a.credential in w.l.trust.expires && w.l.trust.expires[a.credential] == now + NormalizeLimits(limits).trustedTtl
            && a.credential in w.marks && w.marks[a.credential] == now
  {
    var all := run + [Timed(MarkAuthenticated(a), now)];
    assert all[..|all| - 1] == run;
    hide Init, NormalizeLimits, PoolsOk, KeyedOk, IngressOk, TrustOk, MarkKey;
    ReachableInv(limits, run);
    var w := Exec(Init(limits), run);
    MarkLists(w.l.trust, a.credential, now, w.marks);
  }

  lemma MarkLists(t: Trust, key: Key, now: real, marks: map<Key, real>)
    requires TrustOk(t, marks) && t.maxKeys >= 1
    ensures key in MarkKey(t, key, now).expires && MarkKey(t, key, now).expires[key] == now + t.ttl
  {
    DropOldestKeeps(t, marks);
    hide Lists, DropOldest, Expiries;
  }
}
