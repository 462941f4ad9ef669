/** The limiter as internal/authn runs it: pools, keyed entries and lists updated in place under
    one mutex, each operation proved to do what LimiterSpec says. */
module AuthLimiter {
  import opened Text
  import opened LimiterSpec
  import opened Sizes

  class ResourcePool {
    const max: int
    const rate: int
    const burst: int
    var inFlight: int
    var tokens: real
    var lastRefill: Option<real>

    ghost function Now(): (p: Pool)
      reads this
    {
      Pool(max, rate, burst, inFlight, Bucket(tokens, lastRefill))
    }

    constructor (max: int, rate: int, burst: int)
      ensures Now() == NewPool(max, rate, burst)
    {
      this.max, this.rate, this.burst := max, rate, burst;
      inFlight, tokens, lastRefill := 0, 0.0, None;
    }

    method Available(now: real) returns (ok: bool)
      modifies this
      ensures Now() == old(Now()).Ready(now) && ok == Now().Open()
    {
      if max <= 0 || rate <= 0 || burst <= 0 { return false; }
      if lastRefill.None? {
        tokens, lastRefill := burst as real, Some(now);
      } else if now - lastRefill.value > 0.0 {
        tokens := tokens + Gained(now - lastRefill.value, rate as real);
        if tokens > burst as real { tokens := burst as real; }
        lastRefill := Some(now);
      }
      return inFlight < max && tokens >= 1.0;
    }

    method Acquire()
      modifies this
      ensures Now() == old(Now()).Take()
    {
      inFlight, tokens := inFlight + 1, tokens - 1.0;
    }

    method Release()
      modifies this
      ensures Now() == old(Now()).Give()
    {
      if inFlight > 0 { inFlight := inFlight - 1; }
    }
  }

  class KeyedLimiter {
    const maxEntries: int
    const maxConcurrent: int
    const rate: int
    const burst: int
    var states: map<Key, Entry>
    var lru: seq<Key>

    ghost function Now(): (k: Keyed)
      reads this
    {
      Keyed(states, lru, maxEntries, maxConcurrent, rate, burst)
    }

    constructor (maxEntries: int, maxConcurrent: int, rate: int, burst: int)
      ensures Now() == NewKeyed(maxEntries, maxConcurrent, rate, burst)
    {
      this.maxEntries, this.maxConcurrent, this.rate, this.burst := maxEntries, maxConcurrent, rate, burst;
      states, lru := map[], [];
    }

    /** The search for a victim, from the back of the list. */
    method FindVictim() returns (v: int)
      ensures v == LastIdle(lru, states)
    {
      v := |lru| - 1;
      while v >= 0 && !(lru[v] in states && states[lru[v]].inFlight == 0)
        invariant -1 <= v < |lru| && LastIdle(lru, states) == LastIdle(lru[..v + 1], states)
      {
        assert lru[..v + 1][..v] == lru[..v];
        v := v - 1;
      }
      assert v >= 0 ==> lru[..v + 1][v] == lru[v];
    }

    method Evict() returns (room: bool)
      modifies this
      ensures Now() == MakeRoom(old(Now())) && room == (|states| < maxEntries)
    {
      while |states| >= maxEntries
        invariant MakeRoom(Now()) == MakeRoom(old(Now()))
        decreases |states|
      {
        var v := FindVictim();
        if v < 0 { return false; }
        SizeRemove(states, lru[v]);
        states, lru := states - {lru[v]}, lru[..v] + lru[v + 1..];
      }
      return true;
    }

    /** state: whether there is an entry for `key` now. */
    method State(key: Key) returns (ok: bool)
      modifies this
      ensures Now() == Touch(old(Now()), key) && ok == (key in states)
    {
      if key in states {
        lru := [key] + Without(lru, key);
        return true;
      }
      ghost var before := states;
      ok := Evict();
      if ok {
        states, lru := states[key := Entry(0, EMPTY)], [key] + lru;
      } else {
        KeysShrink(old(Now()), key);
      }
    }

    static lemma {:induction false} KeysShrink(k: Keyed, key: Key)
      requires key !in k.states
      ensures key !in MakeRoom(k).states
      decreases |k.states|
    {
      var v := LastIdle(k.lru, k.states);
      if |k.states| >= k.maxEntries && v >= 0 {
        SizeRemove(k.states, k.lru[v]);
        KeysShrink(k.(states := k.states - {k.lru[v]}, lru := k.lru[..v] + k.lru[v + 1..]), key);
      }
    }

    method Available(key: Key, now: real) returns (ok: bool)
      modifies this
      ensures Now() == ReadyKey(old(Now()), key, now) && ok == OpenKey(Now(), key)
    {
      if key !in states || maxConcurrent <= 0 || rate <= 0 || burst <= 0 { return false; }
      var e := states[key];
      states := states[key := e.(bucket := Refill(e.bucket, now, rate as real, burst as real))];
      return states[key].inFlight < maxConcurrent && states[key].bucket.tokens >= 1.0;
    }

    method Acquire(key: Key)
      requires key in states
      modifies this
      ensures Now() == TakeKey(old(Now()), key)
    {
      var e := states[key];
      states := states[key := Entry(e.inFlight + 1, e.bucket.(tokens := e.bucket.tokens - 1.0))];
    }

    method Release(key: Key)
      modifies this
      ensures Now() == GiveKey(old(Now()), key)
    {
      if key in states && states[key].inFlight > 0 {
        states := states[key := states[key].(inFlight := states[key].inFlight - 1)];
      }
    }

    method Allow(key: Key, now: real) returns (ok: bool)
      modifies this
      ensures Now() == AllowKey(old(Now()), key, now) && ok == Allowed(old(Now()), key, now)
    {
      hide Touch;
      var _ := State(key);
      ok := Available(key, now);
      if ok {
        Acquire(key);
        Release(key);
      }
    }

    method Refund(key: Key, now: real)
      modifies this
      ensures Now() == RefundKey(old(Now()), key, now)
    {
      hide Touch;
      var ok := State(key);
      if !ok { return; }
      var e := states[key];
      var b := Refill(e.bucket, now, rate as real, burst as real);
      var tokens := if b.tokens + 1.0 < burst as real then b.tokens + 1.0 else burst as real;
      states := states[key := e.(bucket := b.(tokens := tokens))];
    }
  }

  /** What TryAcquire returns: its release function gives back once. */
  class Lease {
    const grant: Grant
    var released: bool

    constructor (grant: Grant)
      ensures this.grant == grant && !released
    {
      this.grant, released := grant, false;
    }
  }

  class Authenticator {
    const sharedPool: ResourcePool
    const reservedPool: ResourcePool
    const clients: KeyedLimiter
    const principals: KeyedLimiter
    const ingress: KeyedLimiter
    const ttl: real
    const maxKeys: int
    var expires: map<Key, real>
    var trustedLru: seq<Key>

    ghost predicate Valid()
      reads this
    {
      sharedPool != reservedPool && clients != principals && clients != ingress && principals != ingress
    }

    ghost function Now(): (l: Limiter)
      reads this, sharedPool, reservedPool, clients, principals, ingress
    {
      Limiter(sharedPool.Now(), reservedPool.Now(), clients.Now(), principals.Now(), ingress.Now(),
              Trust(expires, trustedLru, maxKeys, ttl))
    }

    constructor (limits: Limits)
      ensures Valid() && Now() == NewLimiter(limits)
      ensures fresh(sharedPool) && fresh(reservedPool) && fresh(clients) && fresh(principals) && fresh(ingress)
    {
      var n := NormalizeLimits(limits);
      sharedPool := new ResourcePool(n.maxConcurrent - n.reservedConcurrent, n.rate - n.reservedRate, n.burst - n.reservedBurst);
      reservedPool := new ResourcePool(n.reservedConcurrent, n.reservedRate, n.reservedBurst);
      clients := new KeyedLimiter(n.maxKeys, n.clientConcurrent, n.clientRate, n.clientBurst);
      principals := new KeyedLimiter(n.maxKeys, n.principalConcurrent, n.principalRate, n.principalBurst);
      ingress := new KeyedLimiter(n.maxKeys, 1, n.ingressRate, n.ingressBurst);
      ttl, maxKeys, expires, trustedLru := n.trustedTtl, n.maxKeys, map[], [];
    }

    method AllowIngress(client: Key, now: real) returns (ok: bool)
      requires Valid()
      modifies ingress
      ensures ok == Allowed(old(Now()).ingress, client, now)
      ensures Now() == old(Now()).(ingress := AllowKey(old(Now()).ingress, client, now))
    {
      ok := ingress.Allow(client, now);
    }

    method RefundIngress(client: Key, now: real)
      requires Valid()
      modifies ingress
      ensures Now() == old(Now()).(ingress := RefundKey(old(Now()).ingress, client, now))
    {
      ingress.Refund(client, now);
    }

    /** isTrustedLocked. */
    method IsTrusted(key: Key, now: real) returns (ok: bool)
      modifies `expires, `trustedLru
      ensures Now() == old(Now()).(trust := CheckTrust(old(Now()).trust, key, now))
      ensures ok == Trusted(old(Now()).trust, key, now)
    {
      if key !in expires { return false; }
      if now > expires[key] {
        expires, trustedLru := expires - {key}, Without(trustedLru, key);
        return false;
      }
      trustedLru := [key] + Without(trustedLru, key);
      return true;
    }

    method MarkAuthenticated(a: Attempt, now: real)
      requires Valid()
      modifies `expires, `trustedLru
      ensures Now() == old(Now()).(trust := MarkKey(old(Now()).trust, a.credential, now))
    {
      var key := a.credential;
      if key in expires {
        expires, trustedLru := expires[key := now + ttl], [key] + Without(trustedLru, key);
        return;
      }
      ghost var was := Now();
      while |expires| >= maxKeys
        invariant Now() == was.(trust := Now().trust) && DropOldest(Now().trust) == DropOldest(was.trust)
        decreases |trustedLru|
      {
        if trustedLru == [] { return; }
        var last := |trustedLru| - 1;
        expires, trustedLru := expires - {trustedLru[last]}, trustedLru[..last];
      }
      expires, trustedLru := expires[key := now + ttl], [key] + trustedLru;
    }

    /** The keyed entries of an attempt, the principal's bucket only if the client may go on. */
    method AdmitAttempt(a: Attempt, now: real) returns (ok: bool)
      requires Valid()
      modifies clients, principals
      ensures Now() == Admit(old(Now()), a, now) && ok == Admitted(Now(), a)
    {
      hide Touch, ReadyKey, OpenKey;
      var _ := clients.State(a.client);
      var _ := principals.State(a.principal);
      ok := clients.Available(a.client, now);
      if ok { ok := principals.Available(a.principal, now); }
    }

    /** The pool to take from: the shared one, or the reserved one for a trusted credential. */
    method PickPool(a: Attempt, now: real) returns (pool: Option<ResourcePool>)
      requires Valid()
      modifies this, sharedPool, reservedPool
      ensures Now() == ChoosePool(old(Now()), a, now)
      ensures pool == if Now().shared.Open() then Some(sharedPool)
                      else if Trusted(old(Now()).trust, a.credential, now) && Now().reserved.Open() then Some(reservedPool)
                      else None
    {
      hide CheckTrust;
      var ok := sharedPool.Available(now);
      if ok { return Some(sharedPool); }
      ok := IsTrusted(a.credential, now);
      if !ok { return None; }
      ok := reservedPool.Available(now);
      return if ok then Some(reservedPool) else None;
    }

    method TryAcquireSlot(a: Attempt, now: real) returns (lease: Option<Lease>)
      requires Valid()
      modifies this, sharedPool, reservedPool, clients, principals
      ensures var r := TryAcquire(old(Now()), a, now);
              && Now() == r.after && (lease.Some? <==> r.grant.Some?)
              && (lease.Some? ==> fresh(lease.value) && lease.value.grant == r.grant.value && !lease.value.released)
    {
      hide Admit, ChoosePool, Touch, ReadyKey, Trusted;
      var ok := AdmitAttempt(a, now);
      if !ok { return None; }
      ghost var m := Now();
      var pool := PickPool(a, now);
      ghost var c := Now();
      PoolFrame(m, a, now);
      if pool.None? { return None; }
      clients.Acquire(a.client);
      principals.Acquire(a.principal);
      pool.value.Acquire();
      var l := new Lease(Grant(a.client, a.principal, pool.value == reservedPool));
      return Some(l);
    }

    static lemma PoolFrame(l: Limiter, a: Attempt, now: real)
      ensures var c := ChoosePool(l, a, now); c.clients == l.clients && c.principals == l.principals
    {
      hide CheckTrust, Trusted, Refill;
    }

    /** The release function of a lease, which does its work once. */
    method ReleaseSlot(lease: Lease)
      requires Valid()
      modifies lease, sharedPool, reservedPool, clients, principals
      ensures lease.released
      ensures Now() == if old(lease.released) then old(Now()) else Release(old(Now()), lease.grant)
    {
      if lease.released { return; }
      lease.released := true;
      clients.Release(lease.grant.client);
      principals.Release(lease.grant.principal);
      if lease.grant.reserved { reservedPool.Release(); } else { sharedPool.Release(); }
    }
  }
}
