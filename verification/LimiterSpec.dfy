/** The authentication limiter of internal/authn as values: token buckets, pools, keyed LRUs and
    trusted credentials, and what every operation does to them. Tokens and times are reals. */
module LimiterSpec {
  import opened Text
  import opened Sizes

  type Key = string

  // ---------------------------------------------------------------------------- limits

  datatype Limits = Limits(
    maxConcurrent: int, rate: int, burst: int,
    reservedConcurrent: int, reservedRate: int, reservedBurst: int,
    clientConcurrent: int, clientRate: int, clientBurst: int,
    principalConcurrent: int, principalRate: int, principalBurst: int,
    ingressRate: int, ingressBurst: int,
    maxKeys: int, trustedTtl: real)

  function AtLeastOne(value: int): (r: int)
    ensures r >= 1
  {
    if value <= 0 then 1 else value
  }

  function ClampReserve(value: int, total: int): (r: int) {
    if value <= 0 then 0 else if value >= total then total - 1 else value
  }

  const MINUTE := 60.0

  function NoReserve(l: Limits): (r: Limits) {
    l.(reservedConcurrent := 0, reservedRate := 0, reservedBurst := 0)
  }

  function NormalizeReserve(l: Limits): (r: Limits) {
    if !(l.maxConcurrent > 1 && l.rate > 1 && l.burst > 1) then NoReserve(l)
    else
      var c := l.(reservedConcurrent := ClampReserve(l.reservedConcurrent, l.maxConcurrent),
                  reservedRate := ClampReserve(l.reservedRate, l.rate),
                  reservedBurst := ClampReserve(l.reservedBurst, l.burst));
      if c.reservedConcurrent == 0 || c.reservedRate == 0 || c.reservedBurst == 0 then NoReserve(c) else c
  }

  /** normalizeLimits. The reserve is a proper part of every total, or there is none. */
  function NormalizeLimits(l: Limits): (r: Limits)
    ensures r.maxConcurrent >= 1 && r.rate >= 1 && r.burst >= 1 && r.maxKeys >= 1 && r.trustedTtl > 0.0
    ensures || (r.reservedConcurrent == r.reservedRate == r.reservedBurst == 0)
            || (0 < r.reservedConcurrent < r.maxConcurrent && 0 < r.reservedRate < r.rate && 0 < r.reservedBurst < r.burst)
    ensures r.clientConcurrent >= 1 && r.clientRate >= 1 && r.clientBurst >= 1
    ensures r.principalConcurrent >= 1 && r.principalRate >= 1 && r.principalBurst >= 1
    ensures r.ingressRate >= 1 && r.ingressBurst >= 1
  {
    NormalizeReserve(
      l.(maxConcurrent := AtLeastOne(l.maxConcurrent), rate := AtLeastOne(l.rate), burst := AtLeastOne(l.burst),
         maxKeys := AtLeastOne(l.maxKeys), trustedTtl := if l.trustedTtl <= 0.0 then MINUTE else l.trustedTtl,
         clientConcurrent := AtLeastOne(l.clientConcurrent), clientRate := AtLeastOne(l.clientRate),
         clientBurst := AtLeastOne(l.clientBurst), principalConcurrent := AtLeastOne(l.principalConcurrent),
         principalRate := AtLeastOne(l.principalRate), principalBurst := AtLeastOne(l.principalBurst),
         ingressRate := AtLeastOne(l.ingressRate), ingressBurst := AtLeastOne(l.ingressBurst)))
  }

  // ----------------------------------------------------------------------------- buckets

  /** `last` is None for the zero time of a bucket that was never refilled. */
  datatype Bucket = Bucket(tokens: real, last: Option<real>)

  const EMPTY := Bucket(0.0, None)

  function Gained(elapsed: real, rate: real): (tokens: real) { elapsed * rate }

  function Refill(b: Bucket, now: real, rate: real, burst: real): (r: Bucket) {
    if b.last.None? then Bucket(burst, Some(now))
    else if now > b.last.value then
      var tokens := b.tokens + Gained(now - b.last.value, rate);
      Bucket(if tokens > burst then burst else tokens, Some(now))
    else b
  }

  datatype Pool = Pool(max: int, rate: int, burst: int, inFlight: int, bucket: Bucket)
  {
    predicate Disabled() { max <= 0 || rate <= 0 || burst <= 0 }

    /** available: the refilled pool, and whether it has room and a token. */
    function Ready(now: real): (r: Pool) {
      if Disabled() then this else this.(bucket := Refill(bucket, now, rate as real, burst as real))
    }

    predicate Open() { !Disabled() && inFlight < max && bucket.tokens >= 1.0 }

    function Take(): (r: Pool) { this.(inFlight := inFlight + 1, bucket := bucket.(tokens := bucket.tokens - 1.0)) }

    function Give(): (r: Pool) { if inFlight > 0 then this.(inFlight := inFlight - 1) else this }
  }

  // ------------------------------------------------------------------------ keyed limiters

  datatype Entry = Entry(inFlight: int, bucket: Bucket)

  datatype Keyed = Keyed(states: map<Key, Entry>, lru: seq<Key>, maxEntries: int, maxConcurrent: int, rate: int, burst: int)
  {
    predicate Disabled() { maxConcurrent <= 0 || rate <= 0 || burst <= 0 }
  }

  function Without(s: seq<Key>, key: Key): (r: seq<Key>)
    ensures |r| <= |s|
  {
    if s == [] then [] else if s[0] == key then s[1..] else [s[0]] + Without(s[1..], key)
  }

  /** The idle entry nearest the back of the list, or -1. */
  function LastIdle(lru: seq<Key>, states: map<Key, Entry>): (v: int)
    ensures -1 <= v < |lru|
    ensures v >= 0 ==> lru[v] in states && states[lru[v]].inFlight == 0
    ensures forall i :: v < i < |lru| ==> !(lru[i] in states && states[lru[i]].inFlight == 0)
  {
    if lru == [] then -1
    else
      var last := lru[|lru| - 1];
      if last in states && states[last].inFlight == 0 then |lru| - 1 else LastIdle(lru[..|lru| - 1], states)
  }

  predicate SameLimits(a: Keyed, b: Keyed) {
    a.maxEntries == b.maxEntries && a.maxConcurrent == b.maxConcurrent && a.rate == b.rate && a.burst == b.burst
  }

  /** The eviction loop of state. */
  function MakeRoom(k: Keyed): (r: Keyed)
    ensures SameLimits(k, r)
    decreases |k.states|
  {
    if |k.states| < k.maxEntries then k
    else
      var v := LastIdle(k.lru, k.states);
      if v < 0 then k
      else
        var victim := k.lru[v];
        assert |k.states - {victim}| < |k.states| by { SizeRemove(k.states, victim); }
        MakeRoom(k.(states := k.states - {victim}, lru := k.lru[..v] + k.lru[v + 1..]))
  }

  /** state: the entry of `key` at the front of the list, made if there is room for it. */
  function Touch(k: Keyed, key: Key): (r: Keyed) {
    if key in k.states then k.(lru := [key] + Without(k.lru, key))
    else
      var e := MakeRoom(k);
      if |e.states| >= e.maxEntries then e
      else e.(states := e.states[key := Entry(0, EMPTY)], lru := [key] + e.lru)
  }

  /** available refills the entry's bucket, if there is an entry and the limiter is enabled. */
  function ReadyKey(k: Keyed, key: Key, now: real): (r: Keyed) {
    if key !in k.states || k.Disabled() then k
    else k.(states := k.states[key := k.states[key].(bucket := Refill(k.states[key].bucket, now, k.rate as real, k.burst as real))])
  }

  predicate OpenKey(k: Keyed, key: Key) {
    key in k.states && !k.Disabled() && k.states[key].inFlight < k.maxConcurrent && k.states[key].bucket.tokens >= 1.0
  }

  function TakeKey(k: Keyed, key: Key): (r: Keyed)
    requires key in k.states
  {
    var e := k.states[key];
    k.(states := k.states[key := Entry(e.inFlight + 1, e.bucket.(tokens := e.bucket.tokens - 1.0))])
  }

  function GiveKey(k: Keyed, key: Key): (r: Keyed) {
    if key in k.states && k.states[key].inFlight > 0
    then k.(states := k.states[key := k.states[key].(inFlight := k.states[key].inFlight - 1)]) else k
  }

  /** allow. */
  function AllowKey(k: Keyed, key: Key, now: real): (r: Keyed) {
    var ready := ReadyKey(Touch(k, key), key, now);
    if OpenKey(ready, key) then GiveKey(TakeKey(ready, key), key) else ready
  }

  predicate Allowed(k: Keyed, key: Key, now: real) {
    OpenKey(ReadyKey(Touch(k, key), key, now), key)
  }

  /** refund. */
  function RefundKey(k: Keyed, key: Key, now: real): (r: Keyed) {
    var t := Touch(k, key);
    if key !in t.states then t
    else
      var b := Refill(t.states[key].bucket, now, t.rate as real, t.burst as real);
      var tokens := if b.tokens + 1.0 < t.burst as real then b.tokens + 1.0 else t.burst as real;
      t.(states := t.states[key := t.states[key].(bucket := b.(tokens := tokens))])
  }

  // -------------------------------------------------------------------- trusted credentials

  datatype Trust = Trust(expires: map<Key, real>, lru: seq<Key>, maxKeys: int, ttl: real)

  /** The eviction loop of MarkAuthenticated. */
  function DropOldest(t: Trust): (r: Trust)
    ensures r.maxKeys == t.maxKeys && r.ttl == t.ttl
    decreases |t.lru|
  {
    if |t.expires| < t.maxKeys || t.lru == [] then t
    else
      var last := |t.lru| - 1;
      DropOldest(t.(expires := t.expires - {t.lru[last]}, lru := t.lru[..last]))
  }

  function MarkKey(t: Trust, key: Key, now: real): (r: Trust) {
    if key in t.expires then t.(expires := t.expires[key := now + t.ttl], lru := [key] + Without(t.lru, key))
    else
      var e := DropOldest(t);
      if |e.expires| >= e.maxKeys then e
      else e.(expires := e.expires[key := now + e.ttl], lru := [key] + e.lru)
  }

  /** isTrustedLocked: an expired credential is forgotten, a live one moves to the front. */
  function CheckTrust(t: Trust, key: Key, now: real): (r: Trust) {
    if key !in t.expires then t
    else if now > t.expires[key] then t.(expires := t.expires - {key}, lru := Without(t.lru, key))
    else t.(lru := [key] + Without(t.lru, key))
  }

  predicate Trusted(t: Trust, key: Key, now: real) {
    key in t.expires && now <= t.expires[key]
  }

  // ---------------------------------------------------------------------------- the limiter

  datatype Attempt = Attempt(client: Key, principal: Key, credential: Key)

  datatype Limiter = Limiter(shared: Pool, reserved: Pool, clients: Keyed, principals: Keyed, ingress: Keyed, trust: Trust)

  function NewPool(max: int, rate: int, burst: int): (p: Pool) { Pool(max, rate, burst, 0, EMPTY) }

  function NewKeyed(maxEntries: int, maxConcurrent: int, rate: int, burst: int): (k: Keyed) {
    Keyed(map[], [], maxEntries, maxConcurrent, rate, burst)
  }

  function NewLimiter(limits: Limits): (l: Limiter) {
    var n := NormalizeLimits(limits);
    Limiter(
      NewPool(n.maxConcurrent - n.reservedConcurrent, n.rate - n.reservedRate, n.burst - n.reservedBurst),
      NewPool(n.reservedConcurrent, n.reservedRate, n.reservedBurst),
      NewKeyed(n.maxKeys, n.clientConcurrent, n.clientRate, n.clientBurst),
      NewKeyed(n.maxKeys, n.principalConcurrent, n.principalRate, n.principalBurst),
      NewKeyed(n.maxKeys, 1, n.ingressRate, n.ingressBurst),
      Trust(map[], [], n.maxKeys, n.trustedTtl))
  }

  /** What TryAcquire gave: the entries and the pool that its release function gives back to. */
  datatype Grant = Grant(client: Key, principal: Key, reserved: bool)

  datatype Acquired = Acquired(after: Limiter, grant: Option<Grant>)

  /** TryAcquire up to the choice of the pool: the keyed entries, available in order. */
  function Admit(l: Limiter, a: Attempt, now: real): (r: Limiter) {
    var clients := ReadyKey(Touch(l.clients, a.client), a.client, now);
    var principals := Touch(l.principals, a.principal);
    l.(clients := clients,
       principals := if OpenKey(clients, a.client) then ReadyKey(principals, a.principal, now) else principals)
  }

  predicate Admitted(l: Limiter, a: Attempt) {
    OpenKey(l.clients, a.client) && OpenKey(l.principals, a.principal)
  }

  /** The pools after TryAcquire has looked at them: the reserve only for a trusted credential. */
  function ChoosePool(l: Limiter, a: Attempt, now: real): (r: Limiter) {
    var m := l.(shared := l.shared.Ready(now));
    if m.shared.Open() then m
    else
      var t := m.(trust := CheckTrust(m.trust, a.credential, now));
      if Trusted(m.trust, a.credential, now) then t.(reserved := t.reserved.Ready(now)) else t
  }

  function TryAcquire(l: Limiter, a: Attempt, now: real): (r: Acquired) {
    var m := Admit(l, a, now);
    if !Admitted(m, a) then Acquired(m, None)
    else
      var c := ChoosePool(m, a, now);
      var taken := c.(clients := TakeKey(c.clients, a.client), principals := TakeKey(c.principals, a.principal));
      if c.shared.Open() then
        Acquired(taken.(shared := c.shared.Take()), Some(Grant(a.client, a.principal, false)))
      else if Trusted(m.trust, a.credential, now) && c.reserved.Open() then
        Acquired(taken.(reserved := c.reserved.Take()), Some(Grant(a.client, a.principal, true)))
      else Acquired(c, None)
  }

  /** The release function of a grant. */
  function Release(l: Limiter, g: Grant): (r: Limiter) {
    l.(clients := GiveKey(l.clients, g.client), principals := GiveKey(l.principals, g.principal),
       shared := if g.reserved then l.shared else l.shared.Give(),
       reserved := if g.reserved then l.reserved.Give() else l.reserved)
  }
}
