/** What every operation of the limiter keeps. */
module LimiterInv {
  import opened Text
  import opened LimiterSpec
  import opened Sizes
  import opened LruLists

  // ------------------------------------------------------------------- outstanding grants

  function Side(g: Grant, clients: bool): (key: Key) { if clients then g.client else g.principal }

  function CountKey(grants: seq<Grant>, clients: bool, key: Key): (n: nat) {
    if grants == [] then 0 else (if Side(grants[0], clients) == key then 1 else 0) + CountKey(grants[1..], clients, key)
  }

  function CountPool(grants: seq<Grant>, reserved: bool): (n: nat) {
    if grants == [] then 0 else (if grants[0].reserved == reserved then 1 else 0) + CountPool(grants[1..], reserved)
  }

  lemma {:induction false} CountKeyJoin(a: seq<Grant>, b: seq<Grant>, clients: bool, key: Key)
    ensures CountKey(a + b, clients, key) == CountKey(a, clients, key) + CountKey(b, clients, key)
  {
    if a == [] {
      assert a + b == b;
    } else {
      CountKeyJoin(a[1..], b, clients, key);
      assert (a + b)[0] == a[0] && (a + b)[1..] == a[1..] + b;
    }
  }

  lemma CountKeySplit(a: seq<Grant>, g: Grant, b: seq<Grant>, clients: bool, key: Key)
    ensures CountKey(a + [g] + b, clients, key) == CountKey(a + b, clients, key) + if Side(g, clients) == key then 1 else 0
  {
    CountKeyJoin(a + [g], b, clients, key);
    CountKeyJoin(a, [g], clients, key);
    CountKeyJoin(a, b, clients, key);
    CountKeyOne(g, clients, key);
    hide CountKey;
  }

  lemma CountKeyOne(g: Grant, clients: bool, key: Key)
    ensures CountKey([g], clients, key) == if Side(g, clients) == key then 1 else 0
  {
    assert [g][1..] == [];
  }

  lemma {:induction false} CountPoolJoin(a: seq<Grant>, b: seq<Grant>, reserved: bool)
    ensures CountPool(a + b, reserved) == CountPool(a, reserved) + CountPool(b, reserved)
  {
    if a == [] {
      assert a + b == b;
    } else {
      CountPoolJoin(a[1..], b, reserved);
      assert (a + b)[0] == a[0] && (a + b)[1..] == a[1..] + b;
    }
  }

  lemma CountPoolSplit(a: seq<Grant>, g: Grant, b: seq<Grant>, reserved: bool)
    ensures CountPool(a + [g] + b, reserved) == CountPool(a + b, reserved) + if g.reserved == reserved then 1 else 0
  {
    CountPoolJoin(a + [g], b, reserved);
    CountPoolJoin(a, [g], reserved);
    CountPoolJoin(a, b, reserved);
    CountPoolOne(g, reserved);
    hide CountPool;
  }

  lemma CountPoolOne(g: Grant, reserved: bool)
    ensures CountPool([g], reserved) == if g.reserved == reserved then 1 else 0
  {
    assert [g][1..] == [];
  }

  lemma {:induction false} PoolsPartition(grants: seq<Grant>)
    ensures CountPool(grants, false) + CountPool(grants, true) == |grants|
  {
    if grants != [] { PoolsPartition(grants[1..]); }
  }

  // ---------------------------------------------------------------------------- invariants

  predicate BucketOk(b: Bucket, burst: int) {
    0.0 <= b.tokens <= burst as real
  }

  lemma RefillOk(b: Bucket, now: real, rate: int, burst: int)
    requires BucketOk(b, burst) && rate >= 0 && burst >= 0
    ensures BucketOk(Refill(b, now, rate as real, burst as real), burst)
  {
    if b.last.Some? && now > b.last.value { GainIsPositive(now - b.last.value, rate as real); }
    hide Gained;
  }

  lemma GainIsPositive(elapsed: real, rate: real)
    requires elapsed >= 0.0 && rate >= 0.0
    ensures Gained(elapsed, rate) >= 0.0
  {}

  ghost predicate PoolOk(p: Pool, grants: seq<Grant>, reserved: bool) {
    && p.inFlight == CountPool(grants, reserved) && p.inFlight <= p.max
    && p.max >= 0 && p.rate >= 0 && p.burst >= 0 && BucketOk(p.bucket, p.burst)
  }

  ghost predicate Buckets(states: map<Key, Entry>, burst: int) {
    forall key :: key in states ==> BucketOk(states[key].bucket, burst)
  }

  /** Every entry counts the grants of its key, and every grant has its entry. */
  ghost predicate Tallies(states: map<Key, Entry>, max: int, grants: seq<Grant>, clients: bool) {
    && (forall key :: key in states ==> states[key].inFlight == CountKey(grants, clients, key) <= max)
    && (forall key :: CountKey(grants, clients, key) > 0 ==> key in states)
  }

  predicate Enabled(k: Keyed) { k.rate >= 1 && k.burst >= 1 && k.maxConcurrent >= 1 && k.maxEntries >= 1 }

  /** The map and the list hold the same keys within the bound, buckets stay within their burst
      and the entries tally the grants. */
  ghost predicate KeyedOk(k: Keyed, grants: seq<Grant>, clients: bool) {
    && Enabled(k) && Lists(k.lru, k.states.Keys) && |k.states| <= k.maxEntries
    && Buckets(k.states, k.burst) && Tallies(k.states, k.maxConcurrent, grants, clients)
  }

  // ----------------------------------------------------------------------- updates of entries

  lemma TalliesDrop(states: map<Key, Entry>, max: int, grants: seq<Grant>, clients: bool, victim: Key)
    requires Tallies(states, max, grants, clients) && victim in states && states[victim].inFlight == 0
    ensures Tallies(states - {victim}, max, grants, clients)
  {
    hide CountKey;
  }

  lemma TalliesNew(states: map<Key, Entry>, max: int, grants: seq<Grant>, clients: bool, key: Key)
    requires Tallies(states, max, grants, clients) && key !in states && max >= 0
    ensures Tallies(states[key := Entry(0, EMPTY)], max, grants, clients)
  {
    hide CountKey;
    assert CountKey(grants, clients, key) == 0;
  }

  lemma TalliesBucket(states: map<Key, Entry>, max: int, grants: seq<Grant>, clients: bool, key: Key, b: Bucket)
    requires Tallies(states, max, grants, clients) && key in states
    ensures Tallies(states[key := states[key].(bucket := b)], max, grants, clients)
  {
    hide CountKey;
  }

  lemma TalliesMore(states: map<Key, Entry>, max: int, grants: seq<Grant>, clients: bool, g: Grant, e: Entry)
    requires Tallies(states, max, grants, clients)
    requires var key := Side(g, clients); key in states && states[key].inFlight < max && e.inFlight == states[key].inFlight + 1
    ensures Tallies(states[Side(g, clients) := e], max, grants + [g], clients)
  {
    hide CountKey;
    forall x: Key ensures CountKey(grants + [g], clients, x) == CountKey(grants, clients, x) + if x == Side(g, clients) then 1 else 0 {
      CountKeySplit(grants, g, [], clients, x);
      assert grants + [g] + [] == grants + [g] && grants + [] == grants;
    }
  }

  lemma TalliesLess(states: map<Key, Entry>, max: int, a: seq<Grant>, g: Grant, b: seq<Grant>, clients: bool, e: Entry)
    requires Tallies(states, max, a + [g] + b, clients)
    requires Side(g, clients) in states && e.inFlight == states[Side(g, clients)].inFlight - 1
    ensures Tallies(states[Side(g, clients) := e], max, a + b, clients)
  {
    hide CountKey;
    forall x: Key ensures CountKey(a + [g] + b, clients, x) == CountKey(a + b, clients, x) + if x == Side(g, clients) then 1 else 0 {
      CountKeySplit(a, g, b, clients, x);
    }
  }

  /** A grant's entry is there and busy. */
  lemma GrantIsBusy(states: map<Key, Entry>, max: int, a: seq<Grant>, g: Grant, b: seq<Grant>, clients: bool)
    requires Tallies(states, max, a + [g] + b, clients)
    ensures Side(g, clients) in states && states[Side(g, clients)].inFlight > 0
  {
    CountKeySplit(a, g, b, clients, Side(g, clients));
    hide CountKey;
  }

  // ------------------------------------------------------------------------- keyed entries

  /** Dropping an idle entry loses no grant. */
  lemma DropKeeps(k: Keyed, v: nat, grants: seq<Grant>, clients: bool)
    requires v < |k.lru| && k.lru[v] in k.states && k.states[k.lru[v]].inFlight == 0
    requires KeyedOk(k, grants, clients)
    ensures KeyedOk(k.(states := k.states - {k.lru[v]}, lru := k.lru[..v] + k.lru[v + 1..]), grants, clients)
  {
    hide Lists, Tallies;
    var victim := k.lru[v];
    SizeRemove(k.states, victim);
    RemoveAt(k.lru, v, k.states.Keys);
    assert (k.states - {victim}).Keys == k.states.Keys - {victim};
    TalliesDrop(k.states, k.maxConcurrent, grants, clients, victim);
  }

  lemma {:induction false} RoomKeeps(k: Keyed, grants: seq<Grant>, clients: bool)
    requires KeyedOk(k, grants, clients)
    ensures KeyedOk(MakeRoom(k), grants, clients)
    ensures MakeRoom(k).states.Keys <= k.states.Keys
    decreases |k.states|
  {
    hide KeyedOk;
    var v := LastIdle(k.lru, k.states);
    if |k.states| >= k.maxEntries && v >= 0 {
      SizeRemove(k.states, k.lru[v]);
      DropKeeps(k, v, grants, clients);
      RoomKeeps(k.(states := k.states - {k.lru[v]}, lru := k.lru[..v] + k.lru[v + 1..]), grants, clients);
    }
  }

  lemma TouchKeeps(k: Keyed, key: Key, grants: seq<Grant>, clients: bool)
    requires KeyedOk(k, grants, clients)
    ensures KeyedOk(Touch(k, key), grants, clients)
  {
    hide Lists, Tallies, MakeRoom;
    if key in k.states {
      MoveToFront(k.lru, key, k.states.Keys);
    } else {
      RoomKeeps(k, grants, clients);
      var e := MakeRoom(k);
      if |e.states| < e.maxEntries {
        PushFront(e.lru, key, e.states.Keys);
        assert e.states[key := Entry(0, EMPTY)].Keys == e.states.Keys + {key};
        TalliesNew(e.states, e.maxConcurrent, grants, clients, key);
      }
    }
  }

  lemma ReadyKeeps(k: Keyed, key: Key, now: real, grants: seq<Grant>, clients: bool)
    requires KeyedOk(k, grants, clients)
    ensures KeyedOk(ReadyKey(k, key, now), grants, clients)
  {
    hide Lists, Tallies, Refill;
    if key in k.states {
      var b := Refill(k.states[key].bucket, now, k.rate as real, k.burst as real);
      RefillOk(k.states[key].bucket, now, k.rate, k.burst);
      TalliesBucket(k.states, k.maxConcurrent, grants, clients, key, b);
      assert k.states[key := k.states[key].(bucket := b)].Keys == k.states.Keys;
    }
  }

  lemma TakeKeeps(k: Keyed, grants: seq<Grant>, g: Grant, clients: bool)
    requires KeyedOk(k, grants, clients) && OpenKey(k, Side(g, clients))
    ensures KeyedOk(TakeKey(k, Side(g, clients)), grants + [g], clients)
  {
    hide Lists, Tallies;
    var key := Side(g, clients);
    var e := k.states[key];
    TalliesMore(k.states, k.maxConcurrent, grants, clients, g, Entry(e.inFlight + 1, e.bucket.(tokens := e.bucket.tokens - 1.0)));
    assert TakeKey(k, key).states.Keys == k.states.Keys;
  }

  lemma GiveKeeps(k: Keyed, a: seq<Grant>, g: Grant, b: seq<Grant>, clients: bool)
    requires KeyedOk(k, a + [g] + b, clients)
    ensures KeyedOk(GiveKey(k, Side(g, clients)), a + b, clients)
  {
    hide Lists, Tallies;
    var key := Side(g, clients);
    GrantIsBusy(k.states, k.maxConcurrent, a, g, b, clients);
    TalliesLess(k.states, k.maxConcurrent, a, g, b, clients, k.states[key].(inFlight := k.states[key].inFlight - 1));
    assert GiveKey(k, key).states.Keys == k.states.Keys;
  }
}
