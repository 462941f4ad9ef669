/** The bounded, expiring cache of group memberships and of rejected credentials. */
module GroupCache {
  import opened Text
  import opened CredentialKeys
  import opened Sizes

  const DEFAULT_MAX_ENTRIES := 10000

  datatype Entry = Entry(groups: set<string>, hash: string, expires: real, lastSeen: real)

  /** The order in which entries are evicted. */
  predicate Earlier(a: Entry, b: Entry) {
    a.expires < b.expires || (a.expires == b.expires && a.lastSeen < b.lastSeen)
  }

  function Fresh(data: map<string, Entry>, now: real): (r: map<string, Entry>) {
    map u | u in data && now <= data[u].expires :: data[u]
  }

  function FreshRejections(rejected: map<string, real>, now: real): (r: map<string, real>) {
    map h | h in rejected && now <= rejected[h] :: rejected[h]
  }

  /** An unexpired entry of this user name, stored for this very password. */
  predicate Hit(data: map<string, Entry>, upn: string, password: string, now: real) {
    upn in data && now <= data[upn].expires && data[upn].hash == CredentialHash(upn, password)
  }

  /** A hit is marked as seen; an expired entry is dropped. */
  function AfterGet(data: map<string, Entry>, upn: string, password: string, now: real): (r: map<string, Entry>) {
    if Hit(data, upn, password, now) then data[upn := data[upn].(lastSeen := now)]
    else if upn in data && now > data[upn].expires then data - {upn}
    else data
  }

  predicate IsRejected(rejected: map<string, real>, hash: string, now: real) {
    hash in rejected && now <= rejected[hash]
  }

  function AfterRejected(rejected: map<string, real>, hash: string, now: real): (r: map<string, real>) {
    if hash in rejected && now > rejected[hash] then rejected - {hash} else rejected
  }

  /** Apart from `key`, `after` is what is left of `before` when the earliest entries had to go. */
  ghost predicate EarliestGone(before: map<string, Entry>, after: map<string, Entry>, key: string) {
    && (forall u :: u in after && u != key ==> u in before && after[u] == before[u])
    && (forall u, v :: u in before && u != key && u !in after && v in after && v != key ==> v in before && !Earlier(before[v], before[u]))
  }

  ghost predicate EarliestRejectionsGone(before: map<string, real>, after: map<string, real>, key: string) {
    && (forall h :: h in after && h != key ==> h in before && after[h] == before[h])
    && (forall h, k :: h in before && h != key && h !in after && k in after && k != key ==> k in before && before[h] <= before[k])
  }

  /** The map after Set: the new entry, no expired ones, and as many of the others as fit, those
      that expire last. An entry that is replaced pushes nothing out. */
  ghost predicate SetTo(before: map<string, Entry>, after: map<string, Entry>, upn: string, e: Entry, now: real, max: int) {
    var live := Fresh(before, now);
    && upn in after && after[upn] == e && |after| <= max && EarliestGone(live, after, upn)
    && (if upn in live || |live| < max then after == live[upn := e] else |after| == max)
  }

  ghost predicate RejectTo(before: map<string, real>, after: map<string, real>, hash: string, until: real, now: real, max: int) {
    var live := FreshRejections(before, now);
    && hash in after && after[hash] == until && |after| <= max && EarliestRejectionsGone(live, after, hash)
    && (if hash in live || |live| < max then after == live[hash := until] else |after| == max)
  }

  lemma NoMoreThan<T>(a: map<string, T>, b: map<string, T>)
    requires a.Keys <= b.Keys
    ensures |a| <= |b|
  {
    assert |a.Keys| == |a| && |b.Keys| == |b|;
    SubsetIsSmaller(a.Keys, b.Keys);
  }

  /** After Set the user name hits with that password, until the entry expires, and with no other. */
  lemma SetThenGet(before: map<string, Entry>, after: map<string, Entry>, upn: string, password: string, groups: set<string>,
                   now: real, ttl: real, max: int, other: string, later: real)
    requires SetTo(before, after, upn, Entry(groups, CredentialHash(upn, password), now + ttl, now), now, max)
    ensures Hit(after, upn, other, later) <==> other == password && later <= now + ttl
    ensures Hit(after, upn, other, later) ==> after[upn].groups == groups
  {
    hide Fresh, EarliestGone;
    if CredentialHash(upn, other) == CredentialHash(upn, password) { SameHash(upn, other, upn, password); }
  }

  /** Putting the entry into what was kept gives a map that Set may leave. */
  lemma PutEntry(before: map<string, Entry>, kept: map<string, Entry>, upn: string, e: Entry, now: real, max: int)
    requires var live := Fresh(before, now);
             && |kept| <= max && (if upn in live || |live| < max then kept == live else |kept| == max - 1)
             && (upn !in live ==> upn !in kept && |kept| < max && EarliestGone(live, kept, upn))
    ensures SetTo(before, kept[upn := e], upn, e, now, max)
  {
    SizeUpdate(kept, upn, e);
    hide Fresh, Earlier;
  }

  /** What Set evicts, it evicts in order: first what expires first, and of what expires together first
      what was longest unseen; and nothing stays that has expired. */
  lemma EvictsInOrder(before: map<string, Entry>, after: map<string, Entry>, upn: string, e: Entry, now: real, max: int, u: string, v: string)
    requires SetTo(before, after, upn, e, now, max) && e.expires >= now && v in after && v != upn
    ensures now <= after[v].expires && v in before && after[v] == before[v]
    ensures u in before && u != upn && u !in after ==>
              || before[u].expires < now || before[u].expires < before[v].expires
              || (before[u].expires == before[v].expires && before[u].lastSeen <= before[v].lastSeen)
  {
    var live := Fresh(before, now);
    assert v in live;
    if u in before && u != upn && u !in after && before[u].expires >= now { assert u in live && !Earlier(live[v], live[u]); }
  }

  /** The same for rejections. */
  lemma RejectionsGoInOrder(before: map<string, real>, after: map<string, real>, hash: string, until: real, now: real, max: int, u: string, v: string)
    requires RejectTo(before, after, hash, until, now, max) && v in after && v != hash
    ensures now <= after[v] && v in before && after[v] == before[v]
    ensures u in before && u != hash && u !in after ==> before[u] < now || before[u] <= before[v]
  {
    var live := FreshRejections(before, now);
    assert v in live;
    if u in before && u != hash && u !in after && before[u] >= now { assert u in live; }
  }

  lemma SetIsBounded(before: map<string, Entry>, after: map<string, Entry>, upn: string, e: Entry, now: real, max: int)
    requires SetTo(before, after, upn, e, now, max)
    ensures |after| <= max
  {}

  lemma PutRejection(before: map<string, real>, kept: map<string, real>, hash: string, until: real, now: real, max: int)
    requires var live := FreshRejections(before, now);
             && |kept| <= max && (if hash in live || |live| < max then kept == live else |kept| == max - 1)
             && (hash !in live ==> hash !in kept && |kept| < max && EarliestRejectionsGone(live, kept, hash))
    ensures RejectTo(before, kept[hash := until], hash, until, now, max)
  {
    SizeUpdate(kept, hash, until);
    hide FreshRejections;
  }

  class Cache {
    const ttl: real
    const maxEntries: int
    var data: map<string, Entry>
    var rejected: map<string, real>

    ghost predicate Valid()
      reads this
    {
      maxEntries >= 1 && |data| <= maxEntries && |rejected| <= maxEntries
    }

    constructor (ttl: real, maxEntries: int)
      ensures Valid() && data == map[] && rejected == map[] && this.ttl == ttl
      ensures this.maxEntries == if maxEntries <= 0 then DEFAULT_MAX_ENTRIES else maxEntries
    {
      this.ttl := ttl;
      this.maxEntries := if maxEntries <= 0 then DEFAULT_MAX_ENTRIES else maxEntries;
      data, rejected := map[], map[];
    }

    /** Get: a hit only for an entry that has not expired and was stored for this very password. */
    method Get(upn: string, password: string, now: real) returns (groups: Option<set<string>>)
      requires Valid()
      modifies `data
      ensures Valid()
      ensures groups.Some? <==> Hit(old(data), upn, password, now)
      ensures groups.Some? ==> groups.value == old(data)[upn].groups
      ensures data == AfterGet(old(data), upn, password, now)
    {
      if upn !in data { return None; }
      var e := data[upn];
      if now > e.expires {
        SizeRemove(data, upn);
        data := data - {upn};
        return None;
      }
      if e.hash != CredentialHash(upn, password) { return None; }
      SizeUpdate(data, upn, e.(lastSeen := now));
      data := data[upn := e.(lastSeen := now)];
      return Some(e.groups);
    }

    method Rejected(upn: string, password: string, now: real) returns (r: bool)
      requires Valid()
      modifies `rejected
      ensures Valid()
      ensures r == IsRejected(old(rejected), CredentialHash(upn, password), now)
      ensures rejected == AfterRejected(old(rejected), CredentialHash(upn, password), now)
    {
      var h := CredentialHash(upn, password);
      if h !in rejected { return false; }
      if now > rejected[h] {
        SizeRemove(rejected, h);
        rejected := rejected - {h};
        return false;
      }
      return true;
    }

    // --------------------------------------------------------------------- eviction loops

    method EvictExpired(now: real)
      requires Valid()
      modifies `data
      ensures Valid() && data == Fresh(old(data), now)
    {
      var left := data.Keys;
      while left != {}
        invariant left <= data.Keys && data.Keys <= old(data).Keys
        invariant forall u :: u in data ==> data[u] == old(data)[u]
        invariant forall u :: u in old(data) && u !in left ==> (u in data <==> now <= old(data)[u].expires)
        decreases |left|
      {
        var u :| u in left;
        left := left - {u};
        if now > data[u].expires { data := data - {u}; }
      }
      NoMoreThan(data, old(data));
      assert data == Fresh(old(data), now);
    }

    /** The entry that expires first, of equals the one not seen for longest. */
    method Oldest() returns (victim: string)
      requires data != map[]
      ensures victim in data && forall u :: u in data ==> !Earlier(data[u], data[victim])
    {
      victim :| victim in data;
      var left := data.Keys - {victim};
      while left != {}
        invariant left <= data.Keys && victim in data
        invariant forall u :: u in data && u !in left ==> !Earlier(data[u], data[victim])
        decreases |left|
      {
        var u :| u in left;
        left := left - {u};
        if Earlier(data[u], data[victim]) { victim := u; }
      }
    }

    method MakeRoom(key: string)
      requires maxEntries >= 1
      modifies `data
      ensures |data| < maxEntries && EarliestGone(old(data), data, key) && data.Keys <= old(data).Keys
      ensures if |old(data)| < maxEntries then data == old(data) else |data| == maxEntries - 1
    {
      while |data| >= maxEntries
        invariant EarliestGone(old(data), data, key) && data.Keys <= old(data).Keys
        invariant if |old(data)| < maxEntries then data == old(data) else |data| >= maxEntries - 1
        decreases |data|
      {
        var victim := Oldest();
        SizeRemove(data, victim);
        data := data - {victim};
      }
    }

    method EvictExpiredRejections(now: real)
      requires Valid()
      modifies `rejected
      ensures Valid() && rejected == FreshRejections(old(rejected), now)
    {
      var left := rejected.Keys;
      while left != {}
        invariant left <= rejected.Keys && rejected.Keys <= old(rejected).Keys
        invariant forall h :: h in rejected ==> rejected[h] == old(rejected)[h]
        invariant forall h :: h in old(rejected) && h !in left ==> (h in rejected <==> now <= old(rejected)[h])
        decreases |left|
      {
        var h :| h in left;
        left := left - {h};
        if now > rejected[h] { rejected := rejected - {h}; }
      }
      NoMoreThan(rejected, old(rejected));
      assert rejected == FreshRejections(old(rejected), now);
    }

    method OldestRejection() returns (victim: string)
      requires rejected != map[]
      ensures victim in rejected && forall h :: h in rejected ==> rejected[victim] <= rejected[h]
    {
      victim :| victim in rejected;
      var left := rejected.Keys - {victim};
      while left != {}
        invariant left <= rejected.Keys && victim in rejected
        invariant forall h :: h in rejected && h !in left ==> rejected[victim] <= rejected[h]
        decreases |left|
      {
        var h :| h in left;
        left := left - {h};
        if rejected[h] < rejected[victim] { victim := h; }
      }
    }

    method MakeRoomForRejection(key: string)
      requires maxEntries >= 1
      modifies `rejected
      ensures |rejected| < maxEntries && EarliestRejectionsGone(old(rejected), rejected, key) && rejected.Keys <= old(rejected).Keys
      ensures if |old(rejected)| < maxEntries then rejected == old(rejected) else |rejected| == maxEntries - 1
    {
      while |rejected| >= maxEntries
        invariant EarliestRejectionsGone(old(rejected), rejected, key) && rejected.Keys <= old(rejected).Keys
        invariant if |old(rejected)| < maxEntries then rejected == old(rejected) else |rejected| >= maxEntries - 1
        decreases |rejected|
      {
        var victim := OldestRejection();
        SizeRemove(rejected, victim);
        rejected := rejected - {victim};
      }
    }

    // --------------------------------------------------------------------------- updates

    method Set(upn: string, password: string, groups: set<string>, now: real)
      requires Valid()
      modifies this
      ensures Valid()
      ensures SetTo(old(data), data, upn, Entry(groups, CredentialHash(upn, password), now + ttl, now), now, maxEntries)
      ensures rejected == old(rejected) - {CredentialHash(upn, password)}
    {
      hide Fresh, EarliestGone, SetTo;
      EvictExpired(now);
      if upn !in data { MakeRoom(upn); }
      var hash := CredentialHash(upn, password);
      var e := Entry(groups, hash, now + ttl, now);
      PutEntry(old(data), data, upn, e, now, maxEntries);
      data := data[upn := e];
      SetIsBounded(old(data), data, upn, e, now, maxEntries);
      NoMoreThan(rejected - {hash}, rejected);
      rejected := rejected - {hash};
    }

    method Reject(upn: string, password: string, now: real)
      requires Valid()
      modifies `rejected
      ensures Valid() && RejectTo(old(rejected), rejected, CredentialHash(upn, password), now + ttl, now, maxEntries)
    {
      hide FreshRejections, EarliestRejectionsGone;
      EvictExpiredRejections(now);
      var hash := CredentialHash(upn, password);
      if hash !in rejected { MakeRoomForRejection(hash); }
      PutRejection(old(rejected), rejected, hash, now + ttl, now, maxEntries);
      rejected := rejected[hash := now + ttl];
    }
  }
}
