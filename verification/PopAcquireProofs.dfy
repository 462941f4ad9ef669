/** acquire's steps, the evictions it starts, and every client close keep the invariant. */
module PopAcquireProofs {
  import opened Text
  import opened PopControl
  import opened PopControlInv
  import opened PopFrames
  import opened Sizes
  import opened PopControlProofs

  // -------------------------------------------------------------- an existing consumer

  lemma UsersPinned(cs: Consumers, calls: Calls, c: int, call: Call, x: Consumer)
    requires Users(cs, calls) && (c in calls ==> !calls[c].pc.Pinned()) && call.pc.Pinned() && call.consumer in cs
    requires x.users == cs[call.consumer].users + 1
    ensures Users(cs[call.consumer := x], calls[c := call])
  {
    var k := call.consumer;
    assert PinnedTo(calls[c := call], k) == PinnedTo(calls, k) + {c};
    forall j | j in cs && j != k ensures PinnedTo(calls[c := call], j) == PinnedTo(calls, j) {}
  }

  lemma PinsPinned(cs: Consumers, calls: Calls, ws: WorkerMap, c: int, call: Call)
    requires Pins(cs, calls, ws) && call.consumer in cs
    requires cs[call.consumer].key == call.key && cs[call.consumer].custody.Cached?
    ensures Pins(cs, calls[c := call], ws)
  {}

  lemma PinKeeps(s: State, c: int, k: int, x: Consumer, call: Call, s': State)
    requires Inv(s) && c in s.calls && s.calls[c].pc.Arriving? && k in s.consumers
    requires s.consumers[k].custody.Cached? && s.consumers[k].key == call.key && s.consumers[k].idleTimer.None?
    requires call.pc.Waiting? && call.consumer == k
    requires x == s.consumers[k].(users := s.consumers[k].users + 1, lastUsed := x.lastUsed)
    requires s' == s.(consumers := s.consumers[k := x], calls := s.calls[c := call])
    ensures Inv(s')
  {
    hide Refs, Pins, Gates, Timers, Custodies, Closes, Users, Closers, Orderly;
    var cs := s'.consumers;
    RefsSameTag(s.maxConsumers, s.consumers, s.cache, s.isClosed, k, x);
    PinsSameTag(s.consumers, s.calls, s.workers, k, x);
    PinsPinned(cs, s.calls, s.workers, c, call);
    GatesSameGate(s.consumers, s.calls, s.workers, k, x);
    GatesFollows(cs, s.calls, s.workers, c, call);
    TimersSamePointer(s.consumers, s.timers, k, x);
    CustodiesSame(s.consumers, s.calls, s.timers, s.workers, k, x);
    CustodiesFollows(cs, s.calls, s.timers, s.workers, c, call);
    ClosesSameTag(s.consumers, s.isClosed, s.closeDone, s.closeCalls, k, x);
    UsersPinned(s.consumers, s.calls, c, call, x);
    ClosersFollows(s.closers, s.timers, s.calls, c, call);
    if !s.cut {
      OrderlySameTag(s.consumers, s.calls, s.workers, k, x);
      OrderlyFollows(cs, s.calls, s.workers, c, call);
    }
  }

  // ------------------------------------------------------------------- a new consumer

  predicate Brand(x: Consumer) {
    x.users == 1 && x.gate.Free? && x.idleTimer.None? && x.idleGeneration == 0 && Untouched(x) && x.custody.Cached?
  }

  lemma RefsInserted(max: nat, cs: Consumers, cache: map<Key, int>, closed: bool, id: int, x: Consumer)
    requires Refs(max, cs, cache, closed) && !closed && id !in cs && x.key !in cache && x.custody.Cached? && |cache| < max
    ensures Refs(max, cs[id := x], cache[x.key := id], closed)
  {
    SizeUpdate(cache, x.key, id);
  }

  lemma PinsGrows(cs: Consumers, calls: Calls, ws: WorkerMap, id: int, x: Consumer)
    requires Pins(cs, calls, ws) && id !in cs
    ensures Pins(cs[id := x], calls, ws)
  {}

  lemma GatesGrows(cs: Consumers, calls: Calls, ws: WorkerMap, id: int, x: Consumer)
    requires Gates(cs, calls, ws) && Pins(cs, calls, ws) && id !in cs && id !in ws && x.gate.Free?
    ensures Gates(cs[id := x], calls, ws)
  {}

  lemma TimersGrows(cs: Consumers, ts: TimerMap, id: int, x: Consumer)
    requires Timers(cs, ts) && id !in cs && x.idleTimer.None? && x.idleGeneration >= 0
    ensures Timers(cs[id := x], ts)
  {}

  lemma CustodiesGrows(cs: Consumers, calls: Calls, ts: TimerMap, ws: WorkerMap, id: int, x: Consumer)
    requires Custodies(cs, calls, ts, ws) && id !in cs && x.custody.Cached? && Untouched(x)
    ensures Custodies(cs[id := x], calls, ts, ws)
  {}

  lemma UsersGrows(cs: Consumers, calls: Calls, ws: WorkerMap, c: int, call: Call, x: Consumer)
    requires Users(cs, calls) && Pins(cs, calls, ws) && call.consumer !in cs && call.pc.Pinned() && x.users == 1
    requires c in calls ==> !calls[c].pc.Pinned()
    ensures Users(cs[call.consumer := x], calls[c := call])
  {
    var id := call.consumer;
    forall d | d in calls && calls[d].pc.Pinned() ensures calls[d].consumer != id {}
    assert PinnedTo(calls[c := call], id) == {c};
    forall j | j in cs ensures PinnedTo(calls[c := call], j) == PinnedTo(calls, j) {}
  }

  lemma OrderlyGrows(cs: Consumers, calls: Calls, ws: WorkerMap, id: int, x: Consumer)
    requires Orderly(cs, calls, ws) && id !in cs && x.custody.Cached?
    ensures Orderly(cs[id := x], calls, ws)
  {}

  // ------------------------------------------------------------------------- eviction

  lemma RefsSwapped(max: nat, cs: Consumers, cache: map<Key, int>, closed: bool, v: int, y: Consumer, id: int, x: Consumer)
    requires Refs(max, cs, cache, closed) && !closed && v in cs && cs[v].custody.Cached? && !y.custody.Cached?
    requires id !in cs && x.key !in cache && x.custody.Cached?
    ensures Refs(max, cs[v := y][id := x], (cache - {cs[v].key})[x.key := id], closed)
  {
    RefsDetached(max, cs, cache, closed, v, y);
    SizeRemove(cache, cs[v].key);
    RefsInserted(max, cs[v := y], cache - {cs[v].key}, closed, id, x);
  }

  lemma CustodiesEvicted(cs: Consumers, calls: Calls, ts: TimerMap, ws: WorkerMap, c: int, call: Call, v: int, y: Consumer)
    requires Custodies(cs, calls, ts, ws) && v in cs && cs[v].custody.Cached? && c in calls && !calls[c].pc.Evictor()
    requires y == cs[v].(custody := Evicted(c)) && call.pc == Evicting(v)
    ensures Custodies(cs[v := y], calls[c := call], ts, ws)
  {}

  lemma TimersUnpointed(cs: Consumers, ts: TimerMap, k: int, x: Consumer)
    requires Timers(cs, ts) && k in cs && cs[k].idleTimer.None? && cs[k].custody.Cached?
    requires x.idleTimer.None? && x.idleGeneration == cs[k].idleGeneration
    ensures Timers(cs[k := x], ts)
  {}

  /** The victim's half of an eviction: out of the cache, into the evicting call's custody. */
  lemma VictimGroups(s: State, c: int, v: int, y: Consumer, cs: Consumers)
    requires Inv(s) && v in s.consumers && s.consumers[v].custody.Cached? && s.consumers[v].idleTimer.None?
    requires PinnedTo(s.calls, v) == {} && y == s.consumers[v].(custody := Evicted(c)) && cs == s.consumers[v := y]
    ensures Pins(cs, s.calls, s.workers) && Gates(cs, s.calls, s.workers) && Timers(cs, s.timers)
    ensures Users(cs, s.calls) && (!s.cut ==> Orderly(cs, s.calls, s.workers))
  {
    hide Refs, Pins, Gates, Timers, Custodies, Closes, Users, Closers, Orderly;
    PinsSameTag(s.consumers, s.calls, s.workers, v, y);
    GatesSameGate(s.consumers, s.calls, s.workers, v, y);
    TimersUnpointed(s.consumers, s.timers, v, y);
    UsersSame(s.consumers, s.calls, v, y);
    if !s.cut { OrderlyDetached(s.consumers, s.calls, s.workers, v, y); }
  }

  /** A new consumer with its first call beside a group-preserving change of the others. */
  lemma NewcomerGroups(mid: Consumers, was: Calls, ts: TimerMap, ws: WorkerMap, cut: bool, c: int, x: Consumer, call: Call,
                       cs: Consumers, calls: Calls)
    requires Pins(mid, was, ws) && Gates(mid, was, ws) && Timers(mid, ts) && Users(mid, was) && (!cut ==> Orderly(mid, was, ws))
    requires c in was && was[c].pc.Arriving? && call.consumer !in mid && call.consumer !in ws
    requires Brand(x) && x.key == call.key && call.pc.Pinned() && !call.pc.HoldsGate()
    requires cs == mid[call.consumer := x] && calls == was[c := call]
    ensures Pins(cs, calls, ws) && Gates(cs, calls, ws) && Timers(cs, ts) && Users(cs, calls)
    ensures !cut ==> Orderly(cs, calls, ws)
  {
    hide Pins, Gates, Timers, Users, Orderly;
    var id := call.consumer;
    PinsGrows(mid, was, ws, id, x);
    PinsPinned(cs, was, ws, c, call);
    GatesGrows(mid, was, ws, id, x);
    GatesFollows(cs, was, ws, c, call);
    TimersGrows(mid, ts, id, x);
    UsersGrows(mid, was, ws, c, call, x);
    if !cut {
      OrderlyGrows(mid, was, ws, id, x);
      OrderlyFollows(cs, was, ws, c, call);
    }
  }

  lemma InsertKeeps(s: State, c: int, x: Consumer, call: Call, s': State)
    requires Inv(s) && c in s.calls && s.calls[c].pc.Arriving? && !s.isClosed && call.consumer !in s.consumers
    requires Brand(x) && x.key == call.key && x.key !in s.cache && |s.cache| < s.maxConsumers && call.pc.Waiting?
    requires s' == s.(consumers := s.consumers[call.consumer := x], cache := s.cache[x.key := call.consumer],
                      calls := s.calls[c := call])
    ensures Inv(s')
  {
    hide Refs, Pins, Gates, Timers, Custodies, Closes, Users, Closers, Orderly;
    RefsInserted(s.maxConsumers, s.consumers, s.cache, s.isClosed, call.consumer, x);
    NewcomerGroups(s.consumers, s.calls, s.timers, s.workers, s.cut, c, x, call, s'.consumers, s'.calls);
    CustodiesGrows(s.consumers, s.calls, s.timers, s.workers, call.consumer, x);
    CustodiesFollows(s'.consumers, s.calls, s.timers, s.workers, c, call);
    ClosesNotYet(s, s'.consumers);
    ClosersFollows(s.closers, s.timers, s.calls, c, call);
  }

  lemma ReplaceKeeps(s: State, c: int, v: int, y: Consumer, x: Consumer, call: Call, s': State)
    requires Inv(s) && c in s.calls && s.calls[c].pc.Arriving? && !s.isClosed && call.consumer !in s.consumers
    requires Brand(x) && x.key == call.key && x.key !in s.cache && call.pc == Evicting(v)
    requires v in s.consumers && s.consumers[v].custody.Cached? && s.consumers[v].idleTimer.None?
    requires PinnedTo(s.calls, v) == {} && y == s.consumers[v].(custody := Evicted(c))
    requires s' == s.(consumers := s.consumers[v := y][call.consumer := x],
                      cache := (s.cache - {y.key})[x.key := call.consumer],
                      closers := s.closers + 1, calls := s.calls[c := call])
    ensures Inv(s')
  {
    hide Refs, Pins, Gates, Timers, Custodies, Closes, Users, Closers, Orderly;
    var mid := s.consumers[v := y];
    RefsSwapped(s.maxConsumers, s.consumers, s.cache, s.isClosed, v, y, call.consumer, x);
    VictimGroups(s, c, v, y, mid);
    NewcomerGroups(mid, s.calls, s.timers, s.workers, s.cut, c, x, call, s'.consumers, s'.calls);
    CustodiesEvicted(s.consumers, s.calls, s.timers, s.workers, c, call, v, y);
    CustodiesGrows(mid, s'.calls, s.timers, s.workers, call.consumer, x);
    ClosesNotYet(s, s'.consumers);
    ClosersEviction(s.closers, s.timers, s.calls, c, call);
  }

  // ------------------------------------------------------------------ closing a client

  /** A client that its custodian begins to close, or is through with. */
  predicate Progress(y: Consumer, x: Consumer) {
    || (Untouched(y) && x == y.(phase := Closing, closes := y.closes + 1))
    || (ClosingOnce(y) && x == y.(phase := Closed, custody := Gone))
  }

  lemma TimersRetired(cs: Consumers, ts: TimerMap, k: int, x: Consumer)
    requires Timers(cs, ts) && k in cs && !cs[k].custody.Cached? && Progress(cs[k], x)
    requires cs[k].custody.Expired? ==> x.custody == cs[k].custody
    ensures Timers(cs[k := x], ts)
  {}

  /** What a step of a close keeps: all groups but Gates and Custodies, and Timers for an expiry. */
  lemma ClosingGroups(s: State, k: int, x: Consumer, cs: Consumers)
    requires Inv(s) && k in s.consumers && !s.consumers[k].custody.Cached? && Progress(s.consumers[k], x)
    requires cs == s.consumers[k := x]
    ensures Refs(s.maxConsumers, cs, s.cache, s.isClosed) && Pins(cs, s.calls, s.workers)
    ensures Closes(cs, s.isClosed, s.closeDone, s.closeCalls) && Users(cs, s.calls)
    ensures !s.cut ==> Orderly(cs, s.calls, s.workers)
  {
    hide Refs, Pins, Gates, Timers, Custodies, Closes, Users, Closers, Orderly;
    RefsSameTag(s.maxConsumers, s.consumers, s.cache, s.isClosed, k, x);
    PinsSameTag(s.consumers, s.calls, s.workers, k, x);
    ClosesSameTag(s.consumers, s.isClosed, s.closeDone, s.closeCalls, k, x);
    UsersSame(s.consumers, s.calls, k, x);
    if !s.cut { OrderlySameTag(s.consumers, s.calls, s.workers, k, x); }
  }

  lemma CustodiesEvictProgress(cs: Consumers, calls: Calls, ts: TimerMap, ws: WorkerMap, c: int, call: Call, x: Consumer)
    requires Custodies(cs, calls, ts, ws) && c in calls && calls[c].pc.Evictor() && calls[c].pc.victim in cs
    requires Progress(cs[calls[c].pc.victim], x)
    requires call.pc == if calls[c].pc.Evicting? then EvictClosing(calls[c].pc.victim) else Waiting
    ensures Custodies(cs[calls[c].pc.victim := x], calls[c := call], ts, ws)
  {}

  lemma EvictionKeeps(s: State, c: int, x: Consumer, call: Call, s': State)
    requires Inv(s) && c in s.calls && s.calls[c].pc.Evictor() && s.calls[c].pc.victim in s.consumers
    requires Progress(s.consumers[s.calls[c].pc.victim], x)
    requires call == s.calls[c].(pc := if s.calls[c].pc.Evicting? then EvictClosing(s.calls[c].pc.victim) else Waiting)
    requires s' == s.(consumers := s.consumers[s.calls[c].pc.victim := x], calls := s.calls[c := call],
                      closers := if call.pc.Waiting? then s.closers - 1 else s.closers)
    ensures Inv(s')
  {
    hide Refs, Pins, Gates, Timers, Custodies, Closes, Users, Closers, Orderly;
    var v := s.calls[c].pc.victim;
    EvictedIsDetached(s, c);
    ClosingGroups(s, v, x, s'.consumers);
    PinsFollows(s'.consumers, s.calls, s.workers, c, call);
    GatesSameGate(s.consumers, s.calls, s.workers, v, x);
    GatesFollows(s'.consumers, s.calls, s.workers, c, call);
    TimersRetired(s.consumers, s.timers, v, x);
    CustodiesEvictProgress(s.consumers, s.calls, s.timers, s.workers, c, call, x);
    UsersFollows(s'.consumers, s.calls, c, call);
    if call.pc.Waiting? {
      ClosersEviction(s.closers, s.timers, s.calls, c, call);
    } else {
      ClosersEvictorStays(s.closers, s.timers, s.calls, c, call);
    }
    if !s.cut { OrderlyFollows(s'.consumers, s.calls, s.workers, c, call); }
  }

  lemma ClosersEvictorStays(closers: int, ts: TimerMap, calls: Calls, c: int, call: Call)
    requires Closers(closers, ts, calls) && c in calls && calls[c].pc.Evictor() && call.pc.Evictor()
    ensures Closers(closers, ts, calls[c := call])
  {
    assert Evictors(calls[c := call]) == Evictors(calls);
  }

  lemma EvictedIsDetached(s: State, c: int)
    requires Inv(s) && c in s.calls && s.calls[c].pc.Evictor() && s.calls[c].pc.victim in s.consumers
    ensures s.consumers[s.calls[c].pc.victim].custody == Evicted(c) && s.calls[c].pc.victim !in s.workers
  {
    hide Refs, Pins, Gates, Timers, Closes, Users, Closers, Orderly;
    var x := s.consumers[s.calls[c].pc.victim];
    WorkersAreDraining(s.consumers, s.calls, s.timers, s.workers, s.calls[c].pc.victim);
  }

  lemma WorkersAreDraining(cs: Consumers, calls: Calls, ts: TimerMap, ws: WorkerMap, k: int)
    requires Custodies(cs, calls, ts, ws) && k in cs
    ensures cs[k].custody.Evicted? || cs[k].custody.Expired? ==> k !in ws
  {}

  lemma CustodiesExpiryBegin(cs: Consumers, calls: Calls, ts: TimerMap, ws: WorkerMap, t: TimerId, x: Consumer)
    requires Custodies(cs, calls, ts, ws) && t in ts && t.consumer in cs && ts[t].Expiring?
    requires cs[t.consumer].custody == Expired(t.generation) == x.custody && ClosingOnce(x)
    ensures Custodies(cs[t.consumer := x], calls, ts[t := ExpireClosing], ws)
  {}

  lemma CustodiesExpiryEnd(cs: Consumers, calls: Calls, ts: TimerMap, ws: WorkerMap, t: TimerId, x: Consumer)
    requires Custodies(cs, calls, ts, ws) && t in ts && t.consumer in cs
    requires cs[t.consumer].custody == Expired(t.generation) && x.custody.Gone? && ClosedOnce(x)
    ensures Custodies(cs[t.consumer := x], calls, ts - {t}, ws)
  {}

  lemma TimersExpiryBegin(cs: Consumers, ts: TimerMap, t: TimerId, x: Consumer)
    requires Timers(cs, ts) && t in ts && t.consumer in cs && ts[t].Expiring?
    requires cs[t.consumer].custody == Expired(t.generation) == x.custody
    requires x.idleTimer == cs[t.consumer].idleTimer && x.idleGeneration == cs[t.consumer].idleGeneration
    ensures Timers(cs[t.consumer := x], ts[t := ExpireClosing])
  {}

  lemma TimersExpiryEnd(cs: Consumers, ts: TimerMap, t: TimerId, x: Consumer)
    requires Timers(cs, ts) && t in ts && t.consumer in cs && ts[t].ExpireClosing?
    requires cs[t.consumer].custody == Expired(t.generation) && x.custody.Gone?
    requires x.idleTimer == cs[t.consumer].idleTimer && x.idleGeneration == cs[t.consumer].idleGeneration
    ensures Timers(cs[t.consumer := x], ts - {t})
  {}

  lemma ExpireBeginKeeps(s: State, t: TimerId, x: Consumer, s': State)
    requires Inv(s) && t in s.timers && t.consumer in s.consumers && s.timers[t].Expiring?
    requires x == s.consumers[t.consumer].(phase := Closing, closes := s.consumers[t.consumer].closes + 1)
    requires s' == s.(consumers := s.consumers[t.consumer := x], timers := s.timers[t := ExpireClosing])
    ensures Inv(s')
  {
    hide Refs, Pins, Gates, Timers, Custodies, Closes, Users, Closers, Orderly;
    ExpiredIsDetached(s, t);
    ClosingGroups(s, t.consumer, x, s'.consumers);
    GatesSameGate(s.consumers, s.calls, s.workers, t.consumer, x);
    TimersExpiryBegin(s.consumers, s.timers, t, x);
    CustodiesExpiryBegin(s.consumers, s.calls, s.timers, s.workers, t, x);
    ClosersTimerSet(s.closers, s.timers, s.calls, t, ExpireClosing);
  }

  lemma ExpireEndKeeps(s: State, t: TimerId, x: Consumer, s': State)
    requires Inv(s) && t in s.timers && t.consumer in s.consumers && s.timers[t].ExpireClosing?
    requires x == s.consumers[t.consumer].(phase := Closed, custody := Gone)
    requires s' == s.(consumers := s.consumers[t.consumer := x], timers := s.timers - {t}, closers := s.closers - 1)
    ensures Inv(s')
  {
    hide Refs, Pins, Gates, Timers, Custodies, Closes, Users, Closers, Orderly;
    ExpiredIsDetached(s, t);
    ClosingGroups(s, t.consumer, x, s'.consumers);
    GatesSameGate(s.consumers, s.calls, s.workers, t.consumer, x);
    TimersExpiryEnd(s.consumers, s.timers, t, x);
    CustodiesExpiryEnd(s.consumers, s.calls, s.timers, s.workers, t, x);
    ClosersOneGone(s.closers, s.timers, s.calls, t);
  }

  lemma ExpiredIsDetached(s: State, t: TimerId)
    requires Inv(s) && t in s.timers && t.consumer in s.consumers && (s.timers[t].Expiring? || s.timers[t].ExpireClosing?)
    ensures s.consumers[t.consumer].custody == Expired(t.generation) && t.consumer !in s.workers
    ensures if s.timers[t].Expiring? then Untouched(s.consumers[t.consumer]) else ClosingOnce(s.consumers[t.consumer])
  {
    hide Refs, Pins, Gates, Closes, Users, Closers, Orderly;
    assert TimerOk(s.consumers, t, s.timers[t]);
    assert InCustody(t.consumer, s.consumers[t.consumer], s.calls, s.timers, s.workers);
    WorkersAreDraining(s.consumers, s.calls, s.timers, s.workers, t.consumer);
  }
}
