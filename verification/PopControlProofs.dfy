/** Every step of the pop manager's bookkeeping keeps the invariant. */
module PopControlProofs {
  import opened Text
  import opened PopControl
  import opened PopControlInv
  import opened PopFrames
  import opened Sizes

  // ------------------------------------------------------------- calls that only move on

  lemma CallMovesOn(s: State, c: int, call: Call, s': State)
    requires Inv(s) && s' == s.(calls := s.calls[c := call])
    requires SamePin(s.calls, c, call) && SameGate(s.calls, c, call) && SameEviction(s.calls, c, call)
    requires call.pc.Working? ==> call.consumer in s.consumers && s.consumers[call.consumer].custody.Cached?
    ensures Inv(s')
  {
    hide Refs, Pins, Gates, Timers, Custodies, Closes, Users, Closers, Orderly;
    PinsFollows(s.consumers, s.calls, s.workers, c, call);
    GatesFollows(s.consumers, s.calls, s.workers, c, call);
    CustodiesFollows(s.consumers, s.calls, s.timers, s.workers, c, call);
    UsersFollows(s.consumers, s.calls, c, call);
    ClosersFollows(s.closers, s.timers, s.calls, c, call);
    if !s.cut { OrderlyFollows(s.consumers, s.calls, s.workers, c, call); }
  }

  // ------------------------------------------------------------------------------ gates

  lemma GatesTaken(cs: Consumers, calls: Calls, ws: WorkerMap, c: int, k: int, call: Call, x: Consumer)
    requires Gates(cs, calls, ws) && c in calls && k in cs && cs[k].gate.Free? && x.gate == ByCall(c)
    requires !calls[c].pc.HoldsGate() && call.pc.HoldsGate() && call.consumer == k
    ensures Gates(cs[k := x], calls[c := call], ws)
  {}

  lemma GatesGiven(cs: Consumers, calls: Calls, ws: WorkerMap, c: int, k: int, call: Call, x: Consumer)
    requires Gates(cs, calls, ws) && c in calls && k in cs && x.gate.Free?
    requires calls[c].pc.HoldsGate() && calls[c].consumer == k && !call.pc.HoldsGate()
    ensures Gates(cs[k := x], calls[c := call], ws)
  {}

  lemma GateMoves(s: State, c: int, call: Call, h: Holder, s': State)
    requires Inv(s) && c in s.calls && s.calls[c].consumer in s.consumers
    requires s' == SetGate(s.(calls := s.calls[c := call]), s.calls[c].consumer, h)
    requires SamePin(s.calls, c, call) && SameEviction(s.calls, c, call) && !call.pc.Working?
    requires call.consumer == s.calls[c].consumer
    requires if s.calls[c].pc.HoldsGate() then h.Free? && !call.pc.HoldsGate()
             else h == ByCall(c) && call.pc.HoldsGate() && s.consumers[s.calls[c].consumer].gate.Free?
    ensures Inv(s')
  {
    hide Refs, Pins, Gates, Timers, Custodies, Closes, Users, Closers, Orderly;
    var k := s.calls[c].consumer;
    var x := s.consumers[k].(gate := h);
    var cs := s.consumers[k := x];
    RefsSameTag(s.maxConsumers, s.consumers, s.cache, s.isClosed, k, x);
    PinsSameTag(s.consumers, s.calls, s.workers, k, x);
    PinsFollows(cs, s.calls, s.workers, c, call);
    if s.calls[c].pc.HoldsGate() {
      GatesGiven(s.consumers, s.calls, s.workers, c, k, call, x);
    } else {
      GatesTaken(s.consumers, s.calls, s.workers, c, k, call, x);
    }
    TimersSamePointer(s.consumers, s.timers, k, x);
    CustodiesSame(s.consumers, s.calls, s.timers, s.workers, k, x);
    CustodiesFollows(cs, s.calls, s.timers, s.workers, c, call);
    ClosesSameTag(s.consumers, s.isClosed, s.closeDone, s.closeCalls, k, x);
    UsersSame(s.consumers, s.calls, k, x);
    UsersFollows(cs, s.calls, c, call);
    ClosersFollows(s.closers, s.timers, s.calls, c, call);
    if !s.cut {
      OrderlySameTag(s.consumers, s.calls, s.workers, k, x);
      OrderlyFollows(cs, s.calls, s.workers, c, call);
    }
  }

  // ---------------------------------------------------------------------------- release

  /** A pinned consumer has a user, hence no pointer to an idle timer. */
  lemma PinnedIsUsed(cs: Consumers, calls: Calls, ts: TimerMap, c: int)
    requires Users(cs, calls) && Timers(cs, ts) && c in calls && calls[c].pc.Pinned() && calls[c].consumer in cs
    ensures cs[calls[c].consumer].users >= 1 && cs[calls[c].consumer].idleTimer.None?
  {
    assert c in PinnedTo(calls, calls[c].consumer);
  }

  lemma UsersUnpinned(cs: Consumers, calls: Calls, c: int, call: Call, x: Consumer)
    requires Users(cs, calls) && c in calls && calls[c].pc.Pinned() && calls[c].consumer in cs
    requires !call.pc.Pinned() && x.users == cs[calls[c].consumer].users - 1
    ensures Users(cs[calls[c].consumer := x], calls[c := call])
  {
    var k := calls[c].consumer;
    assert PinnedTo(calls[c := call], k) == PinnedTo(calls, k) - {c};
    forall j | j in cs && j != k ensures PinnedTo(calls[c := call], j) == PinnedTo(calls, j) {}
  }

  lemma TimersArmed(cs: Consumers, ts: TimerMap, k: int, x: Consumer)
    requires Timers(cs, ts) && k in cs && cs[k].idleTimer.None? && cs[k].custody.Cached?
    requires x.idleGeneration == cs[k].idleGeneration + 1 && x.idleTimer == Some(x.idleGeneration)
    requires x.users == 0 && x.custody == cs[k].custody
    ensures TimerId(k, x.idleGeneration) !in ts
    ensures Timers(cs[k := x], ts[TimerId(k, x.idleGeneration) := Armed])
  {
    assert PointerOk(k, cs[k], ts);
    assert TimerId(k, x.idleGeneration) in ts ==> TimerOk(cs, TimerId(k, x.idleGeneration), ts[TimerId(k, x.idleGeneration)]);
  }

  lemma PinnedIsCached(s: State, c: int)
    requires Inv(s) && c in s.calls && s.calls[c].pc.Pinned()
    ensures s.calls[c].consumer in s.consumers
    ensures !s.isClosed ==> s.consumers[s.calls[c].consumer].custody.Cached?
  {
    hide Refs, Gates, Timers, Custodies, Closes, Users, Closers, Orderly;
    assert s.calls[c].consumer in s.consumers;
    assert s.consumers[s.calls[c].consumer].key == s.calls[c].key;
  }

  /** What releasing a pin keeps, whether or not a timer is armed. */
  lemma UnpinGroups(s: State, c: int, x: Consumer, call: Call, cs: Consumers, calls: Calls)
    requires Inv(s) && At(s, c) && s.calls[c].pc.Releasing? && call.pc.Returned?
    requires cs == s.consumers[s.calls[c].consumer := x] && calls == s.calls[c := call]
    requires var y := s.consumers[s.calls[c].consumer];
             && x.key == y.key && x.custody == y.custody && x.gate == y.gate && x.phase == y.phase
             && x.closes == y.closes && x.users == y.users - 1
    ensures Refs(s.maxConsumers, cs, s.cache, s.isClosed) && Pins(cs, calls, s.workers)
    ensures Gates(cs, calls, s.workers) && Custodies(cs, calls, s.timers, s.workers)
    ensures Closes(cs, s.isClosed, s.closeDone, s.closeCalls) && Users(cs, calls)
    ensures Closers(s.closers, s.timers, calls) && (!s.cut ==> Orderly(cs, calls, s.workers))
  {
    hide Refs, Pins, Gates, Timers, Custodies, Closes, Users, Closers, Orderly;
    var k := s.calls[c].consumer;
    RefsSameTag(s.maxConsumers, s.consumers, s.cache, s.isClosed, k, x);
    PinsSameTag(s.consumers, s.calls, s.workers, k, x);
    PinsFollows(cs, s.calls, s.workers, c, call);
    GatesSameGate(s.consumers, s.calls, s.workers, k, x);
    GatesFollows(cs, s.calls, s.workers, c, call);
    CustodiesSame(s.consumers, s.calls, s.timers, s.workers, k, x);
    CustodiesFollows(cs, s.calls, s.timers, s.workers, c, call);
    ClosesSameTag(s.consumers, s.isClosed, s.closeDone, s.closeCalls, k, x);
    UsersUnpinned(s.consumers, s.calls, c, call, x);
    ClosersFollows(s.closers, s.timers, s.calls, c, call);
    if !s.cut {
      OrderlySameTag(s.consumers, s.calls, s.workers, k, x);
      OrderlyFollows(cs, s.calls, s.workers, c, call);
    }
  }

  lemma ReleaseArms(s: State, c: int, x: Consumer, call: Call, s': State)
    requires Inv(s) && At(s, c) && s.calls[c].pc.Releasing? && call.pc.Returned? && !s.isClosed
    requires s' == s.(consumers := s.consumers[s.calls[c].consumer := x], calls := s.calls[c := call],
                      timers := s.timers[TimerId(s.calls[c].consumer, x.idleGeneration) := Armed],
                      closers := s.closers + 1)
    requires var y := s.consumers[s.calls[c].consumer];
             x == y.(users := 0, lastUsed := x.lastUsed, idleGeneration := y.idleGeneration + 1,
                     idleTimer := Some(y.idleGeneration + 1)) && y.users == 1
    ensures Inv(s')
  {
    hide Refs, Pins, Gates, Timers, Custodies, Closes, Users, Closers, Orderly;
    var k := s.calls[c].consumer;
    PinnedIsCached(s, c);
    PinnedIsUsed(s.consumers, s.calls, s.timers, c);
    UnpinGroups(s, c, x, call, s'.consumers, s'.calls);
    var t := TimerId(k, x.idleGeneration);
    TimersArmed(s.consumers, s.timers, k, x);
    ClosersTimerSet(s.closers, s.timers, s'.calls, t, Armed);
    CustodiesOtherTimer(s'.consumers, s'.calls, s.timers, s'.timers, s.workers, t);
  }

  lemma ReleaseQuiet(s: State, c: int, x: Consumer, call: Call, s': State)
    requires Inv(s) && At(s, c) && s.calls[c].pc.Releasing? && call.pc.Returned?
    requires s' == s.(consumers := s.consumers[s.calls[c].consumer := x], calls := s.calls[c := call])
    requires var y := s.consumers[s.calls[c].consumer];
             x == y.(users := x.users, lastUsed := x.lastUsed) && x.users == y.users - 1
    ensures Inv(s')
  {
    hide Refs, Pins, Gates, Timers, Custodies, Closes, Users, Closers, Orderly;
    PinnedIsUsed(s.consumers, s.calls, s.timers, c);
    UnpinGroups(s, c, x, call, s'.consumers, s'.calls);
    TimersSamePointer(s.consumers, s.timers, s.calls[c].consumer, x);
  }

  lemma ReleaseKeeps(s: State, c: int, now: int, s': State)
    requires Inv(s) && At(s, c) && s.calls[c].pc.Releasing? && s' == Unpin(s, c, now)
    ensures Inv(s')
  {
    hide Refs, Pins, Gates, Timers, Custodies, Closes, Users, Closers, Orderly, Inv;
    assert s.consumers[s.calls[c].consumer].users >= 1 by {
      UsedWhenPinned(s, c);
    }
    var k := s.calls[c].consumer;
    var y := s.consumers[k];
    var call := s.calls[c].(pc := Returned(s.calls[c].pc.out));
    if y.users == 1 && !s.isClosed {
      var g := y.idleGeneration + 1;
      ReleaseArms(s, c, y.(users := 0, lastUsed := now, idleGeneration := g, idleTimer := Some(g)), call, s');
    } else {
      ReleaseQuiet(s, c, y.(users := y.users - 1, lastUsed := now), call, s');
    }
  }

  lemma UsedWhenPinned(s: State, c: int)
    requires Inv(s) && At(s, c) && s.calls[c].pc.Pinned()
    ensures s.consumers[s.calls[c].consumer].users >= 1
  {
    hide Refs, Pins, Gates, Timers, Custodies, Closes, Users, Closers, Orderly;
    PinnedIsUsed(s.consumers, s.calls, s.timers, c);
  }

  // ------------------------------------------------------------------------ idle timers

  /** A consumer whose timer pointer alone changes keeps all groups but Timers. */
  lemma PointerGroups(s: State, k: int, x: Consumer, cs: Consumers)
    requires Inv(s) && k in s.consumers && cs == s.consumers[k := x]
    requires x == s.consumers[k].(idleTimer := x.idleTimer)
    ensures Refs(s.maxConsumers, cs, s.cache, s.isClosed) && Pins(cs, s.calls, s.workers)
    ensures Gates(cs, s.calls, s.workers) && Custodies(cs, s.calls, s.timers, s.workers)
    ensures Closes(cs, s.isClosed, s.closeDone, s.closeCalls) && Users(cs, s.calls)
    ensures !s.cut ==> Orderly(cs, s.calls, s.workers)
  {
    hide Refs, Pins, Gates, Timers, Custodies, Closes, Users, Closers, Orderly;
    RefsSameTag(s.maxConsumers, s.consumers, s.cache, s.isClosed, k, x);
    PinsSameTag(s.consumers, s.calls, s.workers, k, x);
    GatesSameGate(s.consumers, s.calls, s.workers, k, x);
    CustodiesSame(s.consumers, s.calls, s.timers, s.workers, k, x);
    ClosesSameTag(s.consumers, s.isClosed, s.closeDone, s.closeCalls, k, x);
    UsersSame(s.consumers, s.calls, k, x);
    if !s.cut { OrderlySameTag(s.consumers, s.calls, s.workers, k, x); }
  }

  lemma TimersStopped(cs: Consumers, ts: TimerMap, k: int, x: Consumer)
    requires Timers(cs, ts) && k in cs && cs[k].idleTimer.Some? && x == cs[k].(idleTimer := None)
    ensures var t := TimerId(k, cs[k].idleTimer.value);
            t in ts && Timers(cs[k := x], if ts[t].Armed? then ts - {t} else ts)
  {}

  lemma StopArmedKeeps(s: State, k: int, t: TimerId, x: Consumer, s': State)
    requires Inv(s) && k in s.consumers && s.consumers[k].idleTimer == Some(t.generation) && t.consumer == k
    requires t in s.timers && s.timers[t].Armed? && x == s.consumers[k].(idleTimer := None)
    requires s' == s.(consumers := s.consumers[k := x], timers := s.timers - {t}, closers := s.closers - 1)
    ensures Inv(s')
  {
    hide Refs, Pins, Gates, Timers, Custodies, Closes, Users, Closers, Orderly;
    PointerGroups(s, k, x, s'.consumers);
    TimersStopped(s.consumers, s.timers, k, x);
    ClosersOneGone(s.closers, s.timers, s.calls, t);
    CustodiesOtherTimer(s'.consumers, s.calls, s.timers, s'.timers, s.workers, t);
  }

  lemma StopFiredKeeps(s: State, k: int, x: Consumer, s': State)
    requires Inv(s) && k in s.consumers && s.consumers[k].idleTimer.Some? && x == s.consumers[k].(idleTimer := None)
    requires var t := TimerId(k, s.consumers[k].idleTimer.value); !(t in s.timers && s.timers[t].Armed?)
    requires s' == s.(consumers := s.consumers[k := x])
    ensures Inv(s')
  {
    hide Refs, Pins, Gates, Timers, Custodies, Closes, Users, Closers, Orderly;
    PointerGroups(s, k, x, s'.consumers);
    TimersStopped(s.consumers, s.timers, k, x);
  }

  lemma StopIdleTimerKeeps(s: State, k: int, s': State)
    requires Inv(s) && k in s.consumers && s' == StopIdleTimer(s, k)
    ensures Inv(s')
  {
    hide Inv;
    var y := s.consumers[k];
    if y.idleTimer.Some? {
      var t := TimerId(k, y.idleTimer.value);
      if t in s.timers && s.timers[t].Armed? {
        StopArmedKeeps(s, k, t, y.(idleTimer := None), s');
      } else {
        StopFiredKeeps(s, k, y.(idleTimer := None), s');
      }
    }
  }

  lemma TimerFiresKeeps(s: State, t: TimerId, s': State)
    requires Inv(s) && t in s.timers && s.timers[t].Armed? && s' == s.(timers := s.timers[t := Firing])
    ensures Inv(s')
  {
    hide Refs, Pins, Gates, Timers, Custodies, Closes, Users, Closers, Orderly;
    TimersFired(s.consumers, s.timers, t);
    CustodiesOtherTimer(s.consumers, s.calls, s.timers, s.timers[t := Firing], s.workers, t);
    ClosersTimerSet(s.closers, s.timers, s.calls, t, Firing);
  }

  lemma TimersFired(cs: Consumers, ts: TimerMap, t: TimerId)
    requires Timers(cs, ts) && t in ts && ts[t].Armed?
    ensures Timers(cs, ts[t := Firing])
  {}

  lemma TimersDropped(cs: Consumers, ts: TimerMap, t: TimerId)
    requires Timers(cs, ts) && t.consumer in cs && cs[t.consumer].idleTimer != Some(t.generation)
    ensures Timers(cs, ts - {t})
  {}

  lemma StaleIsNotPointedAt(s: State, t: TimerId)
    requires Inv(s) && t.consumer in s.consumers && !StillIdle(s, t)
    ensures s.consumers[t.consumer].idleTimer != Some(t.generation)
  {
    hide Pins, Gates, Custodies, Closes, Users, Closers, Orderly;
    assert PointerOk(t.consumer, s.consumers[t.consumer], s.timers);
  }

  /** A callback that finds its consumer in use again, re-armed, evicted or drained only
      gives its wait-group reference back. */
  lemma StaleTimerKeeps(s: State, t: TimerId, s': State)
    requires Inv(s) && t in s.timers && s.timers[t].Firing? && t.consumer in s.consumers && !StillIdle(s, t)
    requires s' == s.(timers := s.timers - {t}, closers := s.closers - 1)
    ensures Inv(s')
  {
    hide Refs, Pins, Gates, Timers, Custodies, Closes, Users, Closers, Orderly;
    StaleIsNotPointedAt(s, t);
    TimersDropped(s.consumers, s.timers, t);
    CustodiesOtherTimer(s.consumers, s.calls, s.timers, s.timers - {t}, s.workers, t);
    ClosersOneGone(s.closers, s.timers, s.calls, t);
  }

  lemma RefsDetached(max: nat, cs: Consumers, cache: map<Key, int>, closed: bool, k: int, x: Consumer)
    requires Refs(max, cs, cache, closed) && k in cs && cs[k].custody.Cached? && !x.custody.Cached?
    ensures cs[k].key in cache && Refs(max, cs[k := x], cache - {cs[k].key}, closed)
  {
    SizeRemove(cache, cs[k].key);
  }

  lemma TimersExpired(cs: Consumers, ts: TimerMap, t: TimerId, x: Consumer)
    requires Timers(cs, ts) && t in ts && ts[t].Firing? && t.consumer in cs
    requires cs[t.consumer].idleTimer.Some? && cs[t.consumer].idleGeneration == t.generation
    requires x.custody == Expired(t.generation) && x.idleTimer.None? && x.idleGeneration == t.generation
    ensures Timers(cs[t.consumer := x], ts[t := Expiring])
  {
    assert PointerOk(t.consumer, cs[t.consumer], ts);
  }

  lemma CustodiesExpired(cs: Consumers, calls: Calls, ts: TimerMap, ws: WorkerMap, t: TimerId, x: Consumer)
    requires Custodies(cs, calls, ts, ws) && t in ts && ts[t].Firing? && t.consumer in cs && cs[t.consumer].custody.Cached?
    requires x.custody == Expired(t.generation) && x.phase == cs[t.consumer].phase && x.closes == cs[t.consumer].closes
    ensures Custodies(cs[t.consumer := x], calls, ts[t := Expiring], ws)
  {}

  lemma OrderlyDetached(cs: Consumers, calls: Calls, ws: WorkerMap, k: int, x: Consumer)
    requires Orderly(cs, calls, ws) && k in cs && PinnedTo(calls, k) == {}
    ensures Orderly(cs[k := x], calls, ws)
  {
    forall c | c in calls && calls[c].pc.Working? ensures calls[c].consumer != k {
      assert calls[c].consumer == k ==> c in PinnedTo(calls, k);
    }
  }

  /** The consumer is unpinned and cached: it may be taken out by one custodian. */
  lemma IdleExpiryKeeps(s: State, t: TimerId, x: Consumer, s': State)
    requires Inv(s) && t in s.timers && s.timers[t].Firing? && t.consumer in s.consumers && StillIdle(s, t)
    requires x == s.consumers[t.consumer].(idleTimer := None, custody := Expired(t.generation))
    requires s' == s.(consumers := s.consumers[t.consumer := x], cache := s.cache - {x.key},
                      timers := s.timers[t := Expiring])
    ensures Inv(s')
  {
    hide Refs, Pins, Gates, Timers, Custodies, Closes, Users, Closers, Orderly;
    var k := t.consumer;
    IdleIsCached(s, k);
    RefsDetached(s.maxConsumers, s.consumers, s.cache, s.isClosed, k, x);
    PinsSameTag(s.consumers, s.calls, s.workers, k, x);
    GatesSameGate(s.consumers, s.calls, s.workers, k, x);
    TimersExpired(s.consumers, s.timers, t, x);
    CustodiesExpired(s.consumers, s.calls, s.timers, s.workers, t, x);
    ClosesNotYet(s, s'.consumers);
    UsersSame(s.consumers, s.calls, k, x);
    ClosersTimerSet(s.closers, s.timers, s.calls, t, Expiring);
    if !s.cut { OrderlyDetached(s.consumers, s.calls, s.workers, k, x); }
  }

  lemma IdleIsCached(s: State, k: int)
    requires Inv(s) && k in s.consumers && s.consumers[k].users == 0
    requires s.consumers[k].key in s.cache && s.cache[s.consumers[k].key] == k
    ensures s.consumers[k].custody.Cached? && PinnedTo(s.calls, k) == {} && !s.isClosed
  {
    hide Pins, Gates, Timers, Custodies, Closes, Closers, Orderly;
  }

  lemma ClosesNotYet(s: State, cs: Consumers)
    requires Inv(s) && !s.isClosed
    ensures Closes(cs, s.isClosed, s.closeDone, s.closeCalls)
  {
    hide Refs, Pins, Gates, Timers, Custodies, Users, Closers, Orderly;
  }
}
