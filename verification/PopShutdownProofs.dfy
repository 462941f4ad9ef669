/** CloseContext's steps keep the invariant; with them, so does every step. */
module PopShutdownProofs {
  import opened PopControl
  import opened PopControlInv
  import opened PopFrames
  import opened PopAcquireProofs

  // --------------------------------------------------------------- taking the cache over

  lemma CachedAreValues(max: nat, cs: Consumers, cache: map<Key, int>, closed: bool)
    requires Refs(max, cs, cache, closed)
    ensures forall k {:trigger cs[k]} :: k in cs ==> (cs[k].custody.Cached? <==> k in cache.Values)
    ensures cache.Values <= cs.Keys
  {
    forall k | k in cs && k in cache.Values ensures cs[k].custody.Cached? {
      var q :| q in cache && cache[q] == k;
      var x := cs[k];
    }
    forall k | k in cs && cs[k].custody.Cached? ensures k in cache.Values {
      assert cache[cs[k].key] == k;
    }
    forall k | k in cache.Values ensures k in cs {
      var q :| q in cache && cache[q] == k;
    }
  }

  /** What BeginShutdown makes of the consumers, the workers and the timers. */
  ghost predicate TakenOver(cs: Consumers, ts: TimerMap, cs': Consumers, ts': TimerMap, ws': WorkerMap) {
    && cs'.Keys == cs.Keys
    && (forall k {:trigger cs'[k]} :: k in cs ==> cs'[k] == Drain(cs[k], cs[k].custody.Cached?))
    && (forall k {:trigger ws'[k]} :: k in ws' ==> ws'[k].Queued?)
    && (forall k {:trigger k in ws'} :: k in ws' <==> k in cs && cs[k].custody.Cached?)
    && (forall t {:trigger ts'[t]} :: t in ts' ==> t in ts && ts'[t] == ts[t] && !ts[t].Armed?)
    && (forall t {:trigger ts[t]} :: t in ts && !ts[t].Armed? ==> t in ts')
  }

  lemma RefsTakenOver(max: nat, cs: Consumers, ts: TimerMap, cs': Consumers, ts': TimerMap, ws': WorkerMap)
    requires TakenOver(cs, ts, cs', ts', ws')
    ensures Refs(max, cs', map[], true)
  {}

  lemma PinsTakenOver(cs: Consumers, calls: Calls, ts: TimerMap, cs': Consumers, ts': TimerMap, ws': WorkerMap)
    requires TakenOver(cs, ts, cs', ts', ws') && Pins(cs, calls, map[])
    ensures Pins(cs', calls, ws')
  {
    forall c, k | c in calls && k in cs' && calls[c].pc.Pinned() && calls[c].consumer == k
      ensures cs'[k].key == calls[c].key && (cs'[k].custody.Cached? || k in ws')
    {
      var x := cs[k];
    }
  }

  lemma GatesTakenOver(cs: Consumers, calls: Calls, ts: TimerMap, cs': Consumers, ts': TimerMap, ws': WorkerMap)
    requires TakenOver(cs, ts, cs', ts', ws') && Gates(cs, calls, map[])
    ensures Gates(cs', calls, ws')
  {
    forall k | k in cs ensures cs'[k].gate == cs[k].gate {}
  }

  lemma TimersTakenOver(cs: Consumers, ts: TimerMap, cs': Consumers, ts': TimerMap, ws': WorkerMap)
    requires TakenOver(cs, ts, cs', ts', ws') && Timers(cs, ts)
    ensures Timers(cs', ts')
  {
    forall t | t in ts' ensures TimerOk(cs', t, ts'[t]) {
      assert TimerOk(cs, t, ts[t]);
    }
    forall k | k in cs' ensures PointerOk(k, cs'[k], ts') {
      assert PointerOk(k, cs[k], ts);
    }
  }

  lemma CustodiesTakenOver(cs: Consumers, calls: Calls, ts: TimerMap, cs': Consumers, ts': TimerMap, ws': WorkerMap)
    requires TakenOver(cs, ts, cs', ts', ws') && Custodies(cs, calls, ts, map[])
    ensures Custodies(cs', calls, ts', ws')
  {
    forall k | k in cs' ensures InCustody(k, cs'[k], calls, ts', ws') {
      assert InCustody(k, cs[k], calls, ts, map[]);
    }
    forall c, k | c in calls && k in cs' && calls[c].pc.Evictor() && calls[c].pc.victim == k
      ensures cs'[k].custody == Evicted(c)
    {
      var x := cs[k];
    }
  }

  lemma UsersTakenOver(cs: Consumers, calls: Calls, ts: TimerMap, cs': Consumers, ts': TimerMap, ws': WorkerMap)
    requires TakenOver(cs, ts, cs', ts', ws') && Users(cs, calls)
    ensures Users(cs', calls)
  {
    forall k | k in cs' ensures cs'[k].users == cs[k].users {}
  }

  lemma OrderlyTakenOver(cs: Consumers, calls: Calls, ts: TimerMap, cs': Consumers, ts': TimerMap, ws': WorkerMap)
    requires TakenOver(cs, ts, cs', ts', ws') && Orderly(cs, calls, map[])
    ensures Orderly(cs', calls, ws')
  {
    forall c, k | c in calls && k in cs' && calls[c].pc.Working? && calls[c].consumer == k
      ensures k in ws' && ws'[k].Queued?
    {
      var x := cs[k];
    }
  }

  lemma ShutdownTakesOver(s: State, i: int, s': State)
    requires Inv(s) && !s.isClosed && s' == BeginShutdown(s, i)
    ensures TakenOver(s.consumers, s.timers, s'.consumers, s'.timers, s'.workers)
  {
    hide Pins, Gates, Custodies, Closes, Users, Closers, Orderly, Refs;
    CachedAreValues(s.maxConsumers, s.consumers, s.cache, s.isClosed);
    forall t | t in s.timers && s.timers[t].Armed? ensures t in StoppedByClose(s) {
      assert TimerOk(s.consumers, t, s.timers[t]);
      assert PointerOk(t.consumer, s.consumers[t.consumer], s.timers);
    }
  }

  lemma TakeOverKeeps(s: State, i: int, cs: Consumers, ts: TimerMap, ws: WorkerMap, closers: int, s': State)
    requires Inv(s) && !s.isClosed && TakenOver(s.consumers, s.timers, cs, ts, ws) && Closers(closers, ts, s.calls)
    requires s' == s.(isClosed := true, closeCalls := s.closeCalls[i := Leading], consumers := cs, timers := ts,
                      closers := closers, workers := ws, cache := map[])
    ensures Inv(s')
  {
    hide Refs, Pins, Gates, Timers, Custodies, Users, Closers, Orderly, TakenOver;
    RefsTakenOver(s.maxConsumers, s.consumers, s.timers, cs, ts, ws);
    PinsTakenOver(s.consumers, s.calls, s.timers, cs, ts, ws);
    GatesTakenOver(s.consumers, s.calls, s.timers, cs, ts, ws);
    TimersTakenOver(s.consumers, s.timers, cs, ts, ws);
    CustodiesTakenOver(s.consumers, s.calls, s.timers, cs, ts, ws);
    UsersTakenOver(s.consumers, s.calls, s.timers, cs, ts, ws);
    if !s.cut { OrderlyTakenOver(s.consumers, s.calls, s.timers, cs, ts, ws); }
  }

  lemma ShutdownClosers(s: State, i: int, s': State)
    requires Inv(s) && s' == BeginShutdown(s, i)
    ensures Closers(s'.closers, s'.timers, s.calls)
  {
    hide Inv, Closers, StoppedByClose, BeginShutdown;
    ClosersHold(s);
    StoppedAreTimers(s);
    ShutdownStops(s, i);
    ClosersTimersGone(s.closers, s.timers, s.calls, StoppedByClose(s));
  }

  lemma ShutdownStops(s: State, i: int)
    ensures BeginShutdown(s, i).timers == s.timers - StoppedByClose(s)
    ensures BeginShutdown(s, i).closers == s.closers - |StoppedByClose(s)|
  {
    hide StoppedByClose, Drain;
  }

  lemma ClosersHold(s: State)
    requires Inv(s)
    ensures Closers(s.closers, s.timers, s.calls)
  {
    hide Refs, Pins, Gates, Timers, Custodies, Closes, Users, Closers, Orderly;
  }

  lemma StoppedAreTimers(s: State)
    ensures StoppedByClose(s) <= s.timers.Keys
  {}

  lemma ShutdownKeeps(s: State, i: int, s': State)
    requires Inv(s) && !s.isClosed && s' == BeginShutdown(s, i)
    ensures Inv(s')
  {
    hide Inv, Closers, TakenOver, StoppedByClose, Drain;
    ShutdownTakesOver(s, i, s');
    ShutdownClosers(s, i, s');
    TakeOverKeeps(s, i, s'.consumers, s'.timers, s'.workers, s'.closers, s');
  }

  // -------------------------------------------------------------------------- workers

  lemma PinsWorker(cs: Consumers, calls: Calls, ws: WorkerMap, k: int, w: Worker)
    requires Pins(cs, calls, ws) && k in ws
    ensures Pins(cs, calls, ws[k := w])
  {}

  lemma GatesWorker(cs: Consumers, calls: Calls, ws: WorkerMap, k: int, x: Consumer, w: Worker)
    requires Gates(cs, calls, ws) && k in cs && k in ws
    requires if WorkerHoldsGate(ws[k]) == WorkerHoldsGate(w) then x.gate == cs[k].gate
             else if WorkerHoldsGate(w) then cs[k].gate.Free? && x.gate.ByWorker?
             else x.gate.Free?
    ensures Gates(cs[k := x], calls, ws[k := w])
  {}

  lemma CustodiesWorker(cs: Consumers, calls: Calls, ts: TimerMap, ws: WorkerMap, k: int, x: Consumer, w: Worker)
    requires Custodies(cs, calls, ts, ws) && k in cs && k in ws && !ws[k].Drained?
    requires w.Drained? ==> x.custody.Gone? && ClosedOnce(x)
    requires !w.Drained? ==> x.custody.Draining? && (if w.WorkerClosing? then ClosingOnce(x) else Untouched(x))
    requires !w.Queued?
    ensures Custodies(cs[k := x], calls, ts, ws[k := w])
  {}

  lemma OrderlyWorker(cs: Consumers, calls: Calls, ws: WorkerMap, k: int, w: Worker)
    requires Orderly(cs, calls, ws) && k in cs && k in ws && (w.Gated? || w.WorkerClosing? ==> w.locked)
    requires forall c {:trigger calls[c]} :: c in calls && calls[c].pc.Working? && calls[c].consumer == k ==> !ws[k].Queued?
    ensures Orderly(cs, calls, ws[k := w])
  {}

  lemma WorkerState(s: State, k: int)
    requires Inv(s) && k in s.workers && k in s.consumers && !s.workers[k].Drained?
    ensures s.consumers[k].custody.Draining? && s.isClosed && !s.closeDone
    ensures if s.workers[k].WorkerClosing? then ClosingOnce(s.consumers[k]) else Untouched(s.consumers[k])
    ensures s.consumers[k].gate.ByWorker? <==> WorkerHoldsGate(s.workers[k])
    ensures !s.cut ==> !s.forced
  {
    hide Refs, Pins, Timers, Users, Closers, Orderly;
    assert InCustody(k, s.consumers[k], s.calls, s.timers, s.workers);
  }

  /** A step of one worker: its gate, its client, its place in the queue. */
  lemma WorkerKeeps(s: State, k: int, x: Consumer, w: Worker, s': State)
    requires Inv(s) && k in s.workers && k in s.consumers && !s.workers[k].Drained? && !w.Queued?
    requires s' == s.(consumers := s.consumers[k := x], workers := s.workers[k := w])
    requires var y := s.consumers[k]; x == y.(gate := x.gate) || Progress(y, x.(gate := y.gate))
    requires if WorkerHoldsGate(s.workers[k]) == WorkerHoldsGate(w) then x.gate == s.consumers[k].gate
             else if WorkerHoldsGate(w) then s.consumers[k].gate.Free? && x.gate.ByWorker?
             else x.gate.Free?
    requires w.Drained? ==> x.custody.Gone? && ClosedOnce(x)
    requires !w.Drained? ==> x.custody.Draining? && (if w.WorkerClosing? then ClosingOnce(x) else Untouched(x))
    requires !s.cut ==> (w.Gated? || w.WorkerClosing? ==> w.locked)
    requires s.workers[k].Queued? ==> s.cut || s.consumers[k].gate.Free?
    ensures Inv(s')
  {
    hide Refs, Pins, Gates, Timers, Custodies, Closes, Users, Closers, Orderly;
    WorkerState(s, k);
    RefsSameTag(s.maxConsumers, s.consumers, s.cache, s.isClosed, k, x);
    PinsSameTag(s.consumers, s.calls, s.workers, k, x);
    PinsWorker(s'.consumers, s.calls, s.workers, k, w);
    GatesWorker(s.consumers, s.calls, s.workers, k, x, w);
    TimersDrainStep(s.consumers, s.timers, k, x);
    CustodiesWorker(s.consumers, s.calls, s.timers, s.workers, k, x, w);
    ClosesSameTag(s.consumers, s.isClosed, s.closeDone, s.closeCalls, k, x);
    UsersSame(s.consumers, s.calls, k, x);
    if !s.cut {
      OrderlySameTag(s.consumers, s.calls, s.workers, k, x);
      if s.workers[k].Queued? { FreeGateNoWork(s.consumers, s.calls, s.workers, k); }
      OrderlyWorker(s'.consumers, s.calls, s.workers, k, w);
    }
  }

  lemma TimersDrainStep(cs: Consumers, ts: TimerMap, k: int, x: Consumer)
    requires Timers(cs, ts) && k in cs && cs[k].custody.Draining? && !x.custody.Cached? && !x.custody.Expired?
    requires x.idleTimer == cs[k].idleTimer && x.idleGeneration == cs[k].idleGeneration
    ensures Timers(cs[k := x], ts)
  {}

  lemma FreeGateNoWork(cs: Consumers, calls: Calls, ws: WorkerMap, k: int)
    requires Gates(cs, calls, ws) && k in cs && cs[k].gate.Free?
    ensures forall c {:trigger calls[c]} :: c in calls && calls[c].pc.Working? ==> calls[c].consumer != k
  {}

  // --------------------------------------------------------------------- the last steps

  /** With the queue drained and the wait group at zero, every client is closed. */
  lemma DrainedIsGone(s: State, i: int)
    requires Inv(s) && i in s.closeCalls && s.closeCalls[i].Leading? && s.closers == 0
    requires forall k :: k in s.workers ==> s.workers[k].Drained?
    ensures s.isClosed && AllGone(s.consumers)
  {
    hide Pins, Gates, Timers, Users, Orderly;
    forall k | k in s.consumers ensures s.consumers[k].custody.Gone? {
      assert InCustody(k, s.consumers[k], s.calls, s.timers, s.workers);
      assert Evictors(s.calls) == {} && s.timers.Keys == {};
      assert forall c :: c in s.calls && s.calls[c].pc.Evictor() ==> c in Evictors(s.calls);
      assert forall t :: t in s.timers ==> t in s.timers.Keys;
    }
  }

  lemma CloseFinishKeeps(s: State, i: int, s': State)
    requires Inv(s) && CloseEnabled(s, CloseFinish(i))
    requires s' == s.(forced := true, closeDone := true, closeCalls := s.closeCalls[i := CloseReturned])
    ensures Inv(s')
  {
    DrainedIsGone(s, i);
    hide Refs, Pins, Gates, Timers, Custodies, Users, Closers, Orderly, AllGone;
  }

  lemma CloseCallKeeps(s: State, i: int, z: CloseCall, s': State)
    requires Inv(s) && s' == s.(closeCalls := s.closeCalls[i := z])
    requires (z.Leading? || z.Following? ==> s.isClosed) && (z.CloseReturned? ==> s.closeDone)
    ensures Inv(s')
  {
    hide Refs, Pins, Gates, Timers, Custodies, Users, Closers, Orderly, AllGone;
  }
}
