/** An unused consumer has a timer that will close it. */
module PopIdle {
  import opened Text
  import opened PopControl
  import opened PopControlInv

  /** Every cached consumer is in use or points at an idle timer. */
  ghost predicate Watched(consumers: Consumers) {
    forall k {:trigger consumers[k]} :: k in consumers && consumers[k].custody.Cached? ==> consumers[k].users > 0 || consumers[k].idleTimer.Some?
  }

  predicate Good(x: Consumer) { x.custody.Cached? ==> x.users > 0 || x.idleTimer.Some? }

  lemma Put(consumers: Consumers, k: int, x: Consumer)
    requires Watched(consumers) && Good(x)
    ensures Watched(consumers[k := x])
  {}

  lemma GoodAt(consumers: Consumers, k: int)
    requires Watched(consumers) && k in consumers
    ensures Good(consumers[k])
  {}

  lemma AcquireWatches(s: State, st: AcquireStep)
    requires Inv(s) && AcquireEnabled(s, st) && Watched(s.consumers)
    ensures Watched(AcquireApply(s, st).consumers)
  {
    hide Refs, Pins, Gates, Timers, Closes, Closers, Orderly;
    match st
    case AcquireHit(c, now) => HitWatches(s, c, now);
    case AcquireMiss(c, id, now) => hide Watched; Put(s.consumers, id, NewConsumer(s.calls[c].key, now));
    case AcquireEvict(c, id, v, now) => EvictWatches(s, c, id, v, now);
    case EvictCloseBegin(c) =>
      var x := s.consumers[s.calls[c].pc.victim];
      GoodAt(s.consumers, s.calls[c].pc.victim);
      hide Watched;
      Put(s.consumers, s.calls[c].pc.victim, x.(phase := Closing, closes := x.closes + 1));
    case EvictCloseEnd(c) =>
      var x := s.consumers[s.calls[c].pc.victim];
      hide Watched;
      Put(s.consumers, s.calls[c].pc.victim, x.(phase := Closed, custody := Gone));
    case _ =>
  }

  /** Stopping a timer changes its consumer's pointer only. */
  lemma StopChanges(s: State, k: int)
    requires k in s.consumers
    ensures StopIdleTimer(s, k).consumers == s.consumers[k := s.consumers[k].(idleTimer := None)]
  {
    var x := s.consumers[k];
    if x.idleTimer.None? { assert x.(idleTimer := None) == x; }
  }

  lemma HitWatches(s: State, c: int, now: int)
    requires Users(s.consumers, s.calls) && AcquireEnabled(s, AcquireHit(c, now)) && Watched(s.consumers)
    ensures Watched(AcquireApply(s, AcquireHit(c, now)).consumers)
  {
    var k := s.cache[s.calls[c].key];
    var x := s.consumers[k];
    assert x.users >= 0;
    StopChanges(s, k);
    hide StopIdleTimer;
    var y := x.(idleTimer := None, users := x.users + 1, lastUsed := now);
    Put(s.consumers, k, y);
    assert s.consumers[k := x.(idleTimer := None)][k := y] == s.consumers[k := y];
  }

  lemma EvictWatches(s: State, c: int, id: int, v: int, now: int)
    requires AcquireEnabled(s, AcquireEvict(c, id, v, now)) && Watched(s.consumers)
    ensures Watched(AcquireApply(s, AcquireEvict(c, id, v, now)).consumers)
  {
    StopChanges(s, v);
    var x := s.consumers[v];
    var y := x.(idleTimer := None, custody := Evicted(c));
    hide StopIdleTimer, LeastRecentIdle;
    Put(s.consumers, v, y);
    Put(s.consumers[v := y], id, NewConsumer(s.calls[c].key, now));
    assert s.consumers[v := x.(idleTimer := None)][v := y] == s.consumers[v := y];
  }

  lemma GateWatches(s: State, st: GateStep)
    requires Inv(s) && GateEnabled(s, st) && Watched(s.consumers)
    ensures Watched(GateApply(s, st).consumers)
  {
    if st.Release? {
      hide Pins, Gates, Timers, Custodies, Closes, Closers, Orderly;
      ReleaseWatches(s, st.c, st.now);
    } else {
      hide Inv, Unpin;
      var k := s.calls[st.c].consumer;
      if st.GateTake? || st.GiveBack? || st.Leave? {
        GoodAt(s.consumers, k);
        hide Watched;
        Put(s.consumers, k, s.consumers[k].(gate := if st.GateTake? then ByCall(st.c) else Free));
      }
    }
  }

  /** The consumer that a release leaves behind. */
  function Unpinned(x: Consumer, closed: bool, now: int): (y: Consumer) {
    var users := if x.users > 0 then x.users - 1 else 0;
    if users == 0 && !closed
    then x.(users := users, lastUsed := now, idleGeneration := x.idleGeneration + 1, idleTimer := Some(x.idleGeneration + 1))
    else x.(users := users, lastUsed := now)
  }

  lemma UnpinChanges(s: State, c: int, now: int)
    requires c in s.calls && s.calls[c].pc.Releasing? && s.calls[c].consumer in s.consumers
    ensures var k := s.calls[c].consumer;
            Unpin(s, c, now).consumers == s.consumers[k := Unpinned(s.consumers[k], s.isClosed, now)]
  {
    var k := s.calls[c].consumer;
    var s1 := SetPc(s, c, Returned(s.calls[c].pc.out));
    assert s1.consumers == s.consumers;
    hide SetPc;
  }

  lemma ReleaseWatches(s: State, c: int, now: int)
    requires Refs(s.maxConsumers, s.consumers, s.cache, s.isClosed) && GateEnabled(s, Release(c, now)) && Watched(s.consumers)
    ensures Watched(GateApply(s, Release(c, now)).consumers)
  {
    hide Unpin, Watched;
    var k := s.calls[c].consumer;
    if s.isClosed { ClosedIsUncached(s.maxConsumers, s.consumers, s.cache, s.isClosed, k); }
    hide Refs;
    UnpinChanges(s, c, now);
    Put(s.consumers, k, Unpinned(s.consumers[k], s.isClosed, now));
  }

  lemma ClosedIsUncached(max: nat, consumers: Consumers, cache: map<Key, int>, closed: bool, k: int)
    requires Refs(max, consumers, cache, closed) && k in consumers && closed
    ensures !consumers[k].custody.Cached?
  {}

  lemma TimerWatches(s: State, st: TimerStep)
    requires TimerEnabled(s, st) && Watched(s.consumers)
    ensures Watched(TimerApply(s, st).consumers)
  {
    var k := st.t.consumer;
    if st.TimerLocked? {
      hide Expire;
      ExpireWatches(s, st.t);
    } else if st.ExpireCloseBegin? {
      hide Expire, EndClose;
      CloseBeginWatches(s.(timers := s.timers[st.t := ExpireClosing]), k);
    } else if st.ExpireCloseEnd? {
      hide Expire, BeginClose;
      CloseEndWatches(s.(timers := s.timers - {st.t}, closers := s.closers - 1), k);
    }
  }

  lemma ExpireWatches(s: State, t: TimerId)
    requires t in s.timers && t.consumer in s.consumers && Watched(s.consumers)
    ensures Watched(Expire(s, t).consumers)
  {
    hide Watched;
    Put(s.consumers, t.consumer, s.consumers[t.consumer].(idleTimer := None, custody := Expired(t.generation)));
  }

  lemma CloseBeginWatches(s: State, k: int)
    requires k in s.consumers && Watched(s.consumers)
    ensures Watched(BeginClose(s, k).consumers)
  {
    hide Watched;
    var x := s.consumers[k];
    GoodAt(s.consumers, k);
    BeginChanges(s, k);
    Put(s.consumers, k, x.(phase := Closing, closes := x.closes + 1));
  }

  lemma BeginChanges(s: State, k: int)
    requires k in s.consumers
    ensures var x := s.consumers[k]; BeginClose(s, k).consumers == s.consumers[k := x.(phase := Closing, closes := x.closes + 1)]
  {}

  lemma CloseEndWatches(s: State, k: int)
    requires k in s.consumers && Watched(s.consumers)
    ensures Watched(EndClose(s, k).consumers)
  {
    hide Watched;
    Put(s.consumers, k, s.consumers[k].(phase := Closed, custody := Gone));
  }

  lemma GateSetWatches(s: State, k: int, h: Holder)
    requires k in s.consumers && Watched(s.consumers)
    ensures Watched(SetGate(s, k, h).consumers)
  {
    GoodAt(s.consumers, k);
    hide Watched;
    Put(s.consumers, k, s.consumers[k].(gate := h));
  }

  lemma CloseWatches(s: State, st: CloseStep)
    requires Inv(s) && CloseEnabled(s, st) && Watched(s.consumers)
    ensures Watched(CloseApply(s, st).consumers)
  {
    hide Inv, Watched, BeginShutdown, SetGate, BeginClose;
    match st
    case CloseLock(i) => if !s.isClosed { ShutdownWatches(s, i); }
    case WorkerGate(k) => GateSetWatches(s, k, ByWorker);
    case WorkerCloseBegin(k) => CloseBeginWatches(s.(workers := s.workers[k := WorkerClosing(s.workers[k].locked)]), k);
    case WorkerCloseEnd(k) =>
      var s1 := EndClose(s.(workers := s.workers[k := Drained]), k);
      CloseEndWatches(s.(workers := s.workers[k := Drained]), k);
      GateSetWatches(s1, k, Free);
    case _ =>
  }

  lemma ShutdownWatches(s: State, i: int)
    requires Inv(s) && Watched(s.consumers)
    ensures Watched(BeginShutdown(s, i).consumers)
  {
    hide Pins, Gates, Timers, Custodies, Closes, Users, Closers, Orderly, StoppedByClose;
    forall k | k in s.consumers ensures Good(Drain(s.consumers[k], k in s.cache.Values)) { GoodAt(s.consumers, k); }
  }

  lemma StepWatches(s: State, st: Step)
    requires Inv(s) && Enabled(s, st) && Watched(s.consumers)
    ensures Watched(Apply(s, st).consumers)
  {
    hide Inv, Watched;
    match st
    case OfAcquire(a) => AcquireWatches(s, a);
    case OfGate(g) => GateWatches(s, g);
    case OfTimer(t) => TimerWatches(s, t);
    case OfClose(z) => CloseWatches(s, z);
  }
}
