/** Runs of the pop manager's bookkeeping, and what holds in all of them. */
module PopRuns {
  import opened Text
  import opened PopControl
  import opened PopControlInv
  import opened PopControlProofs
  import opened PopAcquireProofs
  import opened PopShutdownProofs

  // ------------------------------------------------------------------------- one step

  lemma CachedConsumer(s: State, q: Key)
    requires Inv(s) && q in s.cache
    ensures s.cache[q] in s.consumers && s.consumers[s.cache[q]].key == q && s.consumers[s.cache[q]].custody.Cached?
  {
    hide Refs, Pins, Gates, Timers, Custodies, Closes, Users, Closers, Orderly;
    CachedEntry(s.maxConsumers, s.consumers, s.cache, s.isClosed, q);
  }

  lemma CachedEntry(max: nat, cs: Consumers, cache: map<Key, int>, closed: bool, q: Key)
    requires Refs(max, cs, cache, closed) && q in cache
    ensures cache[q] in cs && cs[cache[q]].key == q && cs[cache[q]].custody.Cached?
  {
    var k := cache[q];
    assert k in cs && cs[k].key == q;
  }

  lemma IdleVictim(s: State, v: int)
    requires Inv(s) && LeastRecentIdle(s, v)
    ensures s.consumers[v].custody.Cached? && PinnedTo(s.calls, v) == {}
  {
    hide Refs, Pins, Gates, Timers, Custodies, Closes, Closers, Orderly;
    CachedAreValues(s.maxConsumers, s.consumers, s.cache, s.isClosed);
  }

  lemma HitKeeps(s: State, c: int, now: int, s': State)
    requires Inv(s) && AcquireEnabled(s, AcquireHit(c, now)) && s' == AcquireApply(s, AcquireHit(c, now))
    ensures Inv(s')
  {
    hide Inv;
    var k := s.cache[s.calls[c].key];
    var s1 := StopIdleTimer(s, k);
    CachedConsumer(s, s.calls[c].key);
    StopIdleTimerKeeps(s, k, s1);
    var x := s1.consumers[k].(users := s1.consumers[k].users + 1, lastUsed := now);
    PinKeeps(s1, c, k, x, s.calls[c].(consumer := k, pc := Waiting), s');
  }

  lemma EvictKeeps(s: State, c: int, id: int, v: int, now: int, s': State)
    requires Inv(s) && AcquireEnabled(s, AcquireEvict(c, id, v, now)) && s' == AcquireApply(s, AcquireEvict(c, id, v, now))
    ensures Inv(s')
  {
    hide Inv;
    var s1 := StopIdleTimer(s, v);
    IdleVictim(s, v);
    hide LeastRecentIdle;
    StopIdleTimerKeeps(s, v, s1);
    hide StopIdleTimer;
    var call := s.calls[c].(consumer := id, pc := Evicting(v));
    ReplaceKeeps(s1, c, v, s1.consumers[v].(custody := Evicted(c)), NewConsumer(call.key, now), call, s');
  }

  lemma EvictBeginKeeps(s: State, c: int, s': State)
    requires Inv(s) && AcquireEnabled(s, EvictCloseBegin(c)) && s' == AcquireApply(s, EvictCloseBegin(c))
    ensures Inv(s')
  {
    hide Inv;
    EvictedPhase(s, c);
    var y := s.consumers[s.calls[c].pc.victim];
    EvictionKeeps(s, c, y.(phase := Closing, closes := y.closes + 1),
                  s.calls[c].(pc := EvictClosing(s.calls[c].pc.victim)), s');
  }

  lemma EvictEndKeeps(s: State, c: int, s': State)
    requires Inv(s) && AcquireEnabled(s, EvictCloseEnd(c)) && s' == AcquireApply(s, EvictCloseEnd(c))
    ensures Inv(s')
  {
    hide Inv;
    EvictedPhase(s, c);
    var y := s.consumers[s.calls[c].pc.victim];
    EvictionKeeps(s, c, y.(phase := Closed, custody := Gone), s.calls[c].(pc := Waiting), s');
  }

  lemma AcquireStepKeeps(s: State, st: AcquireStep, s': State)
    requires Inv(s) && AcquireEnabled(s, st) && s' == AcquireApply(s, st)
    ensures Inv(s')
  {
    hide Inv;
    match st
    case Arrive(c, key) => CallMovesOn(s, c, Call(key, 0, Arriving), s');
    case AcquireFails(c, out) => CallMovesOn(s, c, s.calls[c].(pc := Returned(out)), s');
    case AcquireHit(c, now) => HitKeeps(s, c, now, s');
    case AcquireMiss(c, id, now) =>
      InsertKeeps(s, c, NewConsumer(s.calls[c].key, now), s.calls[c].(consumer := id, pc := Waiting), s');
    case AcquireEvict(c, id, v, now) => EvictKeeps(s, c, id, v, now, s');
    case EvictCloseBegin(c) => EvictBeginKeeps(s, c, s');
    case EvictCloseEnd(c) => EvictEndKeeps(s, c, s');
  }

  lemma EvictedPhase(s: State, c: int)
    requires Inv(s) && c in s.calls && s.calls[c].pc.Evictor() && s.calls[c].pc.victim in s.consumers
    ensures if s.calls[c].pc.Evicting? then Untouched(s.consumers[s.calls[c].pc.victim])
            else ClosingOnce(s.consumers[s.calls[c].pc.victim])
  {
    hide Refs, Pins, Gates, Timers, Closes, Users, Closers, Orderly;
    var v := s.calls[c].pc.victim;
    assert InCustody(v, s.consumers[v], s.calls, s.timers, s.workers);
  }

  lemma GateStepKeeps(s: State, st: GateStep, s': State)
    requires Inv(s) && GateEnabled(s, st) && s' == GateApply(s, st)
    ensures Inv(s')
  {
    hide Inv;
    match st
    case GateTake(c) => GateMoves(s, c, s.calls[c].(pc := Rechecking), ByCall(c), s');
    case WaitAbandon(c, out) => CallMovesOn(s, c, s.calls[c].(pc := Releasing(out)), s');
    case Recheck(c, ctxErr) =>
      PinnedIsCached(s, c);
      CallMovesOn(s, c, s.calls[c].(pc := if s.isClosed then GivingBack(ManagerClosed)
                                          else if ctxErr then GivingBack(Canceled) else Working), s');
    case GiveBack(c) => GateMoves(s, c, s.calls[c].(pc := Releasing(s.calls[c].pc.out)), Free, s');
    case WorkEnds(c, out) => CallMovesOn(s, c, s.calls[c].(pc := Leaving(out)), s');
    case Leave(c) => GateMoves(s, c, s.calls[c].(pc := Releasing(s.calls[c].pc.out)), Free, s');
    case Release(c, now) => ReleaseKeeps(s, c, now, s');
  }

  lemma TimerStepKeeps(s: State, st: TimerStep, s': State)
    requires Inv(s) && TimerEnabled(s, st) && s' == TimerApply(s, st)
    ensures Inv(s')
  {
    hide Inv;
    match st
    case TimerFires(t) => TimerFiresKeeps(s, t, s');
    case TimerLocked(t) => TimerLockedKeeps(s, t, s');
    case ExpireCloseBegin(t) =>
      var y := s.consumers[t.consumer];
      ExpireBeginKeeps(s, t, y.(phase := Closing, closes := y.closes + 1), s');
    case ExpireCloseEnd(t) =>
      ExpireEndKeeps(s, t, s.consumers[t.consumer].(phase := Closed, custody := Gone), s');
  }

  lemma TimerLockedKeeps(s: State, t: TimerId, s': State)
    requires Inv(s) && TimerEnabled(s, TimerLocked(t)) && s' == TimerApply(s, TimerLocked(t))
    ensures Inv(s')
  {
    hide Inv;
    if StillIdle(s, t) {
      IdleExpiryKeeps(s, t, s.consumers[t.consumer].(idleTimer := None, custody := Expired(t.generation)), s');
    } else {
      StaleTimerKeeps(s, t, s');
    }
  }

  lemma WorkerStepKeeps(s: State, st: CloseStep, s': State)
    requires Inv(s) && CloseEnabled(s, st) && s' == CloseApply(s, st)
    requires st.WorkerGate? || st.WorkerSkipGate? || st.WorkerCloseBegin? || st.WorkerCloseEnd?
    ensures Inv(s')
  {
    hide Inv;
    var k := st.k;
    var y := s.consumers[k];
    WorkerState(s, k);
    match st
    case WorkerGate(_) => WorkerKeeps(s, k, y.(gate := ByWorker), Gated(true), s');
    case WorkerSkipGate(_) =>
      assert s.cut;
      assert s.consumers[k := y] == s.consumers;
      WorkerKeeps(s, k, y, Gated(false), s');
    case WorkerCloseBegin(_) =>
      OrderlyLock(s, k);
      WorkerKeeps(s, k, y.(phase := Closing, closes := y.closes + 1), WorkerClosing(s.workers[k].locked), s');
    case WorkerCloseEnd(_) =>
      OrderlyLock(s, k);
      var x := y.(phase := Closed, custody := Gone);
      WorkerKeeps(s, k, if s.workers[k].locked then x.(gate := Free) else x, Drained, s');
  }

  lemma OrderlyLock(s: State, k: int)
    requires Inv(s) && k in s.workers && (s.workers[k].Gated? || s.workers[k].WorkerClosing?)
    ensures !s.cut ==> s.workers[k].locked
  {
    hide Refs, Pins, Gates, Timers, Custodies, Closes, Users, Closers;
  }

  lemma CloseStepKeeps(s: State, st: CloseStep, s': State)
    requires Inv(s) && CloseEnabled(s, st) && s' == CloseApply(s, st)
    ensures Inv(s')
  {
    match st
    case CloseEnter(i) => CloseCallKeeps(s, i, Entering, s');
    case Force(i) =>
      hide Refs, Pins, Gates, Timers, Custodies, Closes, Users, Closers, Orderly;
    case CloseLock(i) =>
      if s.isClosed { CloseCallKeeps(s, i, Following, s'); } else { ShutdownKeeps(s, i, s'); }
    case CloseFinish(i) => CloseFinishKeeps(s, i, s');
    case CloseFollow(i) => CloseCallKeeps(s, i, CloseReturned, s');
    case _ => WorkerStepKeeps(s, st, s');
  }

  lemma StepKeeps(s: State, st: Step)
    requires Inv(s) && Enabled(s, st)
    ensures Inv(Apply(s, st))
  {
    hide Inv;
    match st
    case OfAcquire(a) => AcquireStepKeeps(s, a, Apply(s, st));
    case OfGate(g) => GateStepKeeps(s, g, Apply(s, st));
    case OfTimer(t) => TimerStepKeeps(s, t, Apply(s, st));
    case OfClose(z) => CloseStepKeeps(s, z, Apply(s, st));
  }
}
