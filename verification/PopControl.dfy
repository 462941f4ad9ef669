/** The Kafka pop manager's bookkeeping as a state machine: the bounded cache, the pins, the
    one-permit gates, the idle timers and the shutdown. One step is one critical section under
    the manager's mutex, one channel operation on a gate, or one client call. What a call does
    with its client while it holds the gate is the subject of PopDelivery. */
module PopControl {
  import opened Text

  const MAX_CLOSE_WORKERS := 8

  datatype Key = Key(topic: string, group: string)

  datatype Outcome =
    | Success | NoEvent | Rebalance | ManagerClosed | ConsumerLimit | InitFailed
    | Canceled | PollFailed | HandleFailed | CommitFailed

  /** Where one Consume call stands. */
  datatype Pc =
    | Arriving
    | Evicting(victim: int)
    | EvictClosing(victim: int)
    | Waiting
    | Rechecking
    | GivingBack(out: Outcome)
    | Working
    | Leaving(out: Outcome)
    | Releasing(out: Outcome)
    | Returned(out: Outcome)
  {
    predicate Pinned() { !Arriving? && !Returned? }
    predicate HoldsGate() { Rechecking? || GivingBack? || Working? || Leaving? }
    predicate Evictor() { Evicting? || EvictClosing? }
  }

  datatype Call = Call(key: Key, consumer: int, pc: Pc)

  datatype Phase = Open | Closing | Closed
  datatype Holder = Free | ByCall(call: int) | ByWorker

  /** Who is responsible for closing a client. Bookkeeping only: no step reads it. */
  datatype Custody = Cached | Evicted(call: int) | Expired(generation: int) | Draining | Gone

  datatype Consumer = Consumer(
    key: Key, users: int, lastUsed: int, gate: Holder,
    idleTimer: Option<int>, idleGeneration: int,
    phase: Phase, closes: int, custody: Custody)

  datatype TimerId = TimerId(consumer: int, generation: int)
  datatype TimerPhase = Armed | Firing | Expiring | ExpireClosing

  datatype Worker = Queued | Gated(locked: bool) | WorkerClosing(locked: bool) | Drained

  datatype CloseCall = Entering | Leading | Following | CloseReturned

  /** `forced` is the state of forceCtx; `cut` tells that a caller's context did it, as opposed
      to the last statement of an orderly CloseContext. */
  datatype State = State(
    maxConsumers: nat,
    consumers: map<int, Consumer>, cache: map<Key, int>,
    isClosed: bool, forced: bool, cut: bool, closeDone: bool, closers: int,
    timers: map<TimerId, TimerPhase>, calls: map<int, Call>,
    workers: map<int, Worker>, closeCalls: map<int, CloseCall>)

  function Initial(maxConsumers: nat): (s: State) {
    State(maxConsumers, map[], map[], false, false, false, false, 0, map[], map[], map[], map[])
  }

  // ---------------------------------------------------------------------- steps

  /** acquire, with the eviction it may start. */
  datatype AcquireStep =
    | Arrive(c: int, key: Key)
    | AcquireFails(c: int, out: Outcome)
    | AcquireHit(c: int, now: int)
    | AcquireMiss(c: int, id: int, now: int)
    | AcquireEvict(c: int, id: int, victim: int, now: int)
    | EvictCloseBegin(c: int)
    | EvictCloseEnd(c: int)

  /** waitForConsumer, the gate, and release. */
  datatype GateStep =
    | GateTake(c: int)
    | WaitAbandon(c: int, out: Outcome)
    | Recheck(c: int, ctxErr: bool)
    | GiveBack(c: int)
    | WorkEnds(c: int, out: Outcome)
    | Leave(c: int)
    | Release(c: int, now: int)

  /** Idle timers and expireConsumer. */
  datatype TimerStep =
    | TimerFires(t: TimerId)
    | TimerLocked(t: TimerId)
    | ExpireCloseBegin(t: TimerId)
    | ExpireCloseEnd(t: TimerId)

  /** CloseContext and its workers. */
  datatype CloseStep =
    | CloseEnter(i: int)
    | Force(i: int)
    | CloseLock(i: int)
    | WorkerGate(k: int)
    | WorkerSkipGate(k: int)
    | WorkerCloseBegin(k: int)
    | WorkerCloseEnd(k: int)
    | CloseFinish(i: int)
    | CloseFollow(i: int)

  datatype Step = OfAcquire(a: AcquireStep) | OfGate(g: GateStep) | OfTimer(t: TimerStep) | OfClose(z: CloseStep)

  predicate At(s: State, c: int) {
    c in s.calls && (s.calls[c].pc.Pinned() ==> s.calls[c].consumer in s.consumers)
  }

  /** acquire's victim: unpinned, and no unpinned candidate was used earlier. */
  predicate LeastRecentIdle(s: State, victim: int) {
    && victim in s.consumers && victim in s.cache.Values && s.consumers[victim].users == 0
    && forall k :: k in s.cache.Values && k in s.consumers && s.consumers[k].users == 0
         ==> s.consumers[victim].lastUsed <= s.consumers[k].lastUsed
  }

  /** acquire's scan of a full cache, in whatever order the map yields its keys. */
  method ChooseVictim(s: State) returns (victim: Option<int>)
    requires forall q :: q in s.cache ==> s.cache[q] in s.consumers
    ensures victim.Some? ==> LeastRecentIdle(s, victim.value)
    ensures victim.None? ==> forall q :: q in s.cache ==> s.consumers[s.cache[q]].users != 0
  {
    victim := None;
    var todo := s.cache.Keys;
    while todo != {}
      invariant todo <= s.cache.Keys
      invariant victim.Some? ==>
                  victim.value in s.consumers && victim.value in s.cache.Values && s.consumers[victim.value].users == 0
      invariant forall q :: q in s.cache && q !in todo && s.consumers[s.cache[q]].users == 0 ==>
                  victim.Some? && s.consumers[victim.value].lastUsed <= s.consumers[s.cache[q]].lastUsed
      decreases |todo|
    {
      var q :| q in todo;
      todo := todo - {q};
      var candidate := s.consumers[s.cache[q]];
      if candidate.users == 0 && (victim.None? || candidate.lastUsed < s.consumers[victim.value].lastUsed) {
        victim := Some(s.cache[q]);
      }
    }
  }

  function ActiveWorkers(s: State): (r: set<int>) {
    set k | k in s.workers && (s.workers[k].Gated? || s.workers[k].WorkerClosing?)
  }

  predicate MayFail(s: State, key: Key, out: Outcome) {
    match out
    case Canceled => true
    case ManagerClosed => s.isClosed
    case ConsumerLimit =>
      && !s.isClosed && key !in s.cache && |s.cache| >= s.maxConsumers
      && forall k :: k in s.cache.Values && k in s.consumers ==> s.consumers[k].users != 0
    case InitFailed =>
      && !s.isClosed && key !in s.cache
      && (|s.cache| < s.maxConsumers || exists k :: k in s.cache.Values && k in s.consumers && s.consumers[k].users == 0)
    case _ => false
  }

  predicate AcquireEnabled(s: State, st: AcquireStep) {
    match st
    case Arrive(c, key) => c !in s.calls
    case AcquireFails(c, out) => At(s, c) && s.calls[c].pc.Arriving? && MayFail(s, s.calls[c].key, out)
    case AcquireHit(c, now) =>
      At(s, c) && s.calls[c].pc.Arriving? && !s.isClosed && s.calls[c].key in s.cache
      && s.cache[s.calls[c].key] in s.consumers
    case AcquireMiss(c, id, now) =>
      At(s, c) && s.calls[c].pc.Arriving? && !s.isClosed && s.calls[c].key !in s.cache
      && |s.cache| < s.maxConsumers && id !in s.consumers
    case AcquireEvict(c, id, victim, now) =>
      At(s, c) && s.calls[c].pc.Arriving? && !s.isClosed && s.calls[c].key !in s.cache
      && |s.cache| >= s.maxConsumers && id !in s.consumers && LeastRecentIdle(s, victim)
    case EvictCloseBegin(c) => At(s, c) && s.calls[c].pc.Evicting? && s.calls[c].pc.victim in s.consumers
    case EvictCloseEnd(c) => At(s, c) && s.calls[c].pc.EvictClosing? && s.calls[c].pc.victim in s.consumers
  }

  predicate GateEnabled(s: State, st: GateStep) {
    match st
    case GateTake(c) => At(s, c) && s.calls[c].pc.Waiting? && s.consumers[s.calls[c].consumer].gate.Free?
    case WaitAbandon(c, out) =>
      At(s, c) && s.calls[c].pc.Waiting? && (out.Canceled? || (out.ManagerClosed? && s.isClosed))
    case Recheck(c, ctxErr) => At(s, c) && s.calls[c].pc.Rechecking?
    case GiveBack(c) => At(s, c) && s.calls[c].pc.GivingBack?
    case WorkEnds(c, out) => At(s, c) && s.calls[c].pc.Working?
    case Leave(c) => At(s, c) && s.calls[c].pc.Leaving?
    case Release(c, now) => At(s, c) && s.calls[c].pc.Releasing?
  }

  predicate TimerEnabled(s: State, st: TimerStep) {
    match st
    case TimerFires(t) => t in s.timers && s.timers[t].Armed?
    case TimerLocked(t) => t in s.timers && s.timers[t].Firing? && t.consumer in s.consumers
    case ExpireCloseBegin(t) => t in s.timers && s.timers[t].Expiring? && t.consumer in s.consumers
    case ExpireCloseEnd(t) => t in s.timers && s.timers[t].ExpireClosing? && t.consumer in s.consumers
  }

  predicate CloseEnabled(s: State, st: CloseStep) {
    match st
    case CloseEnter(i) => i !in s.closeCalls
    case Force(i) => i in s.closeCalls && !s.closeCalls[i].CloseReturned?
    case CloseLock(i) => i in s.closeCalls && s.closeCalls[i].Entering?
    case WorkerGate(k) =>
      k in s.workers && s.workers[k].Queued? && k in s.consumers && s.consumers[k].gate.Free?
      && |ActiveWorkers(s)| < MAX_CLOSE_WORKERS
    case WorkerSkipGate(k) =>
      k in s.workers && s.workers[k].Queued? && k in s.consumers && s.forced
      && |ActiveWorkers(s)| < MAX_CLOSE_WORKERS
    case WorkerCloseBegin(k) => k in s.workers && s.workers[k].Gated? && k in s.consumers
    case WorkerCloseEnd(k) => k in s.workers && s.workers[k].WorkerClosing? && k in s.consumers
    case CloseFinish(i) =>
      i in s.closeCalls && s.closeCalls[i].Leading? && s.closers == 0
      && forall k :: k in s.workers ==> s.workers[k].Drained?
    case CloseFollow(i) => i in s.closeCalls && s.closeCalls[i].Following? && s.closeDone
  }

  predicate Enabled(s: State, st: Step) {
    match st
    case OfAcquire(a) => AcquireEnabled(s, a)
    case OfGate(g) => GateEnabled(s, g)
    case OfTimer(t) => TimerEnabled(s, t)
    case OfClose(z) => CloseEnabled(s, z)
  }

  // -------------------------------------------------------------------- effects

  function SetPc(s: State, c: int, pc: Pc): (r: State)
    requires c in s.calls
  {
    s.(calls := s.calls[c := s.calls[c].(pc := pc)])
  }

  function SetConsumer(s: State, k: int, x: Consumer): (r: State) {
    s.(consumers := s.consumers[k := x])
  }

  function SetGate(s: State, k: int, h: Holder): (r: State)
    requires k in s.consumers
    ensures r == s.(consumers := r.consumers)
  {
    SetConsumer(s, k, s.consumers[k].(gate := h))
  }

  /** stopIdleTimer: Stop succeeds, and gives the wait-group reference back, exactly when the
      timer has not fired. The pointer is cleared in either case. */
  function StopIdleTimer(s: State, k: int): (r: State)
    requires k in s.consumers
    ensures r.consumers.Keys == s.consumers.Keys && r.consumers[k] == s.consumers[k].(idleTimer := None)
    ensures r == s.(consumers := r.consumers, timers := r.timers, closers := r.closers)
  {
    var x := s.consumers[k];
    if x.idleTimer.None? then s
    else
      var t := TimerId(k, x.idleTimer.value);
      var s1 := SetConsumer(s, k, x.(idleTimer := None));
      if t in s.timers && s.timers[t].Armed?
      then s1.(timers := s.timers - {t}, closers := s.closers - 1)
      else s1
  }

  function NewConsumer(key: Key, now: int): (x: Consumer) {
    Consumer(key, 1, now, Free, None, 0, Open, 0, Cached)
  }

  function Pin(s: State, c: int, k: int, now: int): (r: State)
    requires c in s.calls && k in s.consumers
  {
    SetConsumer(s, k, s.consumers[k].(users := s.consumers[k].users + 1, lastUsed := now))
    .(calls := s.calls[c := s.calls[c].(consumer := k, pc := Waiting)])
  }

  function Insert(s: State, c: int, id: int, now: int): (r: State)
    requires c in s.calls
  {
    SetConsumer(s, id, NewConsumer(s.calls[c].key, now))
    .(cache := s.cache[s.calls[c].key := id],
      calls := s.calls[c := s.calls[c].(consumer := id, pc := Waiting)])
  }

  /** Swap the unpinned `victim`, whose timer is stopped, for a consumer made for call `c`. */
  function Replace(s: State, c: int, id: int, victim: int, now: int): (r: State)
    requires c in s.calls && victim in s.consumers
  {
    var x := s.consumers[victim];
    SetConsumer(SetConsumer(s, victim, x.(custody := Evicted(c))), id, NewConsumer(s.calls[c].key, now))
    .(cache := (s.cache - {x.key})[s.calls[c].key := id],
      closers := s.closers + 1,
      calls := s.calls[c := s.calls[c].(consumer := id, pc := Evicting(victim))])
  }

  function BeginClose(s: State, k: int): (r: State)
    requires k in s.consumers
    ensures r == s.(consumers := r.consumers)
  {
    SetConsumer(s, k, s.consumers[k].(phase := Closing, closes := s.consumers[k].closes + 1))
  }

  function EndClose(s: State, k: int): (r: State)
    requires k in s.consumers
    ensures r == s.(consumers := r.consumers)
  {
    SetConsumer(s, k, s.consumers[k].(phase := Closed, custody := Gone))
  }

  function Unpin(s: State, c: int, now: int): (r: State)
    requires c in s.calls && s.calls[c].pc.Releasing? && s.calls[c].consumer in s.consumers
  {
    var k := s.calls[c].consumer;
    var x := s.consumers[k];
    var users := if x.users > 0 then x.users - 1 else 0;
    var s1 := SetPc(s, c, Returned(s.calls[c].pc.out));
    if users == 0 && !s.isClosed then
      var g := x.idleGeneration + 1;
      SetConsumer(s1, k, x.(users := users, lastUsed := now, idleGeneration := g, idleTimer := Some(g)))
      .(timers := s.timers[TimerId(k, g) := Armed], closers := s.closers + 1)
    else
      SetConsumer(s1, k, x.(users := users, lastUsed := now))
  }

  predicate StillIdle(s: State, t: TimerId)
    requires t.consumer in s.consumers
  {
    var x := s.consumers[t.consumer];
    && !s.isClosed && x.users == 0 && x.idleTimer.Some? && x.idleGeneration == t.generation
    && x.key in s.cache && s.cache[x.key] == t.consumer
  }

  /** expireConsumer's critical section. */
  function Expire(s: State, t: TimerId): (r: State)
    requires t in s.timers && t.consumer in s.consumers
  {
    if StillIdle(s, t) then
      var x := s.consumers[t.consumer];
      SetConsumer(s, t.consumer, x.(idleTimer := None, custody := Expired(t.generation)))
      .(cache := s.cache - {x.key}, timers := s.timers[t := Expiring])
    else
      s.(timers := s.timers - {t}, closers := s.closers - 1)
  }

  /** The armed timers that CloseContext stops while it empties the cache. */
  function StoppedByClose(s: State): (r: set<TimerId>) {
    set t | t in s.timers && s.timers[t].Armed? && t.consumer in s.consumers
            && t.consumer in s.cache.Values && s.consumers[t.consumer].idleTimer == Some(t.generation)
  }

  function Drain(x: Consumer, cached: bool): (r: Consumer) {
    if cached then x.(idleTimer := None, custody := Draining) else x
  }

  function BeginShutdown(s: State, i: int): (r: State) {
    s.(isClosed := true,
       closeCalls := s.closeCalls[i := Leading],
       consumers := map k | k in s.consumers :: Drain(s.consumers[k], k in s.cache.Values),
       timers := s.timers - StoppedByClose(s),
       closers := s.closers - |StoppedByClose(s)|,
       workers := map k | k in s.cache.Values :: Queued,
       cache := map[])
  }

  function AcquireApply(s: State, st: AcquireStep): (r: State)
    requires AcquireEnabled(s, st)
  {
    match st
    case Arrive(c, key) => s.(calls := s.calls[c := Call(key, 0, Arriving)])
    case AcquireFails(c, out) => SetPc(s, c, Returned(out))
    case AcquireHit(c, now) =>
      var k := s.cache[s.calls[c].key];
      Pin(StopIdleTimer(s, k), c, k, now)
    case AcquireMiss(c, id, now) => Insert(s, c, id, now)
    case AcquireEvict(c, id, victim, now) => Replace(StopIdleTimer(s, victim), c, id, victim, now)
    case EvictCloseBegin(c) =>
      BeginClose(SetPc(s, c, EvictClosing(s.calls[c].pc.victim)), s.calls[c].pc.victim)
    case EvictCloseEnd(c) =>
      EndClose(SetPc(s, c, Waiting), s.calls[c].pc.victim).(closers := s.closers - 1)
  }

  function GateApply(s: State, st: GateStep): (r: State)
    requires GateEnabled(s, st)
  {
    match st
    case GateTake(c) => SetGate(SetPc(s, c, Rechecking), s.calls[c].consumer, ByCall(c))
    case WaitAbandon(c, out) => SetPc(s, c, Releasing(out))
    case Recheck(c, ctxErr) =>
      SetPc(s, c, if s.isClosed then GivingBack(ManagerClosed) else if ctxErr then GivingBack(Canceled) else Working)
    case GiveBack(c) => SetGate(SetPc(s, c, Releasing(s.calls[c].pc.out)), s.calls[c].consumer, Free)
    case WorkEnds(c, out) => SetPc(s, c, Leaving(out))
    case Leave(c) => SetGate(SetPc(s, c, Releasing(s.calls[c].pc.out)), s.calls[c].consumer, Free)
    case Release(c, now) => Unpin(s, c, now)
  }

  function TimerApply(s: State, st: TimerStep): (r: State)
    requires TimerEnabled(s, st)
  {
    match st
    case TimerFires(t) => s.(timers := s.timers[t := Firing])
    case TimerLocked(t) => Expire(s, t)
    case ExpireCloseBegin(t) => BeginClose(s.(timers := s.timers[t := ExpireClosing]), t.consumer)
    case ExpireCloseEnd(t) => EndClose(s.(timers := s.timers - {t}, closers := s.closers - 1), t.consumer)
  }

  function CloseApply(s: State, st: CloseStep): (r: State)
    requires CloseEnabled(s, st)
  {
    match st
    case CloseEnter(i) => s.(closeCalls := s.closeCalls[i := Entering])
    case Force(i) => s.(forced := true, cut := true)
    case CloseLock(i) =>
      if s.isClosed then s.(closeCalls := s.closeCalls[i := Following]) else BeginShutdown(s, i)
    case WorkerGate(k) => SetGate(s, k, ByWorker).(workers := s.workers[k := Gated(true)])
    case WorkerSkipGate(k) => s.(workers := s.workers[k := Gated(false)])
    case WorkerCloseBegin(k) =>
      BeginClose(s.(workers := s.workers[k := WorkerClosing(s.workers[k].locked)]), k)
    case WorkerCloseEnd(k) =>
      var s1 := EndClose(s.(workers := s.workers[k := Drained]), k);
      if s.workers[k].locked then SetGate(s1, k, Free) else s1
    case CloseFinish(i) =>
      s.(forced := true, closeDone := true, closeCalls := s.closeCalls[i := CloseReturned])
    case CloseFollow(i) => s.(closeCalls := s.closeCalls[i := CloseReturned])
  }

  function Apply(s: State, st: Step): (r: State)
    requires Enabled(s, st)
  {
    match st
    case OfAcquire(a) => AcquireApply(s, a)
    case OfGate(g) => GateApply(s, g)
    case OfTimer(t) => TimerApply(s, t)
    case OfClose(z) => CloseApply(s, z)
  }
}
