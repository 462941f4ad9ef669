/** What every step of the pop manager's bookkeeping keeps. The invariant has nine groups; a
    group takes just the components it speaks of, so a step that leaves them alone keeps it. */
module PopControlInv {
  import opened Text
  import opened PopControl

  type Consumers = map<int, Consumer>
  type Calls = map<int, Call>

  /** The cache and the custody tags name each other consistently. */
  ghost predicate Refs(max: nat, consumers: Consumers, cache: map<Key, int>, isClosed: bool) {
    && |cache| <= max
    && (forall q {:trigger cache[q]} :: q in cache ==> cache[q] in consumers)
    && (forall q, k {:trigger cache[q], consumers[k]} :: q in cache && k in consumers && cache[q] == k ==>
          consumers[k].key == q && consumers[k].custody.Cached?)
    && (forall k {:trigger consumers[k]} :: k in consumers && consumers[k].custody.Cached? ==>
          consumers[k].key in cache && cache[consumers[k].key] == k)
    && (isClosed ==> cache == map[])
  }

  /** A pinned consumer stays in the cache until the shutdown takes it over. */
  ghost predicate Pins(consumers: Consumers, calls: Calls, workers: map<int, Worker>) {
    && (forall c {:trigger calls[c]} :: c in calls && calls[c].pc.Pinned() ==> calls[c].consumer in consumers)
    && (forall c, k {:trigger calls[c], consumers[k]} ::
          c in calls && k in consumers && calls[c].pc.Pinned() && calls[c].consumer == k ==>
            consumers[k].key == calls[c].key && (consumers[k].custody.Cached? || k in workers))
  }

  predicate WorkerHoldsGate(w: Worker) {
    (w.Gated? || w.WorkerClosing?) && w.locked
  }

  /** The gate of a consumer has at most one holder. */
  ghost predicate Gates(consumers: Consumers, calls: Calls, workers: map<int, Worker>) {
    && (forall k {:trigger consumers[k]} :: k in consumers && consumers[k].gate.ByCall? ==> consumers[k].gate.call in calls)
    && (forall c, k {:trigger calls[c], consumers[k]} :: c in calls && k in consumers ==>
          (consumers[k].gate == ByCall(c) <==> calls[c].pc.HoldsGate() && calls[c].consumer == k))
    && (forall k {:trigger consumers[k]} :: k in consumers ==>
          (consumers[k].gate.ByWorker? <==> k in workers && WorkerHoldsGate(workers[k])))
  }

  ghost predicate TimerOk(consumers: Consumers, t: TimerId, phase: TimerPhase) {
    && t.consumer in consumers && 1 <= t.generation <= consumers[t.consumer].idleGeneration
    && (phase.Armed? ==> consumers[t.consumer].idleTimer == Some(t.generation))
    && (phase.Expiring? || phase.ExpireClosing? ==> consumers[t.consumer].custody == Expired(t.generation))
  }

  ghost predicate PointerOk(k: int, x: Consumer, timers: map<TimerId, TimerPhase>) {
    && x.idleGeneration >= 0
    && (x.idleTimer.Some? ==>
      && x.idleTimer.value == x.idleGeneration && x.custody.Cached? && x.users == 0
      && TimerId(k, x.idleGeneration) in timers
      && (timers[TimerId(k, x.idleGeneration)].Armed? || timers[TimerId(k, x.idleGeneration)].Firing?))
  }

  /** Only the timer that a consumer points at can still be armed. */
  ghost predicate Timers(consumers: Consumers, timers: map<TimerId, TimerPhase>) {
    && (forall t {:trigger timers[t]} :: t in timers ==> TimerOk(consumers, t, timers[t]))
    && (forall k {:trigger consumers[k]} :: k in consumers ==> PointerOk(k, consumers[k], timers))
  }

  predicate Untouched(x: Consumer) { x.phase.Open? && x.closes == 0 }
  predicate ClosingOnce(x: Consumer) { x.phase.Closing? && x.closes == 1 }
  predicate ClosedOnce(x: Consumer) { x.phase.Closed? && x.closes == 1 }

  /** Each client has exactly one party that will close it, is closing it, or has closed it. */
  ghost predicate InCustody(k: int, x: Consumer, calls: Calls, timers: map<TimerId, TimerPhase>,
                            workers: map<int, Worker>) {
    match x.custody
    case Cached => Untouched(x)
    case Evicted(c) =>
      && c in calls
      && ((calls[c].pc == Evicting(k) && Untouched(x)) || (calls[c].pc == EvictClosing(k) && ClosingOnce(x)))
    case Expired(g) =>
      && TimerId(k, g) in timers
      && ((timers[TimerId(k, g)].Expiring? && Untouched(x)) || (timers[TimerId(k, g)].ExpireClosing? && ClosingOnce(x)))
    case Draining =>
      && k in workers && !workers[k].Drained?
      && (if workers[k].WorkerClosing? then ClosingOnce(x) else Untouched(x))
    case Gone => ClosedOnce(x)
  }

  ghost predicate Custodies(consumers: Consumers, calls: Calls, timers: map<TimerId, TimerPhase>,
                            workers: map<int, Worker>) {
    && (forall k {:trigger consumers[k]} :: k in consumers ==> InCustody(k, consumers[k], calls, timers, workers))
    && (forall c {:trigger calls[c]} :: c in calls && calls[c].pc.Evictor() ==> calls[c].pc.victim in consumers)
    && (forall c, k {:trigger calls[c], consumers[k]} ::
          c in calls && k in consumers && calls[c].pc.Evictor() && calls[c].pc.victim == k ==>
            consumers[k].custody == Evicted(c))
    && (forall k {:trigger workers[k]} :: k in workers ==>
          k in consumers && (if workers[k].Drained? then consumers[k].custody.Gone? else consumers[k].custody.Draining?))
  }

  ghost predicate AllGone(consumers: Consumers) {
    forall k {:trigger consumers[k]} :: k in consumers ==> consumers[k].custody.Gone?
  }

  /** A CloseContext call returns only after every client is closed. */
  ghost predicate Closes(consumers: Consumers, isClosed: bool, closeDone: bool, closeCalls: map<int, CloseCall>) {
    && (closeDone ==> isClosed && AllGone(consumers))
    && (forall i :: i in closeCalls ==>
          && (closeCalls[i].Leading? || closeCalls[i].Following? ==> isClosed)
          && (closeCalls[i].CloseReturned? ==> closeDone))
  }

  function PinnedTo(calls: Calls, k: int): (r: set<int>) {
    set c | c in calls && calls[c].pc.Pinned() && calls[c].consumer == k
  }

  function Evictors(calls: Calls): (r: set<int>) {
    set c | c in calls && calls[c].pc.Evictor()
  }

  ghost predicate Users(consumers: Consumers, calls: Calls) {
    forall k {:trigger consumers[k]} :: k in consumers ==> consumers[k].users == |PinnedTo(calls, k)|
  }

  ghost predicate Closers(closers: int, timers: map<TimerId, TimerPhase>, calls: Calls) {
    closers == |timers| + |Evictors(calls)|
  }

  /** Until a caller's context forces the shutdown, the workers wait for their gates and no call
      works on a client that a worker has begun with. */
  ghost predicate Orderly(consumers: Consumers, calls: Calls, workers: map<int, Worker>) {
    && (forall k {:trigger workers[k]} :: k in workers && (workers[k].Gated? || workers[k].WorkerClosing?) ==> workers[k].locked)
    && (forall c, k {:trigger calls[c], consumers[k]} ::
          c in calls && k in consumers && calls[c].pc.Working? && calls[c].consumer == k ==>
            consumers[k].custody.Cached? || (k in workers && workers[k].Queued?))
  }

  ghost predicate Inv(s: State) {
    && Refs(s.maxConsumers, s.consumers, s.cache, s.isClosed)
    && (!s.isClosed ==> s.workers == map[])
    && Pins(s.consumers, s.calls, s.workers)
    && Gates(s.consumers, s.calls, s.workers)
    && Timers(s.consumers, s.timers)
    && Custodies(s.consumers, s.calls, s.timers, s.workers)
    && Closes(s.consumers, s.isClosed, s.closeDone, s.closeCalls)
    && Users(s.consumers, s.calls)
    && Closers(s.closers, s.timers, s.calls)
    && (!s.cut ==> (s.forced ==> s.closeDone) && Orderly(s.consumers, s.calls, s.workers))
  }
}
