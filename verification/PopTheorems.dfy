/** What holds in every run of the pop protocol: any interleaving of calls, polls, fetch errors,
    handler failures, lost commit replies, late commits, rebalances, idle timers, evictions,
    other replicas, orderly and forced shutdowns. */
module PopTheorems {
  import opened Text
  import C = PopControl
  import PopHandler
  import I = PopControlInv
  import SP = PopShutdownProofs
  import PopRuns
  import opened PopDelivery
  import opened PopDeliveryInv
  import opened PopDeliveryFrames
  import opened PopDeliveryProofs
  import opened PopSuccess
  import opened PopOutcomes

  // --------------------------------------------------------------------------- every step

  lemma JobStepKeeps(w: World, st: Step, w': World)
    requires st.PollForceCheck? || st.PollDecide? || st.HandledForceCheck? || st.CommitFails? || st.Interrupt?
    requires WorkEnabled(w, st) && w' == WorkApply(w, st)
    requires Inv(w)
    ensures Inv(w')
  {
    hide Inv;
    JobFacts(w, st.c);
    hide LogOk;
    JobMovesOn(w, st.c, w'.jobs[st.c], w');
  }

  lemma BrokerStepKeeps(w: World, st: Step, w': World)
    requires st.Produce? || st.BrokerApplies? || st.OtherReplica?
    requires WorkEnabled(w, st) && w' == WorkApply(w, st)
    requires Inv(w)
    ensures Inv(w')
  {
    hide Inv;
    LogsOf(w, st.p);
    LogMovesOn(w, st.p, w'.broker[st.p], w');
  }

  lemma PollKeeps(w: World, c: int, got: Option<Record>, fetchErr: bool, w': World)
    requires WorkEnabled(w, Poll(c, got, fetchErr)) && w' == DoPoll(w, c, got, fetchErr)
    requires Inv(w)
    ensures Inv(w')
  {
    hide Inv;
    if got.None? {
      EmptyPollKeeps(w, c, fetchErr, w');
    } else {
      var r := got.value;
      RecordPollKeeps(w, c, r, w.jobs[c].(at := Polled(got, fetchErr)),
                      w.broker[r.part].(owner := Some(Claim(w.ctl.calls[c].consumer, r.offset + 1, c))), w');
    }
  }

  lemma StepKeeps(w: World, st: Step, w': World)
    requires Enabled(w, st) && w' == Apply(w, st)
    requires Inv(w)
    ensures Inv(w')
  {
    hide Inv;
    match st
    case Control(s) => ManageKeeps(w, s, w');
    case Poll(c, got, fetchErr) => PollKeeps(w, c, got, fetchErr, w');
    case HandlerReturns(c, d) => HandlerKeeps(w, c, d, w');
    case CommitStart(c) => CommitStartKeeps(w, c, w');
    case CommitAcked(c) => CommitAckedKeeps(w, c, w');
    case Rewind(c) => RewindKeeps(w, c, w');
    case Finish(c) => FinishKeeps(w, c, w');
    case CreatePartition(p) => CreateKeeps(w, p, w');
    case Assign(p, k) => AssignKeeps(w, p, w'.broker[p], w');
    case Revoke(p) => RevokeKeeps(w, p, w');
    case Produce(_, _) => BrokerStepKeeps(w, st, w');
    case BrokerApplies(_, _) => BrokerStepKeeps(w, st, w');
    case OtherReplica(_, _) => BrokerStepKeeps(w, st, w');
    case _ => JobStepKeeps(w, st, w');
  }

  // ---------------------------------------------------------------------------------- runs

  ghost predicate Runs(w: World, steps: seq<Step>)
    decreases |steps|
  {
    steps == [] || (Enabled(w, steps[0]) && Runs(Apply(w, steps[0]), steps[1..]))
  }

  ghost function After(w: World, steps: seq<Step>): (r: World)
    requires Runs(w, steps)
    decreases |steps|
  {
    if steps == [] then w else After(Apply(w, steps[0]), steps[1..])
  }

  lemma {:induction false} RunKeeps(w: World, steps: seq<Step>)
    requires Runs(w, steps) && Inv(w)
    ensures Inv(After(w, steps))
    decreases |steps|
  {
    hide Inv;
    if steps != [] {
      StepKeeps(w, steps[0], Apply(w, steps[0]));
      RunKeeps(Apply(w, steps[0]), steps[1..]);
    }
  }

  lemma InitialInv(max: nat)
    ensures Inv(Initial(max))
  {}

  /** A state that some run from a new manager reaches. */
  ghost predicate Reachable(w: World) {
    exists max: nat, steps: seq<Step> :: Runs(Initial(max), steps) && After(Initial(max), steps) == w
  }

  lemma ReachableInv(w: World)
    requires Reachable(w)
    ensures Inv(w)
  {
    hide Inv;
    var max: nat, steps :| Runs(Initial(max), steps) && After(Initial(max), steps) == w;
    InitialInv(max);
    RunKeeps(Initial(max), steps);
  }

  lemma {:induction false} RunSucceeds(w: World, steps: seq<Step>)
    requires Runs(w, steps) && Inv(w) && Successes(w)
    ensures Successes(After(w, steps))
    decreases |steps|
  {
    hide Inv, Successes;
    if steps != [] {
      StepKeeps(w, steps[0], Apply(w, steps[0]));
      StepSucceeds(w, steps[0], Apply(w, steps[0]));
      RunSucceeds(Apply(w, steps[0]), steps[1..]);
    }
  }

  lemma ReachableSuccess(w: World)
    requires Reachable(w)
    ensures Successes(w)
  {
    var max: nat, steps :| Runs(Initial(max), steps) && After(Initial(max), steps) == w;
    InitialInv(max);
    assert Successes(Initial(max));
    hide Inv, Successes;
    RunSucceeds(Initial(max), steps);
  }

  // ------------------------------------------------------------------------------ delivery

  /** The committed offset of a partition never passes a record that was not delivered in full,
      and no commit request under way ever will. */
  lemma CommittedIsDelivered(w: World, p: Partition, offset: int)
    requires Reachable(w) && p in w.broker && offset in w.broker[p].records
    requires offset < w.broker[p].committed || exists q :: q in w.broker[p].requests && offset < q
    ensures offset in w.broker[p].delivered
  {
    ReachableInv(w);
    LogsOf(w, p);
  }

  /** While a gate is free on an unforced manager, the client's position on each of its partitions
      is at or before the first undelivered record: the next poll offers that record again. */
  lemma FreeGatePositions(w: World, k: int, p: Partition, offset: int)
    requires Reachable(w) && !w.ctl.forced && k in w.ctl.consumers && w.ctl.consumers[k].gate.Free?
    requires p in w.broker && w.broker[p].owner.Some? && w.broker[p].owner.value.consumer == k
    requires offset in w.broker[p].records && offset !in w.broker[p].delivered
    ensures w.broker[p].owner.value.position <= offset
  {
    ReachableInv(w);
    FreeGateNoJob(w, k);
    hide I.Inv, JobsMatch, Blocks, Logs, Records, Owners;
    assert ClaimOk(p, w.broker[p], w.ctl.calls, w.jobs);
  }

  lemma FreeGateNoJob(w: World, k: int)
    requires Inv(w) && k in w.ctl.consumers && w.ctl.consumers[k].gate.Free?
    ensures forall c {:trigger w.ctl.calls[c]} :: c in w.jobs ==> c in w.ctl.calls && w.ctl.calls[c].consumer != k
  {
    hide Blocks, Logs, Records, Claims, Owners;
    hide I.Refs, I.Pins, I.Timers, I.Custodies, I.Closes, I.Users, I.Closers, I.Orderly;
    SP.FreeGateNoWork(w.ctl.consumers, w.ctl.calls, w.ctl.workers, k);
  }

  /** Unless a shutdown was forced, one partition is never in the hands of two calls, whichever
      clients they use: rebalances wait for the poll to be released. */
  lemma OneDeliveryPerPartition(w: World, c: int, d: int)
    requires Reachable(w) && !w.ctl.cut && c in w.jobs && d in w.jobs
    requires w.jobs[c].at.InHand().Some? && w.jobs[d].at.InHand().Some?
    requires w.jobs[c].at.InHand().value.part == w.jobs[d].at.InHand().value.part
    ensures c == d
  {
    ReachableInv(w);
    hide I.Inv, JobsMatch, Blocks, Logs, Records, Claims, Owners, OneEach;
    JobFacts(w, c);
    JobFacts(w, d);
    var p := w.jobs[c].at.InHand().value.part;
    HolderBlocks(w.ctl.calls, w.jobs, w.blocked, w.broker, c, p);
    HolderBlocks(w.ctl.calls, w.jobs, w.blocked, w.broker, d, p);
    ControlExcludes(w.ctl);
    OneOfTwo(w.ctl.calls, c, d);
  }

  lemma OneOfTwo(calls: I.Calls, c: int, d: int)
    requires OneEach(calls) && c in calls && d in calls && calls[c].pc.Working? && calls[d].pc.Working?
    requires calls[c].consumer == calls[d].consumer
    ensures c == d
  {}

  /** A client blocks rebalances only while a call works on it: no outcome forgets AllowRebalance. */
  lemma BlockedMeansWorking(w: World, k: int)
    requires Reachable(w) && k in w.blocked
    ensures w.blocked[k] in w.ctl.calls && w.ctl.calls[w.blocked[k]].pc.Working?
    ensures w.ctl.calls[w.blocked[k]].consumer == k
  {
    ReachableInv(w);
    hide I.Inv, JobsMatch, Blocks, Logs, Records, Claims, Owners;
    Blocker(w.ctl.calls, w.jobs, w.blocked, k);
  }

  lemma Blocker(calls: I.Calls, jobs: Jobs, blocked: map<int, int>, k: int)
    requires JobsMatch(calls, jobs) && Blocks(calls, jobs, blocked) && k in blocked
    ensures blocked[k] in calls && calls[blocked[k]].pc.Working? && calls[blocked[k]].consumer == k
  {
    var c := blocked[k];
    assert c in jobs;
  }

  /** Consume succeeds only for a record that was delivered and whose commit was acknowledged to this
      very call: for every call that is on its way out with success or has returned it. */
  lemma SuccessIsCommitted(w: World, c: int)
    requires Reachable(w) && c in w.ctl.calls && Succeeds(w.ctl.calls[c].pc)
    ensures c in w.acked && w.acked[c].part in w.broker
    ensures var log := w.broker[w.acked[c].part];
            && w.acked[c].offset in log.records && w.acked[c].offset in log.delivered && w.acked[c].offset + 1 in log.requests
  {
    ReachableSuccess(w);
    hide JobsDone;
  }

  lemma {:induction false} RunTraced(w: World, before: seq<Step>, steps: seq<Step>, c: int)
    requires Runs(w, steps) && Inv(w) && TraceOk(w, Trace(before, c), c) && AckedOk(w, Trace(before, c), c)
    ensures TraceOk(After(w, steps), Trace(before + steps, c), c) && AckedOk(After(w, steps), Trace(before + steps, c), c)
    decreases |steps|
  {
    hide Inv, TraceOk, Trace, Note, AckedOk;
    if steps == [] {
      assert before + steps == before;
    } else {
      StepKeeps(w, steps[0], Apply(w, steps[0]));
      StepTraced(w, steps[0], c, Trace(before, c));
      StepAcked(w, steps[0], c, Trace(before, c));
      TraceNext(before, steps[0], c);
      assert before + steps == before + [steps[0]] + steps[1..];
      RunTraced(Apply(w, steps[0]), before + [steps[0]], steps[1..], c);
    }
  }

  lemma TracedFromStart(max: nat, steps: seq<Step>, c: int)
    requires Runs(Initial(max), steps)
    ensures TraceOk(After(Initial(max), steps), Trace(steps, c), c) && AckedOk(After(Initial(max), steps), Trace(steps, c), c)
  {
    InitialInv(max);
    InitialTraced(max, c);
    hide Inv, Trace, TraceOk;
    RunTraced(Initial(max), [], steps, c);
    assert [] + steps == steps;
  }

  /** What Consume answers is explained by what happened to the call in the run, and by nothing else:
      a call returned `out` if and only if `out` is the one answer with that explanation. */
  lemma OutcomeIsExplained(max: nat, steps: seq<Step>, c: int, out: C.Outcome)
    requires Runs(Initial(max), steps) && c in After(Initial(max), steps).ctl.calls
    requires After(Initial(max), steps).ctl.calls[c].pc.Returned?
    ensures After(Initial(max), steps).ctl.calls[c].pc.out == out <==> Explains(Trace(steps, c), out)
  {
    hide Trace, Explains;
    TracedFromStart(max, steps, c);
    var h := Trace(steps, c);
    var answer := After(Initial(max), steps).ctl.calls[c].pc.out;
    assert Explains(h, answer);
    if Explains(h, out) { OneExplanation(h, answer, out); }
  }

  /** A call that returned success did so for the record it polled: its handler accepted that very
      record, which is delivered and behind a commit request. */
  lemma SuccessIsForPolledRecord(max: nat, steps: seq<Step>, c: int) returns (r: Record)
    requires Runs(Initial(max), steps) && c in After(Initial(max), steps).ctl.calls
    requires After(Initial(max), steps).ctl.calls[c].pc == C.Returned(C.Success)
    ensures var h := Trace(steps, c); HasRecord(h) && h.fetch.value.got == Some(r) && h.handler.Some? && PopHandler.Handle(h.handler.value).Nil?
    ensures var w := After(Initial(max), steps);
            && r.part in w.broker && r.offset in w.broker[r.part].records && r.offset in w.broker[r.part].delivered
            && r.offset + 1 in w.broker[r.part].requests
  {
    hide Runs, Reachable, TraceOk, Trace, PopHandler.Handle, Explains;
    var w := After(Initial(max), steps);
    OutcomeIsExplained(max, steps, c, C.Success);
    TracedFromStart(max, steps, c);
    RunIsReachable(max, steps);
    SuccessIsCommitted(w, c);
    r := w.acked[c];
    SuccessMeans(Trace(steps, c));
  }

  lemma SuccessMeans(h: History)
    requires Explains(h, C.Success)
    ensures HasRecord(h) && h.handler.Some? && PopHandler.Handle(h.handler.value).Nil?
  {}

  lemma RunIsReachable(max: nat, steps: seq<Step>)
    requires Runs(Initial(max), steps)
    ensures Reachable(After(Initial(max), steps))
  {
    hide Runs;
  }

  // ------------------------------------------------------------------------- the consumers

  /** At most one Consume call works on a consumer at a time, none beside a closing worker, and
      `users` counts the calls pinned to it. */
  lemma OneCallPerConsumer(w: World, c: int, d: int)
    requires Reachable(w) && c in w.ctl.calls && d in w.ctl.calls
    requires w.ctl.calls[c].pc.HoldsGate() && w.ctl.calls[d].pc.HoldsGate() && w.ctl.calls[c].consumer == w.ctl.calls[d].consumer
    ensures c == d
    ensures var k := w.ctl.calls[c].consumer;
            && k in w.ctl.consumers && w.ctl.consumers[k].users == |I.PinnedTo(w.ctl.calls, k)|
            && (k in w.ctl.workers ==> !I.WorkerHoldsGate(w.ctl.workers[k]))
  {
    ReachableInv(w);
    hide JobsMatch, Blocks, Logs, Records, Claims, Owners;
    hide I.Refs, I.Timers, I.Custodies, I.Closes, I.Closers, I.Orderly;
    var k := w.ctl.calls[c].consumer;
    assert k in w.ctl.consumers;
    assert w.ctl.consumers[k].gate == C.ByCall(c) && w.ctl.consumers[k].gate == C.ByCall(d);
  }

  /** `users` of every client ever created is the number of calls pinned to it. */
  lemma UsersArePinned(w: World, k: int)
    requires Reachable(w) && k in w.ctl.consumers
    ensures w.ctl.consumers[k].users == |I.PinnedTo(w.ctl.calls, k)|
  {
    ReachableInv(w);
    ControlInv(w);
    hide Inv, I.Inv;
    UsersOf(w.ctl, k);
  }

  /** The cache never holds more than maxConsumers consumers. */
  lemma CacheIsBounded(w: World)
    requires Reachable(w)
    ensures |w.ctl.cache| <= w.ctl.maxConsumers
  {
    ReachableInv(w);
    hide JobsMatch, Blocks, Logs, Records, Claims, Owners;
    hide I.Pins, I.Gates, I.Timers, I.Custodies, I.Closes, I.Users, I.Closers, I.Orderly;
  }

  /** No step other than CloseContext takes a pinned consumer out of the cache: not an eviction,
      and not a timer callback that was overtaken by an acquire and a release. */
  lemma PinnedStaysCached(w: World, st: C.Step, q: C.Key, s': C.State)
    requires Reachable(w) && C.Enabled(w.ctl, st) && s' == C.Apply(w.ctl, st) && !s'.isClosed
    requires q in w.ctl.cache && I.PinnedTo(w.ctl.calls, w.ctl.cache[q]) != {}
    ensures q in s'.cache && s'.cache[q] == w.ctl.cache[q]
  {
    hide Reachable, C.Enabled, C.Apply, I.PinnedTo, I.Inv;
    ReachableInv(w);
    ControlInv(w);
    hide Inv;
    PinnedIsSpared(w.ctl, st, q, s');
  }

  lemma PinnedIsSpared(s: C.State, st: C.Step, q: C.Key, s': C.State)
    requires I.Inv(s) && C.Enabled(s, st) && s' == C.Apply(s, st) && !s'.isClosed
    requires q in s.cache && I.PinnedTo(s.calls, s.cache[q]) != {}
    ensures q in s'.cache && s'.cache[q] == s.cache[q]
  {
    hide I.Inv, I.PinnedTo;
    PopRuns.CachedConsumer(s, q);
    UsersOf(s, s.cache[q]);
    OneCachedPerKey(s, q);
    match st
    case OfAcquire(a) => AcquireSparesUsers(s, a, q, s');
    case OfGate(g) => GateLeaves(s, g, s');
    case OfTimer(t) => TimerSparesUsers(s, t, q, s');
    case OfClose(z) => CloseLeaves(s, z, s');
  }

  lemma OneCachedPerKey(s: C.State, q: C.Key)
    requires I.Inv(s) && q in s.cache
    ensures forall k {:trigger s.consumers[k]} :: k in s.cache.Values && k in s.consumers && s.consumers[k].key == q ==> k == s.cache[q]
  {
    hide I.Pins, I.Gates, I.Timers, I.Custodies, I.Closes, I.Users, I.Closers, I.Orderly;
  }

  lemma UsersOf(s: C.State, k: int)
    requires I.Inv(s) && k in s.consumers
    ensures s.consumers[k].users == |I.PinnedTo(s.calls, k)|
  {
    hide I.Refs, I.Pins, I.Gates, I.Timers, I.Custodies, I.Closes, I.Closers, I.Orderly;
  }

  lemma AcquireSparesUsers(s: C.State, st: C.AcquireStep, q: C.Key, s': C.State)
    requires C.AcquireEnabled(s, st) && s' == C.AcquireApply(s, st)
    requires q in s.cache && s.cache[q] in s.consumers && s.consumers[s.cache[q]].users > 0
    requires forall k {:trigger s.consumers[k]} :: k in s.cache.Values && k in s.consumers && s.consumers[k].key == q ==> k == s.cache[q]
    ensures q in s'.cache && s'.cache[q] == s.cache[q]
  {
    match st
    case AcquireEvict(c, id, victim, now) => assert s.consumers[victim].users == 0;
    case _ =>
  }

  lemma TimerSparesUsers(s: C.State, st: C.TimerStep, q: C.Key, s': C.State)
    requires C.TimerEnabled(s, st) && s' == C.TimerApply(s, st)
    requires q in s.cache && s.cache[q] in s.consumers && s.consumers[s.cache[q]].users > 0
    ensures q in s'.cache && s'.cache[q] == s.cache[q]
  {
    if st.TimerLocked? {
      hide C.Expire;
      ExpireSparesUsers(s, st.t, q);
    } else {
      hide C.Expire;
    }
  }

  lemma ExpireSparesUsers(s: C.State, t: C.TimerId, q: C.Key)
    requires t in s.timers && t.consumer in s.consumers
    requires q in s.cache && s.cache[q] in s.consumers && s.consumers[s.cache[q]].users > 0
    ensures var r := C.Expire(s, t); q in r.cache && r.cache[q] == s.cache[q]
  {}

  // --------------------------------------------------------------------------- the shutdown

  /** The wait group counts the timers that are armed or whose callback runs, and the evictions
      under way; so it is never negative. */
  lemma ClosersAreCounted(w: World)
    requires Reachable(w)
    ensures w.ctl.closers == |w.ctl.timers| + |I.Evictors(w.ctl.calls)|
  {
    ReachableInv(w);
    hide JobsMatch, Blocks, Logs, Records, Claims, Owners;
    hide I.Refs, I.Pins, I.Gates, I.Timers, I.Custodies, I.Closes, I.Users, I.Orderly;
  }

  /** When any CloseContext call has returned, every client ever created has been closed, and
      CloseContext was called on it exactly once. */
  lemma ClosedExactlyOnce(w: World, i: int, k: int)
    requires Reachable(w) && i in w.ctl.closeCalls && w.ctl.closeCalls[i].CloseReturned? && k in w.ctl.consumers
    ensures w.ctl.consumers[k].phase.Closed? && w.ctl.consumers[k].closes == 1
  {
    ReachableInv(w);
    hide JobsMatch, Blocks, Logs, Records, Claims, Owners;
    hide I.Refs, I.Pins, I.Gates, I.Timers, I.Custodies, I.Users, I.Closers, I.Orderly;
    CustodyCounts(w.ctl.consumers, w.ctl.calls, w.ctl.timers, w.ctl.workers, k);
  }

  /** Whoever has custody of a client, it was closed at most once, and exactly once when it is gone. */
  lemma CustodyCounts(consumers: I.Consumers, calls: I.Calls, timers: map<C.TimerId, C.TimerPhase>, workers: map<int, C.Worker>, k: int)
    requires I.Custodies(consumers, calls, timers, workers) && k in consumers
    ensures consumers[k].closes <= 1 && (consumers[k].closes == 0 <==> consumers[k].phase.Open?)
    ensures consumers[k].custody.Gone? ==> consumers[k].phase.Closed? && consumers[k].closes == 1
  {
    var x := consumers[k];
    assert I.InCustody(k, x, calls, timers, workers);
    hide I.Custodies;
  }

  /** At no time has a client been closed twice. */
  lemma NeverClosedTwice(w: World, k: int)
    requires Reachable(w) && k in w.ctl.consumers
    ensures w.ctl.consumers[k].closes <= 1
    ensures w.ctl.consumers[k].closes == 0 <==> w.ctl.consumers[k].phase.Open?
  {
    ReachableInv(w);
    hide JobsMatch, Blocks, Logs, Records, Claims, Owners;
    hide I.Refs, I.Pins, I.Gates, I.Timers, I.Custodies, I.Closes, I.Users, I.Closers, I.Orderly;
    CustodyCounts(w.ctl.consumers, w.ctl.calls, w.ctl.timers, w.ctl.workers, k);
  }

  /** Unless a shutdown was forced, no poll, commit, rewind or AllowRebalance starts after the
      client's close has begun. */
  lemma NoUseAfterClose(w: World, st: Step)
    requires Reachable(w) && !w.ctl.cut && Enabled(w, st)
    requires st.Poll? || st.CommitStart? || st.Rewind? || st.Finish?
    ensures var k := w.ctl.calls[st.c].consumer;
            k in w.ctl.consumers && w.ctl.consumers[k].phase.Open? && w.ctl.consumers[k].closes == 0
  {
    NeverClosedTwice(w, w.ctl.calls[st.c].consumer);
    ReachableInv(w);
    ControlInv(w);
    JobFacts(w, st.c);
    hide Inv;
    WorkingIsOpen(w.ctl, st.c);
  }

  /** After isClosed the wait group never grows, so closers.Wait cannot be overtaken. */
  lemma ClosersOnlyShrink(w: World, st: C.Step, s': C.State)
    requires Reachable(w) && w.ctl.isClosed && C.Enabled(w.ctl, st) && s' == C.Apply(w.ctl, st)
    ensures s'.isClosed && s'.closers <= w.ctl.closers
  {
    StepLeaves(w.ctl, st);
  }
}
