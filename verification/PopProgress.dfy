/** A record that was polled is handed to the handler, committed and answered with success, unless
    something stands in the way. */
module PopProgress {
  import opened Text
  import C = PopControl
  import I = PopControlInv
  import PopHandler
  import opened PopDelivery
  import opened PopDeliveryInv
  import opened PopDeliveryProofs
  import opened PopTheorems
  import SP = PopShutdownProgress
  import PopIdle
  import PopRuns

  /** Call `c` works, on a manager that is not forced, and stands at `at` without an interruption. */
  predicate Stands(w: World, c: int, at: Work) {
    && c in w.jobs && w.jobs[c] == Job(false, at) && !w.ctl.forced
    && c in w.ctl.calls && w.ctl.calls[c].pc.Working? && w.ctl.calls[c].consumer in w.ctl.consumers
  }

  predicate DeliveredAt(w: World, r: Record) { r.part in w.broker && r.offset in w.broker[r.part].delivered }

  /** The call has returned success, its record is delivered and the group's offset behind it. */
  predicate Popped(w: World, c: int, r: Record) {
    && c in w.ctl.calls && w.ctl.calls[c].pc == C.Returned(C.Success)
    && DeliveredAt(w, r) && w.broker[r.part].committed == r.offset + 1
  }

  ghost predicate Leads(w: World, steps: seq<Step>, c: int, r: Record) {
    Runs(w, steps) && Popped(After(w, steps), c, r)
  }

  lemma First(w: World, st: Step, rest: seq<Step>, c: int, r: Record)
    requires Enabled(w, st) && Leads(Apply(w, st), rest, c, r)
    ensures Leads(w, [st] + rest, c, r)
  {
    hide Enabled, Apply, Popped;
    assert ([st] + rest)[1..] == rest;
  }

  // ------------------------------------------------------------------------------- the steps

  function LeavingSteps(c: int, now: int): (steps: seq<Step>) {
    [Control(C.OfGate(C.Leave(c)))] + [Control(C.OfGate(C.Release(c, now)))]
  }

  lemma FromLeaving(w: World, c: int, r: Record, now: int)
    requires c in w.ctl.calls && w.ctl.calls[c].pc == C.Leaving(C.Success) && w.ctl.calls[c].consumer in w.ctl.consumers
    requires DeliveredAt(w, r) && w.broker[r.part].committed == r.offset + 1
    ensures Leads(w, LeavingSteps(c, now), c, r)
  {
    var leave, release := C.Leave(c), C.Release(c, now);
    var w1 := Apply(w, Control(C.OfGate(leave)));
    LeaveStep(w, c, now);
    ReleaseMovesOne(w1.ctl, c, now);
    var w2 := Apply(w1, Control(C.OfGate(release)));
    hide C.GateApply, C.GateEnabled;
    assert w2.broker == w.broker && w2.ctl.calls[c].pc == C.Returned(C.Success);
    assert Leads(w2, [], c, r);
    First(w1, Control(C.OfGate(release)), [], c, r);
    assert [Control(C.OfGate(release))] + [] == [Control(C.OfGate(release))];
    First(w, Control(C.OfGate(leave)), [Control(C.OfGate(release))], c, r);
  }

  lemma LeaveStep(w: World, c: int, now: int)
    requires c in w.ctl.calls && w.ctl.calls[c].pc == C.Leaving(C.Success) && w.ctl.calls[c].consumer in w.ctl.consumers
    ensures Enabled(w, Control(C.OfGate(C.Leave(c))))
    ensures var w1 := Apply(w, Control(C.OfGate(C.Leave(c))));
            && w1.broker == w.broker && C.GateEnabled(w1.ctl, C.Release(c, now))
            && c in w1.ctl.calls && w1.ctl.calls[c].pc == C.Releasing(C.Success)
  {
    hide C.Unpin;
  }

  lemma FromFinishing(w: World, c: int, r: Record, now: int)
    requires Stands(w, c, Finishing(C.Success)) && DeliveredAt(w, r) && w.broker[r.part].committed == r.offset + 1
    ensures Leads(w, [Finish(c)] + LeavingSteps(c, now), c, r)
  {
    hide C.Unpin;
    var w1 := Apply(w, Finish(c));
    FromLeaving(w1, c, r, now);
    hide Leads;
    First(w, Finish(c), LeavingSteps(c, now), c, r);
  }

  function CommitSteps(c: int, now: int): (steps: seq<Step>) {
    [CommitStart(c)] + ([CommitAcked(c)] + ([Finish(c)] + LeavingSteps(c, now)))
  }

  lemma FromHandledKept(w: World, c: int, r: Record, now: int)
    requires Stands(w, c, HandledKept(r)) && DeliveredAt(w, r)
    ensures Leads(w, CommitSteps(c, now), c, r)
  {
    hide Leads, LeavingSteps;
    var w1 := Apply(w, CommitStart(c));
    var w2 := Apply(w1, CommitAcked(c));
    FromFinishing(w2, c, r, now);
    First(w1, CommitAcked(c), [Finish(c)] + LeavingSteps(c, now), c, r);
    First(w, CommitStart(c), [CommitAcked(c)] + ([Finish(c)] + LeavingSteps(c, now)), c, r);
  }

  function HandleSteps(c: int, d: PopHandler.Delivery, now: int): (steps: seq<Step>) {
    [HandlerReturns(c, d)] + ([HandledForceCheck(c)] + CommitSteps(c, now))
  }

  lemma FromHandling(w: World, c: int, r: Record, d: PopHandler.Delivery, now: int)
    requires Stands(w, c, Handling(r)) && r.part in w.broker && PopHandler.Possible(d.transfer) && PopHandler.Handle(d).Nil?
    ensures Leads(w, HandleSteps(c, d, now), c, r)
  {
    hide Leads, CommitSteps, PopHandler.Handle, PopHandler.Possible;
    HandlerStep(w, c, r, d);
    hide WorkApply, WorkEnabled;
    var w1 := Apply(w, HandlerReturns(c, d));
    FromHandled(w1, c, r, now);
    First(w, HandlerReturns(c, d), [HandledForceCheck(c)] + CommitSteps(c, now), c, r);
  }

  lemma HandlerStep(w: World, c: int, r: Record, d: PopHandler.Delivery)
    requires Stands(w, c, Handling(r)) && r.part in w.broker && PopHandler.Possible(d.transfer) && PopHandler.Handle(d).Nil?
    ensures WorkEnabled(w, HandlerReturns(c, d))
    ensures var w1 := WorkApply(w, HandlerReturns(c, d)); Stands(w1, c, Handled(r)) && DeliveredAt(w1, r)
  {
    hide PopHandler.Handle, PopHandler.FullBodyWritten, PopHandler.Possible;
    NilIsFull(d);
    var log := w.broker[r.part];
    var w1 := DoHandlerReturns(w, c, d);
    assert w1.broker == w.broker[r.part := log.(delivered := log.delivered + {r.offset})];
  }

  lemma NilIsFull(d: PopHandler.Delivery)
    requires PopHandler.Possible(d.transfer) && PopHandler.Handle(d).Nil?
    ensures PopHandler.FullBodyWritten(d)
  {
    hide PopHandler.Handle;
    PopHandler.NilMeansDelivered(d);
  }

  lemma FromHandled(w: World, c: int, r: Record, now: int)
    requires Stands(w, c, Handled(r)) && DeliveredAt(w, r)
    ensures Leads(w, [HandledForceCheck(c)] + CommitSteps(c, now), c, r)
  {
    hide Leads, CommitSteps;
    var w1 := Apply(w, HandledForceCheck(c));
    FromHandledKept(w1, c, r, now);
    First(w, HandledForceCheck(c), CommitSteps(c, now), c, r);
  }

  /** The steps of a call whose poll was clean, for a handler that accepts and a commit that is acknowledged. */
  function PolledSteps(c: int, d: PopHandler.Delivery, now: int): (steps: seq<Step>) {
    [PollForceCheck(c)] + ([PollDecide(c, false, false)] + HandleSteps(c, d, now))
  }

  lemma FromPolled(w: World, c: int, r: Record, d: PopHandler.Delivery, now: int)
    requires Stands(w, c, Polled(Some(r), false)) && r.part in w.broker && PopHandler.Possible(d.transfer) && PopHandler.Handle(d).Nil?
    ensures Leads(w, PolledSteps(c, d, now), c, r)
  {
    hide Leads, HandleSteps, PopHandler.Handle, PopHandler.Possible;
    var w1 := Apply(w, PollForceCheck(c));
    var w2 := Apply(w1, PollDecide(c, false, false));
    FromHandling(w2, c, r, d, now);
    First(w1, PollDecide(c, false, false), HandleSteps(c, d, now), c, r);
    First(w, PollForceCheck(c), [PollDecide(c, false, false)] + HandleSteps(c, d, now), c, r);
  }

  // ----------------------------------------------------------------------------- the theorem

  lemma WorksAt(w: World, c: int)
    requires Reachable(w) && c in w.jobs && !w.jobs[c].interrupted && !w.ctl.forced
    ensures Stands(w, c, w.jobs[c].at)
    ensures w.jobs[c].at.InHand().Some? ==> w.jobs[c].at.InHand().value.part in w.broker
  {
    ReachableInv(w);
    JobFacts(w, c);
    hide JobsMatch, Blocks, Logs, Records, Claims, Owners, I.Gates, I.Timers, I.Custodies, I.Closes, I.Users, I.Closers, I.Orderly, LogOk;
  }

  /** From every reachable world in which a call of an unforced manager holds a record of a clean poll
      and was not interrupted, its own steps, with a handler that accepts the record and a commit that
      is acknowledged, lead to success, with that record delivered and committed. */
  lemma CleanPollSucceeds(w: World, c: int, r: Record, d: PopHandler.Delivery, now: int)
    requires Reachable(w) && !w.ctl.forced && c in w.jobs && w.jobs[c] == Job(false, Polled(Some(r), false))
    requires PopHandler.Possible(d.transfer) && PopHandler.Handle(d).Nil?
    ensures Leads(w, PolledSteps(c, d, now), c, r)
  {
    hide Reachable, Leads, PolledSteps, PopHandler.Handle, PopHandler.Possible;
    WorksAt(w, c);
    FromPolled(w, c, r, d, now);
  }

  /** And a call that is about to poll can get the next record of any partition its client owns. */
  lemma NextRecordIsPopped(w: World, c: int, r: Record, d: PopHandler.Delivery, now: int)
    requires Reachable(w) && !w.ctl.forced && c in w.jobs && w.jobs[c] == Job(false, Polling)
    requires c in w.ctl.calls && NextRecord(w, w.ctl.calls[c].consumer, r)
    requires PopHandler.Possible(d.transfer) && PopHandler.Handle(d).Nil?
    ensures Leads(w, [Poll(c, Some(r), false)] + PolledSteps(c, d, now), c, r)
  {
    hide Reachable, Leads, PolledSteps, PopHandler.Handle, PopHandler.Possible;
    WorksAt(w, c);
    var w1 := Apply(w, Poll(c, Some(r), false));
    FromPolled(w1, c, r, d, now);
    First(w, Poll(c, Some(r), false), PolledSteps(c, d, now), c, r);
  }

  // ------------------------------------------------------------------------------ admission

  function ControlSteps(steps: seq<C.Step>): (r: seq<Step>) { seq(|steps|, i requires 0 <= i < |steps| => Control(steps[i])) }

  /** Call `c` stands before its poll, on this consumer. */
  predicate AboutToPoll(w: World, c: int, k: int) {
    && c in w.jobs && w.jobs[c] == Job(false, Polling)
    && c in w.ctl.calls && w.ctl.calls[c].pc.Working? && w.ctl.calls[c].consumer == k
  }

  /** Taking a free gate of an open manager, in the manager's own terms. */
  lemma GateSteps(s: C.State, c: int)
    requires c in s.calls && s.calls[c].pc.Waiting? && !s.isClosed
    requires s.calls[c].consumer in s.consumers && s.consumers[s.calls[c].consumer].gate.Free?
    ensures C.GateEnabled(s, C.GateTake(c))
    ensures var k, s1 := s.calls[c].consumer, C.GateApply(s, C.GateTake(c));
            && C.GateEnabled(s1, C.Recheck(c, false))
            && var s2 := C.GateApply(s1, C.Recheck(c, false));
            && c in s2.calls && s2.calls[c].pc.Working? && s2.calls[c].consumer == k
            && s2.consumers == s.consumers[k := s.consumers[k].(gate := C.ByCall(c))]
  {
    hide C.Unpin;
  }

  /** Taking a free gate of an open manager leads to the poll. */
  lemma GateLeadsToPoll(w: World, c: int)
    requires c in w.ctl.calls && w.ctl.calls[c].pc.Waiting? && !w.ctl.isClosed
    requires w.ctl.calls[c].consumer in w.ctl.consumers && w.ctl.consumers[w.ctl.calls[c].consumer].gate.Free?
    ensures var steps := [Control(C.OfGate(C.GateTake(c)))] + [Control(C.OfGate(C.Recheck(c, false)))]; var k := w.ctl.calls[c].consumer;
            && Runs(w, steps) && AboutToPoll(After(w, steps), c, k)
            && After(w, steps).ctl.consumers == w.ctl.consumers[k := w.ctl.consumers[k].(gate := C.ByCall(c))]
  {
    GateSteps(w.ctl, c);
    hide C.GateApply, C.GateEnabled;
    TwoSteps(w, Control(C.OfGate(C.GateTake(c))), Control(C.OfGate(C.Recheck(c, false))));
  }

  lemma TwoSteps(w: World, a: Step, b: Step)
    requires Enabled(w, a) && Enabled(Apply(w, a), b)
    ensures Runs(w, [a] + [b]) && After(w, [a] + [b]) == Apply(Apply(w, a), b)
  {
    hide Enabled, Apply;
    var steps := [a] + [b];
    assert steps[1..] == [b] && [b][1..] == [];
    assert Runs(Apply(Apply(w, a), b), []);
    assert After(Apply(Apply(w, a), b), []) == Apply(Apply(w, a), b);
    assert Runs(Apply(w, a), [b]) && After(Apply(w, a), [b]) == Apply(Apply(w, a), b);
  }

  /** A call on an open manager whose consumer is cached and free, or can be made without an eviction,
      comes to its poll by its own steps. */
  lemma OpenManagerAdmits(w: World, c: int, now: int, id: int)
    requires Reachable(w) && !w.ctl.isClosed && c in w.ctl.calls && w.ctl.calls[c].pc.Arriving?
    requires var key := w.ctl.calls[c].key;
             if key in w.ctl.cache then w.ctl.cache[key] in w.ctl.consumers && w.ctl.consumers[w.ctl.cache[key]].gate.Free?
             else |w.ctl.cache| < w.ctl.maxConsumers && id !in w.ctl.consumers
    ensures var key := w.ctl.calls[c].key;
            var first := if key in w.ctl.cache then C.AcquireHit(c, now) else C.AcquireMiss(c, id, now);
            var k := if key in w.ctl.cache then w.ctl.cache[key] else id;
            var rest := [Control(C.OfGate(C.GateTake(c)))] + [Control(C.OfGate(C.Recheck(c, false)))];
            && Enabled(w, Control(C.OfAcquire(first))) && Runs(Apply(w, Control(C.OfAcquire(first))), rest)
            && AboutToPoll(After(Apply(w, Control(C.OfAcquire(first))), rest), c, k)
  {
    hide Reachable;
    var key := w.ctl.calls[c].key;
    var first := if key in w.ctl.cache then C.AcquireHit(c, now) else C.AcquireMiss(c, id, now);
    AcquireWaits(w.ctl, c, now, id);
    hide C.AcquireApply, C.AcquireEnabled;
    GateLeadsToPoll(Apply(w, Control(C.OfAcquire(first))), c);
  }

  lemma AcquireWaits(s: C.State, c: int, now: int, id: int)
    requires !s.isClosed && c in s.calls && s.calls[c].pc.Arriving?
    requires var key := s.calls[c].key;
             if key in s.cache then s.cache[key] in s.consumers && s.consumers[s.cache[key]].gate.Free?
             else |s.cache| < s.maxConsumers && id !in s.consumers
    ensures var key := s.calls[c].key;
            var first := if key in s.cache then C.AcquireHit(c, now) else C.AcquireMiss(c, id, now);
            var k := if key in s.cache then s.cache[key] else id;
            && C.AcquireEnabled(s, first)
            && var r := C.AcquireApply(s, first);
               && c in r.calls && r.calls[c].pc.Waiting? && r.calls[c].consumer == k && !r.isClosed
               && k in r.consumers && r.consumers[k].gate.Free?
  {
    hide C.LeastRecentIdle, C.MayFail, C.StopIdleTimer;
  }

  lemma {:induction false} JoinRuns(w: World, a: seq<Step>, b: seq<Step>)
    requires Runs(w, a) && Runs(After(w, a), b)
    ensures Runs(w, a + b) && After(w, a + b) == After(After(w, a), b)
    decreases |a|
  {
    hide Enabled, Apply;
    if a == [] {
      assert a + b == b;
    } else {
      assert (a + b)[1..] == a[1..] + b;
      JoinRuns(Apply(w, a[0]), a[1..], b);
    }
  }

  lemma OneStep(w: World, st: Step)
    requires Enabled(w, st)
    ensures Runs(w, [st]) && After(w, [st]) == Apply(w, st)
  {
    hide Enabled, Apply;
    assert [st][1..] == [];
    assert After(Apply(w, st), []) == Apply(w, st);
  }

  function EvictingSteps(c: int, id: int, victim: int, now: int): (steps: seq<Step>) {
    [Control(C.OfAcquire(C.AcquireEvict(c, id, victim, now)))]
    + ([Control(C.OfAcquire(C.EvictCloseBegin(c)))] + [Control(C.OfAcquire(C.EvictCloseEnd(c)))])
  }

  /** A full cache admits a call too, as long as some consumer is unused: it closes the one that was used
      least recently and comes to its poll on a new one. */
  lemma FullCacheAdmits(w: World, c: int, id: int, victim: int, now: int)
    requires !w.ctl.isClosed && c in w.ctl.calls && w.ctl.calls[c].pc.Arriving? && w.ctl.calls[c].key !in w.ctl.cache
    requires |w.ctl.cache| >= w.ctl.maxConsumers && id !in w.ctl.consumers && C.LeastRecentIdle(w.ctl, victim)
    ensures var steps := EvictingSteps(c, id, victim, now) + ([Control(C.OfGate(C.GateTake(c)))] + [Control(C.OfGate(C.Recheck(c, false)))]);
            && Runs(w, steps) && AboutToPoll(After(w, steps), c, id)
            && victim in After(w, steps).ctl.consumers && After(w, steps).ctl.consumers[victim].phase.Closed?
  {
    hide C.LeastRecentIdle;
    var a := Control(C.OfAcquire(C.AcquireEvict(c, id, victim, now)));
    var b, d := Control(C.OfAcquire(C.EvictCloseBegin(c))), Control(C.OfAcquire(C.EvictCloseEnd(c)));
    EvictionStarts(w.ctl, c, id, victim, now);
    var w1 := Apply(w, a);
    EvictionEnds(w1.ctl, c, id, victim);
    hide C.AcquireApply, C.AcquireEnabled;
    TwoSteps(w1, b, d);
    OneStep(w, a);
    JoinRuns(w, [a], [b] + [d]);
    var w3 := After(w, EvictingSteps(c, id, victim, now));
    GateLeadsToPoll(w3, c);
    JoinRuns(w, EvictingSteps(c, id, victim, now), [Control(C.OfGate(C.GateTake(c)))] + [Control(C.OfGate(C.Recheck(c, false)))]);
  }

  /** Between its eviction and the end of the victim's close. */
  predicate ClosesVictim(s: C.State, c: int, id: int, v: int) {
    && c in s.calls && s.calls[c].pc == C.Evicting(v) && s.calls[c].consumer == id
    && id in s.consumers && s.consumers[id].gate.Free? && v in s.consumers && v != id
  }

  lemma EvictionStarts(s: C.State, c: int, id: int, v: int, now: int)
    requires C.AcquireEnabled(s, C.AcquireEvict(c, id, v, now))
    ensures var s1 := C.AcquireApply(s, C.AcquireEvict(c, id, v, now)); ClosesVictim(s1, c, id, v) && s1.isClosed == s.isClosed
  {
    assert v in s.consumers && v != id;
    hide C.LeastRecentIdle, C.StopIdleTimer;
  }

  lemma EvictionEnds(s: C.State, c: int, id: int, v: int)
    requires ClosesVictim(s, c, id, v)
    ensures C.AcquireEnabled(s, C.EvictCloseBegin(c))
    ensures var s2 := C.AcquireApply(s, C.EvictCloseBegin(c));
            && C.AcquireEnabled(s2, C.EvictCloseEnd(c))
            && var s3 := C.AcquireApply(s2, C.EvictCloseEnd(c));
            && c in s3.calls && s3.calls[c].pc.Waiting? && s3.calls[c].consumer == id && s3.isClosed == s.isClosed
            && id in s3.consumers && s3.consumers[id].gate.Free? && v in s3.consumers && s3.consumers[v].phase.Closed?
  {
    hide C.LeastRecentIdle, C.MayFail;
  }

  /** A call is refused for the limit exactly if the manager is open, has no consumer for it, and its cache is
      full of consumers that other calls are pinned to. */
  lemma LimitIff(w: World, c: int)
    requires Reachable(w) && c in w.ctl.calls && w.ctl.calls[c].pc.Arriving?
    ensures Enabled(w, Control(C.OfAcquire(C.AcquireFails(c, C.ConsumerLimit)))) <==>
            && !w.ctl.isClosed && w.ctl.calls[c].key !in w.ctl.cache && |w.ctl.cache| == w.ctl.maxConsumers
            && forall q :: q in w.ctl.cache ==> I.PinnedTo(w.ctl.calls, w.ctl.cache[q]) != {}
  {
    hide Inv, I.Inv, Reachable, I.PinnedTo;
    ReachableInv(w);
    ControlInv(w);
    CacheFits(w.ctl);
    forall q | q in w.ctl.cache
      ensures w.ctl.cache[q] in w.ctl.consumers && (w.ctl.consumers[w.ctl.cache[q]].users != 0 <==> I.PinnedTo(w.ctl.calls, w.ctl.cache[q]) != {})
    {
      PopRuns.CachedConsumer(w.ctl, q);
      UsersOf(w.ctl, w.ctl.cache[q]);
    }
  }

  lemma CacheFits(s: C.State)
    requires I.Inv(s)
    ensures |s.cache| <= s.maxConsumers
  {
    hide I.Pins, I.Gates, I.Timers, I.Custodies, I.Closes, I.Users, I.Closers, I.Orderly;
  }

  // ------------------------------------------------------------------------------- idleness

  lemma WorldWatches(w: World, st: Step)
    requires Enabled(w, st) && Inv(w) && PopIdle.Watched(w.ctl.consumers)
    ensures PopIdle.Watched(Apply(w, st).ctl.consumers)
  {
    hide Inv, I.Inv, PopIdle.Watched;
    ControlInv(w);
    if st.Control? {
      hide C.Apply, C.Enabled;
      PopIdle.StepWatches(w.ctl, st.st);
    } else if st.Finish? {
      WorkEndsLeaves(w.ctl, st.c, w.jobs[st.c].at.out);
      hide C.GateApply;
    } else {
      ManagerStays(w, st);
    }
  }

  lemma WorkEndsLeaves(s: C.State, c: int, out: C.Outcome)
    requires C.GateEnabled(s, C.WorkEnds(c, out))
    ensures C.GateApply(s, C.WorkEnds(c, out)).consumers == s.consumers
  {
    hide C.Unpin;
  }

  lemma ManagerStays(w: World, st: Step)
    requires !st.Control? && !st.Finish? && WorkEnabled(w, st)
    ensures WorkApply(w, st).ctl == w.ctl
  {
    hide NextRecord, PopHandler.Handle, PopHandler.FullBodyWritten, PopHandler.Possible, Decide, DeliveredBelow, C.GateEnabled, C.GateApply;
  }

  lemma {:induction false} RunWatches(w: World, steps: seq<Step>)
    requires Runs(w, steps) && Inv(w) && PopIdle.Watched(w.ctl.consumers)
    ensures PopIdle.Watched(After(w, steps).ctl.consumers)
    decreases |steps|
  {
    hide Inv, PopIdle.Watched, Enabled, Apply;
    if steps != [] {
      StepKeeps(w, steps[0], Apply(w, steps[0]));
      WorldWatches(w, steps[0]);
      RunWatches(Apply(w, steps[0]), steps[1..]);
    }
  }

  /** In every run an unused consumer of the cache has a timer, armed or with its callback under way, that
      will close it unless the consumer is used again. */
  lemma IdleIsTimed(w: World, q: C.Key)
    requires Reachable(w) && q in w.ctl.cache && w.ctl.cache[q] in w.ctl.consumers && w.ctl.consumers[w.ctl.cache[q]].users == 0
    ensures var k := w.ctl.cache[q]; var t := C.TimerId(k, w.ctl.consumers[k].idleGeneration);
            && w.ctl.consumers[k].idleTimer == Some(t.generation)
            && t in w.ctl.timers && (w.ctl.timers[t].Armed? || w.ctl.timers[t].Firing?)
  {
    ReachableInv(w);
    ControlInv(w);
    var max: nat, steps :| Runs(Initial(max), steps) && After(Initial(max), steps) == w;
    InitialInv(max);
    hide Inv, I.Inv;
    RunWatches(Initial(max), steps);
    IdlePointer(w.ctl, q);
  }

  lemma IdlePointer(s: C.State, q: C.Key)
    requires I.Inv(s) && PopIdle.Watched(s.consumers) && q in s.cache && s.cache[q] in s.consumers && s.consumers[s.cache[q]].users == 0
    ensures var k := s.cache[q]; var t := C.TimerId(k, s.consumers[k].idleGeneration);
            && s.consumers[k].idleTimer == Some(t.generation) && t in s.timers && (s.timers[t].Armed? || s.timers[t].Firing?)
  {
    hide I.Pins, I.Gates, I.Custodies, I.Closes, I.Users, I.Closers, I.Orderly;
    assert I.PointerOk(s.cache[q], s.consumers[s.cache[q]], s.timers);
  }

  // ------------------------------------------------------------------------------- shutdown

  lemma {:induction false} Lift(w: World, steps: seq<C.Step>)
    requires SP.Runs(w.ctl, steps) && SP.Background(steps)
    ensures Runs(w, ControlSteps(steps)) && After(w, ControlSteps(steps)).ctl == SP.After(w.ctl, steps)
    decreases |steps|
  {
    var all := ControlSteps(steps);
    if steps != [] {
      assert steps[0].OfTimer? || steps[0].OfClose?;
      assert all[0] == Control(steps[0]) && all[1..] == ControlSteps(steps[1..]);
      var w1 := Apply(w, all[0]);
      assert w1.ctl == C.Apply(w.ctl, steps[0]);
      hide C.Apply, C.Enabled;
      Lift(w1, steps[1..]);
    }
  }

  /** When a CloseContext call leads the shutdown, no call is closing an evicted client, and the shutdown was
      forced or no Consume call is between its pin and its release any more, then workers, timers and the
      call itself can always go on until it returns, without a step of any Consume call. */
  lemma ShutdownCanFinish(w: World, i: int) returns (steps: seq<Step>)
    requires Reachable(w) && i in w.ctl.closeCalls && w.ctl.closeCalls[i].Leading?
    requires forall c {:trigger w.ctl.calls[c]} :: c in w.ctl.calls ==>
               !w.ctl.calls[c].pc.Evictor() && (w.ctl.forced || !w.ctl.calls[c].pc.Pinned())
    ensures forall j :: 0 <= j < |steps| ==> steps[j].Control? && (steps[j].st.OfTimer? || steps[j].st.OfClose?)
    ensures Runs(w, steps) && i in After(w, steps).ctl.closeCalls && After(w, steps).ctl.closeCalls[i].CloseReturned?
  {
    hide Reachable;
    ReachableInv(w);
    ControlInv(w);
    LeaderClosed(w.ctl, i);
    hide Inv, I.Inv, SP.Runs;
    var control := SP.Finishes(w.ctl, i);
    Lift(w, control);
    steps := ControlSteps(control);
  }

  /** And so can every other CloseContext call, once one has returned. */
  lemma FollowersReturn(w: World, i: int, j: int)
    requires Reachable(w) && i in w.ctl.closeCalls && w.ctl.closeCalls[i].CloseReturned?
    requires j in w.ctl.closeCalls && w.ctl.closeCalls[j].Following?
    ensures var st := Control(C.OfClose(C.CloseFollow(j)));
            Enabled(w, st) && j in Apply(w, st).ctl.closeCalls && Apply(w, st).ctl.closeCalls[j].CloseReturned?
  {
    hide Inv, Reachable, I.Inv;
    ReachableInv(w);
    ControlInv(w);
    ReturnedIsDone(w.ctl, i);
  }

  lemma ReturnedIsDone(s: C.State, i: int)
    requires I.Inv(s) && i in s.closeCalls && s.closeCalls[i].CloseReturned?
    ensures s.closeDone
  {
    hide I.Refs, I.Pins, I.Gates, I.Timers, I.Custodies, I.Users, I.Closers, I.Orderly;
  }

  lemma LeaderClosed(s: C.State, i: int)
    requires I.Inv(s) && i in s.closeCalls && s.closeCalls[i].Leading?
    ensures s.isClosed
  {
    hide I.Refs, I.Pins, I.Gates, I.Timers, I.Custodies, I.Users, I.Closers, I.Orderly;
  }
}
