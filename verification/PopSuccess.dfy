/** What a successful Consume call has behind it. */
module PopSuccess {
  import opened Text
  import C = PopControl
  import I = PopControlInv
  import opened PopDelivery
  import opened PopDeliveryInv
  import opened PopDeliveryProofs

  /** A call on its way out with success, or returned. */
  predicate Succeeds(pc: C.Pc) {
    (pc.GivingBack? || pc.Leaving? || pc.Releasing? || pc.Returned?) && pc.out.Success?
  }

  /** The call's record was delivered, and a commit behind it was requested and acknowledged. */
  predicate Done(acked: map<int, Record>, broker: Broker, c: int) {
    && c in acked && acked[c].part in broker
    && acked[c].offset in broker[acked[c].part].records && acked[c].offset in broker[acked[c].part].delivered
    && acked[c].offset + 1 in broker[acked[c].part].requests
  }

  predicate Requested(broker: Broker, rec: Record) {
    rec.part in broker && rec.offset + 1 in broker[rec.part].requests
  }

  ghost predicate JobsDone(jobs: Jobs, acked: map<int, Record>, broker: Broker) {
    && (forall c {:trigger jobs[c]} :: c in jobs && jobs[c].at == Finishing(C.Success) ==> Done(acked, broker, c))
    && (forall c {:trigger jobs[c]} :: c in jobs && jobs[c].at.Committing? ==> Requested(broker, jobs[c].at.rec))
  }

  ghost predicate CallsDone(calls: I.Calls, acked: map<int, Record>, broker: Broker) {
    forall c {:trigger calls[c]} :: c in calls && Succeeds(calls[c].pc) ==> Done(acked, broker, c)
  }

  ghost predicate Successes(w: World) {
    JobsDone(w.jobs, w.acked, w.broker) && CallsDone(w.ctl.calls, w.acked, w.broker)
  }

  /** Logs keep their records, deliveries and requests. */
  predicate Grew(a: Broker, b: Broker) {
    forall p {:trigger a[p]} :: p in a ==>
      p in b && a[p].records <= b[p].records && a[p].delivered <= b[p].delivered && a[p].requests <= b[p].requests
  }

  lemma BrokerGrows(jobs: Jobs, calls: I.Calls, acked: map<int, Record>, a: Broker, b: Broker)
    requires Grew(a, b) && JobsDone(jobs, acked, a) && CallsDone(calls, acked, a)
    ensures JobsDone(jobs, acked, b) && CallsDone(calls, acked, b)
  {
    forall c | Done(acked, a, c) ensures Done(acked, b, c) { assert a[acked[c].part].records <= b[acked[c].part].records; }
    forall rec | Requested(a, rec) ensures Requested(b, rec) { assert a[rec.part].requests <= b[rec.part].requests; }
    hide Done, Requested;
  }

  lemma LogGrows(a: Broker, p: Partition, log: Log)
    requires p in a ==> a[p].records <= log.records && a[p].delivered <= log.delivered && a[p].requests <= log.requests
    ensures Grew(a, a[p := log])
  {}

  /** A job moves to a state that neither commits nor has succeeded. */
  lemma JobMoves(jobs: Jobs, acked: map<int, Record>, broker: Broker, c: int, job: Job)
    requires JobsDone(jobs, acked, broker)
    requires job.at == Finishing(C.Success) ==> Done(acked, broker, c)
    requires job.at.Committing? ==> Requested(broker, job.at.rec)
    ensures JobsDone(jobs[c := job], acked, broker)
  {
    hide Done, Requested;
  }

  // ------------------------------------------------------------------------------ the steps

  lemma PlainJobStep(w: World, st: Step, w': World)
    requires st.Poll? || st.PollForceCheck? || st.PollDecide? || st.HandlerReturns? || st.HandledForceCheck? || st.CommitFails?
             || st.Rewind? || st.Interrupt?
    requires WorkEnabled(w, st) && w' == WorkApply(w, st)
    requires Inv(w) && Successes(w)
    ensures Successes(w')
  {
    hide Inv, JobsDone, CallsDone, LogOk, NextRecord, Done;
    JobFacts(w, st.c);
    PlainJobMoves(w, st, w');
    BrokerGrows(w.jobs, w.ctl.calls, w.acked, w.broker, w'.broker);
    StillRequested(w, st.c, w'.broker);
    JobMoves(w.jobs, w.acked, w'.broker, st.c, w'.jobs[st.c]);
  }

  lemma StillRequested(w: World, c: int, b: Broker)
    requires c in w.jobs && JobsDone(w.jobs, w.acked, w.broker) && Grew(w.broker, b)
    ensures w.jobs[c].at.Committing? ==> Requested(b, w.jobs[c].at.rec)
    ensures w.jobs[c].at == Finishing(C.Success) ==> Done(w.acked, b, c)
  {
    if w.jobs[c].at.Committing? { assert w.jobs[c].at.rec.part in b; }
    if w.jobs[c].at == Finishing(C.Success) { assert w.acked[c].part in b; }
  }

  /** One job is touched and the logs grow; nothing succeeds and no commit starts. */
  ghost predicate MovesOne(w: World, c: int, w': World) {
    && w'.ctl == w.ctl && w'.acked == w.acked && c in w.jobs && c in w'.jobs && w'.jobs == w.jobs[c := w'.jobs[c]]
    && (w'.jobs[c].at == w.jobs[c].at || (w'.jobs[c].at != Finishing(C.Success) && !w'.jobs[c].at.Committing?))
    && Grew(w.broker, w'.broker)
  }

  lemma PlainJobMoves(w: World, st: Step, w': World)
    requires st.Poll? || st.PollForceCheck? || st.PollDecide? || st.HandlerReturns? || st.HandledForceCheck? || st.CommitFails?
             || st.Rewind? || st.Interrupt?
    requires WorkEnabled(w, st) && w' == WorkApply(w, st) && JobOk(w.jobs[st.c], w.broker, w.ctl.forced)
    ensures MovesOne(w, st.c, w')
  {
    hide NextRecord, LogOk, DeliveredBelow, DoPoll, DoHandlerReturns, DoRewind, PopHandler.Possible;
    if st.Poll? {
      hide MovesOne;
      PollMoves(w, st.c, st.got, st.fetchErr);
    } else if st.HandlerReturns? {
      hide MovesOne;
      HandlerMoves(w, st.c, st.d);
    } else if st.Rewind? {
      hide MovesOne;
      RewindMoves(w, st.c);
    }
  }

  lemma PollMoves(w: World, c: int, got: Option<Record>, fetchErr: bool)
    requires WorkEnabled(w, Poll(c, got, fetchErr))
    ensures MovesOne(w, c, DoPoll(w, c, got, fetchErr))
  {
    if got.Some? { LogGrows(w.broker, got.value.part, DoPoll(w, c, got, fetchErr).broker[got.value.part]); }
  }

  lemma HandlerMoves(w: World, c: int, d: PopHandler.Delivery)
    requires WorkEnabled(w, HandlerReturns(c, d))
    ensures MovesOne(w, c, DoHandlerReturns(w, c, d))
  {
    hide PopHandler.Handle, PopHandler.FullBodyWritten, PopHandler.Possible;
    var p := w.jobs[c].at.rec.part;
    var log := w.broker[p];
    LogGrows(w.broker, p, log.(delivered := log.delivered + {w.jobs[c].at.rec.offset}));
  }

  lemma RewindMoves(w: World, c: int)
    requires WorkEnabled(w, Rewind(c)) && JobOk(w.jobs[c], w.broker, w.ctl.forced)
    ensures MovesOne(w, c, DoRewind(w, c))
  {
    hide DeliveredBelow;
    var p := w.jobs[c].at.rec.part;
    LogGrows(w.broker, p, DoRewind(w, c).broker[p]);
  }

  lemma CommitStartStep(w: World, c: int, w': World)
    requires WorkEnabled(w, CommitStart(c)) && w' == WorkApply(w, CommitStart(c))
    requires Successes(w)
    ensures Successes(w')
  {
    hide JobsDone, CallsDone, Done;
    var p := w.jobs[c].at.rec.part;
    LogGrows(w.broker, p, w'.broker[p]);
    BrokerGrows(w.jobs, w.ctl.calls, w.acked, w.broker, w'.broker);
    JobMoves(w.jobs, w.acked, w'.broker, c, w'.jobs[c]);
  }

  lemma CommitAckedStep(w: World, c: int, w': World)
    requires WorkEnabled(w, CommitAcked(c)) && w' == WorkApply(w, CommitAcked(c))
    requires Inv(w) && Successes(w)
    ensures Successes(w')
  {
    hide Inv, CallsDone, LogOk;
    JobFacts(w, c);
    var rec := w.jobs[c].at.rec;
    assert Requested(w.broker, rec);
    LogGrows(w.broker, rec.part, w'.broker[rec.part]);
    hide JobsDone;
    BrokerGrows(w.jobs, w.ctl.calls, w.acked, w.broker, w'.broker);
    AckedGrows(w.jobs, w.ctl.calls, w.acked, w'.broker, c, rec);
    JobMoves(w.jobs, w'.acked, w'.broker, c, w'.jobs[c]);
  }

  lemma AckedGrows(jobs: Jobs, calls: I.Calls, acked: map<int, Record>, broker: Broker, c: int, rec: Record)
    requires JobsDone(jobs, acked, broker) && CallsDone(calls, acked, broker) && Done(acked[c := rec], broker, c)
    ensures JobsDone(jobs, acked[c := rec], broker) && CallsDone(calls, acked[c := rec], broker)
  {
    forall d | Done(acked, broker, d) ensures Done(acked[c := rec], broker, d) {}
    hide Done, Requested;
  }

  /** The call takes its job's outcome along. */
  lemma FinishStep(w: World, c: int, w': World)
    requires WorkEnabled(w, Finish(c)) && w' == WorkApply(w, Finish(c))
    requires Successes(w)
    ensures Successes(w')
  {
    hide Done, Requested;
    var out := w.jobs[c].at.out;
    assert w'.ctl.calls == w.ctl.calls[c := w.ctl.calls[c].(pc := C.Leaving(out))];
    assert out.Success? ==> w.jobs[c].at == Finishing(C.Success);
  }

  lemma BrokerStep(w: World, st: Step, w': World)
    requires st.CreatePartition? || st.Produce? || st.BrokerApplies? || st.Assign? || st.Revoke? || st.OtherReplica?
    requires WorkEnabled(w, st) && w' == WorkApply(w, st)
    requires Successes(w)
    ensures Successes(w')
  {
    hide JobsDone, CallsDone, DeliveredBelow;
    LogGrows(w.broker, st.p, w'.broker[st.p]);
    BrokerGrows(w.jobs, w.ctl.calls, w.acked, w.broker, w'.broker);
  }

  // ------------------------------------------------------------------------- control steps

  /** Apart from WorkEnds no control step makes a call succeed that did not succeed before. */
  ghost predicate NoNewSuccess(a: I.Calls, b: I.Calls) {
    forall c {:trigger b[c]} :: c in b && Succeeds(b[c].pc) ==> c in a && Succeeds(a[c].pc)
  }

  lemma SetCall(calls: I.Calls, c: int, call: C.Call)
    requires Succeeds(call.pc) ==> c in calls && Succeeds(calls[c].pc)
    ensures NoNewSuccess(calls, calls[c := call])
  {}

  lemma AcquireSuccess(s: C.State, st: C.AcquireStep)
    requires C.AcquireEnabled(s, st)
    ensures NoNewSuccess(s.calls, C.AcquireApply(s, st).calls)
  {
    hide NoNewSuccess, C.LeastRecentIdle;
    match st
    case Arrive(c, key) => SetCall(s.calls, c, C.Call(key, 0, C.Arriving));
    case AcquireFails(c, out) => SetCall(s.calls, c, s.calls[c].(pc := C.Returned(out)));
    case AcquireHit(c, now) => SetCall(s.calls, c, s.calls[c].(consumer := s.cache[s.calls[c].key], pc := C.Waiting));
    case AcquireMiss(c, id, now) => SetCall(s.calls, c, s.calls[c].(consumer := id, pc := C.Waiting));
    case AcquireEvict(c, id, v, now) => SetCall(s.calls, c, s.calls[c].(consumer := id, pc := C.Evicting(v)));
    case EvictCloseBegin(c) => SetCall(s.calls, c, s.calls[c].(pc := C.EvictClosing(s.calls[c].pc.victim)));
    case EvictCloseEnd(c) => SetCall(s.calls, c, s.calls[c].(pc := C.Waiting));
  }

  lemma GateSuccess(s: C.State, st: C.GateStep)
    requires C.GateEnabled(s, st) && !st.WorkEnds?
    ensures NoNewSuccess(s.calls, C.GateApply(s, st).calls)
  {
    GateMovesOne(s, st);
    GateOutcome(s, st);
    hide NoNewSuccess, C.GateApply, C.GateEnabled;
    SetCall(s.calls, st.c, C.GateApply(s, st).calls[st.c]);
  }

  lemma GateOutcome(s: C.State, st: C.GateStep)
    requires C.GateEnabled(s, st) && !st.WorkEnds? && st.c in C.GateApply(s, st).calls
    ensures Succeeds(C.GateApply(s, st).calls[st.c].pc) ==> Succeeds(s.calls[st.c].pc)
  {
    if st.Release? {
      ReleaseMovesOne(s, st.c, st.now);
    } else {
      hide C.Unpin;
    }
  }

  lemma ControlSuccess(s: C.State, st: C.Step)
    requires C.Enabled(s, st) && Free(st)
    ensures NoNewSuccess(s.calls, C.Apply(s, st).calls)
  {
    match st
    case OfAcquire(a) => AcquireSuccess(s, a);
    case OfGate(g) => GateSuccess(s, g);
    case OfTimer(t) => TimerLeaves(s, t, C.Apply(s, st));
    case OfClose(z) => CloseLeaves(s, z, C.Apply(s, st));
  }

  lemma ControlStep(w: World, st: C.Step, w': World)
    requires Free(st) && C.Enabled(w.ctl, st) && w' == Manage(w, st)
    requires Successes(w)
    ensures Successes(w')
  {
    ControlSuccess(w.ctl, st);
    hide C.Apply, C.Enabled, Done, Requested, Succeeds;
    if st.OfGate? && st.g.Recheck? { JobMoves(w.jobs, w.acked, w.broker, st.g.c, Job(false, Polling)); }
  }

  lemma StepSucceeds(w: World, st: Step, w': World)
    requires Enabled(w, st) && w' == Apply(w, st)
    requires Inv(w) && Successes(w)
    ensures Successes(w')
  {
    hide Inv, Successes;
    match st
    case Control(s) => ControlStep(w, s, w');
    case CommitStart(c) => CommitStartStep(w, c, w');
    case CommitAcked(c) => CommitAckedStep(w, c, w');
    case Finish(c) => FinishStep(w, c, w');
    case CreatePartition(_) => BrokerStep(w, st, w');
    case Produce(_, _) => BrokerStep(w, st, w');
    case BrokerApplies(_, _) => BrokerStep(w, st, w');
    case Assign(_, _) => BrokerStep(w, st, w');
    case Revoke(_) => BrokerStep(w, st, w');
    case OtherReplica(_, _) => BrokerStep(w, st, w');
    case _ => PlainJobStep(w, st, w');
  }
}
