/** What a Consume call answers, by what happened to it in the run. */
module PopOutcomes {
  import opened Text
  import C = PopControl
  import I = PopControlInv
  import PopHandler
  import opened PopDelivery
  import opened PopDeliveryInv
  import opened PopDeliveryProofs

  // --------------------------------------------------------------------------- the recorder

  datatype Answer = Answer(out: C.Outcome, closed: bool)
  datatype Recheck = Recheck(closed: bool, ctxErr: bool)
  datatype Fetch = Fetch(got: Option<Record>, fetchErr: bool)
  datatype Decision = Decision(interrupted: bool, ctxErr: bool, deadline: bool)

  /** What happened so far: whether shutdown has begun and was forced, and for one call its steps with
      what they met. */
  datatype History = History(
    closed: bool, forced: bool, interrupted: bool,
    refused: Option<Answer>, abandoned: Option<Answer>, recheck: Option<Recheck>,
    fetch: Option<Fetch>, fetchForced: Option<bool>, decision: Option<Decision>,
    handler: Option<PopHandler.Delivery>, handledForced: Option<bool>,
    commitInterrupted: Option<bool>, commit: Option<bool>)

  function Nothing(closed: bool, forced: bool): (h: History) {
    History(closed, forced, false, None, None, None, None, None, None, None, None, None, None)
  }

  function NoteControl(h: History, st: C.Step, c: int): (r: History) {
    match st
    case OfAcquire(AcquireFails(d, out)) => if d == c then h.(refused := Some(Answer(out, h.closed))) else h
    case OfGate(WaitAbandon(d, out)) => if d == c then h.(abandoned := Some(Answer(out, h.closed))) else h
    case OfGate(Recheck(d, ctxErr)) => if d == c then h.(recheck := Some(Recheck(h.closed, ctxErr))) else h
    case OfClose(CloseLock(_)) => h.(closed := true)
    case OfClose(Force(_)) => h.(forced := true)
    case OfClose(CloseFinish(_)) => h.(forced := true)
    case _ => h
  }

  function Note(h: History, st: Step, c: int): (r: History) {
    match st
    case Control(k) => NoteControl(h, k, c)
    case Poll(d, got, fetchErr) => if d == c then h.(fetch := Some(Fetch(got, fetchErr))) else h
    case PollForceCheck(d) => if d == c then h.(fetchForced := Some(h.forced)) else h
    case PollDecide(d, ctxErr, deadline) => if d == c then h.(decision := Some(Decision(h.interrupted, ctxErr, deadline))) else h
    case HandlerReturns(d, delivery) => if d == c then h.(handler := Some(delivery)) else h
    case HandledForceCheck(d) => if d == c then h.(handledForced := Some(h.forced)) else h
    case CommitStart(d) => if d == c then h.(commitInterrupted := Some(h.interrupted)) else h
    case CommitAcked(d) => if d == c then h.(commit := Some(true)) else h
    case CommitFails(d) => if d == c then h.(commit := Some(false)) else h
    case Interrupt(d) => if d == c then h.(interrupted := true) else h
    case _ => h
  }

  /** All that happened to call `c`. */
  function Trace(steps: seq<Step>, c: int): (h: History)
    decreases |steps|
  {
    if steps == [] then Nothing(false, false) else Note(Trace(steps[..|steps| - 1], c), steps[|steps| - 1], c)
  }

  // ------------------------------------------------------------------------ the explanations

  /** The call got its consumer while the manager was open. */
  predicate Entered(h: History) {
    h.refused.None? && h.abandoned.None? && h.recheck == Some(Recheck(false, false))
  }

  /** It polled and went on to decide. */
  predicate Decided(h: History) {
    Entered(h) && h.fetch.Some? && h.fetchForced == Some(false) && h.decision.Some?
  }

  /** A clean poll gave it a record, and no rebalance had come. */
  predicate HasRecord(h: History) {
    Decided(h) && h.fetch.value.got.Some? && !h.fetch.value.fetchErr && !h.decision.value.interrupted
  }

  /** The handler accepted the record. */
  predicate Accepts(h: History) {
    HasRecord(h) && h.handler.Some? && PopHandler.Handle(h.handler.value).Nil? && h.handledForced == Some(false)
  }

  /** And the commit was sent. */
  predicate Sent(h: History) { Accepts(h) && h.commitInterrupted == Some(false) }

  /** What each answer of Consume means. */
  predicate Explains(h: History, out: C.Outcome) {
    match out
    case Success => Sent(h) && h.commit == Some(true)
    case CommitFailed => Sent(h) && h.commit == Some(false)
    case HandleFailed => HasRecord(h) && h.handler.Some? && PopHandler.Handle(h.handler.value).Err?
    case Rebalance =>
      || (Decided(h) && h.fetch.value.got.Some? && h.decision.value.interrupted)
      || (Accepts(h) && h.commitInterrupted == Some(true))
    case PollFailed =>
      && Decided(h) && !h.decision.value.interrupted
      && if h.fetch.value.fetchErr then h.decision.value.ctxErr || !h.decision.value.deadline
         else h.fetch.value.got.None? && h.decision.value.ctxErr
    case NoEvent =>
      && Decided(h) && !h.decision.value.ctxErr
      && if h.fetch.value.got.None? then h.decision.value.interrupted || !h.fetch.value.fetchErr || h.decision.value.deadline
         else !h.decision.value.interrupted && h.fetch.value.fetchErr && h.decision.value.deadline
    case Canceled =>
      || (h.refused.Some? && h.refused.value.out.Canceled?)
      || (h.refused.None? && h.abandoned.Some? && h.abandoned.value.out.Canceled?)
      || (h.refused.None? && h.abandoned.None? && h.recheck == Some(Recheck(false, true)))
      || (Decided(h) && h.fetch.value.got.None? && h.decision.value.interrupted && h.decision.value.ctxErr)
    case ManagerClosed =>
      || (h.refused == Some(Answer(C.ManagerClosed, true)))
      || (h.refused.None? && h.abandoned == Some(Answer(C.ManagerClosed, true)))
      || (h.refused.None? && h.abandoned.None? && h.recheck.Some? && h.recheck.value.closed)
      || (Entered(h) && h.fetch.Some? && h.fetchForced == Some(true))
      || (HasRecord(h) && h.handler.Some? && PopHandler.Handle(h.handler.value).Nil? && h.handledForced == Some(true))
    case ConsumerLimit => h.refused == Some(Answer(C.ConsumerLimit, false))
    case InitFailed => h.refused == Some(Answer(C.InitFailed, false))
  }

  /** No two answers have the same explanation. */
  lemma OneExplanation(h: History, a: C.Outcome, b: C.Outcome)
    requires Explains(h, a) && Explains(h, b)
    ensures a == b
  {
    hide PopHandler.Handle;
  }

  // -------------------------------------------------------------------------- the invariant

  predicate NothingYet(h: History) { h == Nothing(h.closed, h.forced) }

  predicate NoHandler(h: History) { h.handler.None? && h.handledForced.None? && NoCommit(h) }
  predicate NoCommit(h: History) { h.commitInterrupted.None? && h.commit.None? }

  /** Where a job stands, by what happened. */
  predicate JobTold(h: History, job: Job) {
    && Entered(h) && h.interrupted == job.interrupted
    && match job.at
       case Polling => h.fetch.None? && h.fetchForced.None? && h.decision.None? && NoHandler(h)
       case Polled(got, fetchErr) => h.fetch == Some(Fetch(got, fetchErr)) && h.fetchForced.None? && h.decision.None? && NoHandler(h)
       case PollKept(got, fetchErr) =>
         h.fetch == Some(Fetch(got, fetchErr)) && h.fetchForced == Some(false) && h.decision.None? && NoHandler(h)
       case Handling(rec) => HasRecord(h) && h.fetch.value.got == Some(rec) && NoHandler(h)
       case Handled(rec) =>
         && HasRecord(h) && h.fetch.value.got == Some(rec) && h.handler.Some? && PopHandler.Handle(h.handler.value).Nil?
         && h.handledForced.None? && NoCommit(h)
       case HandledKept(rec) => Accepts(h) && h.fetch.value.got == Some(rec) && NoCommit(h)
       case Committing(rec) => Sent(h) && h.fetch.value.got == Some(rec) && h.commit.None?
       case Rewinding(rec, out) => Explains(h, out) && h.fetch.Some? && h.fetch.value.got == Some(rec)
       case Finishing(out) => Explains(h, out)
  }

  predicate CallTold(h: History, pc: C.Pc) {
    match pc
    case Working => true
    case GivingBack(out) => Explains(h, out)
    case Leaving(out) => Explains(h, out)
    case Releasing(out) => Explains(h, out)
    case Returned(out) => Explains(h, out)
    case _ => NothingYet(h)
  }

  ghost predicate TraceOk(w: World, h: History, c: int) {
    && h.closed == w.ctl.isClosed && h.forced == w.ctl.forced
    && (if c in w.ctl.calls then CallTold(h, w.ctl.calls[c].pc) else NothingYet(h))
    && (c in w.jobs ==> JobTold(h, w.jobs[c]))
  }

  ghost predicate Traced(w: World, steps: seq<Step>) {
    forall c {:trigger Trace(steps, c)} :: TraceOk(w, Trace(steps, c), c)
  }

  /** A shutdown that goes on changes nothing of what a call met. */
  lemma ShutdownIsApart(h: History, closed: bool, forced: bool, pc: C.Pc, out: C.Outcome)
    ensures var r := h.(closed := closed, forced := forced);
            && (Explains(h, out) ==> Explains(r, out)) && (NothingYet(h) ==> NothingYet(r)) && (CallTold(h, pc) ==> CallTold(r, pc))
  {
    hide PopHandler.Handle;
  }

  lemma ShutdownIsApartJob(h: History, closed: bool, forced: bool, job: Job)
    ensures JobTold(h, job) ==> JobTold(h.(closed := closed, forced := forced), job)
  {
    hide PopHandler.Handle;
  }

  // ----------------------------------------------------------------------------- job steps

  predicate OfJob(st: Step) {
    || st.Poll? || st.PollForceCheck? || st.PollDecide? || st.HandlerReturns? || st.HandledForceCheck? || st.CommitStart? || st.CommitAcked?
    || st.CommitFails? || st.Rewind? || st.Interrupt?
  }

  /** The work of one call moves one job. */
  lemma JobFrame(w: World, st: Step)
    requires OfJob(st) && WorkEnabled(w, st)
    ensures var w' := WorkApply(w, st);
            w'.ctl == w.ctl && st.c in w.jobs && st.c in w'.jobs && w'.jobs == w.jobs[st.c := w'.jobs[st.c]]
  {
    hide NextRecord, PopHandler.Handle, PopHandler.FullBodyWritten, PopHandler.Possible, Decide, C.GateEnabled, DoPoll, DoHandlerReturns,
         DoCommitStart, DoRewind;
    if st.Poll? { PollFrame(w, st.c, st.got, st.fetchErr); }
    else if st.HandlerReturns? { HandlerFrame(w, st.c, st.d); }
    else if st.CommitStart? { CommitFrame(w, st.c); }
    else if st.Rewind? { RewindFrame(w, st.c); }
  }

  predicate MovesJob(w: World, c: int, w': World) {
    w'.ctl == w.ctl && c in w.jobs && c in w'.jobs && w'.jobs == w.jobs[c := w'.jobs[c]]
  }

  lemma PollFrame(w: World, c: int, got: Option<Record>, fetchErr: bool)
    requires WorkEnabled(w, Poll(c, got, fetchErr))
    ensures MovesJob(w, c, DoPoll(w, c, got, fetchErr))
  {
    hide NextRecord;
  }

  lemma HandlerFrame(w: World, c: int, d: PopHandler.Delivery)
    requires WorkEnabled(w, HandlerReturns(c, d))
    ensures MovesJob(w, c, DoHandlerReturns(w, c, d))
  {
    hide PopHandler.Handle, PopHandler.FullBodyWritten, PopHandler.Possible;
  }

  lemma CommitFrame(w: World, c: int)
    requires WorkEnabled(w, CommitStart(c))
    ensures MovesJob(w, c, DoCommitStart(w, c))
  {}

  lemma RewindFrame(w: World, c: int)
    requires WorkEnabled(w, Rewind(c))
    ensures MovesJob(w, c, DoRewind(w, c))
  {}

  lemma PollHears(w: World, st: Step, h: History)
    requires (st.Poll? || st.PollForceCheck?) && WorkEnabled(w, st)
    requires JobTold(h, w.jobs[st.c]) && h.forced == w.ctl.forced
    ensures st.c in WorkApply(w, st).jobs && JobTold(Note(h, st, st.c), WorkApply(w, st).jobs[st.c])
  {
    hide NextRecord, PopHandler.Handle;
  }

  lemma RewindHears(w: World, st: Step, h: History)
    requires (st.Interrupt? || st.Rewind?) && WorkEnabled(w, st)
    requires JobTold(h, w.jobs[st.c])
    ensures st.c in WorkApply(w, st).jobs && JobTold(Note(h, st, st.c), WorkApply(w, st).jobs[st.c])
  {
    hide PopHandler.Handle;
  }

  lemma DecideHears(job: Job, ctxErr: bool, deadline: bool, h: History)
    requires job.at.PollKept? && JobTold(h, job)
    ensures JobTold(h.(decision := Some(Decision(h.interrupted, ctxErr, deadline))), job.(at := Decide(job, ctxErr, deadline)))
  {
    hide PopHandler.Handle;
  }

  lemma HandlerHears(w: World, c: int, d: PopHandler.Delivery, h: History)
    requires WorkEnabled(w, HandlerReturns(c, d)) && JobTold(h, w.jobs[c])
    ensures c in DoHandlerReturns(w, c, d).jobs && JobTold(h.(handler := Some(d)), DoHandlerReturns(w, c, d).jobs[c])
  {
    hide PopHandler.Handle, PopHandler.FullBodyWritten, PopHandler.Possible;
  }

  lemma CommitHears(w: World, st: Step, h: History)
    requires (st.HandledForceCheck? || st.CommitStart? || st.CommitAcked? || st.CommitFails?) && WorkEnabled(w, st)
    requires JobTold(h, w.jobs[st.c]) && h.forced == w.ctl.forced
    ensures st.c in WorkApply(w, st).jobs && JobTold(Note(h, st, st.c), WorkApply(w, st).jobs[st.c])
  {
    hide PopHandler.Handle;
  }

  lemma JobHears(w: World, st: Step, h: History)
    requires OfJob(st) && WorkEnabled(w, st) && JobTold(h, w.jobs[st.c]) && h.forced == w.ctl.forced
    ensures st.c in WorkApply(w, st).jobs && JobTold(Note(h, st, st.c), WorkApply(w, st).jobs[st.c])
  {
    if st.PollDecide? {
      hide JobTold, Decide;
      DecideHears(w.jobs[st.c], st.ctxErr, st.deadline, h);
      hide PopHandler.Handle;
    } else if st.HandlerReturns? {
      hide JobTold, DoHandlerReturns;
      HandlerHears(w, st.c, st.d, h);
    } else if st.Poll? || st.PollForceCheck? {
      hide WorkApply, WorkEnabled, JobTold, Note;
      PollHears(w, st, h);
    } else if st.Interrupt? || st.Rewind? {
      hide WorkApply, WorkEnabled, JobTold, Note;
      RewindHears(w, st, h);
    } else {
      hide WorkApply, WorkEnabled, JobTold, Note;
      CommitHears(w, st, h);
    }
  }

  /** What others do is not noted. */
  lemma NotesOwn(st: Step, c: int, h: History)
    requires OfJob(st) && st.c != c
    ensures Note(h, st, c) == h
  {}

  lemma NotesNothing(st: Step, c: int, h: History)
    requires st.CreatePartition? || st.Produce? || st.BrokerApplies? || st.Assign? || st.Revoke? || st.OtherReplica? || st.Finish?
    ensures Note(h, st, c) == h
  {}

  lemma JobStepTraced(w: World, st: Step, c: int, h: History)
    requires OfJob(st) && WorkEnabled(w, st) && JobsMatch(w.ctl.calls, w.jobs) && TraceOk(w, h, c)
    ensures TraceOk(WorkApply(w, st), Note(h, st, c), c)
  {
    hide WorkApply, WorkEnabled, JobTold, Note, CallTold;
    JobFrame(w, st);
    if st.c == c {
      JobHears(w, st, h);
      assert w.ctl.calls[c].pc.Working?;
      WorkingIsTold(Note(h, st, c));
      FlagsStay(h, st, c);
    } else {
      NotesOwn(st, c, h);
    }
  }

  lemma WorkingIsTold(h: History)
    ensures CallTold(h, C.Working)
  {}

  lemma FlagsStay(h: History, st: Step, c: int)
    requires OfJob(st)
    ensures Note(h, st, c).closed == h.closed && Note(h, st, c).forced == h.forced
  {}

  lemma BrokerStepTraced(w: World, st: Step, c: int, h: History)
    requires st.CreatePartition? || st.Produce? || st.BrokerApplies? || st.Assign? || st.Revoke? || st.OtherReplica?
    requires WorkEnabled(w, st) && TraceOk(w, h, c)
    ensures TraceOk(WorkApply(w, st), Note(h, st, c), c)
  {
    hide JobTold, Note, CallTold, DeliveredBelow;
    NotesNothing(st, c, h);
  }

  lemma FinishTraced(w: World, d: int, c: int, h: History)
    requires WorkEnabled(w, Finish(d)) && TraceOk(w, h, c)
    ensures TraceOk(WorkApply(w, Finish(d)), Note(h, Finish(d), c), c)
  {
    hide Note, Explains;
    NotesNothing(Finish(d), c, h);
    var out := w.jobs[d].at.out;
    FinishLeaves(w, d);
  }

  lemma FinishLeaves(w: World, d: int)
    requires WorkEnabled(w, Finish(d))
    ensures var w' := WorkApply(w, Finish(d));
            && w'.ctl.isClosed == w.ctl.isClosed && w'.ctl.forced == w.ctl.forced && w'.jobs == w.jobs - {d}
            && w'.ctl.calls == w.ctl.calls[d := w.ctl.calls[d].(pc := C.Leaving(w.jobs[d].at.out))]
  {
    hide C.Unpin;
  }

  // ------------------------------------------------------------------------- control steps

  /** What the calls' table says of one call. */
  predicate Told(calls: I.Calls, h: History, c: int) {
    if c in calls then CallTold(h, calls[c].pc) else NothingYet(h)
  }

  lemma OneCallMoves(calls: I.Calls, d: int, call: C.Call, h: History, h': History, c: int)
    requires Told(calls, h, c) && (if c == d then CallTold(h', call.pc) else h' == h)
    ensures Told(calls[d := call], h', c)
  {
    hide CallTold, NothingYet;
  }

  lemma AcquireTold(s: C.State, st: C.AcquireStep, h: History, c: int)
    requires C.AcquireEnabled(s, st) && Told(s.calls, h, c) && h.closed == s.isClosed
    ensures Told(C.AcquireApply(s, st).calls, NoteControl(h, C.OfAcquire(st), c), c)
  {
    hide Told, C.LeastRecentIdle;
    var h' := NoteControl(h, C.OfAcquire(st), c);
    if st.AcquireFails? {
      if st.c == c { RefusalTold(s, st.c, st.out, h); }
      OneCallMoves(s.calls, st.c, s.calls[st.c].(pc := C.Returned(st.out)), h, h', c);
    } else {
      assert h' == h;
      AcquirePlain(s, st, h, c);
    }
  }

  lemma RefusalTold(s: C.State, c: int, out: C.Outcome, h: History)
    requires C.AcquireEnabled(s, C.AcquireFails(c, out)) && Told(s.calls, h, c) && h.closed == s.isClosed
    ensures CallTold(h.(refused := Some(Answer(out, h.closed))), C.Returned(out))
  {
    hide PopHandler.Handle, C.LeastRecentIdle;
  }

  lemma AcquirePlain(s: C.State, st: C.AcquireStep, h: History, c: int)
    requires C.AcquireEnabled(s, st) && !st.AcquireFails? && Told(s.calls, h, c)
    ensures Told(C.AcquireApply(s, st).calls, h, c)
  {
    hide C.LeastRecentIdle, Explains, NothingYet;
    match st
    case Arrive(d, key) => OneCallMoves(s.calls, d, C.Call(key, 0, C.Arriving), h, h, c);
    case AcquireHit(d, now) => OneCallMoves(s.calls, d, s.calls[d].(consumer := s.cache[s.calls[d].key], pc := C.Waiting), h, h, c);
    case AcquireMiss(d, id, now) => OneCallMoves(s.calls, d, s.calls[d].(consumer := id, pc := C.Waiting), h, h, c);
    case AcquireEvict(d, id, v, now) => OneCallMoves(s.calls, d, s.calls[d].(consumer := id, pc := C.Evicting(v)), h, h, c);
    case EvictCloseBegin(d) => OneCallMoves(s.calls, d, s.calls[d].(pc := C.EvictClosing(s.calls[d].pc.victim)), h, h, c);
    case EvictCloseEnd(d) => OneCallMoves(s.calls, d, s.calls[d].(pc := C.Waiting), h, h, c);
  }

  lemma GateTold(s: C.State, st: C.GateStep, h: History, c: int)
    requires C.GateEnabled(s, st) && !st.WorkEnds? && Told(s.calls, h, c) && h.closed == s.isClosed
    ensures Told(C.GateApply(s, st).calls, NoteControl(h, C.OfGate(st), c), c)
  {
    hide Told, C.GateApply, C.GateEnabled, CallTold;
    GateMovesOne(s, st);
    var h' := NoteControl(h, C.OfGate(st), c);
    if st.c == c { GateHears(s, st, h); }
    OneCallMoves(s.calls, st.c, C.GateApply(s, st).calls[st.c], h, h', c);
  }

  lemma GateHears(s: C.State, st: C.GateStep, h: History)
    requires C.GateEnabled(s, st) && !st.WorkEnds? && Told(s.calls, h, st.c) && h.closed == s.isClosed && st.c in C.GateApply(s, st).calls
    ensures CallTold(NoteControl(h, C.OfGate(st), st.c), C.GateApply(s, st).calls[st.c].pc)
  {
    hide PopHandler.Handle;
    if st.Release? { ReleaseMovesOne(s, st.c, st.now); } else { hide C.Unpin; }
  }

  /** Only CloseLock closes the manager, only Force and CloseFinish force it. */
  lemma FlagsMove(s: C.State, st: C.Step)
    requires C.Enabled(s, st)
    ensures var r := C.Apply(s, st);
            && r.isClosed == (s.isClosed || (st.OfClose? && st.z.CloseLock?))
            && r.forced == (s.forced || (st.OfClose? && (st.z.Force? || st.z.CloseFinish?)))
  {
    match st
    case OfAcquire(a) => AcquireFlags(s, a);
    case OfGate(g) => GateFlags(s, g);
    case OfTimer(t) => TimerFlags(s, t);
    case OfClose(z) => CloseFlags(s, z);
  }

  predicate SameFlags(a: C.State, b: C.State) { a.isClosed == b.isClosed && a.forced == b.forced }

  lemma AcquireFlags(s: C.State, st: C.AcquireStep)
    requires C.AcquireEnabled(s, st)
    ensures SameFlags(s, C.AcquireApply(s, st))
  {
    hide C.LeastRecentIdle, C.MayFail;
  }

  lemma GateFlags(s: C.State, st: C.GateStep)
    requires C.GateEnabled(s, st)
    ensures SameFlags(s, C.GateApply(s, st))
  {
    hide C.Unpin;
    if st.Release? { UnpinFrame(s, st.c, st.now); }
  }

  lemma TimerFlags(s: C.State, st: C.TimerStep)
    requires C.TimerEnabled(s, st)
    ensures SameFlags(s, C.TimerApply(s, st))
  {}

  lemma CloseFlags(s: C.State, st: C.CloseStep)
    requires C.CloseEnabled(s, st)
    ensures var r := C.CloseApply(s, st);
            r.isClosed == (s.isClosed || st.CloseLock?) && r.forced == (s.forced || st.Force? || st.CloseFinish?)
  {
    hide C.CloseEnabled, C.SetGate, C.BeginClose, C.EndClose, C.BeginShutdown;
    match st
    case CloseLock(i) => hide *; LockFlags(s, i);
    case WorkerCloseEnd(k) =>
    case _ =>
  }

  lemma LockFlags(s: C.State, i: int)
    requires C.CloseEnabled(s, C.CloseLock(i))
    ensures var r := C.CloseApply(s, C.CloseLock(i)); r.isClosed && r.forced == s.forced
  {
    hide C.StoppedByClose, C.Drain;
  }

  lemma NoteFlags(h: History, st: C.Step, c: int)
    ensures var r := NoteControl(h, st, c);
            && r.closed == (h.closed || (st.OfClose? && st.z.CloseLock?))
            && r.forced == (h.forced || (st.OfClose? && (st.z.Force? || st.z.CloseFinish?)))
  {}

  lemma ControlTold(s: C.State, st: C.Step, h: History, c: int)
    requires C.Enabled(s, st) && Free(st) && Told(s.calls, h, c) && h.closed == s.isClosed
    ensures Told(C.Apply(s, st).calls, NoteControl(h, st, c), c)
  {
    hide Told, NoteControl;
    match st
    case OfAcquire(a) => AcquireTold(s, a, h, c);
    case OfGate(g) => GateTold(s, g, h, c);
    case OfTimer(t) => TimerLeaves(s, t, C.Apply(s, st)); QuietNote(h, st, c);
    case OfClose(z) => CloseLeaves(s, z, C.Apply(s, st)); QuietNote(h, st, c); QuietTold(s.calls, h, NoteControl(h, st, c), c);
  }

  lemma QuietNote(h: History, st: C.Step, c: int)
    requires st.OfTimer? || st.OfClose?
    ensures var r := NoteControl(h, st, c); r == h.(closed := r.closed, forced := r.forced) && (st.OfTimer? ==> r == h)
  {}

  lemma QuietTold(calls: I.Calls, h: History, r: History, c: int)
    requires Told(calls, h, c) && r == h.(closed := r.closed, forced := r.forced)
    ensures Told(calls, r, c)
  {
    hide CallTold, NothingYet, Explains;
    if c in calls { ShutdownIsApart(h, r.closed, r.forced, calls[c].pc, C.Success); }
    else { ShutdownIsApart(h, r.closed, r.forced, C.Arriving, C.Success); }
  }

  /** What a control step notes of a call that works already: nothing, or the shutdown. */
  lemma NoteWorking(s: C.State, st: C.Step, h: History, c: int)
    requires C.Enabled(s, st) && Free(st) && c in s.calls && s.calls[c].pc.Working?
    ensures var r := NoteControl(h, st, c); r == h.(closed := r.closed, forced := r.forced)
  {
    hide C.LeastRecentIdle, C.MayFail;
  }

  lemma RecheckStarts(s: C.State, d: int, ctxErr: bool, h: History)
    requires C.GateEnabled(s, C.Recheck(d, ctxErr)) && Told(s.calls, h, d) && h.closed == s.isClosed
    requires C.GateApply(s, C.Recheck(d, ctxErr)).calls[d].pc.Working?
    ensures JobTold(NoteControl(h, C.OfGate(C.Recheck(d, ctxErr)), d), Job(false, Polling))
  {
    hide PopHandler.Handle;
  }

  lemma ControlStepTraced(w: World, st: C.Step, c: int, h: History)
    requires Free(st) && C.Enabled(w.ctl, st) && JobsMatch(w.ctl.calls, w.jobs) && TraceOk(w, h, c)
    ensures TraceOk(Manage(w, st), NoteControl(h, st, c), c)
  {
    hide C.Apply, C.Enabled, NoteControl, CallTold, JobTold, NothingYet;
    ControlTold(w.ctl, st, h, c);
    FlagsMove(w.ctl, st);
    NoteFlags(h, st, c);
    var r := NoteControl(h, st, c);
    if c in w.jobs {
      NoteWorking(w.ctl, st, h, c);
      ShutdownIsApartJob(h, r.closed, r.forced, w.jobs[c]);
    }
    ControlJob(w, st, c, h);
  }

  lemma ControlJob(w: World, st: C.Step, c: int, h: History)
    requires Free(st) && C.Enabled(w.ctl, st) && JobsMatch(w.ctl.calls, w.jobs) && TraceOk(w, h, c)
    requires c in w.jobs ==> JobTold(NoteControl(h, st, c), w.jobs[c])
    ensures c in Manage(w, st).jobs ==> JobTold(NoteControl(h, st, c), Manage(w, st).jobs[c])
  {
    hide NoteControl, CallTold, JobTold, NothingYet;
    if st.OfGate? && st.g.Recheck? && C.Apply(w.ctl, st).calls[st.g.c].pc.Working? && st.g.c == c {
      hide C.GateApply;
      RecheckStarts(w.ctl, c, st.g.ctxErr, h);
    } else {
      hide C.Apply;
    }
  }

  // ----------------------------------------------------------------------------------- runs

  lemma StepTraced(w: World, st: Step, c: int, h: History)
    requires Enabled(w, st) && Inv(w) && TraceOk(w, h, c)
    ensures TraceOk(Apply(w, st), Note(h, st, c), c)
  {
    MatchOf(w);
    hide Inv, TraceOk, JobsMatch, WorkApply, WorkEnabled, Manage, NoteControl;
    if st.Control? { ControlStepTraced(w, st.st, c, h); }
    else if OfJob(st) { JobStepTraced(w, st, c, h); }
    else if st.Finish? { FinishTraced(w, st.c, c, h); }
    else { BrokerStepTraced(w, st, c, h); }
  }

  lemma MatchOf(w: World)
    requires Inv(w)
    ensures JobsMatch(w.ctl.calls, w.jobs)
  {
    hide I.Inv, JobsMatch, Blocks, Logs, Records, Claims, Owners;
  }

  /** The record whose commit was acknowledged to a call is the one it polled. */
  predicate AckedOk(w: World, h: History, c: int) {
    c in w.acked ==> h.fetch.Some? && h.fetch.value.got == Some(w.acked[c])
  }

  lemma StepAcked(w: World, st: Step, c: int, h: History)
    requires Enabled(w, st) && TraceOk(w, h, c) && AckedOk(w, h, c)
    ensures AckedOk(Apply(w, st), Note(h, st, c), c)
  {
    if !st.Control? && OfJob(st) && st.c == c {
      assert JobTold(h, w.jobs[c]);
      hide PopHandler.Handle, PopHandler.FullBodyWritten, NextRecord, Explains, CallTold;
    } else {
      AckedStay(w, st, c);
      NotesFetch(h, st, c);
      hide Apply, Enabled, Note, TraceOk;
    }
  }

  lemma AckedStay(w: World, st: Step, c: int)
    requires Enabled(w, st) && !(!st.Control? && OfJob(st) && st.c == c)
    ensures c in Apply(w, st).acked <==> c in w.acked
    ensures c in w.acked ==> Apply(w, st).acked[c] == w.acked[c]
  {
    hide NextRecord, PopHandler.Handle, PopHandler.FullBodyWritten, PopHandler.Possible, Decide, C.Apply, C.Enabled, C.GateApply, C.GateEnabled,
         DeliveredBelow;
  }

  lemma NotesFetch(h: History, st: Step, c: int)
    requires !(!st.Control? && OfJob(st) && st.c == c)
    ensures Note(h, st, c).fetch == h.fetch
  {}

  lemma TraceNext(steps: seq<Step>, st: Step, c: int)
    ensures Trace(steps + [st], c) == Note(Trace(steps, c), st, c)
  {
    assert (steps + [st])[..|steps|] == steps;
  }

  lemma InitialTraced(max: nat, c: int)
    ensures TraceOk(Initial(max), Trace([], c), c)
  {}
}
