/** Every step of the whole pop protocol keeps the invariant. */
module PopDeliveryProofs {
  import opened Text
  import C = PopControl
  import I = PopControlInv
  import PopRuns
  import PopHandler
  import opened PopDelivery
  import opened PopDeliveryInv
  import opened PopDeliveryFrames

  // ------------------------------------------------------------- facts read off the invariant

  lemma GatesExclude(cs: I.Consumers, calls: I.Calls, ws: map<int, C.Worker>)
    requires I.Gates(cs, calls, ws) && I.Pins(cs, calls, ws)
    ensures OneEach(calls)
  {
    forall c, d | c in calls && d in calls && calls[c].pc.Working? && calls[d].pc.Working? && calls[c].consumer == calls[d].consumer
      ensures c == d
    {
      var k := calls[c].consumer;
      assert k in cs;
      assert cs[k].gate == C.ByCall(c) && cs[k].gate == C.ByCall(d);
    }
  }

  lemma ControlExcludes(s: C.State)
    requires I.Inv(s)
    ensures OneEach(s.calls)
  {
    hide I.Refs, I.Pins, I.Gates, I.Timers, I.Custodies, I.Closes, I.Users, I.Closers, I.Orderly, OneEach;
    GatesExclude(s.consumers, s.calls, s.workers);
  }

  lemma JobFacts(w: World, c: int)
    requires Inv(w) && c in w.jobs
    ensures c in w.ctl.calls && w.ctl.calls[c].pc.Working?
    ensures JobOk(w.jobs[c], w.broker, w.ctl.forced)
    ensures w.jobs[c].at.InHand().Some? ==> LogOk(w.broker[w.jobs[c].at.InHand().value.part])
  {
    hide I.Inv, Blocks, Claims, Owners, LogOk;
  }

  // ------------------------------------------------------------------- settling a record

  /** The claim on the partition of the record in hand does not rest on that record. */
  ghost predicate Settled(calls: I.Calls, broker: Broker, c: int, rec: Record) {
    rec.part in broker && c in calls &&
    (broker[rec.part].owner.Some? && broker[rec.part].owner.value.consumer == calls[c].consumer
     && broker[rec.part].owner.value.position == rec.offset + 1
     ==> DeliveredBelow(broker[rec.part], rec.offset + 1))
  }

  lemma ClaimsSettle(calls: I.Calls, jobs: Jobs, broker: Broker, c: int, job: Job)
    requires Claims(calls, jobs, broker) && c in jobs && jobs[c].at.InHand().Some?
    requires Settled(calls, broker, c, jobs[c].at.InHand().value)
    ensures Claims(calls, jobs[c := job], broker)
  {
    forall p | p in broker ensures ClaimOk(p, broker[p], calls, jobs[c := job]) {
      assert ClaimOk(p, broker[p], calls, jobs);
    }
  }

  lemma JobSettles(w: World, c: int, job: Job, w': World)
    requires Inv(w) && c in w.jobs && w' == w.(jobs := w.jobs[c := job]) && w.jobs[c].at.InHand().Some?
    requires !job.at.Polling? && JobOk(job, w.broker, w.ctl.forced)
    requires job.at.InHand().None? || job.at.InHand() == w.jobs[c].at.InHand()
    requires Settled(w.ctl.calls, w.broker, c, w.jobs[c].at.InHand().value)
    ensures Inv(w')
  {
    hide I.Inv, JobsMatch, Blocks, Logs, Records, Claims, Owners, Settled;
    JobsMatchSame(w.ctl.calls, w.jobs, c, job);
    BlocksSame(w.ctl.calls, w.jobs, w.blocked, c, job);
    RecordsSet(w.jobs, w.broker, w.ctl.forced, c, job);
    if !w.ctl.forced { ClaimsSettle(w.ctl.calls, w.jobs, w.broker, c, job); }
    if !w.ctl.cut { OwnersSet(w.ctl.calls, w.jobs, w.broker, c, job); }
  }

  lemma HandlerKeeps(w: World, c: int, d: PopHandler.Delivery, w': World)
    requires WorkEnabled(w, HandlerReturns(c, d)) && w' == DoHandlerReturns(w, c, d)
    requires Inv(w)
    ensures Inv(w')
  {
    hide Inv, PopHandler.FullBodyWritten, PopHandler.Handle, PopHandler.IfMatchETag, TrimSpace;
    JobFacts(w, c);
    var rec := w.jobs[c].at.rec;
    var log := w.broker[rec.part];
    var done := log.(delivered := log.delivered + {rec.offset});
    if PopHandler.Handle(d).Nil? { PopHandler.NilMeansDelivered(d); }
    if PopHandler.Handle(d).Nil? {
      var w1 := SetLog(w, rec.part, done);
      LogMovesOn(w, rec.part, done, w1);
      JobSettles(w1, c, w.jobs[c].(at := Handled(rec)), w');
    } else {
      JobMovesOn(w, c, w.jobs[c].(at := Rewinding(rec, C.HandleFailed)), w');
    }
  }

  lemma CommitStartKeeps(w: World, c: int, w': World)
    requires WorkEnabled(w, CommitStart(c)) && w' == DoCommitStart(w, c)
    requires Inv(w)
    ensures Inv(w')
  {
    hide Inv;
    JobFacts(w, c);
    var rec := w.jobs[c].at.rec;
    var log := w.broker[rec.part];
    if w.jobs[c].interrupted {
      JobMovesOn(w, c, w.jobs[c].(at := Rewinding(rec, C.Rebalance)), w');
    } else {
      var w1 := SetAt(w, c, Committing(rec));
      JobMovesOn(w, c, w.jobs[c].(at := Committing(rec)), w1);
      LogMovesOn(w1, rec.part, log.(requests := log.requests + {rec.offset + 1}), w');
    }
  }

  lemma CommitAckedKeeps(w: World, c: int, w': World)
    requires WorkEnabled(w, CommitAcked(c)) && w' == WorkApply(w, CommitAcked(c))
    requires Inv(w)
    ensures Inv(w')
  {
    hide Inv;
    JobFacts(w, c);
    var rec := w.jobs[c].at.rec;
    var w1 := SetAt(w, c, Finishing(C.Success));
    JobMovesOn(w, c, w.jobs[c].(at := Finishing(C.Success)), w1);
    var w2 := SetLog(w1, rec.part, w.broker[rec.part].(committed := rec.offset + 1));
    LogMovesOn(w1, rec.part, w.broker[rec.part].(committed := rec.offset + 1), w2);
    AckedIsFree(w2, w'.acked);
  }

  /** The invariant does not speak of `acked`. */
  lemma AckedIsFree(w: World, acked: map<int, Record>)
    requires Inv(w)
    ensures Inv(w.(acked := acked))
  {
    hide I.Inv, JobsMatch, Blocks, Logs, Records, Claims, Owners;
  }

  // -------------------------------------------------------------------- moving a position

  lemma LogsOf(w: World, p: Partition)
    requires Inv(w) && p in w.broker
    ensures LogOk(w.broker[p])
  {
    hide I.Inv, JobsMatch, Blocks, Records, Claims, Owners, LogOk;
  }

  /** The owner stays; its position becomes one below which all is delivered. */
  lemma PositionMoves(w: World, p: Partition, cl: Claim, w': World)
    requires Inv(w) && p in w.broker && w.broker[p].owner.Some? && cl.consumer == w.broker[p].owner.value.consumer
    requires w' == SetLog(w, p, w.broker[p].(owner := Some(cl)))
    requires cl.position <= w.broker[p].end && DeliveredBelow(w.broker[p], cl.position)
    ensures Inv(w')
  {
    var log := w.broker[p].(owner := Some(cl));
    LogsOf(w, p);
    hide I.Inv, JobsMatch, Blocks, Records, Claims, Owners, Logs;
    LogsSet(w.broker, p, log);
    RecordsLog(w.jobs, w.broker, w.ctl.forced, p, log);
    if !w.ctl.forced { ClaimsLog(w.ctl.calls, w.jobs, w.broker, p, log); }
    if !w.ctl.cut { OwnersStay(w.ctl.calls, w.jobs, w.broker, p, log); }
  }

  lemma RewindKeeps(w: World, c: int, w': World)
    requires WorkEnabled(w, Rewind(c)) && w' == DoRewind(w, c)
    requires Inv(w)
    ensures Inv(w')
  {
    hide Inv;
    JobFacts(w, c);
    var rec := w.jobs[c].at.rec;
    var log := w.broker[rec.part];
    var k := w.ctl.calls[c].consumer;
    var job := w.jobs[c].(at := Finishing(w.jobs[c].at.out));
    if log.owner.Some? && log.owner.value.consumer == k {
      RewindOwned(w, c, rec, job, w');
    } else {
      JobSettles(w, c, job, w');
    }
  }

  lemma RewindOwned(w: World, c: int, rec: Record, job: Job, w': World)
    requires Inv(w) && AtWork(w, c) && w.jobs[c].at.Rewinding? && w.jobs[c].at.rec == rec && rec.part in w.broker
    requires w.broker[rec.part].owner.Some? && w.broker[rec.part].owner.value.consumer == w.ctl.calls[c].consumer
    requires job.at.Finishing?
    requires w' == w.(jobs := w.jobs[c := job],
                      broker := w.broker[rec.part := w.broker[rec.part].(owner := Some(Claim(w.ctl.calls[c].consumer, rec.offset, c)))])
    ensures Inv(w')
  {
    hide Inv;
    JobFacts(w, c);
    var cl := Claim(w.ctl.calls[c].consumer, rec.offset, c);
    var w1 := SetLog(w, rec.part, w.broker[rec.part].(owner := Some(cl)));
    PositionMoves(w, rec.part, cl, w1);
    assert Settled(w1.ctl.calls, w1.broker, c, rec);
    hide Settled, DeliveredBelow, LogOk;
    JobSettles(w1, c, job, w');
  }

  // --------------------------------------------------------------------------------- poll

  lemma BlocksPoll(calls: I.Calls, jobs: Jobs, blocked: map<int, int>, c: int, job: Job)
    requires Blocks(calls, jobs, blocked) && JobsMatch(calls, jobs) && OneEach(calls)
    requires c in jobs && c in calls && jobs[c].at.Polling? && !job.at.Polling?
    ensures Blocks(calls, jobs[c := job], blocked[calls[c].consumer := c])
  {}

  /** While its caller is about to poll, no position of the client is past an undelivered record. */
  lemma PolledBelow(w: World, c: int, r: Record)
    requires Inv(w) && AtWork(w, c) && w.jobs[c].at.Polling? && NextRecord(w, w.ctl.calls[c].consumer, r) && !w.ctl.forced
    ensures DeliveredBelow(w.broker[r.part], r.offset)
  {
    ControlExcludes(w.ctl);
    hide I.Inv, Blocks, Logs, Records, Owners;
    var cl := w.broker[r.part].owner.value;
    assert ClaimOk(r.part, w.broker[r.part], w.ctl.calls, w.jobs);
    assert w.ctl.calls[c].pc.Working?;
    assert cl.mover in w.jobs && cl.mover in w.ctl.calls && w.ctl.calls[cl.mover].consumer == cl.consumer ==> cl.mover == c;
  }

  lemma EmptyPollKeeps(w: World, c: int, fetchErr: bool, w': World)
    requires Inv(w) && AtWork(w, c) && w.jobs[c].at.Polling? && w' == DoPoll(w, c, None, fetchErr)
    ensures Inv(w')
  {
    JobFacts(w, c);
    ControlExcludes(w.ctl);
    hide I.Inv, JobsMatch, Blocks, Logs, Records, Claims, Owners, OneEach;
    var job := w.jobs[c].(at := Polled(None, fetchErr));
    JobsMatchSame(w.ctl.calls, w.jobs, c, job);
    BlocksPoll(w.ctl.calls, w.jobs, w.blocked, c, job);
    RecordsSet(w.jobs, w.broker, w.ctl.forced, c, job);
    if !w.ctl.forced { ClaimsSet(w.ctl.calls, w.jobs, w.broker, c, job); }
    if !w.ctl.cut { OwnersSet(w.ctl.calls, w.jobs, w.broker, c, job); }
  }

  lemma OwnersGain(calls: I.Calls, jobs: Jobs, broker: Broker, c: int, job: Job)
    requires Owners(calls, jobs, broker) && c in calls && job.at.InHand().Some?
    requires var p := job.at.InHand().value.part;
             p in broker && broker[p].owner.Some? && broker[p].owner.value.consumer == calls[c].consumer
    ensures Owners(calls, jobs[c := job], broker)
  {}

  lemma ClaimsPoll(calls: I.Calls, jobs: Jobs, broker: Broker, c: int, job: Job, p: Partition, log: Log)
    requires Claims(calls, jobs, broker) && c in jobs && jobs[c].at.Polling?
    requires ClaimOk(p, log, calls, jobs[c := job])
    ensures Claims(calls, jobs[c := job], broker[p := log])
  {
    var after := broker[p := log];
    forall q | q in after ensures ClaimOk(q, after[q], calls, jobs[c := job]) {
      if q != p { assert ClaimOk(q, broker[q], calls, jobs); }
    }
  }

  lemma PolledLog(log: Log, r: Record, cl: Claim)
    requires LogOk(log) && r.offset in log.records && cl.position == r.offset + 1
    ensures LogOk(log.(owner := Some(cl))) && Extends(log, log.(owner := Some(cl)))
    ensures DeliveredBelow(log, r.offset) ==> DeliveredBelow(log.(owner := Some(cl)), r.offset)
  {}

  lemma RecordPollKeeps(w: World, c: int, r: Record, job: Job, log: Log, w': World)
    requires AtWork(w, c) && w.jobs[c].at.Polling? && NextRecord(w, w.ctl.calls[c].consumer, r)
    requires job.at.Polled? && job.at.got == Some(r)
    requires log == w.broker[r.part].(owner := Some(Claim(w.ctl.calls[c].consumer, r.offset + 1, c)))
    requires w' == w.(jobs := w.jobs[c := job], blocked := w.blocked[w.ctl.calls[c].consumer := c],
                      broker := w.broker[r.part := log])
    requires Inv(w)
    ensures Inv(w')
  {
    hide I.Inv, JobsMatch, Blocks, Logs, Records, Claims, Owners, OneEach, LogOk, Extends, DeliveredBelow;
    JobFacts(w, c);
    ControlExcludes(w.ctl);
    LogsOf(w, r.part);
    if !w.ctl.forced { PolledBelow(w, c, r); }
    PolledLog(w.broker[r.part], r, log.owner.value);
    JobsMatchSame(w.ctl.calls, w.jobs, c, job);
    BlocksPoll(w.ctl.calls, w.jobs, w.blocked, c, job);
    LogsSet(w.broker, r.part, log);
    RecordsLog(w.jobs, w.broker, w.ctl.forced, r.part, log);
    RecordsSet(w.jobs, w'.broker, w.ctl.forced, c, job);
    if !w.ctl.forced { ClaimsPoll(w.ctl.calls, w.jobs, w.broker, c, job, r.part, log); }
    if !w.ctl.cut {
      OwnersStay(w.ctl.calls, w.jobs, w.broker, r.part, log);
      OwnersGain(w.ctl.calls, w.jobs, w'.broker, c, job);
    }
  }

  // ------------------------------------------------------------------------------- finish

  lemma FinishedJobs(calls: I.Calls, jobs: Jobs, c: int, call: C.Call)
    requires JobsMatch(calls, jobs) && c in jobs && !call.pc.Working?
    ensures JobsMatch(calls[c := call], jobs - {c})
  {}

  lemma FinishedBlocks(calls: I.Calls, jobs: Jobs, blocked: map<int, int>, c: int, call: C.Call)
    requires Blocks(calls, jobs, blocked) && JobsMatch(calls, jobs) && OneEach(calls) && c in jobs && c in calls
    requires call.consumer == calls[c].consumer
    ensures Blocks(calls[c := call], jobs - {c}, blocked - {calls[c].consumer})
  {
    forall d | d in jobs && d != c ensures d in calls && calls[d].consumer != calls[c].consumer {
      assert calls[d].pc.Working? && calls[c].pc.Working?;
    }
  }

  lemma FinishedRest(calls: I.Calls, jobs: Jobs, broker: Broker, forced: bool, c: int, call: C.Call)
    requires c in jobs && c in calls && jobs[c].at.InHand().None? && call.consumer == calls[c].consumer
    ensures Records(jobs, broker, forced) ==> Records(jobs - {c}, broker, forced)
    ensures Claims(calls, jobs, broker) ==> Claims(calls[c := call], jobs - {c}, broker)
    ensures Owners(calls, jobs, broker) ==> Owners(calls[c := call], jobs - {c}, broker)
  {
    if Claims(calls, jobs, broker) {
      forall p | p in broker ensures ClaimOk(p, broker[p], calls[c := call], jobs - {c}) {
        assert ClaimOk(p, broker[p], calls, jobs);
      }
    }
  }

  lemma FinishKeeps(w: World, c: int, w': World)
    requires WorkEnabled(w, Finish(c)) && w' == WorkApply(w, Finish(c))
    requires Inv(w)
    ensures Inv(w')
  {
    hide Inv;
    var out := w.jobs[c].at.out;
    FinishedKeeps(w, c, out, w.ctl.calls[c].(pc := C.Leaving(out)), C.GateApply(w.ctl, C.WorkEnds(c, out)), w');
  }

  lemma FinishedKeeps(w: World, c: int, out: C.Outcome, call: C.Call, ctl: C.State, w': World)
    requires c in w.jobs && w.jobs[c].at.Finishing? && C.GateEnabled(w.ctl, C.WorkEnds(c, out))
    requires ctl == C.GateApply(w.ctl, C.WorkEnds(c, out)) && call == w.ctl.calls[c].(pc := C.Leaving(out))
    requires w' == w.(ctl := ctl, jobs := w.jobs - {c}, blocked := w.blocked - {w.ctl.calls[c].consumer})
    requires Inv(w)
    ensures Inv(w')
  {
    hide I.Inv, JobsMatch, Blocks, Logs, Records, Claims, Owners, OneEach;
    JobFacts(w, c);
    ControlExcludes(w.ctl);
    PopRuns.GateStepKeeps(w.ctl, C.WorkEnds(c, out), ctl);
    assert ctl == w.ctl.(calls := w.ctl.calls[c := call]);
    hide C.GateApply, C.GateEnabled;
    FinishedJobs(w.ctl.calls, w.jobs, c, call);
    FinishedBlocks(w.ctl.calls, w.jobs, w.blocked, c, call);
    FinishedRest(w.ctl.calls, w.jobs, w.broker, w.ctl.forced, c, call);
  }

  // ------------------------------------------------------------------------ control steps

  /** The same calls work, on the same consumers. */
  ghost predicate WorkingSame(a: I.Calls, b: I.Calls) {
    && (forall c {:trigger a[c]} :: c in a && a[c].pc.Working? ==> c in b && b[c].pc.Working? && b[c].consumer == a[c].consumer)
    && (forall c {:trigger b[c]} :: c in b && b[c].pc.Working? ==> c in a && a[c].pc.Working?)
  }

  lemma WorkingSameSet(calls: I.Calls, c: int, call: C.Call)
    requires if c in calls && calls[c].pc.Working? then call.pc.Working? && call.consumer == calls[c].consumer
             else !call.pc.Working?
    ensures WorkingSame(calls, calls[c := call])
  {}

  predicate BeginsWork(s: C.State, st: C.Step)
    requires C.Enabled(s, st)
  {
    st.OfGate? && st.g.Recheck? && C.Apply(s, st).calls[st.g.c].pc.Working?
  }

  lemma AcquireWorking(s: C.State, st: C.AcquireStep)
    requires C.AcquireEnabled(s, st)
    ensures WorkingSame(s.calls, C.AcquireApply(s, st).calls)
  {
    hide WorkingSame, C.LeastRecentIdle, C.MayFail;
    match st
    case Arrive(c, key) => WorkingSameSet(s.calls, c, C.Call(key, 0, C.Arriving));
    case AcquireFails(c, out) => WorkingSameSet(s.calls, c, s.calls[c].(pc := C.Returned(out)));
    case AcquireHit(c, now) =>
      WorkingSameSet(s.calls, c, s.calls[c].(consumer := s.cache[s.calls[c].key], pc := C.Waiting));
    case AcquireMiss(c, id, now) => WorkingSameSet(s.calls, c, s.calls[c].(consumer := id, pc := C.Waiting));
    case AcquireEvict(c, id, v, now) => WorkingSameSet(s.calls, c, s.calls[c].(consumer := id, pc := C.Evicting(v)));
    case EvictCloseBegin(c) => WorkingSameSet(s.calls, c, s.calls[c].(pc := C.EvictClosing(s.calls[c].pc.victim)));
    case EvictCloseEnd(c) => WorkingSameSet(s.calls, c, s.calls[c].(pc := C.Waiting));
  }

  lemma GateWorking(s: C.State, st: C.GateStep)
    requires C.GateEnabled(s, st) && !st.WorkEnds?
    requires st.Recheck? ==> !C.GateApply(s, st).calls[st.c].pc.Working?
    ensures WorkingSame(s.calls, C.GateApply(s, st).calls)
  {
    hide WorkingSame, C.GateApply;
    GateMovesOne(s, st);
    WorkingSameSet(s.calls, st.c, C.GateApply(s, st).calls[st.c]);
  }

  /** A gate step moves its own call only, and only WorkEnds and a recheck touch its working. */
  lemma GateMovesOne(s: C.State, st: C.GateStep)
    requires C.GateEnabled(s, st)
    ensures var calls := C.GateApply(s, st).calls;
            && st.c in s.calls && st.c in calls && calls == s.calls[st.c := calls[st.c]]
            && calls[st.c].consumer == s.calls[st.c].consumer
            && (!st.WorkEnds? ==> !s.calls[st.c].pc.Working?)
            && (!st.Recheck? ==> !calls[st.c].pc.Working?)
  {
    if st.Release? {
      ReleaseMovesOne(s, st.c, st.now);
    } else {
      hide C.Unpin;
    }
  }

  lemma ReleaseMovesOne(s: C.State, c: int, now: int)
    requires C.GateEnabled(s, C.Release(c, now))
    ensures C.GateApply(s, C.Release(c, now)).calls == s.calls[c := s.calls[c].(pc := C.Returned(s.calls[c].pc.out))]
  {
    hide C.Unpin;
    UnpinFrame(s, c, now);
  }

  lemma UnpinFrame(s: C.State, c: int, now: int)
    requires c in s.calls && s.calls[c].pc.Releasing? && s.calls[c].consumer in s.consumers
    ensures var r := C.Unpin(s, c, now);
            && r.calls == s.calls[c := s.calls[c].(pc := C.Returned(s.calls[c].pc.out))]
            && r.cache == s.cache && r.forced == s.forced && r.cut == s.cut && r.isClosed == s.isClosed
            && (s.isClosed ==> r.closers == s.closers)
  {
    hide C.SetPc, C.SetConsumer;
    var s1 := C.SetPc(s, c, C.Returned(s.calls[c].pc.out));
    SetPcFrame(s, c, C.Returned(s.calls[c].pc.out));
    forall k, x ensures OnlyConsumers(s1, C.SetConsumer(s1, k, x)) { SetConsumerFrame(s1, k, x); }
  }

  predicate OnlyConsumers(s: C.State, r: C.State) {
    && r.calls == s.calls && r.cache == s.cache && r.closers == s.closers
    && r.forced == s.forced && r.cut == s.cut && r.isClosed == s.isClosed
  }

  lemma SetConsumerFrame(s: C.State, k: int, x: C.Consumer)
    ensures OnlyConsumers(s, C.SetConsumer(s, k, x))
  {}

  lemma SetPcFrame(s: C.State, c: int, pc: C.Pc)
    requires c in s.calls
    ensures var r := C.SetPc(s, c, pc);
            && r.calls == s.calls[c := s.calls[c].(pc := pc)] && r.cache == s.cache && r.closers == s.closers
            && r.forced == s.forced && r.cut == s.cut && r.isClosed == s.isClosed
  {}

  lemma ControlWorking(s: C.State, st: C.Step)
    requires C.Enabled(s, st) && Free(st) && !BeginsWork(s, st)
    ensures WorkingSame(s.calls, C.Apply(s, st).calls)
  {
    hide WorkingSame;
    match st
    case OfAcquire(a) => AcquireWorking(s, a);
    case OfGate(g) => GateWorking(s, g);
    case OfTimer(t) => TimerLeaves(s, t, C.Apply(s, st)); WorkingSameSelf(s.calls);
    case OfClose(z) => CloseLeaves(s, z, C.Apply(s, st)); WorkingSameSelf(s.calls);
  }

  lemma WorkingSameSelf(calls: I.Calls)
    ensures WorkingSame(calls, calls)
  {}

  /** forceCtx is never un-canceled; after isClosed the wait group never grows. */
  predicate Leaves(s: C.State, s': C.State) {
    && (s.forced ==> s'.forced) && (s.cut ==> s'.cut)
    && (s.isClosed ==> s'.isClosed && s'.closers <= s.closers)
  }

  lemma AcquireLeaves(s: C.State, st: C.AcquireStep, s': C.State)
    requires C.AcquireEnabled(s, st) && s' == C.AcquireApply(s, st)
    ensures Leaves(s, s')
  {
    hide C.LeastRecentIdle, C.MayFail;
  }

  lemma GateLeaves(s: C.State, st: C.GateStep, s': C.State)
    requires C.GateEnabled(s, st) && s' == C.GateApply(s, st)
    ensures Leaves(s, s') && s'.cache == s.cache
  {
    if st.Release? {
      ReleaseLeaves(s, st.c, st.now, s');
    } else {
      hide C.GateEnabled, C.Unpin;
    }
  }

  lemma ReleaseLeaves(s: C.State, c: int, now: int, s': C.State)
    requires C.GateEnabled(s, C.Release(c, now)) && s' == C.GateApply(s, C.Release(c, now))
    ensures Leaves(s, s') && s'.cache == s.cache
  {
    hide C.Unpin;
    UnpinFrame(s, c, now);
  }

  lemma TimerLeaves(s: C.State, st: C.TimerStep, s': C.State)
    requires C.TimerEnabled(s, st) && s' == C.TimerApply(s, st)
    ensures Leaves(s, s') && s'.calls == s.calls
  {}

  lemma CloseLeaves(s: C.State, st: C.CloseStep, s': C.State)
    requires C.CloseEnabled(s, st) && s' == C.CloseApply(s, st)
    ensures Leaves(s, s') && s'.calls == s.calls && (!s'.isClosed ==> s'.cache == s.cache)
  {
    hide C.CloseEnabled, C.SetGate, C.BeginClose, C.EndClose, C.BeginShutdown;
    match st
    case CloseLock(i) => hide *; LockLeaves(s, i, s');
    case WorkerCloseEnd(k) =>
    case _ =>
  }

  lemma LockLeaves(s: C.State, i: int, s': C.State)
    requires C.CloseEnabled(s, C.CloseLock(i)) && s' == C.CloseApply(s, C.CloseLock(i))
    ensures Leaves(s, s') && s'.calls == s.calls && (!s'.isClosed ==> s'.cache == s.cache)
  {
    hide C.StoppedByClose;
  }

  lemma StepLeaves(s: C.State, st: C.Step)
    requires C.Enabled(s, st)
    ensures Leaves(s, C.Apply(s, st))
  {
    hide C.AcquireApply, C.GateApply, C.TimerApply, C.CloseApply, C.AcquireEnabled, C.GateEnabled, C.TimerEnabled, C.CloseEnabled;
    match st
    case OfAcquire(a) => AcquireLeaves(s, a, C.Apply(s, st));
    case OfGate(g) => GateLeaves(s, g, C.Apply(s, st));
    case OfTimer(t) => TimerLeaves(s, t, C.Apply(s, st));
    case OfClose(z) => CloseLeaves(s, z, C.Apply(s, st));
  }

  lemma JobsSameWorking(calls: I.Calls, calls': I.Calls, jobs: Jobs)
    requires WorkingSame(calls, calls') && JobsMatch(calls, jobs)
    ensures JobsMatch(calls', jobs)
  {}

  lemma BlocksSameWorking(calls: I.Calls, calls': I.Calls, jobs: Jobs, blocked: map<int, int>)
    requires WorkingSame(calls, calls') && JobsMatch(calls, jobs) && Blocks(calls, jobs, blocked)
    ensures Blocks(calls', jobs, blocked)
  {
    forall c | c in jobs ensures c in calls' && calls'[c].consumer == calls[c].consumer {
      assert calls[c].pc.Working?;
    }
  }

  lemma ClaimsSameWorking(calls: I.Calls, calls': I.Calls, jobs: Jobs, broker: Broker)
    requires WorkingSame(calls, calls') && JobsMatch(calls, jobs) && Claims(calls, jobs, broker)
    ensures Claims(calls', jobs, broker)
  {
    forall c | c in jobs ensures c in calls' && calls'[c].consumer == calls[c].consumer {
      assert calls[c].pc.Working?;
    }
    forall p | p in broker ensures ClaimOk(p, broker[p], calls', jobs) {
      assert ClaimOk(p, broker[p], calls, jobs);
    }
  }

  lemma OwnersSameWorking(calls: I.Calls, calls': I.Calls, jobs: Jobs, broker: Broker)
    requires WorkingSame(calls, calls') && JobsMatch(calls, jobs) && Owners(calls, jobs, broker)
    ensures Owners(calls', jobs, broker)
  {
    forall c | c in jobs ensures c in calls' && calls'[c].consumer == calls[c].consumer {
      assert calls[c].pc.Working?;
    }
  }

  lemma RecordsForced(jobs: Jobs, broker: Broker, forced: bool, forced': bool)
    requires Records(jobs, broker, forced) && (forced ==> forced')
    ensures Records(jobs, broker, forced')
  {}

  lemma CtlKeeps(w: World, ctl: C.State, w': World)
    requires I.Inv(ctl) && WorkingSame(w.ctl.calls, ctl.calls) && w' == w.(ctl := ctl)
    requires (w.ctl.forced ==> ctl.forced) && (w.ctl.cut ==> ctl.cut)
    requires Inv(w)
    ensures Inv(w')
  {
    hide I.Inv, JobsMatch, Blocks, Logs, Records, Claims, Owners, WorkingSame;
    JobsSameWorking(w.ctl.calls, ctl.calls, w.jobs);
    BlocksSameWorking(w.ctl.calls, ctl.calls, w.jobs, w.blocked);
    RecordsForced(w.jobs, w.broker, w.ctl.forced, ctl.forced);
    if !ctl.forced { ClaimsSameWorking(w.ctl.calls, ctl.calls, w.jobs, w.broker); }
    if !ctl.cut { OwnersSameWorking(w.ctl.calls, ctl.calls, w.jobs, w.broker); }
  }

  lemma BeginGroups(calls: I.Calls, jobs: Jobs, blocked: map<int, int>, broker: Broker, c: int, call: C.Call, job: Job)
    requires c in calls && !calls[c].pc.Working? && call.pc.Working? && c !in jobs && job.at.Polling?
    ensures JobsMatch(calls, jobs) ==> JobsMatch(calls[c := call], jobs[c := job])
    ensures JobsMatch(calls, jobs) && Blocks(calls, jobs, blocked) ==> Blocks(calls[c := call], jobs[c := job], blocked)
    ensures Claims(calls, jobs, broker) ==> Claims(calls[c := call], jobs[c := job], broker)
    ensures Owners(calls, jobs, broker) ==> Owners(calls[c := call], jobs[c := job], broker)
  {
    if Claims(calls, jobs, broker) {
      forall p | p in broker ensures ClaimOk(p, broker[p], calls[c := call], jobs[c := job]) {
        assert ClaimOk(p, broker[p], calls, jobs);
      }
    }
  }

  lemma NotYetWorking(w: World, c: int)
    requires Inv(w) && c in w.ctl.calls && !w.ctl.calls[c].pc.Working?
    ensures c !in w.jobs
  {
    hide I.Inv, Blocks, Logs, Records, Claims, Owners;
  }

  lemma BeginKeeps(w: World, c: int, ctl: C.State, w': World)
    requires C.GateEnabled(w.ctl, C.Recheck(c, false)) && ctl == C.GateApply(w.ctl, C.Recheck(c, false))
    requires ctl.calls[c].pc.Working? && w' == w.(ctl := ctl, jobs := w.jobs[c := Job(false, Polling)])
    requires Inv(w)
    ensures Inv(w')
  {
    hide I.Inv, JobsMatch, Blocks, Logs, Records, Claims, Owners;
    NotYetWorking(w, c);
    PopRuns.GateStepKeeps(w.ctl, C.Recheck(c, false), ctl);
    var job := Job(false, Polling);
    BeginGroups(w.ctl.calls, w.jobs, w.blocked, w.broker, c, ctl.calls[c], job);
    RecordsSet(w.jobs, w.broker, w.ctl.forced, c, job);
  }

  lemma ManageKeeps(w: World, st: C.Step, w': World)
    requires Enabled(w, Control(st)) && w' == Manage(w, st)
    requires Inv(w)
    ensures Inv(w')
  {
    hide Inv;
    var ctl := C.Apply(w.ctl, st);
    if BeginsWork(w.ctl, st) {
      BeginKeeps(w, st.g.c, ctl, w');
    } else {
      ControlInv(w);
      PopRuns.StepKeeps(w.ctl, st);
      ControlWorking(w.ctl, st);
      StepLeaves(w.ctl, st);
      hide C.Apply, C.Enabled, I.Inv, WorkingSame;
      CtlKeeps(w, ctl, w');
    }
  }

  lemma ControlInv(w: World)
    requires Inv(w)
    ensures I.Inv(w.ctl)
  {}

  // ------------------------------------------------------------------------- broker steps

  lemma NothingInHand(w: World, p: Partition)
    requires p in w.broker ==> w.broker[p].owner.None?
    requires Inv(w) && (p in w.broker ==> !w.ctl.cut)
    ensures forall c {:trigger w.jobs[c]} :: c in w.jobs && w.jobs[c].at.InHand().Some? ==> w.jobs[c].at.InHand().value.part != p
  {
    hide I.Inv, JobsMatch, Blocks, Claims;
    forall c | c in w.jobs && w.jobs[c].at.InHand().Some? ensures w.jobs[c].at.InHand().value.part != p {
      assert JobOk(w.jobs[c], w.broker, w.ctl.forced);
      if p in w.broker { var log := w.broker[p]; }
    }
  }

  lemma CreateKeeps(w: World, p: Partition, w': World)
    requires p !in w.broker && w' == SetLog(w, p, Log({}, 0, {}, 0, {}, None))
    requires Inv(w)
    ensures Inv(w')
  {
    NothingInHand(w, p);
    hide I.Inv, JobsMatch, Blocks, Logs, Records, Claims, Owners;
    var log := Log({}, 0, {}, 0, {}, None);
    LogsSet(w.broker, p, log);
    RecordsLog(w.jobs, w.broker, w.ctl.forced, p, log);
    if !w.ctl.forced { ClaimsLog(w.ctl.calls, w.jobs, w.broker, p, log); }
    if !w.ctl.cut { OwnersLog(w.ctl.calls, w.jobs, w.broker, p, log); }
  }

  lemma AssignKeeps(w: World, p: Partition, log: Log, w': World)
    requires p in w.broker && w.broker[p].owner.None? && w' == SetLog(w, p, log)
    requires log == w.broker[p].(owner := log.owner) && log.owner.Some? && log.owner.value.position == log.committed
    requires Inv(w)
    ensures Inv(w')
  {
    hide I.Inv, JobsMatch, Blocks, Logs, Records, Claims, Owners;
    if !w.ctl.cut { NothingInHand(w, p); }
    LogsOf(w, p);
    LogsSet(w.broker, p, log);
    RecordsLog(w.jobs, w.broker, w.ctl.forced, p, log);
    if !w.ctl.forced { ClaimsLog(w.ctl.calls, w.jobs, w.broker, p, log); }
    if !w.ctl.cut { OwnersLog(w.ctl.calls, w.jobs, w.broker, p, log); }
  }

  /** In an orderly run a working call's client is open. */
  lemma WorkingIsOpen(s: C.State, c: int)
    requires c in s.calls && s.calls[c].pc.Working? && !s.cut
    requires I.Inv(s)
    ensures s.calls[c].consumer in s.consumers && s.consumers[s.calls[c].consumer].phase.Open?
  {
    hide I.Refs, I.Gates, I.Timers, I.Closes, I.Users, I.Closers;
    var k := s.calls[c].consumer;
    assert k in s.consumers;
    assert I.InCustody(k, s.consumers[k], s.calls, s.timers, s.workers);
  }

  /** A partition under a blocked, open client is not revoked. */
  predicate Movable(w: World, p: Partition) {
    && p in w.broker && w.broker[p].owner.Some? && w.broker[p].owner.value.consumer in w.ctl.consumers
    && (w.broker[p].owner.value.consumer !in w.blocked
        || !w.ctl.consumers[w.broker[p].owner.value.consumer].phase.Open?)
  }

  lemma HolderBlocks(calls: I.Calls, jobs: Jobs, blocked: map<int, int>, broker: Broker, c: int, p: Partition)
    requires Blocks(calls, jobs, blocked) && Owners(calls, jobs, broker) && p in broker
    requires c in jobs && jobs[c].at.InHand().Some? && jobs[c].at.InHand().value.part == p
    ensures c in calls && broker[p].owner.Some? && broker[p].owner.value.consumer == calls[c].consumer && calls[c].consumer in blocked
  {
    var log := broker[p];
    assert log.owner.Some?;
  }

  lemma RevokedNotInHand(w: World, p: Partition, c: int)
    requires Movable(w, p) && !w.ctl.cut && c in w.jobs && w.jobs[c].at.InHand().Some?
    requires Inv(w)
    ensures w.jobs[c].at.InHand().value.part != p
  {
    hide I.Inv, JobsMatch, Blocks, Logs, Records, Claims, Owners, LogOk;
    JobFacts(w, c);
    WorkingIsOpen(w.ctl, c);
    if w.jobs[c].at.InHand().value.part == p {
      HolderBlocks(w.ctl.calls, w.jobs, w.blocked, w.broker, c, p);
      assert false;
    }
  }

  lemma RevokeKeeps(w: World, p: Partition, w': World)
    requires Movable(w, p) && w' == SetLog(w, p, w.broker[p].(owner := None))
    requires Inv(w)
    ensures Inv(w')
  {
    hide I.Inv, JobsMatch, Blocks, Logs, Records, Claims, Owners;
    var log := w.broker[p].(owner := None);
    LogsOf(w, p);
    if !w.ctl.cut {
      forall c | c in w.jobs && w.jobs[c].at.InHand().Some? ensures w.jobs[c].at.InHand().value.part != p {
        RevokedNotInHand(w, p, c);
      }
    }
    LogsSet(w.broker, p, log);
    RecordsLog(w.jobs, w.broker, w.ctl.forced, p, log);
    if !w.ctl.forced { ClaimsLog(w.ctl.calls, w.jobs, w.broker, p, log); }
    if !w.ctl.cut { OwnersLog(w.ctl.calls, w.jobs, w.broker, p, log); }
  }
}
