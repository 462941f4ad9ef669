/** What a Consume call does with its Kafka client while it holds the gate, over partition logs,
    a group coordinator that may lose commit replies and apply late requests, rebalances that
    wait for AllowRebalance, and other replicas of the gateway. */
module PopDelivery {
  import opened Text
  import C = PopControl
  import PopHandler

  datatype Partition = Partition(key: C.Key, index: int)
  datatype Record = Record(part: Partition, offset: int)

  /** The body of Consume. The `Kept` points lie between two successive context checks. */
  datatype Work =
    | Polling
    | Polled(got: Option<Record>, fetchErr: bool)
    | PollKept(got: Option<Record>, fetchErr: bool)
    | Handling(rec: Record)
    | Handled(rec: Record)
    | HandledKept(rec: Record)
    | Committing(rec: Record)
    | Rewinding(rec: Record, out: C.Outcome)
    | Finishing(out: C.Outcome)
  {
    function InHand(): (r: Option<Record>) {
      match this
      case Polling => None
      case Polled(got, _) => got
      case PollKept(got, _) => got
      case Finishing(_) => None
      case _ => Some(rec)
    }

    /** The record in hand is not known to be delivered. */
    predicate Undecided() { Polled? || PollKept? || Handling? || Rewinding? }

    /** The handler has returned nil for the record in hand. */
    predicate Accepted() { Handled? || HandledKept? || Committing? }
  }

  datatype Job = Job(interrupted: bool, at: Work)

  /** The member of the group that owns a partition in this process, with its local position.
      `mover` is the call that moved the position last; no step reads it. */
  datatype Claim = Claim(consumer: int, position: int, mover: int)

  /** One partition as one group sees it. `delivered` holds the records whose handler returned
      nil after the full object body reached its client; `requests` the offsets of the commit requests ever sent, any of which the
      broker may apply at any later time. An owner of None stands for another replica, or nobody. */
  datatype Log = Log(records: set<int>, end: int, delivered: set<int>, committed: int,
                     requests: set<int>, owner: Option<Claim>)

  /** `blocked` maps a client that blocks rebalances to the call whose poll did it, and `acked` a call
      to the record whose commit was acknowledged to it; no step reads `acked`. */
  datatype World = World(ctl: C.State, jobs: map<int, Job>, blocked: map<int, int>, broker: map<Partition, Log>,
                         acked: map<int, Record>)

  function Initial(maxConsumers: nat): (w: World) {
    World(C.Initial(maxConsumers), map[], map[], map[], map[])
  }

  /** Every record below `offset` has been delivered. */
  predicate DeliveredBelow(log: Log, offset: int) {
    forall r :: r in log.records && r < offset ==> r in log.delivered
  }

  datatype Step =
    | Control(st: C.Step)
    | Poll(c: int, got: Option<Record>, fetchErr: bool)
    | PollForceCheck(c: int)
    | PollDecide(c: int, ctxErr: bool, deadline: bool)
    | HandlerReturns(c: int, d: PopHandler.Delivery)
    | HandledForceCheck(c: int)
    | CommitStart(c: int)
    | CommitAcked(c: int)
    | CommitFails(c: int)
    | Rewind(c: int)
    | Finish(c: int)
    | Interrupt(c: int)
    | CreatePartition(p: Partition)
    | Produce(p: Partition, offset: int)
    | BrokerApplies(p: Partition, offset: int)
    | Assign(p: Partition, k: int)
    | Revoke(p: Partition)
    | OtherReplica(p: Partition, offset: int)

  predicate AtWork(w: World, c: int) {
    c in w.jobs && c in w.ctl.calls && w.ctl.calls[c].consumer in w.ctl.consumers
  }

  /** PollRecords(ctx, 1) hands out the first record at or after the local position. */
  predicate NextRecord(w: World, k: int, r: Record) {
    && r.part in w.broker && w.broker[r.part].owner.Some? && w.broker[r.part].owner.value.consumer == k
    && r.offset in w.broker[r.part].records && w.broker[r.part].owner.value.position <= r.offset
    && forall o :: o in w.broker[r.part].records && w.broker[r.part].owner.value.position <= o ==> r.offset <= o
  }

  /** The control steps that Finish performs are not taken on their own. */
  predicate Free(st: C.Step) {
    !(st.OfGate? && st.g.WorkEnds?)
  }

  predicate WorkEnabled(w: World, st: Step)
    requires !st.Control?
  {
    match st
    case Poll(c, got, fetchErr) =>
      AtWork(w, c) && w.jobs[c].at.Polling? && (got.Some? ==> NextRecord(w, w.ctl.calls[c].consumer, got.value))
    case PollForceCheck(c) => AtWork(w, c) && w.jobs[c].at.Polled?
    case PollDecide(c, _, _) => AtWork(w, c) && w.jobs[c].at.PollKept?
    case HandlerReturns(c, d) =>
      AtWork(w, c) && w.jobs[c].at.Handling? && w.jobs[c].at.rec.part in w.broker && PopHandler.Possible(d.transfer)
    case HandledForceCheck(c) => AtWork(w, c) && w.jobs[c].at.Handled?
    case CommitStart(c) => AtWork(w, c) && w.jobs[c].at.HandledKept? && w.jobs[c].at.rec.part in w.broker
    case CommitAcked(c) => AtWork(w, c) && w.jobs[c].at.Committing? && w.jobs[c].at.rec.part in w.broker
    case CommitFails(c) => AtWork(w, c) && w.jobs[c].at.Committing?
    case Rewind(c) => AtWork(w, c) && w.jobs[c].at.Rewinding? && w.jobs[c].at.rec.part in w.broker
    case Finish(c) => AtWork(w, c) && w.jobs[c].at.Finishing? && C.GateEnabled(w.ctl, C.WorkEnds(c, w.jobs[c].at.out))
    case Interrupt(c) => AtWork(w, c)
    case CreatePartition(p) => p !in w.broker
    case Produce(p, offset) => p in w.broker && w.broker[p].end <= offset
    case BrokerApplies(p, offset) => p in w.broker && offset in w.broker[p].requests
    case Assign(p, k) =>
      p in w.broker && w.broker[p].owner.None? && k in w.ctl.consumers && w.ctl.consumers[k].key == p.key
      && w.ctl.consumers[k].phase.Open? && k !in w.blocked
    case Revoke(p) =>
      p in w.broker && w.broker[p].owner.Some? && w.broker[p].owner.value.consumer in w.ctl.consumers
      && (w.broker[p].owner.value.consumer !in w.blocked
          || !w.ctl.consumers[w.broker[p].owner.value.consumer].phase.Open?)
    case OtherReplica(p, offset) =>
      p in w.broker && w.broker[p].owner.None? && offset in w.broker[p].records
      && DeliveredBelow(w.broker[p], offset)
  }

  predicate Enabled(w: World, st: Step) {
    if st.Control? then Free(st.st) && C.Enabled(w.ctl, st.st) else WorkEnabled(w, st)
  }

  // -------------------------------------------------------------------------- effects

  function SetAt(w: World, c: int, at: Work): (r: World)
    requires c in w.jobs
  {
    w.(jobs := w.jobs[c := w.jobs[c].(at := at)])
  }

  function SetLog(w: World, p: Partition, log: Log): (r: World) {
    w.(broker := w.broker[p := log])
  }

  /** A call whose recheck succeeds begins its work; every other control step leaves the rest alone. */
  function Manage(w: World, st: C.Step): (r: World)
    requires C.Enabled(w.ctl, st)
  {
    var ctl := C.Apply(w.ctl, st);
    if st.OfGate? && st.g.Recheck? && ctl.calls[st.g.c].pc.Working?
    then w.(ctl := ctl, jobs := w.jobs[st.g.c := Job(false, Polling)])
    else w.(ctl := ctl)
  }

  function DoPoll(w: World, c: int, got: Option<Record>, fetchErr: bool): (r: World)
    requires AtWork(w, c) && (got.Some? ==> NextRecord(w, w.ctl.calls[c].consumer, got.value))
  {
    var k := w.ctl.calls[c].consumer;
    var w1 := SetAt(w, c, Polled(got, fetchErr)).(blocked := w.blocked[k := c]);
    if got.None? then w1
    else SetLog(w1, got.value.part, w.broker[got.value.part].(owner := Some(Claim(k, got.value.offset + 1, c))))
  }

  function NoRecordOutcome(interrupted: bool, fetchErr: bool, ctxErr: bool, deadline: bool): (o: C.Outcome) {
    if interrupted then (if ctxErr then C.Canceled else C.NoEvent)
    else if fetchErr then (if deadline && !ctxErr then C.NoEvent else C.PollFailed)
    else if ctxErr then C.PollFailed
    else C.NoEvent
  }

  function Decide(job: Job, ctxErr: bool, deadline: bool): (at: Work)
    requires job.at.PollKept?
  {
    if job.at.got.None? then Finishing(NoRecordOutcome(job.interrupted, job.at.fetchErr, ctxErr, deadline))
    else if job.interrupted then Rewinding(job.at.got.value, C.Rebalance)
    else if job.at.fetchErr then
      Rewinding(job.at.got.value, if deadline && !ctxErr then C.NoEvent else C.PollFailed)
    else Handling(job.at.got.value)
  }

  function DoHandlerReturns(w: World, c: int, d: PopHandler.Delivery): (r: World)
    requires c in w.jobs && w.jobs[c].at.Handling? && w.jobs[c].at.rec.part in w.broker
  {
    var rec := w.jobs[c].at.rec;
    var log := w.broker[rec.part];
    var w1 := SetAt(w, c, if PopHandler.Handle(d).Nil? then Handled(rec) else Rewinding(rec, C.HandleFailed));
    if PopHandler.Handle(d).Nil? && PopHandler.FullBodyWritten(d) then SetLog(w1, rec.part, log.(delivered := log.delivered + {rec.offset})) else w1
  }

  function DoCommitStart(w: World, c: int): (r: World)
    requires c in w.jobs && w.jobs[c].at.HandledKept? && w.jobs[c].at.rec.part in w.broker
  {
    var rec := w.jobs[c].at.rec;
    var log := w.broker[rec.part];
    if w.jobs[c].interrupted then SetAt(w, c, Rewinding(rec, C.Rebalance))
    else SetLog(SetAt(w, c, Committing(rec)), rec.part, log.(requests := log.requests + {rec.offset + 1}))
  }

  /** SetOffsets has an effect on a partition the client still owns. */
  function DoRewind(w: World, c: int): (r: World)
    requires AtWork(w, c) && w.jobs[c].at.Rewinding? && w.jobs[c].at.rec.part in w.broker
  {
    var rec := w.jobs[c].at.rec;
    var log := w.broker[rec.part];
    var k := w.ctl.calls[c].consumer;
    var w1 := SetAt(w, c, Finishing(w.jobs[c].at.out));
    if log.owner.Some? && log.owner.value.consumer == k
    then SetLog(w1, rec.part, log.(owner := Some(Claim(k, rec.offset, c))))
    else w1
  }

  function WorkApply(w: World, st: Step): (r: World)
    requires !st.Control? && WorkEnabled(w, st)
  {
    match st
    case Poll(c, got, fetchErr) => DoPoll(w, c, got, fetchErr)
    case PollForceCheck(c) =>
      SetAt(w, c, if w.ctl.forced then Finishing(C.ManagerClosed) else PollKept(w.jobs[c].at.got, w.jobs[c].at.fetchErr))
    case PollDecide(c, ctxErr, deadline) => SetAt(w, c, Decide(w.jobs[c], ctxErr, deadline))
    case HandlerReturns(c, d) => DoHandlerReturns(w, c, d)
    case HandledForceCheck(c) =>
      SetAt(w, c, if w.ctl.forced then Finishing(C.ManagerClosed) else HandledKept(w.jobs[c].at.rec))
    case CommitStart(c) => DoCommitStart(w, c)
    case CommitAcked(c) =>
      var rec := w.jobs[c].at.rec;
      SetLog(SetAt(w, c, Finishing(C.Success)), rec.part, w.broker[rec.part].(committed := rec.offset + 1))
        .(acked := w.acked[c := rec])
    case CommitFails(c) => SetAt(w, c, Rewinding(w.jobs[c].at.rec, C.CommitFailed))
    case Rewind(c) => DoRewind(w, c)
    case Finish(c) =>
      w.(ctl := C.GateApply(w.ctl, C.WorkEnds(c, w.jobs[c].at.out)), jobs := w.jobs - {c},
         blocked := w.blocked - {w.ctl.calls[c].consumer})
    case Interrupt(c) => w.(jobs := w.jobs[c := w.jobs[c].(interrupted := true)])
    case CreatePartition(p) => SetLog(w, p, Log({}, 0, {}, 0, {}, None))
    case Produce(p, offset) =>
      SetLog(w, p, w.broker[p].(records := w.broker[p].records + {offset}, end := offset + 1))
    case BrokerApplies(p, offset) => SetLog(w, p, w.broker[p].(committed := offset))
    case Assign(p, k) => SetLog(w, p, w.broker[p].(owner := Some(Claim(k, w.broker[p].committed, -1))))
    case Revoke(p) => SetLog(w, p, w.broker[p].(owner := None))
    case OtherReplica(p, offset) =>
      var log := w.broker[p];
      SetLog(w, p, log.(delivered := log.delivered + {offset}, requests := log.requests + {offset + 1}))
  }

  function Apply(w: World, st: Step): (r: World)
    requires Enabled(w, st)
  {
    if st.Control? then Manage(w, st.st) else WorkApply(w, st)
  }
}
