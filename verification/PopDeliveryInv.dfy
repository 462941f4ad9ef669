/** What every step of a delivery keeps. */
module PopDeliveryInv {
  import opened Text
  import I = PopControlInv
  import opened PopDelivery

  type Jobs = map<int, Job>
  type Broker = map<Partition, Log>

  /** The jobs are the calls that work. */
  ghost predicate JobsMatch(calls: I.Calls, jobs: Jobs) {
    forall c {:trigger c in jobs} {:trigger calls[c]} :: c in jobs <==> c in calls && calls[c].pc.Working?
  }

  /** Two calls never work on the same consumer. */
  ghost predicate OneEach(calls: I.Calls) {
    forall c, d {:trigger calls[c], calls[d]} ::
      c in calls && d in calls && calls[c].pc.Working? && calls[d].pc.Working? && calls[c].consumer == calls[d].consumer
      ==> c == d
  }

  /** A client blocks rebalances exactly while a call that has polled it is at work. */
  ghost predicate Blocks(calls: I.Calls, jobs: Jobs, blocked: map<int, int>) {
    && (forall k {:trigger blocked[k]} :: k in blocked ==>
          && blocked[k] in jobs && !jobs[blocked[k]].at.Polling?
          && blocked[k] in calls && calls[blocked[k]].consumer == k)
    && (forall c {:trigger jobs[c]} :: c in jobs && !jobs[c].at.Polling? ==>
          c in calls && calls[c].consumer in blocked)
  }

  /** Nothing at or above the end exists; no commit, applied or still under way, passes an
      undelivered record. */
  ghost predicate LogOk(log: Log) {
    && (forall r :: r in log.records ==> r < log.end)
    && log.committed <= log.end && DeliveredBelow(log, log.committed)
    && (forall q :: q in log.requests ==> q <= log.end && DeliveredBelow(log, q))
    && (log.owner.Some? ==> log.owner.value.position <= log.end)
  }

  ghost predicate Logs(broker: Broker) {
    forall p {:trigger broker[p]} :: p in broker ==> LogOk(broker[p])
  }

  /** A record in hand is the first undelivered one, or was polled on a manager that has been
      forced to close since, and then is never handled. */
  ghost predicate JobOk(job: Job, broker: Broker, forced: bool) {
    && (job.at.Rewinding? ==> !job.at.out.Success?)
    && (job.at.InHand().Some? ==>
      var rec := job.at.InHand().value;
      && rec.part in broker && rec.offset in broker[rec.part].records
      && ((job.at.Polled? && forced) || DeliveredBelow(broker[rec.part], rec.offset))
      && (job.at.Accepted() ==> rec.offset in broker[rec.part].delivered))
  }

  ghost predicate Records(jobs: Jobs, broker: Broker, forced: bool) {
    forall c {:trigger jobs[c]} :: c in jobs ==> JobOk(jobs[c], broker, forced)
  }

  /** The position has moved past a record that the mover still has in hand. */
  ghost predicate Exposed(p: Partition, cl: Claim, calls: I.Calls, jobs: Jobs) {
    && cl.mover in jobs && cl.mover in calls && calls[cl.mover].consumer == cl.consumer
    && jobs[cl.mover].at.Undecided() && jobs[cl.mover].at.InHand() == Some(Record(p, cl.position - 1))
  }

  ghost predicate ClaimOk(p: Partition, log: Log, calls: I.Calls, jobs: Jobs) {
    log.owner.Some? ==> DeliveredBelow(log, log.owner.value.position) || Exposed(p, log.owner.value, calls, jobs)
  }

  /** A local position is past an undelivered record only while that record is in hand. */
  ghost predicate Claims(calls: I.Calls, jobs: Jobs, broker: Broker) {
    forall p {:trigger broker[p]} :: p in broker ==> ClaimOk(p, broker[p], calls, jobs)
  }

  /** A record in hand belongs to a partition that the call's client still owns. */
  ghost predicate Owners(calls: I.Calls, jobs: Jobs, broker: Broker) {
    forall c, p {:trigger jobs[c], broker[p]} ::
      c in jobs && p in broker && jobs[c].at.InHand().Some? && jobs[c].at.InHand().value.part == p ==>
        c in calls && broker[p].owner.Some? && broker[p].owner.value.consumer == calls[c].consumer
  }

  ghost predicate Inv(w: World) {
    && I.Inv(w.ctl)
    && JobsMatch(w.ctl.calls, w.jobs)
    && Blocks(w.ctl.calls, w.jobs, w.blocked)
    && Logs(w.broker)
    && Records(w.jobs, w.broker, w.ctl.forced)
    && (!w.ctl.forced ==> Claims(w.ctl.calls, w.jobs, w.broker))
    && (!w.ctl.cut ==> Owners(w.ctl.calls, w.jobs, w.broker))
  }
}
