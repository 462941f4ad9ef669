/** Small preservation facts for deliveries. */
module PopDeliveryFrames {
  import opened Text
  import I = PopControlInv
  import opened PopDelivery
  import opened PopDeliveryInv

  // ------------------------------------------------------------------ one changed job

  lemma JobsMatchSame(calls: I.Calls, jobs: Jobs, c: int, job: Job)
    requires JobsMatch(calls, jobs) && c in jobs
    ensures JobsMatch(calls, jobs[c := job])
  {}

  lemma BlocksSame(calls: I.Calls, jobs: Jobs, blocked: map<int, int>, c: int, job: Job)
    requires Blocks(calls, jobs, blocked) && c in jobs && job.at.Polling? == jobs[c].at.Polling?
    ensures Blocks(calls, jobs[c := job], blocked)
  {}

  lemma RecordsSet(jobs: Jobs, broker: Broker, forced: bool, c: int, job: Job)
    requires Records(jobs, broker, forced) && JobOk(job, broker, forced)
    ensures Records(jobs[c := job], broker, forced)
  {}

  /** The change settles no exposure: the record stays in hand, undecided if it was so. */
  predicate KeepsExposure(a: Work, b: Work) {
    a.Undecided() && a.InHand().Some? ==> b.Undecided() && b.InHand() == a.InHand()
  }

  lemma ClaimsSet(calls: I.Calls, jobs: Jobs, broker: Broker, c: int, job: Job)
    requires Claims(calls, jobs, broker) && (c in jobs ==> KeepsExposure(jobs[c].at, job.at))
    ensures Claims(calls, jobs[c := job], broker)
  {
    forall p | p in broker ensures ClaimOk(p, broker[p], calls, jobs[c := job]) {
      assert ClaimOk(p, broker[p], calls, jobs);
    }
  }

  lemma OwnersSet(calls: I.Calls, jobs: Jobs, broker: Broker, c: int, job: Job)
    requires Owners(calls, jobs, broker) && c in jobs
    requires job.at.InHand().None? || job.at.InHand() == jobs[c].at.InHand()
    ensures Owners(calls, jobs[c := job], broker)
  {}

  /** One call moves on with the record it has, or gives up a record that needs no rewind. */
  lemma JobMovesOn(w: World, c: int, job: Job, w': World)
    requires Inv(w) && c in w.jobs && w' == w.(jobs := w.jobs[c := job])
    requires w.jobs[c].at.Polling? == job.at.Polling? && JobOk(job, w.broker, w.ctl.forced)
    requires job.at.InHand().None? || job.at.InHand() == w.jobs[c].at.InHand()
    requires w.ctl.forced || KeepsExposure(w.jobs[c].at, job.at)
    ensures Inv(w')
  {
    hide I.Inv, JobsMatch, Blocks, Logs, Records, Claims, Owners;
    JobsMatchSame(w.ctl.calls, w.jobs, c, job);
    BlocksSame(w.ctl.calls, w.jobs, w.blocked, c, job);
    RecordsSet(w.jobs, w.broker, w.ctl.forced, c, job);
    if !w.ctl.forced { ClaimsSet(w.ctl.calls, w.jobs, w.broker, c, job); }
    if !w.ctl.cut { OwnersSet(w.ctl.calls, w.jobs, w.broker, c, job); }
  }

  // ------------------------------------------------------------------ one changed log

  /** `b` is `a` after some time: records are appended, deliveries are added. */
  predicate Extends(a: Log, b: Log) {
    && a.records <= b.records && a.delivered <= b.delivered && a.end <= b.end
    && forall r :: r in b.records && r < a.end ==> r in a.records
  }

  lemma StillBelow(a: Log, b: Log, offset: int)
    requires Extends(a, b) && DeliveredBelow(a, offset) && offset <= a.end
    ensures DeliveredBelow(b, offset)
  {}

  lemma LogsSet(broker: Broker, p: Partition, log: Log)
    requires Logs(broker) && LogOk(log)
    ensures Logs(broker[p := log])
  {}

  lemma RecordsLog(jobs: Jobs, broker: Broker, forced: bool, p: Partition, log: Log)
    requires Records(jobs, broker, forced) && Logs(broker) && (p in broker ==> Extends(broker[p], log))
    ensures Records(jobs, broker[p := log], forced)
  {
    forall c | c in jobs ensures JobOk(jobs[c], broker[p := log], forced) {
      assert JobOk(jobs[c], broker, forced);
      if jobs[c].at.InHand().Some? && jobs[c].at.InHand().value.part == p {
        assert LogOk(broker[p]);
      }
    }
  }

  lemma ClaimsLog(calls: I.Calls, jobs: Jobs, broker: Broker, p: Partition, log: Log)
    requires Claims(calls, jobs, broker) && ClaimOk(p, log, calls, jobs)
    ensures Claims(calls, jobs, broker[p := log])
  {}

  lemma OwnersLog(calls: I.Calls, jobs: Jobs, broker: Broker, p: Partition, log: Log)
    requires Owners(calls, jobs, broker)
    requires forall c {:trigger jobs[c]} :: c in jobs && jobs[c].at.InHand().Some? && jobs[c].at.InHand().value.part == p ==>
               c in calls && log.owner.Some? && log.owner.value.consumer == calls[c].consumer
    ensures Owners(calls, jobs, broker[p := log])
  {}

  /** The log grows and its owner stays. */
  lemma LogMovesOn(w: World, p: Partition, log: Log, w': World)
    requires Inv(w) && p in w.broker && w' == w.(broker := w.broker[p := log])
    requires LogOk(log) && Extends(w.broker[p], log) && log.owner == w.broker[p].owner
    ensures Inv(w')
  {
    hide I.Inv, JobsMatch, Blocks, Records, Claims, Owners;
    hide LogOk;
    LogsSet(w.broker, p, log);
    RecordsLog(w.jobs, w.broker, w.ctl.forced, p, log);
    if !w.ctl.forced {
      ClaimGrows(w.ctl.calls, w.jobs, w.broker, p, log);
      ClaimsLog(w.ctl.calls, w.jobs, w.broker, p, log);
    }
    if !w.ctl.cut {
      OwnersStay(w.ctl.calls, w.jobs, w.broker, p, log);
    }
  }

  lemma ClaimGrows(calls: I.Calls, jobs: Jobs, broker: Broker, p: Partition, log: Log)
    requires Claims(calls, jobs, broker) && Logs(broker) && p in broker && Extends(broker[p], log) && log.owner == broker[p].owner
    ensures ClaimOk(p, log, calls, jobs)
  {
    assert LogOk(broker[p]) && ClaimOk(p, broker[p], calls, jobs);
    if log.owner.Some? && DeliveredBelow(broker[p], log.owner.value.position) {
      StillBelow(broker[p], log, log.owner.value.position);
    }
  }

  lemma OwnersStay(calls: I.Calls, jobs: Jobs, broker: Broker, p: Partition, log: Log)
    requires Owners(calls, jobs, broker) && p in broker && log.owner.Some? == broker[p].owner.Some?
    requires log.owner.Some? ==> log.owner.value.consumer == broker[p].owner.value.consumer
    ensures Owners(calls, jobs, broker[p := log])
  {
    forall c | c in jobs && jobs[c].at.InHand().Some? && jobs[c].at.InHand().value.part == p
      ensures c in calls && log.owner.Some? && log.owner.value.consumer == calls[c].consumer
    {
      assert broker[p].owner.Some?;
    }
    OwnersLog(calls, jobs, broker, p, log);
  }
}
