/** Small preservation facts about the groups of PopControlInv: what one changed consumer, one
    changed call, one changed timer or one changed worker leaves true. */
module PopFrames {
  import opened Text
  import opened PopControl
  import opened PopControlInv
  import opened Sizes

  type TimerMap = map<TimerId, TimerPhase>
  type WorkerMap = map<int, Worker>

  // -------------------------------------------------------------- one changed consumer

  lemma RefsSameTag(max: nat, cs: Consumers, cache: map<Key, int>, closed: bool, k: int, x: Consumer)
    requires Refs(max, cs, cache, closed) && k in cs && x.key == cs[k].key
    requires x.custody == cs[k].custody || (!x.custody.Cached? && !cs[k].custody.Cached?)
    ensures Refs(max, cs[k := x], cache, closed)
  {}

  lemma PinsSameTag(cs: Consumers, calls: Calls, ws: WorkerMap, k: int, x: Consumer)
    requires Pins(cs, calls, ws) && k in cs && x.key == cs[k].key
    requires x.custody == cs[k].custody || k in ws || !cs[k].custody.Cached? || PinnedTo(calls, k) == {}
    ensures Pins(cs[k := x], calls, ws)
  {
    forall c | c in calls && calls[c].pc.Pinned() && calls[c].consumer == k
      ensures x.custody == cs[k].custody || k in ws
    {
      assert c in PinnedTo(calls, k);
      assert cs[k].custody.Cached? || k in ws;
    }
  }

  lemma GatesSameGate(cs: Consumers, calls: Calls, ws: WorkerMap, k: int, x: Consumer)
    requires Gates(cs, calls, ws) && k in cs && x.gate == cs[k].gate
    ensures Gates(cs[k := x], calls, ws)
  {}

  lemma TimersSamePointer(cs: Consumers, ts: TimerMap, k: int, x: Consumer)
    requires Timers(cs, ts) && k in cs && x.idleTimer == cs[k].idleTimer && x.idleGeneration == cs[k].idleGeneration
    requires x.custody == cs[k].custody && (x.users == cs[k].users || x.idleTimer.None?)
    ensures Timers(cs[k := x], ts)
  {}

  lemma CustodiesSame(cs: Consumers, calls: Calls, ts: TimerMap, ws: WorkerMap, k: int, x: Consumer)
    requires Custodies(cs, calls, ts, ws) && k in cs
    requires x.custody == cs[k].custody && x.phase == cs[k].phase && x.closes == cs[k].closes
    ensures Custodies(cs[k := x], calls, ts, ws)
  {}

  lemma ClosesSameTag(cs: Consumers, closed: bool, done: bool, zs: map<int, CloseCall>, k: int, x: Consumer)
    requires Closes(cs, closed, done, zs) && k in cs && (x.custody == cs[k].custody || x.custody.Gone?)
    ensures Closes(cs[k := x], closed, done, zs)
  {}

  lemma UsersSame(cs: Consumers, calls: Calls, k: int, x: Consumer)
    requires Users(cs, calls) && k in cs && x.users == cs[k].users
    ensures Users(cs[k := x], calls)
  {}

  lemma OrderlySameTag(cs: Consumers, calls: Calls, ws: WorkerMap, k: int, x: Consumer)
    requires Orderly(cs, calls, ws) && k in cs
    requires x.custody == cs[k].custody || !cs[k].custody.Cached?
    ensures Orderly(cs[k := x], calls, ws)
  {}

  // ------------------------------------------------------------------ one changed call

  /** `call` stands for call `c` with the pin that `c` has; a newcomer has none. */
  predicate SamePin(calls: Calls, c: int, call: Call) {
    if c in calls && calls[c].pc.Pinned()
    then call.pc.Pinned() && call.key == calls[c].key && call.consumer == calls[c].consumer
    else !call.pc.Pinned()
  }

  predicate SameGate(calls: Calls, c: int, call: Call) {
    if c in calls && calls[c].pc.HoldsGate()
    then call.pc.HoldsGate() && call.consumer == calls[c].consumer
    else !call.pc.HoldsGate()
  }

  predicate SameEviction(calls: Calls, c: int, call: Call) {
    if c in calls && calls[c].pc.Evictor() then call.pc == calls[c].pc else !call.pc.Evictor()
  }

  lemma PinsFollows(cs: Consumers, calls: Calls, ws: WorkerMap, c: int, call: Call)
    requires Pins(cs, calls, ws) && (SamePin(calls, c, call) || !call.pc.Pinned())
    ensures Pins(cs, calls[c := call], ws)
  {}

  lemma GatesFollows(cs: Consumers, calls: Calls, ws: WorkerMap, c: int, call: Call)
    requires Gates(cs, calls, ws) && SameGate(calls, c, call)
    ensures Gates(cs, calls[c := call], ws)
  {}

  lemma CustodiesFollows(cs: Consumers, calls: Calls, ts: TimerMap, ws: WorkerMap, c: int, call: Call)
    requires Custodies(cs, calls, ts, ws) && SameEviction(calls, c, call)
    ensures Custodies(cs, calls[c := call], ts, ws)
  {}

  lemma UsersFollows(cs: Consumers, calls: Calls, c: int, call: Call)
    requires Users(cs, calls) && SamePin(calls, c, call)
    ensures Users(cs, calls[c := call])
  {
    forall k | k in cs ensures PinnedTo(calls[c := call], k) == PinnedTo(calls, k) {}
  }

  lemma ClosersFollows(closers: int, ts: TimerMap, calls: Calls, c: int, call: Call)
    requires Closers(closers, ts, calls) && SameEviction(calls, c, call)
    ensures Closers(closers, ts, calls[c := call])
  {
    assert Evictors(calls[c := call]) == Evictors(calls);
  }

  lemma OrderlyFollows(cs: Consumers, calls: Calls, ws: WorkerMap, c: int, call: Call)
    requires Orderly(cs, calls, ws)
    requires call.pc.Working? ==> call.consumer in cs && (cs[call.consumer].custody.Cached?
                                                           || (call.consumer in ws && ws[call.consumer].Queued?))
    ensures Orderly(cs, calls[c := call], ws)
  {}

  // ------------------------------------------------------- one changed timer or worker

  lemma CustodiesOtherTimer(cs: Consumers, calls: Calls, ts: TimerMap, ts': TimerMap, ws: WorkerMap, t: TimerId)
    requires Custodies(cs, calls, ts, ws)
    requires ts' == ts - {t} || (t in ts' && ts' == ts[t := ts'[t]])
    requires t in ts ==> !ts[t].Expiring? && !ts[t].ExpireClosing?
    ensures Custodies(cs, calls, ts', ws)
  {}

  lemma ClosersTimerSet(closers: int, ts: TimerMap, calls: Calls, t: TimerId, p: TimerPhase)
    requires Closers(closers, ts, calls)
    ensures Closers(if t in ts then closers else closers + 1, ts[t := p], calls)
  {
    SizeUpdate(ts, t, p);
  }

  lemma ClosersTimersGone(closers: int, ts: TimerMap, calls: Calls, gone: set<TimerId>)
    requires Closers(closers, ts, calls) && gone <= ts.Keys
    ensures Closers(closers - |gone|, ts - gone, calls)
  {
    SizeRemoveAll(ts, gone);
  }

  lemma ClosersOneGone(closers: int, ts: TimerMap, calls: Calls, t: TimerId)
    requires Closers(closers, ts, calls) && t in ts
    ensures Closers(closers - 1, ts - {t}, calls)
  {
    hide Closers;
    assert |{t}| == 1;
    ClosersTimersGone(closers, ts, calls, {t});
  }

  /** A call that takes an eviction on, or is through with one. */
  lemma ClosersEviction(closers: int, ts: TimerMap, calls: Calls, c: int, call: Call)
    requires Closers(closers, ts, calls) && c in calls && calls[c].pc.Evictor() != call.pc.Evictor()
    ensures Closers(if call.pc.Evictor() then closers + 1 else closers - 1, ts, calls[c := call])
  {
    if call.pc.Evictor() {
      assert Evictors(calls[c := call]) == Evictors(calls) + {c};
    } else {
      assert Evictors(calls[c := call]) == Evictors(calls) - {c};
    }
  }
}
