/** CloseContext comes to its end: once no call is in progress any more, or the shutdown is forced, the
    workers and the timers that are left can always be finished, and then it returns. */
module PopShutdownProgress {
  import opened Sizes
  import opened PopControl
  import opened PopControlInv
  import opened PopRuns

  ghost predicate Runs(s: State, steps: seq<Step>)
    decreases |steps|
  {
    steps == [] || (Enabled(s, steps[0]) && Runs(Apply(s, steps[0]), steps[1..]))
  }

  ghost function After(s: State, steps: seq<Step>): (r: State)
    requires Runs(s, steps)
    decreases |steps|
  {
    if steps == [] then s else After(Apply(s, steps[0]), steps[1..])
  }

  lemma {:induction false} Join(s: State, a: seq<Step>, b: seq<Step>)
    requires Runs(s, a) && Runs(After(s, a), b)
    ensures Runs(s, a + b) && After(s, a + b) == After(After(s, a), b)
    decreases |a|
  {
    hide Enabled, Apply;
    if a == [] {
      assert a + b == b;
    } else {
      assert (a + b)[1..] == a[1..] + b;
      Join(Apply(s, a[0]), a[1..], b);
    }
  }

  lemma One(s: State, st: Step)
    requires Enabled(s, st)
    ensures Runs(s, [st]) && After(s, [st]) == Apply(s, st)
  {
    hide Enabled, Apply;
    assert [st][1..] == [];
    assert After(Apply(s, st), []) == Apply(s, st);
  }

  /** Steps of timers and of the shutdown only. */
  predicate Background(steps: seq<Step>) { forall j :: 0 <= j < |steps| ==> steps[j].OfTimer? || steps[j].OfClose? }

  /** CloseContext call `i` leads the shutdown, no call is closing an evicted client, and the shutdown is
      forced or no Consume call is between its pin and its release. */
  ghost predicate Quiet(s: State, i: int) {
    && Inv(s) && s.isClosed && i in s.closeCalls && s.closeCalls[i].Leading? && Idle(s.calls, s.forced)
  }

  ghost predicate Idle(calls: Calls, forced: bool) {
    forall c {:trigger calls[c]} :: c in calls ==> !calls[c].pc.Evictor() && (forced || !calls[c].pc.Pinned())
  }

  function Undrained(workers: map<int, Worker>): (r: set<int>) { set k | k in workers && !workers[k].Drained? }

  // -------------------------------------------------------------------------------- workers

  /** What a step of a worker leaves alone. */
  predicate WorkerMoved(s: State, k: int, s': State, w: Worker) {
    && s'.workers == s.workers[k := w] && s'.timers == s.timers && s'.closeCalls == s.closeCalls && s'.calls == s.calls
    && s'.isClosed == s.isClosed && s'.forced == s.forced
  }

  lemma BeginWorker(s: State, k: int)
    requires k in s.workers && s.workers[k].Gated? && k in s.consumers
    ensures Enabled(s, OfClose(WorkerCloseBegin(k)))
    ensures WorkerMoved(s, k, Apply(s, OfClose(WorkerCloseBegin(k))), WorkerClosing(s.workers[k].locked))
  {
    hide BeginClose;
  }

  lemma EndWorker(s: State, k: int)
    requires k in s.workers && s.workers[k].WorkerClosing? && k in s.consumers
    ensures Enabled(s, OfClose(WorkerCloseEnd(k)))
    ensures WorkerMoved(s, k, Apply(s, OfClose(WorkerCloseEnd(k))), Drained)
  {
    hide SetGate;
    var s1 := EndClose(s.(workers := s.workers[k := Drained]), k);
    assert k in s1.consumers;
    hide EndClose;
  }

  lemma GateWorker(s: State, k: int)
    requires k in s.workers && s.workers[k].Queued? && k in s.consumers && s.consumers[k].gate.Free? && ActiveWorkers(s) == {}
    ensures Enabled(s, OfClose(WorkerGate(k)))
    ensures WorkerMoved(s, k, Apply(s, OfClose(WorkerGate(k))), Gated(true))
  {
    hide SetGate;
  }

  /** A forced shutdown does not wait for the gate. */
  lemma SkipWorker(s: State, k: int)
    requires k in s.workers && s.workers[k].Queued? && k in s.consumers && s.forced && ActiveWorkers(s) == {}
    ensures Enabled(s, OfClose(WorkerSkipGate(k)))
    ensures WorkerMoved(s, k, Apply(s, OfClose(WorkerSkipGate(k))), Gated(false))
  {}

  lemma StaysQuiet(s: State, i: int, st: Step, k: int, w: Worker)
    requires Quiet(s, i) && Enabled(s, st) && WorkerMoved(s, k, Apply(s, st), w)
    ensures Quiet(Apply(s, st), i)
  {
    hide Inv, Enabled, Apply;
    StepKeeps(s, st);
  }

  lemma WorkerIsThere(s: State, i: int, k: int)
    requires Quiet(s, i) && k in s.workers
    ensures k in s.consumers && (s.workers[k].Queued? ==> s.forced || s.consumers[k].gate.Free?)
  {
    hide Refs, Pins, Timers, Closes, Users, Closers, Orderly, InCustody;
    assert k in s.consumers;
    var g := s.consumers[k].gate;
    var c := if g.ByCall? then g.call else 0;
    assert g == ByCall(c) ==> c in s.calls;
    if !s.forced { GateNotHeld(s.consumers, s.calls, s.workers, c, k); }
  }

  lemma GateNotHeld(consumers: Consumers, calls: Calls, workers: map<int, Worker>, c: int, k: int)
    requires Gates(consumers, calls, workers) && k in consumers && (c in calls ==> !calls[c].pc.Pinned())
    ensures c in calls ==> consumers[k].gate != ByCall(c)
  {}

  /** One worker is driven to its end. */
  lemma DrainOne(s: State, i: int, k: int) returns (steps: seq<Step>)
    requires Quiet(s, i) && k in s.workers && !s.workers[k].Drained? && (s.workers[k].Queued? ==> ActiveWorkers(s) == {})
    ensures Background(steps) && Runs(s, steps) && Quiet(After(s, steps), i) && WorkerMoved(s, k, After(s, steps), Drained)
  {
    hide Enabled, Apply, Inv, Quiet;
    WorkerIsThere(s, i, k);
    if s.workers[k].Queued? {
      var w := Gated(!s.forced);
      var st := OfClose(if s.forced then WorkerSkipGate(k) else WorkerGate(k));
      if s.forced { SkipWorker(s, k); } else { GateWorker(s, k); }
      StaysQuiet(s, i, st, k, w);
      One(s, st);
      var rest := DrainGated(Apply(s, st), i, k);
      steps := [st] + rest;
      Join(s, [st], rest);
      assert s.workers[k := w][k := Drained] == s.workers[k := Drained];
    } else if s.workers[k].Gated? {
      steps := DrainGated(s, i, k);
    } else {
      steps := DrainClosing(s, i, k);
    }
  }

  lemma DrainGated(s: State, i: int, k: int) returns (steps: seq<Step>)
    requires Quiet(s, i) && k in s.workers && s.workers[k].Gated?
    ensures Background(steps) && Runs(s, steps) && Quiet(After(s, steps), i) && WorkerMoved(s, k, After(s, steps), Drained)
  {
    hide Enabled, Apply, Inv, Quiet;
    WorkerIsThere(s, i, k);
    var st, w := OfClose(WorkerCloseBegin(k)), WorkerClosing(s.workers[k].locked);
    BeginWorker(s, k);
    StaysQuiet(s, i, st, k, w);
    One(s, st);
    var rest := DrainClosing(Apply(s, st), i, k);
    steps := [st] + rest;
    Join(s, [st], rest);
    assert s.workers[k := w][k := Drained] == s.workers[k := Drained];
  }

  lemma DrainClosing(s: State, i: int, k: int) returns (steps: seq<Step>)
    requires Quiet(s, i) && k in s.workers && s.workers[k].WorkerClosing?
    ensures Background(steps) && Runs(s, steps) && Quiet(After(s, steps), i) && WorkerMoved(s, k, After(s, steps), Drained)
  {
    hide Enabled, Apply, Inv, Quiet;
    WorkerIsThere(s, i, k);
    var st := OfClose(WorkerCloseEnd(k));
    EndWorker(s, k);
    StaysQuiet(s, i, st, k, Drained);
    One(s, st);
    steps := [st];
  }

  lemma OneLess(workers: map<int, Worker>, k: int)
    requires k in workers && !workers[k].Drained?
    ensures Undrained(workers[k := Drained]) == Undrained(workers) - {k} && |Undrained(workers[k := Drained])| < |Undrained(workers)|
  {
    assert k in Undrained(workers);
  }

  lemma Pick<T>(s: set<T>) returns (k: T)
    requires s != {}
    ensures k in s
  {
    k :| k in s;
  }

  lemma {:induction false} DrainAll(s: State, i: int) returns (steps: seq<Step>)
    requires Quiet(s, i)
    ensures Background(steps) && Runs(s, steps) && Quiet(After(s, steps), i) && Undrained(After(s, steps).workers) == {}
    decreases |Undrained(s.workers)|
  {
    hide Enabled, Apply, Inv, Quiet;
    var todo, active := Undrained(s.workers), ActiveWorkers(s);
    if todo == {} {
      steps := [];
    } else {
      var k := Pick(if active != {} then active else todo);
      var first := DrainOne(s, i, k);
      OneLess(s.workers, k);
      var rest := DrainAll(After(s, first), i);
      steps := first + rest;
      Join(s, first, rest);
    }
  }

  // --------------------------------------------------------------------------------- timers

  predicate TimerMoved(s: State, s': State, timers: map<TimerId, TimerPhase>) {
    && s'.timers == timers && s'.workers == s.workers && s'.closeCalls == s.closeCalls && s'.calls == s.calls && s'.isClosed == s.isClosed
    && s'.forced == s.forced
  }

  lemma StaysQuietAfter(s: State, i: int, st: Step, timers: map<TimerId, TimerPhase>)
    requires Quiet(s, i) && Enabled(s, st) && TimerMoved(s, Apply(s, st), timers)
    ensures Quiet(Apply(s, st), i)
  {
    hide Inv, Enabled, Apply;
    StepKeeps(s, st);
  }

  lemma TimerIsThere(s: State, i: int, t: TimerId)
    requires Quiet(s, i) && t in s.timers
    ensures t.consumer in s.consumers
  {
    hide Refs, Pins, Gates, Custodies, Closes, Users, Closers, Orderly, PointerOk;
    assert TimerOk(s.consumers, t, s.timers[t]);
  }

  lemma FireTimer(s: State, t: TimerId)
    requires t in s.timers && s.timers[t].Armed?
    ensures Enabled(s, OfTimer(TimerFires(t))) && TimerMoved(s, Apply(s, OfTimer(TimerFires(t))), s.timers[t := Firing])
  {}

  /** After the shutdown a callback finds nothing to expire. */
  lemma LockTimer(s: State, t: TimerId)
    requires t in s.timers && s.timers[t].Firing? && t.consumer in s.consumers && s.isClosed
    ensures Enabled(s, OfTimer(TimerLocked(t))) && TimerMoved(s, Apply(s, OfTimer(TimerLocked(t))), s.timers - {t})
  {}

  lemma CloseByTimer(s: State, t: TimerId)
    requires t in s.timers && s.timers[t].Expiring? && t.consumer in s.consumers
    ensures Enabled(s, OfTimer(ExpireCloseBegin(t))) && TimerMoved(s, Apply(s, OfTimer(ExpireCloseBegin(t))), s.timers[t := ExpireClosing])
  {
    hide BeginClose;
  }

  lemma ClosedByTimer(s: State, t: TimerId)
    requires t in s.timers && s.timers[t].ExpireClosing? && t.consumer in s.consumers
    ensures Enabled(s, OfTimer(ExpireCloseEnd(t))) && TimerMoved(s, Apply(s, OfTimer(ExpireCloseEnd(t))), s.timers - {t})
  {
    hide EndClose;
  }

  /** The last step of a timer. */
  lemma EndTimer(s: State, i: int, t: TimerId) returns (steps: seq<Step>)
    requires Quiet(s, i) && t in s.timers && (s.timers[t].Firing? || s.timers[t].ExpireClosing?)
    ensures Background(steps) && Runs(s, steps) && Quiet(After(s, steps), i) && TimerMoved(s, After(s, steps), s.timers - {t})
  {
    hide Enabled, Apply, Inv;
    TimerIsThere(s, i, t);
    var st := OfTimer(if s.timers[t].Firing? then TimerLocked(t) else ExpireCloseEnd(t));
    if s.timers[t].Firing? { LockTimer(s, t); } else { ClosedByTimer(s, t); }
    StaysQuietAfter(s, i, st, s.timers - {t});
    One(s, st);
    steps := [st];
  }

  lemma FinishTimer(s: State, i: int, t: TimerId) returns (steps: seq<Step>)
    requires Quiet(s, i) && t in s.timers
    ensures Background(steps) && Runs(s, steps) && Quiet(After(s, steps), i) && TimerMoved(s, After(s, steps), s.timers - {t})
  {
    hide Enabled, Apply, Inv, Quiet;
    TimerIsThere(s, i, t);
    if s.timers[t].Armed? || s.timers[t].Expiring? {
      var st := OfTimer(if s.timers[t].Armed? then TimerFires(t) else ExpireCloseBegin(t));
      var next := if s.timers[t].Armed? then Firing else ExpireClosing;
      if s.timers[t].Armed? { FireTimer(s, t); } else { CloseByTimer(s, t); }
      StaysQuietAfter(s, i, st, s.timers[t := next]);
      One(s, st);
      var rest := EndTimer(Apply(s, st), i, t);
      steps := [st] + rest;
      Join(s, [st], rest);
      assert s.timers[t := next] - {t} == s.timers - {t};
    } else {
      steps := EndTimer(s, i, t);
    }
  }

  lemma {:induction false} FinishTimers(s: State, i: int) returns (steps: seq<Step>)
    requires Quiet(s, i)
    ensures Background(steps) && Runs(s, steps) && Quiet(After(s, steps), i) && After(s, steps).timers == map[] && After(s, steps).workers == s.workers
    decreases |s.timers|
  {
    hide Enabled, Apply, Inv, Quiet;
    var todo := s.timers.Keys;
    if todo == {} {
      assert s.timers == map[];
      steps := [];
    } else {
      var t :| t in todo;
      var first := FinishTimer(s, i, t);
      SizeRemove(s.timers, t);
      var rest := FinishTimers(After(s, first), i);
      steps := first + rest;
      Join(s, first, rest);
    }
  }

  // -------------------------------------------------------------------------------- the end

  lemma MayFinish(s: State, i: int)
    requires Quiet(s, i) && s.timers == map[] && Undrained(s.workers) == {}
    ensures Enabled(s, OfClose(CloseFinish(i)))
    ensures var r := Apply(s, OfClose(CloseFinish(i))); i in r.closeCalls && r.closeCalls[i].CloseReturned?
  {
    hide Refs, Pins, Gates, Timers, Custodies, Closes, Users, Orderly;
    forall c | c in s.calls ensures !s.calls[c].pc.Evictor() {}
    assert Evictors(s.calls) == {};
    forall k | k in s.workers ensures s.workers[k].Drained? { assert k !in Undrained(s.workers); }
  }

  /** Once no call is in progress, the shutdown can be brought to its end. */
  lemma Finishes(s: State, i: int) returns (steps: seq<Step>)
    requires Quiet(s, i)
    ensures Background(steps) && Runs(s, steps) && i in After(s, steps).closeCalls && After(s, steps).closeCalls[i].CloseReturned?
  {
    hide Enabled, Apply, Inv, Quiet, Undrained;
    var a := DrainAll(s, i);
    var b := FinishTimers(After(s, a), i);
    Join(s, a, b);
    var last := OfClose(CloseFinish(i));
    var t := After(s, a + b);
    MayFinish(t, i);
    One(t, last);
    Join(s, a + b, [last]);
    steps := a + b + [last];
  }
}
