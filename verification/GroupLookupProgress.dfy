/** Every lookup can be brought to its end, and what the backend answers reaches the callers. */
module GroupLookupProgress {
  import opened Text
  import opened Sizes
  import opened CredentialKeys
  import opened GroupCache
  import opened GroupLookup
  import opened GroupLookupProofs
  import opened GroupLookupTheorems

  // -------------------------------------------------------------------- what Set and Reject leave

  lemma {:induction false} OldestOf(m: map<string, real>) returns (v: string)
    requires m != map[]
    ensures v in m && forall h :: h in m ==> m[v] <= m[h]
    decreases |m|
  {
    v :| v in m;
    var less := m - {v};
    SizeRemove(m, v);
    if less != map[] {
      var w := OldestOf(less);
      assert forall h :: h in m && h != v ==> h in less;
      if m[w] <= m[v] { v := w; }
    }
  }

  lemma {:induction false} EarliestOf(m: map<string, Entry>) returns (v: string)
    requires m != map[]
    ensures v in m && forall u :: u in m ==> !Earlier(m[u], m[v])
    decreases |m|
  {
    v :| v in m;
    var less := m - {v};
    SizeRemove(m, v);
    if less != map[] {
      var w := EarliestOf(less);
      assert forall u :: u in m && u != v ==> u in less;
      if !Earlier(m[v], m[w]) { v := w; }
    }
  }

  lemma {:induction false} ShrinkRejections(m: map<string, real>, key: string, n: nat) returns (k: map<string, real>)
    requires n <= |m|
    ensures |k| == n && EarliestRejectionsGone(m, k, key) && k.Keys <= m.Keys
    decreases |m| - n
  {
    if n == |m| {
      k := m;
    } else {
      var more := ShrinkRejections(m, key, n + 1);
      var v := OldestOf(more);
      SizeRemove(more, v);
      k := more - {v};
    }
  }

  lemma {:induction false} ShrinkEntries(m: map<string, Entry>, key: string, n: nat) returns (k: map<string, Entry>)
    requires n <= |m|
    ensures |k| == n && EarliestGone(m, k, key) && k.Keys <= m.Keys
    decreases |m| - n
  {
    if n == |m| {
      k := m;
    } else {
      var more := ShrinkEntries(m, key, n + 1);
      var v := EarliestOf(more);
      SizeRemove(more, v);
      k := more - {v};
    }
  }

  lemma CanReject(before: map<string, real>, hash: string, until: real, now: real, max: int) returns (after: map<string, real>)
    requires max >= 1 && |before| <= max
    ensures RejectTo(before, after, hash, until, now, max)
  {
    var live := FreshRejections(before, now);
    NoMoreThan(live, before);
    hide FreshRejections;
    var kept := live;
    if hash !in live && |live| >= max { kept := ShrinkRejections(live, hash, max - 1); }
    PutRejection(before, kept, hash, until, now, max);
    after := kept[hash := until];
  }

  lemma CanSet(before: map<string, Entry>, upn: string, e: Entry, now: real, max: int) returns (after: map<string, Entry>)
    requires max >= 1 && |before| <= max
    ensures SetTo(before, after, upn, e, now, max)
  {
    var live := Fresh(before, now);
    NoMoreThan(live, before);
    hide Fresh;
    var kept := live;
    if upn !in live && |live| >= max { kept := ShrinkEntries(live, upn, max - 1); }
    PutEntry(before, kept, upn, e, now, max);
    after := kept[upn := e];
  }

  // --------------------------------------------------------------------------------- the steps

  ghost predicate Waits(s: State, c: int, f: int) {
    Inv(s) && c in s.callers && s.callers[c].pc == Waiting(f) && f in s.flights
  }

  lemma First(s: State, step: Step, run: seq<Step>, end: State)
    requires Enabled(s, step) && Leads(Apply(s, step), run, end)
    ensures Leads(s, [step] + run, end)
  {
    hide Enabled, Apply;
    assert ([step] + run)[1..] == run;
  }

  predicate OfFlight(step: Step) {
    step.FlightGet? || step.FlightRejected? || step.Admit? || step.Answered? || step.StoreGroups? || step.StoreDenial? || step.Finish?
  }

  lemma StillWaits(s: State, c: int, f: int, step: Step)
    requires Waits(s, c, f) && Enabled(s, step) && OfFlight(step)
    ensures Waits(Apply(s, step), c, f)
  {
    FlightLeavesCallers(s, step);
    hide Inv, Enabled, Apply;
    StepKeeps(s, step);
  }

  lemma FlightLeavesCallers(s: State, step: Step)
    requires Enabled(s, step) && OfFlight(step)
    ensures Apply(s, step).callers == s.callers && forall f :: f in s.flights ==> f in Apply(s, step).flights
  {
    hide AfterGet, AfterRejected, Hit, IsRejected, CredentialHash, SetTo, RejectTo;
  }

  /** Caller `c` has its result. */
  predicate Has(s: State, c: int, r: Result) { c in s.callers && s.callers[c].pc == Returned(r) }

  lemma FromFinished(s: State, c: int, f: int) returns (run: seq<Step>, end: State)
    requires Waits(s, c, f) && s.flights[f].pc.Finished?
    ensures Leads(s, run, end) && Has(end, c, s.flights[f].pc.result)
  {
    hide Inv;
    run, end := [Wake(c)], Apply(s, Wake(c));
    assert Leads(end, [], end);
    First(s, Wake(c), [], end);
    assert [Wake(c)] + [] == [Wake(c)];
  }

  lemma FromFinishing(s: State, c: int, f: int) returns (run: seq<Step>, end: State)
    requires Waits(s, c, f) && s.flights[f].pc.Finishing?
    ensures Leads(s, run, end) && Has(end, c, s.flights[f].pc.result)
  {
    InTable(s, f);
    hide Inv, CredentialHash, Leads;
    var step := Finish(f);
    StillWaits(s, c, f, step);
    run, end := FromFinished(Apply(s, step), c, f);
    First(s, step, run, end);
    run := [step] + run;
  }

  lemma InTable(s: State, f: int)
    requires Inv(s) && f in s.flights && !s.flights[f].pc.Finished?
    ensures HashOf(s.flights[f].cred) in s.lookups
  {
    hide DataOk, RejectedOk, FlightsOk, CallersOk, NoneLost, ResultsOk, CredentialHash;
  }

  lemma Bounded(s: State)
    requires Inv(s)
    ensures s.max >= 1 && |s.data| <= s.max && |s.rejected| <= s.max
  {
    hide TableOk, FlightsOk, CallersOk, NoneLost, ResultsOk, Backed, BackedDenial;
  }

  lemma FromDenying(s: State, c: int, f: int, now: real) returns (run: seq<Step>, end: State)
    requires Waits(s, c, f) && s.flights[f].pc.Denying?
    ensures Leads(s, run, end) && Has(end, c, Rejection(None))
  {
    Bounded(s);
    hide Inv, CredentialHash, Leads, RejectTo;
    var after := CanReject(s.rejected, HashOf(s.flights[f].cred), now + s.ttl, now, s.max);
    var step := StoreDenial(f, now, after);
    StillWaits(s, c, f, step);
    run, end := FromFinishing(Apply(s, step), c, f);
    First(s, step, run, end);
    run := [step] + run;
  }

  lemma FromStoring(s: State, c: int, f: int, now: real) returns (run: seq<Step>, end: State)
    requires Waits(s, c, f) && s.flights[f].pc.Storing?
    ensures Leads(s, run, end) && Has(end, c, Groups(s.flights[f].pc.groups, None))
  {
    Bounded(s);
    hide Inv, CredentialHash, Leads, SetTo;
    var cred := s.flights[f].cred;
    var after := CanSet(s.data, cred.upn, Entry(s.flights[f].pc.groups, HashOf(cred), now + s.ttl, now), now, s.max);
    var step := StoreGroups(f, now, after);
    StillWaits(s, c, f, step);
    run, end := FromFinishing(Apply(s, step), c, f);
    First(s, step, run, end);
    run := [step] + run;
  }

  /** What a caller is told of the backend's answer. */
  function ResultOf(answer: Answer): (r: Result) {
    match answer case Granted(groups) => Groups(groups, None) case Denied => Rejection(None) case Unavailable => Failed
  }

  lemma FromFetching(s: State, c: int, f: int, answer: Answer, now: real) returns (run: seq<Step>, end: State)
    requires Waits(s, c, f) && s.flights[f].pc.Fetching?
    ensures Leads(s, run, end) && Has(end, c, ResultOf(answer))
  {
    hide Inv, Leads;
    var step := Answered(f, answer);
    StillWaits(s, c, f, step);
    match answer {
      case Granted(groups) => run, end := FromStoring(Apply(s, step), c, f, now);
      case Denied => run, end := FromDenying(Apply(s, step), c, f, now);
      case Unavailable => run, end := FromFinishing(Apply(s, step), c, f);
    }
    First(s, step, run, end);
    run := [step] + run;
  }

  lemma FromAdmitting(s: State, c: int, f: int, answer: Answer, now: real) returns (run: seq<Step>, end: State)
    requires Waits(s, c, f) && s.flights[f].pc.Admitting?
    ensures Leads(s, run, end) && Has(end, c, ResultOf(answer))
  {
    hide Inv, Leads;
    var step := Admit(f, true);
    StillWaits(s, c, f, step);
    run, end := FromFetching(Apply(s, step), c, f, answer, now);
    First(s, step, run, end);
    run := [step] + run;
  }

  /** What a lookup of these credentials gives that looks at the rejections now. */
  function AfterRejections(s: State, cred: Cred, answer: Answer, now: real): (r: Result) {
    if IsRejected(s.rejected, HashOf(cred), now) then Rejection(Some(now)) else ResultOf(answer)
  }

  lemma FromMissed(s: State, c: int, f: int, answer: Answer, now: real) returns (run: seq<Step>, end: State)
    requires Waits(s, c, f) && s.flights[f].pc.Missed?
    ensures Leads(s, run, end) && Has(end, c, AfterRejections(s, s.flights[f].cred, answer, now))
  {
    hide Inv, Leads, CredentialHash, AfterRejected, IsRejected;
    var step := FlightRejected(f, now);
    StillWaits(s, c, f, step);
    if IsRejected(s.rejected, HashOf(s.flights[f].cred), now) {
      run, end := FromFinishing(Apply(s, step), c, f);
    } else {
      run, end := FromAdmitting(Apply(s, step), c, f, answer, now);
    }
    First(s, step, run, end);
    run := [step] + run;
  }

  lemma FromStarted(s: State, c: int, f: int, answer: Answer, now: real) returns (run: seq<Step>, end: State)
    requires Waits(s, c, f) && s.flights[f].pc.Started?
    ensures Leads(s, run, end)
    ensures var cred := s.flights[f].cred;
            Has(end, c, if Hit(s.data, cred.upn, cred.pass, now) then Groups(s.data[cred.upn].groups, Some(now))
                        else AfterRejections(s, cred, answer, now))
  {
    hide Inv, Leads, CredentialHash, AfterGet, AfterRejections;
    var step := FlightGet(f, now);
    StillWaits(s, c, f, step);
    var cred := s.flights[f].cred;
    if Hit(s.data, cred.upn, cred.pass, now) {
      run, end := FromFinishing(Apply(s, step), c, f);
    } else {
      run, end := FromMissed(Apply(s, step), c, f, answer, now);
      SameRejections(s, Apply(s, step), cred, answer, now);
    }
    First(s, step, run, end);
    run := [step] + run;
  }

  lemma SameRejections(s: State, t: State, cred: Cred, answer: Answer, now: real)
    requires s.rejected == t.rejected
    ensures AfterRejections(s, cred, answer, now) == AfterRejections(t, cred, answer, now)
  {}

  // ------------------------------------------------------------------------------- the theorem

  /** What the lookup comes to from where it stands, for an answer of the backend and an attempt that the
      limiter admits. */
  function Outcome(s: State, f: int, answer: Answer, now: real): (r: Result)
    requires f in s.flights
  {
    var cred := s.flights[f].cred;
    match s.flights[f].pc
    case Started =>
      if Hit(s.data, cred.upn, cred.pass, now) then Groups(s.data[cred.upn].groups, Some(now)) else AfterRejections(s, cred, answer, now)
    case Missed => AfterRejections(s, cred, answer, now)
    case Admitting => ResultOf(answer)
    case Fetching => ResultOf(answer)
    case Storing(groups) => Groups(groups, None)
    case Denying => Rejection(None)
    case Finishing(r) => r
    case Finished(r) => r
  }

  /** From every reachable state every waiting caller can be served: whatever the backend answers, the
      lookup's own steps lead to its result, a record of the cache or of a rejection going before. */
  lemma WaitingIsServed(ttl: real, max: int, before: seq<Step>, s: State, c: int, answer: Answer, now: real)
    returns (run: seq<Step>, end: State)
    requires max >= 1 && Leads(Initial(ttl, max), before, s) && c in s.callers && s.callers[c].pc.Waiting?
    ensures s.callers[c].pc.flight in s.flights
    ensures Leads(s, run, end) && Has(end, c, Outcome(s, s.callers[c].pc.flight, answer, now))
  {
    hide Inv, Leads, Hit, AfterRejections;
    ReachableInv(ttl, max, before, s);
    NoCallerIsStranded(ttl, max, before, s, c);
    var f := s.callers[c].pc.flight;
    match s.flights[f].pc
    case Started => run, end := FromStarted(s, c, f, answer, now);
    case Missed => run, end := FromMissed(s, c, f, answer, now);
    case Admitting => run, end := FromAdmitting(s, c, f, answer, now);
    case Fetching => run, end := FromFetching(s, c, f, answer, now);
    case Storing(_) => run, end := FromStoring(s, c, f, now);
    case Denying => run, end := FromDenying(s, c, f, now);
    case Finishing(_) => run, end := FromFinishing(s, c, f);
    case Finished(_) => run, end := FromFinished(s, c, f);
  }
}
