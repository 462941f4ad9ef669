/** What callers are told, by what the backend and the limiter said in the run; and how long an
    answer is remembered. The run itself is the record: nothing here reads the log. */
module GroupLookupAnswers {
  import opened Text
  import opened CredentialKeys
  import opened GroupCache
  import opened GroupLookup
  import opened GroupLookupProofs

  // ------------------------------------------------------------------------ what was said

  datatype Verdict = Silent | Refused | Said(answer: Answer)

  /** What the limiter or the backend last said to lookup `f`; an admission is not a verdict. */
  function VerdictOf(run: seq<Step>, f: int): (v: Verdict)
    decreases |run|
  {
    if run == [] then Silent
    else
      var last := run[|run| - 1];
      if last.Admit? && last.f == f && !last.ok then Refused
      else if last.Answered? && last.f == f then Said(last.answer)
      else VerdictOf(run[..|run| - 1], f)
  }

  lemma VerdictNext(run: seq<Step>, step: Step, f: int)
    ensures VerdictOf(run + [step], f) ==
            if step.Admit? && step.f == f && !step.ok then Refused
            else if step.Answered? && step.f == f then Said(step.answer) else VerdictOf(run, f)
  {
    assert (run + [step])[..|run|] == run;
  }

  predicate Ended(pc: FlightPc, r: Result) { pc == Finishing(r) || pc == Finished(r) }

  /** A result out of the cache. */
  predicate Cached(r: Result) { (r.Groups? && r.asOf.Some?) || (r.Rejection? && r.asOf'.Some?) }

  /** Where a lookup stands, by what it was told. */
  predicate FlightTold(pc: FlightPc, v: Verdict) {
    match v
    case Silent =>
      pc.Started? || pc.Missed? || pc.Admitting? || pc.Fetching? || ((pc.Finishing? || pc.Finished?) && Cached(pc.result))
    case Refused => Ended(pc, Failed)
    case Said(Unavailable) => Ended(pc, Failed)
    case Said(Granted(g)) => pc == Storing(g) || Ended(pc, Groups(g, None))
    case Said(Denied) => pc == Denying || Ended(pc, Rejection(None))
  }

  ghost predicate Told(flights: map<int, Flight>, run: seq<Step>) {
    && (forall f :: f in flights ==> FlightTold(flights[f].pc, VerdictOf(run, f)))
    && (forall f :: f !in flights ==> VerdictOf(run, f).Silent?)
  }

  /** One lookup moves, or is new; the others stay, and so does what they were told. */
  lemma FlightMoves(flights: map<int, Flight>, run: seq<Step>, step: Step, f: int, flight: Flight)
    requires Told(flights, run) && FlightTold(flight.pc, VerdictOf(run + [step], f))
    requires forall g :: g != f ==> VerdictOf(run + [step], g) == VerdictOf(run, g)
    ensures Told(flights[f := flight], run + [step])
  {
    hide FlightTold, VerdictOf;
  }

  lemma FlightsStay(flights: map<int, Flight>, run: seq<Step>, step: Step)
    requires Told(flights, run) && !step.Admit? && !step.Answered?
    ensures Told(flights, run + [step])
  {
    hide FlightTold, VerdictOf;
    forall f ensures VerdictOf(run + [step], f) == VerdictOf(run, f) { VerdictNext(run, step, f); }
  }

  predicate OfFlight(step: Step) {
    step.FlightGet? || step.FlightRejected? || step.Admit? || step.Answered? || step.StoreGroups? || step.StoreDenial? || step.Finish?
  }

  lemma FlightStepTold(s: State, run: seq<Step>, step: Step)
    requires Enabled(s, step) && Told(s.flights, run) && OfFlight(step)
    ensures Told(Apply(s, step).flights, run + [step])
  {
    hide VerdictOf, FlightTold, Enabled, Apply;
    forall g ensures g != step.f ==> VerdictOf(run + [step], g) == VerdictOf(run, g) { VerdictNext(run, step, g); }
    OneFlightMoves(s, step);
    FlightHears(s, run, step);
    FlightMoves(s.flights, run, step, step.f, Apply(s, step).flights[step.f]);
  }

  lemma OneFlightMoves(s: State, step: Step)
    requires Enabled(s, step) && OfFlight(step)
    ensures var after := Apply(s, step).flights; step.f in s.flights && step.f in after && after == s.flights[step.f := after[step.f]]
  {
    hide AfterGet, AfterRejected, Hit, IsRejected, CredentialHash, SetTo, RejectTo;
  }

  lemma FlightHears(s: State, run: seq<Step>, step: Step)
    requires Enabled(s, step) && OfFlight(step) && step.f in s.flights && step.f in Apply(s, step).flights && Told(s.flights, run)
    ensures FlightTold(Apply(s, step).flights[step.f].pc, VerdictOf(run + [step], step.f))
  {
    hide VerdictOf, AfterGet, AfterRejected, Hit, IsRejected, CredentialHash, SetTo, RejectTo;
    VerdictNext(run, step, step.f);
    assert FlightTold(s.flights[step.f].pc, VerdictOf(run, step.f));
    hide Told;
  }

  lemma StepTold(s: State, run: seq<Step>, step: Step)
    requires Enabled(s, step) && Told(s.flights, run)
    ensures Told(Apply(s, step).flights, run + [step])
  {
    if step.Join? && HashOf(s.callers[step.c].cred) !in s.lookups {
      forall g ensures VerdictOf(run + [step], g) == VerdictOf(run, g) { VerdictNext(run, step, g); }
      hide VerdictOf, CredentialHash;
      FlightMoves(s.flights, run, step, step.f, Flight(s.callers[step.c].cred, Started));
    } else if step.Arrive? || step.CallerGet? || step.CallerRejected? || step.Join? || step.Wake? || step.Cancel? {
      hide Told, AfterGet, AfterRejected, Hit, IsRejected, CredentialHash;
      FlightsStay(s.flights, run, step);
    } else {
      hide Told, Enabled, Apply;
      FlightStepTold(s, run, step);
    }
  }

  lemma {:induction false} RunTold(s: State, before: seq<Step>, run: seq<Step>, end: State)
    requires Leads(s, run, end) && Told(s.flights, before)
    ensures Told(end.flights, before + run)
    decreases |run|
  {
    if run == [] {
      assert before + run == before;
    } else {
      StepTold(s, before, run[0]);
      hide Told, Apply, Enabled;
      assert before + run == before + [run[0]] + run[1..];
      RunTold(Apply(s, run[0]), before + [run[0]], run[1..], end);
    }
  }

  lemma ReachableTold(ttl: real, max: int, run: seq<Step>, end: State)
    requires Leads(Initial(ttl, max), run, end)
    ensures Told(end.flights, run)
  {
    hide VerdictOf, FlightTold;
    assert Told(Initial(ttl, max).flights, []) by { NothingSaid(); }
    RunTold(Initial(ttl, max), [], run, end);
    assert [] + run == run;
  }

  lemma NothingSaid()
    ensures forall f :: VerdictOf([], f).Silent?
  {}

  /** A caller that wakes gets what its lookup was told: the backend's groups, a rejection for a denial,
      and a failure only for a refusal or a backend that did not answer. */
  lemma WakesWithAnswer(ttl: real, max: int, run: seq<Step>, end: State, c: int)
    requires Leads(Initial(ttl, max), run, end) && Enabled(end, Wake(c))
    ensures var r := Apply(end, Wake(c)).callers[c].pc; var v := VerdictOf(run, end.callers[c].pc.flight);
            && r.Returned?
            && (v == Said(Denied) <==> r.result == Rejection(None))
            && (v == Refused || v == Said(Unavailable) <==> r.result == Failed)
            && (forall g :: v == Said(Granted(g)) <==> r.result == Groups(g, None))
            && (v == Silent <==> Cached(r.result))
  {
    ReachableTold(ttl, max, run, end);
    hide Leads, VerdictOf;
    var f := end.callers[c].pc.flight;
    assert FlightTold(end.flights[f].pc, VerdictOf(run, f));
  }

  // -------------------------------------------------------------------- every caller's result

  /** A lookup of these credentials' hash was told `v`. */
  ghost predicate Heard(flights: map<int, Flight>, run: seq<Step>, h: string, v: Verdict) {
    exists f :: f in flights && HashOf(flights[f].cred) == h && VerdictOf(run, f) == v
  }

  /** A look into the cache at that time, of the caller or of a lookup of its hash. */
  ghost predicate Looked(flights: map<int, Flight>, run: seq<Step>, c: int, h: string, now: real) {
    || CallerGet(c, now) in run || CallerRejected(c, now) in run
    || exists f :: f in flights && HashOf(flights[f].cred) == h && (FlightGet(f, now) in run || FlightRejected(f, now) in run)
  }

  /** What is behind a result. */
  ghost predicate Explained(flights: map<int, Flight>, run: seq<Step>, c: int, cred: Cred, r: Result) {
    var h := HashOf(cred);
    match r
    case Groups(g, None) => Heard(flights, run, h, Said(Granted(g)))
    case Rejection(None) => Heard(flights, run, h, Said(Denied))
    case Failed => cred.upn == "" || cred.pass == "" || Heard(flights, run, h, Refused) || Heard(flights, run, h, Said(Unavailable))
    case Canceled => Cancel(c) in run
    case Groups(_, Some(now)) => Looked(flights, run, c, h, now)
    case Rejection(Some(now)) => Looked(flights, run, c, h, now)
  }

  ghost predicate CallersTold(callers: map<int, Caller>, flights: map<int, Flight>, run: seq<Step>) {
    forall c :: c in callers && callers[c].pc.Returned? ==> Explained(flights, run, c, callers[c].cred, callers[c].pc.result)
  }

  /** A lookup that ended with a cached result looked at that time. */
  predicate FlightLooked(pc: FlightPc, run: seq<Step>, f: int) {
    (pc.Finishing? || pc.Finished?) && Cached(pc.result) ==>
      if pc.result.Groups? then FlightGet(f, pc.result.asOf.value) in run else FlightRejected(f, pc.result.asOf'.value) in run
  }

  ghost predicate FlightsLooked(flights: map<int, Flight>, run: seq<Step>) {
    forall f :: f in flights ==> FlightLooked(flights[f].pc, run, f)
  }

  /** Lookups stay, with their credentials, and so does a verdict. */
  ghost predicate Later(a: map<int, Flight>, run: seq<Step>, b: map<int, Flight>, run': seq<Step>) {
    && (forall f :: f in a ==> f in b && b[f].cred == a[f].cred && (VerdictOf(run, f).Silent? || VerdictOf(run', f) == VerdictOf(run, f)))
    && forall step :: step in run ==> step in run'
  }

  lemma ExplainedLater(a: map<int, Flight>, run: seq<Step>, b: map<int, Flight>, run': seq<Step>, c: int, cred: Cred, r: Result)
    requires Later(a, run, b, run') && Explained(a, run, c, cred, r)
    ensures Explained(b, run', c, cred, r)
  {
    hide VerdictOf, CredentialHash;
    var h := HashOf(cred);
    forall v: Verdict | !v.Silent? && Heard(a, run, h, v) ensures Heard(b, run', h, v) {
      var f :| f in a && HashOf(a[f].cred) == h && VerdictOf(run, f) == v;
      assert f in b && HashOf(b[f].cred) == h && VerdictOf(run', f) == v;
    }
    forall now | Looked(a, run, c, h, now) ensures Looked(b, run', c, h, now) { LookedLater(a, run, b, run', c, h, now); }
    hide Heard, Looked, Later;
  }

  lemma LookedLater(a: map<int, Flight>, run: seq<Step>, b: map<int, Flight>, run': seq<Step>, c: int, h: string, now: real)
    requires Later(a, run, b, run') && Looked(a, run, c, h, now)
    ensures Looked(b, run', c, h, now)
  {
    hide VerdictOf, CredentialHash;
    if !(CallerGet(c, now) in run || CallerRejected(c, now) in run) {
      var f :| f in a && HashOf(a[f].cred) == h && (FlightGet(f, now) in run || FlightRejected(f, now) in run);
      assert f in b && HashOf(b[f].cred) == h;
    }
  }

  lemma StepIsLater(s: State, run: seq<Step>, step: Step)
    requires Enabled(s, step) && Told(s.flights, run)
    ensures Later(s.flights, run, Apply(s, step).flights, run + [step])
  {
    forall f | f in s.flights ensures VerdictOf(run, f).Silent? || VerdictOf(run + [step], f) == VerdictOf(run, f) {
      VerdictNext(run, step, f);
      assert FlightTold(s.flights[f].pc, VerdictOf(run, f));
      hide VerdictOf, AfterGet, AfterRejected, Hit, IsRejected, CredentialHash, SetTo, RejectTo;
    }
    KeepsFlights(s, step);
    hide VerdictOf, Enabled, Apply;
  }

  lemma KeepsFlights(s: State, step: Step)
    requires Enabled(s, step)
    ensures forall f :: f in s.flights ==> f in Apply(s, step).flights && Apply(s, step).flights[f].cred == s.flights[f].cred
  {
    hide AfterGet, AfterRejected, Hit, IsRejected, CredentialHash, SetTo, RejectTo;
  }

  lemma LookedMoves(flights: map<int, Flight>, run: seq<Step>, step: Step, f: int, flight: Flight)
    requires FlightsLooked(flights, run) && FlightLooked(flight.pc, run + [step], f)
    ensures FlightsLooked(flights[f := flight], run + [step])
  {
    LookedStays(flights, run, step);
    hide FlightLooked;
  }

  lemma LookedStays(flights: map<int, Flight>, run: seq<Step>, step: Step)
    requires FlightsLooked(flights, run)
    ensures FlightsLooked(flights, run + [step])
  {
    forall f | f in flights ensures FlightLooked(flights[f].pc, run + [step], f) {
      assert FlightLooked(flights[f].pc, run, f);
      assert forall x :: x in run ==> x in run + [step];
    }
  }

  lemma FlightSees(s: State, run: seq<Step>, step: Step)
    requires Enabled(s, step) && OfFlight(step) && step.f in s.flights && step.f in Apply(s, step).flights
    requires FlightLooked(s.flights[step.f].pc, run, step.f)
    ensures FlightLooked(Apply(s, step).flights[step.f].pc, run + [step], step.f)
  {
    hide AfterGet, AfterRejected, Hit, IsRejected, CredentialHash, SetTo, RejectTo;
    var run' := run + [step];
    assert run'[|run|] == step;
    assert forall x :: x in run ==> x in run';
  }

  lemma StepLooked(s: State, run: seq<Step>, step: Step)
    requires Enabled(s, step) && FlightsLooked(s.flights, run)
    ensures FlightsLooked(Apply(s, step).flights, run + [step])
  {
    if OfFlight(step) {
      hide Enabled, Apply, FlightLooked;
      OneFlightMoves(s, step);
      FlightSees(s, run, step);
      LookedMoves(s.flights, run, step, step.f, Apply(s, step).flights[step.f]);
    } else if step.Join? && HashOf(s.callers[step.c].cred) !in s.lookups {
      hide CredentialHash;
      LookedMoves(s.flights, run, step, step.f, Flight(s.callers[step.c].cred, Started));
    } else {
      hide FlightsLooked, AfterGet, AfterRejected, Hit, IsRejected, CredentialHash;
      LookedStays(s.flights, run, step);
    }
  }

  /** A result that a step gives a caller. */
  lemma NewResult(s: State, run: seq<Step>, step: Step, c: int)
    requires Enabled(s, step) && Told(s.flights, run) && FlightsLooked(s.flights, run) && CallersOk(s.callers, s.flights)
    requires var after := Apply(s, step).callers;
             c in after && after[c].pc.Returned? && (c !in s.callers || !s.callers[c].pc.Returned?)
    ensures var after := Apply(s, step); Explained(after.flights, run + [step], c, after.callers[c].cred, after.callers[c].pc.result)
  {
    var run' := run + [step];
    assert step in run' by { assert run'[|run|] == step; }
    if step.Wake? {
      assert step.c == c by { hide AfterGet, AfterRejected, Hit, IsRejected, CredentialHash, SetTo, RejectTo; }
      WakeResult(s, run, c);
    } else {
      hide AfterGet, AfterRejected, Hit, IsRejected, CredentialHash, SetTo, RejectTo, VerdictOf, Told, FlightsLooked, CallersOk, Heard;
    }
  }

  lemma WakeResult(s: State, run: seq<Step>, c: int)
    requires Enabled(s, Wake(c)) && Told(s.flights, run) && FlightsLooked(s.flights, run) && CallersOk(s.callers, s.flights)
    ensures Explained(s.flights, run + [Wake(c)], c, s.callers[c].cred, s.flights[s.callers[c].pc.flight].pc.result)
  {
    hide CredentialHash, VerdictOf;
    var f := s.callers[c].pc.flight;
    var run' := run + [Wake(c)];
    VerdictNext(run, Wake(c), f);
    assert s.callers[c].pc == Waiting(f) && HashOf(s.flights[f].cred) == HashOf(s.callers[c].cred);
    assert FlightTold(s.flights[f].pc, VerdictOf(run, f)) && FlightLooked(s.flights[f].pc, run, f);
    assert forall step :: step in run ==> step in run';
    var h := HashOf(s.callers[c].cred);
    assert Heard(s.flights, run', h, VerdictOf(run, f)) by { assert VerdictOf(run', f) == VerdictOf(run, f); }
  }

  lemma StepCallers(s: State, run: seq<Step>, step: Step)
    requires Enabled(s, step) && Told(s.flights, run) && FlightsLooked(s.flights, run) && CallersOk(s.callers, s.flights)
    requires CallersTold(s.callers, s.flights, run)
    ensures var after := Apply(s, step); CallersTold(after.callers, after.flights, run + [step])
  {
    var after := Apply(s, step);
    StepIsLater(s, run, step);
    forall c | c in after.callers && after.callers[c].pc.Returned?
      ensures Explained(after.flights, run + [step], c, after.callers[c].cred, after.callers[c].pc.result)
    {
      if c in s.callers && s.callers[c].pc.Returned? {
        ReturnedStays(s, step, c);
        hide Apply, Enabled, Explained, Later;
        ExplainedLater(s.flights, run, after.flights, run + [step], c, s.callers[c].cred, s.callers[c].pc.result);
      } else {
        hide Apply, Enabled, Explained, Told, FlightsLooked, CallersOk;
        NewResult(s, run, step, c);
      }
    }
    hide Apply, Enabled, Explained;
  }

  lemma ReturnedStays(s: State, step: Step, c: int)
    requires Enabled(s, step) && c in s.callers && s.callers[c].pc.Returned?
    ensures c in Apply(s, step).callers && Apply(s, step).callers[c] == s.callers[c]
  {
    hide AfterGet, AfterRejected, Hit, IsRejected, CredentialHash, SetTo, RejectTo;
  }

  lemma {:induction false} RunExplained(s: State, before: seq<Step>, run: seq<Step>, end: State)
    requires Leads(s, run, end) && Inv(s) && Told(s.flights, before) && FlightsLooked(s.flights, before)
    requires CallersTold(s.callers, s.flights, before)
    ensures CallersTold(end.callers, end.flights, before + run)
    decreases |run|
  {
    if run == [] {
      assert before + run == before;
    } else {
      hide Told, FlightsLooked, CallersTold, Apply, Enabled, CallersOk, DataOk, RejectedOk, TableOk, FlightsOk, NoneLost, ResultsOk;
      StepTold(s, before, run[0]);
      StepLooked(s, before, run[0]);
      StepCallers(s, before, run[0]);
      hide Inv;
      StepKeeps(s, run[0]);
      assert before + run == before + [run[0]] + run[1..];
      RunExplained(Apply(s, run[0]), before + [run[0]], run[1..], end);
    }
  }

  /** Every result has its reason in the run: groups and rejections an answer of the backend or a look
      into the cache, a failure empty credentials, a refused attempt or a backend that did not answer,
      a cancellation a cancellation. */
  lemma ResultsAreExplained(ttl: real, max: int, run: seq<Step>, end: State, c: int)
    requires max >= 1 && Leads(Initial(ttl, max), run, end) && c in end.callers && end.callers[c].pc.Returned?
    ensures Explained(end.flights, run, c, end.callers[c].cred, end.callers[c].pc.result)
  {
    var s := Initial(ttl, max);
    assert Inv(s);
    assert Told(s.flights, []) by { NothingSaid(); hide VerdictOf, FlightTold; }
    RunExplained(s, [], run, end);
    assert [] + run == run;
    hide Leads, Explained;
  }
}
