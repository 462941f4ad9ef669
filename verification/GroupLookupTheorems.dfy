/** What holds of every run of the credential lookups. */
module GroupLookupTheorems {
  import opened Text
  import opened CredentialKeys
  import opened GroupCache
  import opened GroupLookup
  import opened GroupLookupProofs

  lemma ReachableInv(ttl: real, max: int, run: seq<Step>, end: State)
    requires max >= 1 && Leads(Initial(ttl, max), run, end)
    ensures Inv(end)
  {
    RunKeeps(Initial(ttl, max), run, end);
  }

  /** At most one backend fetch per credential pair is in flight. */
  lemma OneFetchPerCredential(ttl: real, max: int, run: seq<Step>, end: State, f: int, g: int)
    requires max >= 1 && Leads(Initial(ttl, max), run, end)
    requires f in end.flights && g in end.flights && end.flights[f].pc.Fetching? && end.flights[g].pc.Fetching?
    requires end.flights[f].cred == end.flights[g].cred
    ensures f == g
  {
    ReachableInv(ttl, max, run, end);
    hide Leads, DataOk, RejectedOk, FlightsOk, CallersOk, NoneLost, ResultsOk;
  }

  /** Both maps of the cache stay within their bound. */
  lemma CacheStaysBounded(ttl: real, max: int, run: seq<Step>, end: State)
    requires max >= 1 && Leads(Initial(ttl, max), run, end)
    ensures |end.data| <= max && |end.rejected| <= max
  {
    ReachableInv(ttl, max, run, end);
    LimitsStay(Initial(ttl, max), run, end);
    hide Leads, FlightsOk, CallersOk, NoneLost, ResultsOk, Backed, BackedDenial;
  }

  lemma {:induction false} LimitsStay(s: State, run: seq<Step>, end: State)
    requires Leads(s, run, end)
    ensures end.max == s.max && end.ttl == s.ttl
    decreases |run|
  {
    if run != [] {
      StepLimits(s, run[0]);
      hide Apply, Enabled;
      LimitsStay(Apply(s, run[0]), run[1..], end);
    }
  }

  lemma StepLimits(s: State, step: Step)
    requires Enabled(s, step)
    ensures Apply(s, step).max == s.max && Apply(s, step).ttl == s.ttl
  {
    hide AfterGet, AfterRejected, Hit, IsRejected, CredentialHash, SetTo, RejectTo;
  }

  /** Every waiting caller has a lookup that will wake it: it is still in the table under the
      caller's key, or finished. */
  lemma NoCallerIsStranded(ttl: real, max: int, run: seq<Step>, end: State, c: int)
    requires max >= 1 && Leads(Initial(ttl, max), run, end)
    requires c in end.callers && end.callers[c].pc.Waiting?
    ensures var f := end.callers[c].pc.flight;
            && f in end.flights
            && (end.flights[f].pc.Finished? || (HashOf(end.callers[c].cred) in end.lookups && end.lookups[HashOf(end.callers[c].cred)] == f))
  {
    ReachableInv(ttl, max, run, end);
    hide Leads, DataOk, RejectedOk, FlightsOk, ResultsOk, CredentialHash;
    var f := end.callers[c].pc.flight;
    assert end.callers[c].pc == Waiting(f) && f in end.flights;
    assert HashOf(end.flights[f].cred) == HashOf(end.callers[c].cred);
  }

  /** No credentials of the run other than `c` share its hash. */
  ghost predicate Unshared(log: Log, c: Cred) {
    && (forall i :: 0 <= i < |log.fetches| && HashOf(log.fetches[i].cred) == HashOf(c) ==> log.fetches[i].cred == c)
    && (forall i :: 0 <= i < |log.stored| && HashOf(log.stored[i].cred) == HashOf(c) ==> log.stored[i].cred == c)
    && (forall i :: 0 <= i < |log.denials| && HashOf(log.denials[i].cred) == HashOf(c) ==> log.denials[i].cred == c)
    && (forall i :: 0 <= i < |log.storedDenials| && HashOf(log.storedDenials[i].cred) == HashOf(c) ==> log.storedDenials[i].cred == c)
  }

  /** A result that is the backend's answer for exactly this pair, or an unexpired record of one. */
  predicate Genuine(log: Log, ttl: real, c: Cred, r: Result) {
    match r
    case Groups(g, None) => Fetch(c, g) in log.fetches
    case Groups(g, Some(now)) => IsHit(log.stored, ttl, c, g, now)
    case Rejection(None) => Denial(c) in log.denials
    case Rejection(Some(now)) =>
      exists i :: 0 <= i < |log.storedDenials| && log.storedDenials[i].cred == c && now <= log.storedDenials[i].at + ttl
    case Failed => true
    case Canceled => true
  }

  lemma UnsharedIsGenuine(log: Log, ttl: real, c: Cred, r: Result)
    requires Sourced(log, ttl, HashOf(c), r) && Unshared(log, c)
    ensures Genuine(log, ttl, c, r)
  {
    match r
    case Groups(g, None) =>
      var i :| 0 <= i < |log.fetches| && HashOf(log.fetches[i].cred) == HashOf(c) && log.fetches[i].groups == g;
      assert log.fetches[i] == Fetch(c, g);
    case Groups(g, Some(now)) =>
      var d :| HashOf(d) == HashOf(c) && IsHit(log.stored, ttl, d, g, now);
      var i :| 0 <= i < |log.stored| && log.stored[i].cred == d && log.stored[i].groups == g && now <= log.stored[i].at + ttl;
      assert log.stored[i].cred == c;
    case Rejection(None) =>
      var i :| 0 <= i < |log.denials| && HashOf(log.denials[i].cred) == HashOf(c);
      assert log.denials[i] == Denial(c);
    case Rejection(Some(now)) =>
      var i :| 0 <= i < |log.storedDenials| && HashOf(log.storedDenials[i].cred) == HashOf(c) && now <= log.storedDenials[i].at + ttl;
      assert log.storedDenials[i].cred == c;
    case Failed =>
    case Canceled =>
  }

  // -------------------------------------------------------------- where credentials come from

  /** Some caller has brought these credentials, and they are not empty. */
  ghost predicate Came(callers: map<int, Caller>, c: Cred) {
    c.upn != "" && c.pass != "" && exists i :: i in callers && callers[i].cred == c
  }

  /** A caller that got past the check for empty credentials. */
  ghost predicate ActiveOk(callers: map<int, Caller>) {
    forall i :: i in callers && !callers[i].pc.Returned? ==> callers[i].cred.upn != "" && callers[i].cred.pass != ""
  }

  ghost predicate FlightsCame(callers: map<int, Caller>, flights: map<int, Flight>) {
    forall f :: f in flights ==> Came(callers, flights[f].cred)
  }

  ghost predicate LogCame(callers: map<int, Caller>, log: Log) {
    && (forall i :: 0 <= i < |log.fetches| ==> Came(callers, log.fetches[i].cred))
    && (forall i :: 0 <= i < |log.stored| ==> Came(callers, log.stored[i].cred))
    && (forall i :: 0 <= i < |log.denials| ==> Came(callers, log.denials[i].cred))
    && (forall i :: 0 <= i < |log.storedDenials| ==> Came(callers, log.storedDenials[i].cred))
  }

  ghost predicate Origins(s: State) {
    ActiveOk(s.callers) && FlightsCame(s.callers, s.flights) && LogCame(s.callers, s.log)
  }

  /** Callers stay, with their credentials. */
  ghost predicate Stay(a: map<int, Caller>, b: map<int, Caller>) {
    forall i :: i in a ==> i in b && b[i].cred == a[i].cred
  }

  lemma CameStays(a: map<int, Caller>, b: map<int, Caller>, c: Cred)
    requires Stay(a, b) && Came(a, c)
    ensures Came(b, c)
  {
    var i :| i in a && a[i].cred == c;
    assert i in b && b[i].cred == c;
  }

  lemma OriginsStay(a: map<int, Caller>, b: map<int, Caller>, flights: map<int, Flight>, log: Log)
    requires Stay(a, b) && FlightsCame(a, flights) && LogCame(a, log)
    ensures FlightsCame(b, flights) && LogCame(b, log)
  {
    forall c: Cred | Came(a, c) ensures Came(b, c) { CameStays(a, b, c); }
    hide Came, Stay;
  }

  lemma StepStays(s: State, step: Step)
    requires Enabled(s, step)
    ensures Stay(s.callers, Apply(s, step).callers)
  {
    hide AfterGet, AfterRejected, Hit, IsRejected, CredentialHash, SetTo, RejectTo;
  }

  lemma CallersOrigin(s: State, step: Step)
    requires Enabled(s, step) && Origins(s)
    requires step.Arrive? || step.CallerGet? || step.CallerRejected? || step.Cancel? || step.Wake?
    ensures Origins(Apply(s, step))
  {
    StepStays(s, step);
    OriginsStay(s.callers, Apply(s, step).callers, s.flights, s.log);
    hide Came, FlightsCame, LogCame, Stay, AfterGet, AfterRejected, Hit, IsRejected, CredentialHash;
  }

  lemma JoinOrigin(s: State, c: int, f: int)
    requires Enabled(s, Join(c, f)) && Origins(s)
    ensures Origins(Apply(s, Join(c, f)))
  {
    var step := Join(c, f);
    StepStays(s, step);
    OriginsStay(s.callers, Apply(s, step).callers, s.flights, s.log);
    assert Came(Apply(s, step).callers, s.callers[c].cred) by { assert Apply(s, step).callers[c].cred == s.callers[c].cred; }
    hide Came, LogCame, Stay, CredentialHash;
  }

  lemma FlightOrigin(s: State, step: Step)
    requires Enabled(s, step) && Origins(s)
    requires !(step.Arrive? || step.CallerGet? || step.CallerRejected? || step.Cancel? || step.Wake? || step.Join?)
    ensures Origins(Apply(s, step))
  {
    hide Came, AfterGet, AfterRejected, Hit, IsRejected, CredentialHash, SetTo, RejectTo;
  }

  lemma {:induction false} RunOrigins(s: State, run: seq<Step>, end: State)
    requires Leads(s, run, end) && Origins(s)
    ensures Origins(end)
    decreases |run|
  {
    if run != [] {
      var step := run[0];
      if step.Join? { JoinOrigin(s, step.c, step.f); }
      else if step.Arrive? || step.CallerGet? || step.CallerRejected? || step.Cancel? || step.Wake? { CallersOrigin(s, step); }
      else { FlightOrigin(s, step); }
      hide Origins, Apply, Enabled;
      RunOrigins(Apply(s, step), run[1..], end);
    }
  }

  /** Every caller arrived in the run. */
  lemma {:induction false} CallersArrived(s: State, run: seq<Step>, end: State, c: int) returns (i: int)
    requires Leads(s, run, end) && c in end.callers && c !in s.callers
    ensures 0 <= i < |run| && run[i] == Arrive(c, end.callers[c].cred)
    decreases |run|
  {
    var next := Apply(s, run[0]);
    OnlyArrivalsAdd(s, run[0], c);
    if c in next.callers {
      i := 0;
      KeptCred(next, run[1..], end, c);
    } else {
      var j := CallersArrived(next, run[1..], end, c);
      i := j + 1;
    }
    hide Apply, Enabled;
  }

  lemma OnlyArrivalsAdd(s: State, step: Step, c: int)
    requires Enabled(s, step) && c !in s.callers
    ensures c in Apply(s, step).callers ==> step == Arrive(c, Apply(s, step).callers[c].cred)
  {
    hide AfterGet, AfterRejected, Hit, IsRejected, CredentialHash, SetTo, RejectTo;
  }

  lemma {:induction false} KeptCred(s: State, run: seq<Step>, end: State, c: int)
    requires Leads(s, run, end) && c in s.callers
    ensures c in end.callers && end.callers[c].cred == s.callers[c].cred
    decreases |run|
  {
    if run != [] {
      StepStays(s, run[0]);
      hide Apply, Enabled;
      KeptCred(Apply(s, run[0]), run[1..], end, c);
    }
  }

  // --------------------------------------------------------------------- genuine results

  /** No credentials that arrive in the run, other than `c`, have its hash. */
  predicate Alone(run: seq<Step>, c: Cred) {
    forall i :: 0 <= i < |run| && run[i].Arrive? && run[i].cred.upn != "" && run[i].cred.pass != "" && HashOf(run[i].cred) == HashOf(c)
                ==> run[i].cred == c
  }

  lemma CameArrived(ttl: real, max: int, run: seq<Step>, end: State, c: Cred, d: Cred)
    requires Leads(Initial(ttl, max), run, end) && Alone(run, c) && Came(end.callers, d) && HashOf(d) == HashOf(c)
    ensures d == c
  {
    var j :| j in end.callers && end.callers[j].cred == d;
    var i := CallersArrived(Initial(ttl, max), run, end, j);
    hide Leads, CredentialHash;
    assert run[i].cred == d;
  }

  lemma AloneIsUnshared(ttl: real, max: int, run: seq<Step>, end: State, c: Cred)
    requires Leads(Initial(ttl, max), run, end) && Alone(run, c)
    ensures Unshared(end.log, c)
  {
    RunOrigins(Initial(ttl, max), run, end);
    forall d: Cred | Came(end.callers, d) && HashOf(d) == HashOf(c) ensures d == c { CameArrived(ttl, max, run, end, c, d); }
    hide Leads, Came, CredentialHash, FlightsCame, ActiveOk, Alone;
  }

  /** Every caller gets the groups, or the rejection, of exactly its own user name and password,
      straight from the backend or not longer ago than the lifetime, if no other credentials that
      arrive in the run have its hash. */
  lemma ResultsAreGenuine(ttl: real, max: int, run: seq<Step>, end: State, c: int)
    requires max >= 1 && Leads(Initial(ttl, max), run, end)
    requires c in end.callers && end.callers[c].pc.Returned? && Alone(run, end.callers[c].cred)
    ensures Genuine(end.log, ttl, end.callers[c].cred, end.callers[c].pc.result)
  {
    ReachableInv(ttl, max, run, end);
    LimitsStay(Initial(ttl, max), run, end);
    AloneIsUnshared(ttl, max, run, end, end.callers[c].cred);
    hide Leads, DataOk, RejectedOk, TableOk, FlightsOk, CallersOk, NoneLost, Sourced, Unshared, Alone;
    UnsharedIsGenuine(end.log, end.ttl, end.callers[c].cred, end.callers[c].pc.result);
  }

  /** So where no arriving user name holds a NUL, every result is genuine. */
  lemma PlainNamesAreGenuine(ttl: real, max: int, run: seq<Step>, end: State, c: int)
    requires max >= 1 && Leads(Initial(ttl, max), run, end)
    requires forall i :: 0 <= i < |run| && run[i].Arrive? ==> NUL !in run[i].cred.upn
    requires c in end.callers && end.callers[c].pc.Returned?
    ensures Genuine(end.log, ttl, end.callers[c].cred, end.callers[c].pc.result)
  {
    var mine := end.callers[c].cred;
    var k := CallersArrived(Initial(ttl, max), run, end, c);
    assert NUL !in mine.upn;
    forall i | 0 <= i < |run| && run[i].Arrive? && HashOf(run[i].cred) == HashOf(mine) ensures run[i].cred == mine {
      PlainNamesDoNotCollide(run[i].cred.upn, run[i].cred.pass, mine.upn, mine.pass);
    }
    assert Alone(run, mine);
    hide Alone, Leads, Genuine;
    ResultsAreGenuine(ttl, max, run, end, c);
  }

  // ------------------------------------------------------------------------- shared hashes

  lemma {:induction false} LeadsOn(s: State, a: seq<Step>, mid: State, b: seq<Step>, end: State)
    requires Leads(s, a, mid) && Leads(mid, b, end)
    ensures Leads(s, a + b, end)
    decreases |a|
  {
    if a == [] {
      assert a + b == b;
    } else {
      assert (a + b)[0] == a[0] && (a + b)[1..] == a[1..] + b;
      hide Apply, Enabled;
      LeadsOn(Apply(s, a[0]), a[1..], mid, b, end);
    }
  }

  lemma OneStep(s: State, step: Step)
    requires Enabled(s, step)
    ensures Leads(s, [step], Apply(s, step))
  {
    hide Apply, Enabled;
    assert [step][1..] == [];
  }

  lemma Then(s: State, run: seq<Step>, mid: State, step: Step)
    requires Leads(s, run, mid) && Enabled(mid, step)
    ensures Leads(s, run + [step], Apply(mid, step))
  {
    hide Leads, Apply, Enabled;
    OneStep(mid, step);
    LeadsOn(s, run, mid, [step], Apply(mid, step));
  }

  /** A caller on its way past an empty cache. */
  function Approached(s: State, i: int, c: Cred): (r: State) { s.(callers := s.callers[i := Caller(c, NotRejected)]) }

  lemma Approach(s: State, i: int, c: Cred) returns (run: seq<Step>)
    requires i !in s.callers && s.data == map[] && s.rejected == map[] && c.upn != "" && c.pass != ""
    ensures Leads(s, run, Approached(s, i, c))
  {
    var s1 := Apply(s, Arrive(i, c));
    OneStep(s, Arrive(i, c));
    assert Enabled(s1, CallerGet(i, 0.0));
    var s2 := Apply(s1, CallerGet(i, 0.0));
    Then(s, [Arrive(i, c)], s1, CallerGet(i, 0.0));
    assert s2 == s.(callers := s.callers[i := Caller(c, NotCached)]);
    Then(s, [Arrive(i, c)] + [CallerGet(i, 0.0)], s2, CallerRejected(i, 0.0));
    assert Apply(s2, CallerRejected(i, 0.0)) == Approached(s, i, c);
    run := [Arrive(i, c)] + [CallerGet(i, 0.0)] + [CallerRejected(i, 0.0)];
  }

  const SOME_GROUPS := {"g"}

  /** Two callers wait for the lookup of the first one's credentials. */
  function BothWait(d: Cred, c: Cred, pc: FlightPc, log: Log): (s: State) {
    Initial(1.0, 1).(callers := map[0 := Caller(d, Waiting(0)), 1 := Caller(c, Waiting(0))],
                     lookups := map[HashOf(d) := 0], flights := map[0 := Flight(d, pc)], log := log)
  }

  lemma BothJoin(d: Cred, c: Cred) returns (run: seq<Step>)
    requires HashOf(d) == HashOf(c) && d.upn != "" && d.pass != "" && c.upn != "" && c.pass != ""
    ensures Leads(Initial(1.0, 1), run, BothWait(d, c, Started, Log([], [], [], [])))
  {
    hide CredentialHash, Leads;
    var s0 := Initial(1.0, 1);
    var a := Approach(s0, 0, d);
    var s1 := Approached(s0, 0, d);
    var b := Approach(s1, 1, c);
    var s2 := Approached(s1, 1, c);
    LeadsOn(s0, a, s1, b, s2);
    Then(s0, a + b, s2, Join(0, 0));
    var s3 := Apply(s2, Join(0, 0));
    Then(s0, a + b + [Join(0, 0)], s3, Join(1, 0));
    assert Apply(s3, Join(1, 0)) == BothWait(d, c, Started, Log([], [], [], []));
    run := a + b + [Join(0, 0)] + [Join(1, 0)];
  }

  /** The flight misses the empty cache and is admitted. */
  lemma FlightMisses(d: Cred, c: Cred)
    ensures var none := Log([], [], [], []);
            && Enabled(BothWait(d, c, Started, none), FlightGet(0, 0.0))
            && Apply(BothWait(d, c, Started, none), FlightGet(0, 0.0)) == BothWait(d, c, Missed, none)
            && Enabled(BothWait(d, c, Missed, none), FlightRejected(0, 0.0))
            && Apply(BothWait(d, c, Missed, none), FlightRejected(0, 0.0)) == BothWait(d, c, Admitting, none)
  {
    hide CredentialHash;
  }

  lemma FlightFetches(d: Cred, c: Cred)
    ensures var none := Log([], [], [], []);
            && Enabled(BothWait(d, c, Admitting, none), Admit(0, true))
            && Apply(BothWait(d, c, Admitting, none), Admit(0, true)) == BothWait(d, c, Fetching, none)
            && Enabled(BothWait(d, c, Fetching, none), Answered(0, Granted(SOME_GROUPS)))
            && Apply(BothWait(d, c, Fetching, none), Answered(0, Granted(SOME_GROUPS))) == BothStore(d, c)
  {
    hide CredentialHash;
  }

  /** The backend has answered for the first credentials. */
  function BothStore(d: Cred, c: Cred): (s: State) {
    BothWait(d, c, Storing(SOME_GROUPS), Log([Fetch(d, SOME_GROUPS)], [], [], []))
  }

  lemma FlightAnswers(d: Cred, c: Cred) returns (run: seq<Step>)
    ensures Leads(BothWait(d, c, Started, Log([], [], [], [])), run, BothStore(d, c))
  {
    hide Leads, Apply, Enabled, BothWait, BothStore;
    var none := Log([], [], [], []);
    var s := BothWait(d, c, Started, none);
    FlightMisses(d, c);
    FlightFetches(d, c);
    OneStep(s, FlightGet(0, 0.0));
    Then(s, [FlightGet(0, 0.0)], BothWait(d, c, Missed, none), FlightRejected(0, 0.0));
    run := [FlightGet(0, 0.0)] + [FlightRejected(0, 0.0)];
    Then(s, run, BothWait(d, c, Admitting, none), Admit(0, true));
    run := run + [Admit(0, true)];
    Then(s, run, BothWait(d, c, Fetching, none), Answered(0, Granted(SOME_GROUPS)));
    run := run + [Answered(0, Granted(SOME_GROUPS))];
  }

  function Storage(d: Cred): (step: Step) {
    StoreGroups(0, 0.0, map[d.upn := Entry(SOME_GROUPS, HashOf(d), 0.0 + 1.0, 0.0)])
  }

  /** The groups are stored and the flight is about to finish. */
  lemma FlightStores(d: Cred, c: Cred) returns (s: State)
    ensures Enabled(BothStore(d, c), Storage(d)) && Apply(BothStore(d, c), Storage(d)) == s
    ensures s.callers == BothStore(d, c).callers && s.lookups == BothStore(d, c).lookups && s.log.fetches == [Fetch(d, SOME_GROUPS)]
    ensures s.flights == map[0 := Flight(d, Finishing(Groups(SOME_GROUPS, None)))]
  {
    hide CredentialHash, SetTo;
    FirstSet(d.upn, Entry(SOME_GROUPS, HashOf(d), 0.0 + 1.0, 0.0));
    s := Apply(BothStore(d, c), Storage(d));
  }

  lemma FlightEnds(d: Cred, c: Cred, s: State) returns (end: State)
    requires s.callers == BothStore(d, c).callers && s.lookups == BothStore(d, c).lookups && s.log.fetches == [Fetch(d, SOME_GROUPS)]
    requires s.flights == map[0 := Flight(d, Finishing(Groups(SOME_GROUPS, None)))]
    ensures Enabled(s, Finish(0)) && Enabled(Apply(s, Finish(0)), Wake(1)) && end == Apply(Apply(s, Finish(0)), Wake(1))
    ensures 1 in end.callers && end.callers[1] == Caller(c, Returned(Groups(SOME_GROUPS, None)))
    ensures end.log.fetches == [Fetch(d, SOME_GROUPS)]
  {
    hide CredentialHash;
    end := Apply(Apply(s, Finish(0)), Wake(1));
  }

  /** The second caller wakes up with the groups of the first. */
  lemma SecondWakes(d: Cred, c: Cred) returns (run: seq<Step>, end: State)
    ensures Leads(BothStore(d, c), run, end)
    ensures 1 in end.callers && end.callers[1] == Caller(c, Returned(Groups(SOME_GROUPS, None)))
    ensures end.log.fetches == [Fetch(d, SOME_GROUPS)]
  {
    hide Leads, Apply, Enabled, BothStore, Storage;
    var s := BothStore(d, c);
    var s1 := FlightStores(d, c);
    end := FlightEnds(d, c, s1);
    OneStep(s, Storage(d));
    Then(s, [Storage(d)], s1, Finish(0));
    Then(s, [Storage(d)] + [Finish(0)], Apply(s1, Finish(0)), Wake(1));
    run := [Storage(d)] + [Finish(0)] + [Wake(1)];
  }

  lemma FirstSet(upn: string, e: Entry)
    ensures SetTo(map[], map[upn := e], upn, e, 0.0, 1)
  {
    assert Fresh(map[], 0.0) == map[];
  }

  /** Some run gives caller `id`, who came with `c`, a result that is not the backend's for `c`. */
  ghost predicate MixUp(ttl: real, max: int, run: seq<Step>, end: State, id: int, c: Cred) {
    && max >= 1 && Leads(Initial(ttl, max), run, end)
    && id in end.callers && end.callers[id].cred == c && end.callers[id].pc.Returned?
    && !Genuine(end.log, ttl, c, end.callers[id].pc.result)
  }

  lemma SharedHashMixesUp(d: Cred, c: Cred) returns (run: seq<Step>, end: State)
    requires HashOf(d) == HashOf(c) && d != c && d.upn != "" && d.pass != "" && c.upn != "" && c.pass != ""
    ensures MixUp(1.0, 1, run, end, 1, c)
  {
    hide CredentialHash, Leads;
    var joined := BothJoin(d, c);
    var answered := FlightAnswers(d, c);
    var woken;
    woken, end := SecondWakes(d, c);
    LeadsOn(Initial(1.0, 1), joined, BothWait(d, c, Started, Log([], [], [], [])), answered, BothStore(d, c));
    LeadsOn(Initial(1.0, 1), joined + answered, BothStore(d, c), woken, end);
    run := joined + answered + woken;
    assert Fetch(c, SOME_GROUPS) !in end.log.fetches;
  }

  /** Other credentials that a caller can bring have the hash of `c`. */
  ghost predicate Shared(c: Cred) {
    c.upn != "" && c.pass != "" && exists d: Cred :: HashOf(d) == HashOf(c) && d != c && d.upn != "" && d.pass != ""
  }

  /** Some run gives some caller who came with `c` a result of other credentials, if and only if
      other credentials that a caller can bring have the hash of `c`. */
  lemma MixUpIffShared(c: Cred)
    ensures (exists ttl, max, run, end, id :: MixUp(ttl, max, run, end, id, c)) <==> Shared(c)
  {
    if Shared(c) {
      var d: Cred :| HashOf(d) == HashOf(c) && d != c && d.upn != "" && d.pass != "";
      var run, end := SharedHashMixesUp(d, c);
    }
    forall ttl, max, run, end, id | MixUp(ttl, max, run, end, id, c) ensures Shared(c) {
      if !Shared(c) { NoMixUp(ttl, max, run, end, id, c); }
    }
  }

  /** That is so exactly if the user name has a NUL behind its first character, or the password one
      before its last. */
  lemma SharedIffNul(c: Cred)
    ensures Shared(c) <==>
            && c.upn != "" && c.pass != ""
            && (|| (exists i :: 0 < i < |c.upn| && c.upn[i] == NUL)
                || (exists i :: 0 <= i < |c.pass| - 1 && c.pass[i] == NUL))
  {
    if c.upn != "" && c.pass != "" {
      forall i | 0 < i < |c.upn| && c.upn[i] == NUL ensures Shared(c) {
        var u, x := c.upn[..i], c.upn[i + 1..];
        ShiftCollides(u, x + [NUL] + c.pass, c.upn, c.pass, x);
        assert c.upn == u + [NUL] + x && Shifted(u, x + [NUL] + c.pass, c.upn, c.pass, x);
        assert HashOf(Cred(u, x + [NUL] + c.pass)) == HashOf(c) && |u| != |c.upn|;
      }
      forall i | 0 <= i < |c.pass| - 1 && c.pass[i] == NUL ensures Shared(c) {
        var x, q := c.pass[..i], c.pass[i + 1..];
        var v := c.upn + [NUL] + x;
        assert c.pass == x + [NUL] + q && Shifted(c.upn, c.pass, v, q, x);
        ShiftCollides(c.upn, c.pass, v, q, x);
        assert HashOf(Cred(v, q)) == HashOf(c) && |v| != |c.upn|;
      }
      if Shared(c) {
        var d: Cred :| HashOf(d) == HashOf(c) && d != c && d.upn != "" && d.pass != "";
        SharedHasNul(c, d);
      }
    }
  }

  lemma SharedHasNul(c: Cred, d: Cred)
    requires HashOf(d) == HashOf(c) && d != c && d.upn != "" && d.pass != ""
    ensures (exists i :: 0 < i < |c.upn| && c.upn[i] == NUL) || (exists i :: 0 <= i < |c.pass| - 1 && c.pass[i] == NUL)
  {
    if |d.upn| < |c.upn| {
      ShiftFound(d.upn, d.pass, c.upn, c.pass);
      assert c.upn[|d.upn|] == NUL;
    } else if |c.upn| < |d.upn| {
      ShiftFound(c.upn, c.pass, d.upn, d.pass);
      var x := d.upn[|c.upn| + 1..];
      assert c.pass == x + [NUL] + d.pass && c.pass[|x|] == NUL;
    } else {
      SameHash(c.upn, c.pass, d.upn, d.pass);
    }
  }

  lemma NoMixUp(ttl: real, max: int, run: seq<Step>, end: State, id: int, c: Cred)
    requires !Shared(c)
    ensures !MixUp(ttl, max, run, end, id, c)
  {
    if MixUp(ttl, max, run, end, id, c) {
      if c.upn != "" && c.pass != "" {
        assert Alone(run, c) by { hide Leads, CredentialHash, Genuine; }
        ResultsAreGenuine(ttl, max, run, end, id);
      } else {
        EmptyFails(ttl, max, run, end, id);
      }
    }
  }

  /** Empty credentials are refused at once. */
  lemma EmptyFails(ttl: real, max: int, run: seq<Step>, end: State, id: int)
    requires Leads(Initial(ttl, max), run, end)
    requires id in end.callers && end.callers[id].pc.Returned? && (end.callers[id].cred.upn == "" || end.callers[id].cred.pass == "")
    ensures end.callers[id].pc.result == Failed
  {
    EmptyStay(Initial(ttl, max), run, end);
    hide Leads;
  }

  ghost predicate EmptyFailed(callers: map<int, Caller>) {
    forall i :: i in callers && (callers[i].cred.upn == "" || callers[i].cred.pass == "") ==> callers[i].pc == Returned(Failed)
  }

  lemma {:induction false} EmptyStay(s: State, run: seq<Step>, end: State)
    requires Leads(s, run, end) && EmptyFailed(s.callers)
    ensures EmptyFailed(end.callers)
    decreases |run|
  {
    if run != [] {
      EmptyStep(s, run[0]);
      hide Apply, Enabled, EmptyFailed;
      EmptyStay(Apply(s, run[0]), run[1..], end);
    }
  }

  lemma EmptyStep(s: State, step: Step)
    requires Enabled(s, step) && EmptyFailed(s.callers)
    ensures EmptyFailed(Apply(s, step).callers)
  {
    hide AfterGet, AfterRejected, Hit, IsRejected, CredentialHash, SetTo, RejectTo;
  }

  /** With a NUL in a user name two pairs can share a hash: here one caller gets another's groups. */
  lemma NulNamesMixUp() returns (run: seq<Step>, end: State)
    ensures MixUp(1.0, 1, run, end, 1, Cred("a\0b", "c"))
  {
    var d, c := Cred("a", "b\0c"), Cred("a\0b", "c");
    assert "a" + [NUL] + "b\0c" == "a\0b" + [NUL] + "c";
    assert |d.upn| == 1 && |c.upn| == 3;
    run, end := SharedHashMixesUp(d, c);
  }
}
