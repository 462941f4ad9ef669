/** Credential lookups over the group cache: callers share one backend fetch per credential. One
    step is one critical section of the cache or of the lookup table, or one backend call. */
module GroupLookup {
  import opened Text
  import opened CredentialKeys
  import opened GroupCache

  datatype Cred = Cred(upn: string, pass: string)

  function HashOf(c: Cred): (h: string) { CredentialHash(c.upn, c.pass) }

  /** `asOf` is the time of a cache hit, or None for the answer of the backend itself. */
  datatype Result = Groups(groups: set<string>, asOf: Option<real>) | Rejection(asOf': Option<real>) | Failed | Canceled

  datatype FlightPc =
    | Started | Missed | Admitting | Fetching
    | Storing(groups: set<string>) | Denying
    | Finishing(result: Result) | Finished(result: Result)

  datatype Flight = Flight(cred: Cred, pc: FlightPc)

  datatype CallerPc = Arrived | NotCached | NotRejected | Waiting(flight: int) | Returned(result: Result)

  datatype Caller = Caller(cred: Cred, pc: CallerPc)

  /** What the backend answered, and when the cache stored it. Bookkeeping: no step reads these. */
  datatype Fetch = Fetch(cred: Cred, groups: set<string>)
  datatype Stored = Stored(cred: Cred, groups: set<string>, at: real)
  datatype Denial = Denial(cred: Cred)
  datatype StoredDenial = StoredDenial(cred: Cred, at: real)

  datatype Log = Log(fetches: seq<Fetch>, stored: seq<Stored>, denials: seq<Denial>, storedDenials: seq<StoredDenial>)

  datatype State = State(
    ttl: real, max: int,
    data: map<string, Entry>, rejected: map<string, real>,
    lookups: map<string, int>, flights: map<int, Flight>, callers: map<int, Caller>, log: Log)

  function Initial(ttl: real, max: int): (s: State) {
    State(ttl, max, map[], map[], map[], map[], map[], Log([], [], [], []))
  }

  // ------------------------------------------------------------------------------- steps

  datatype Answer = Granted(groups: set<string>) | Denied | Unavailable

  datatype Step =
    | Arrive(c: int, cred: Cred)
    | CallerGet(c: int, now: real)
    | CallerRejected(c: int, now: real)
    | Join(c: int, f: int)
    | Wake(c: int)
    | Cancel(c: int)
    | FlightGet(f: int, now: real)
    | FlightRejected(f: int, now: real)
    | Admit(f: int, ok: bool)
    | Answered(f: int, answer: Answer)
    | StoreGroups(f: int, now: real, after: map<string, Entry>)
    | StoreDenial(f: int, now: real, after': map<string, real>)
    | Finish(f: int)

  function MoveCaller(s: State, c: int, pc: CallerPc): (r: State)
    requires c in s.callers
  {
    s.(callers := s.callers[c := s.callers[c].(pc := pc)])
  }

  function MoveFlight(s: State, f: int, pc: FlightPc): (r: State)
    requires f in s.flights
  {
    s.(flights := s.flights[f := s.flights[f].(pc := pc)])
  }

  predicate CallerAt(s: State, c: int, pc: CallerPc) { c in s.callers && s.callers[c].pc == pc }
  predicate FlightAt(s: State, f: int, pc: FlightPc) { f in s.flights && s.flights[f].pc == pc }

  ghost predicate Enabled(s: State, step: Step) {
    match step
    case Arrive(c, _) => c !in s.callers
    case CallerGet(c, _) => CallerAt(s, c, Arrived)
    case CallerRejected(c, _) => CallerAt(s, c, NotCached)
    case Join(c, f) => CallerAt(s, c, NotRejected) && (HashOf(s.callers[c].cred) in s.lookups || f !in s.flights)
    case Wake(c) =>
      && c in s.callers && s.callers[c].pc.Waiting?
      && s.callers[c].pc.flight in s.flights && s.flights[s.callers[c].pc.flight].pc.Finished?
    case Cancel(c) => c in s.callers && (s.callers[c].pc.Arrived? || s.callers[c].pc.Waiting?)
    case FlightGet(f, _) => FlightAt(s, f, Started)
    case FlightRejected(f, _) => FlightAt(s, f, Missed)
    case Admit(f, _) => FlightAt(s, f, Admitting)
    case Answered(f, _) => FlightAt(s, f, Fetching)
    case StoreGroups(f, now, after) =>
      && f in s.flights && s.flights[f].pc.Storing?
      && var c := s.flights[f].cred;
         SetTo(s.data, after, c.upn, Entry(s.flights[f].pc.groups, HashOf(c), now + s.ttl, now), now, s.max)
    case StoreDenial(f, now, after) =>
      && FlightAt(s, f, Denying)
      && RejectTo(s.rejected, after, HashOf(s.flights[f].cred), now + s.ttl, now, s.max)
    case Finish(f) => f in s.flights && s.flights[f].pc.Finishing? && HashOf(s.flights[f].cred) in s.lookups
  }

  function Apply(s: State, step: Step): (r: State)
    requires Enabled(s, step)
  {
    match step
    case Arrive(c, cred) =>
      s.(callers := s.callers[c := Caller(cred, if cred.upn == "" || cred.pass == "" then Returned(Failed) else Arrived)])
    case CallerGet(c, now) =>
      var cred := s.callers[c].cred;
      MoveCaller(s, c, if Hit(s.data, cred.upn, cred.pass, now) then Returned(Groups(s.data[cred.upn].groups, Some(now))) else NotCached)
        .(data := AfterGet(s.data, cred.upn, cred.pass, now))
    case CallerRejected(c, now) =>
      var cred := s.callers[c].cred;
      MoveCaller(s, c, if IsRejected(s.rejected, HashOf(cred), now) then Returned(Rejection(Some(now))) else NotRejected)
        .(rejected := AfterRejected(s.rejected, HashOf(cred), now))
    case Join(c, f) =>
      var cred := s.callers[c].cred;
      if HashOf(cred) in s.lookups then MoveCaller(s, c, Waiting(s.lookups[HashOf(cred)]))
      else
        MoveCaller(s, c, Waiting(f))
          .(lookups := s.lookups[HashOf(cred) := f], flights := s.flights[f := Flight(cred, Started)])
    case Wake(c) => MoveCaller(s, c, Returned(s.flights[s.callers[c].pc.flight].pc.result))
    case Cancel(c) => MoveCaller(s, c, Returned(Canceled))
    case FlightGet(f, now) =>
      var cred := s.flights[f].cred;
      MoveFlight(s, f, if Hit(s.data, cred.upn, cred.pass, now) then Finishing(Groups(s.data[cred.upn].groups, Some(now))) else Missed)
        .(data := AfterGet(s.data, cred.upn, cred.pass, now))
    case FlightRejected(f, now) =>
      var cred := s.flights[f].cred;
      MoveFlight(s, f, if IsRejected(s.rejected, HashOf(cred), now) then Finishing(Rejection(Some(now))) else Admitting)
        .(rejected := AfterRejected(s.rejected, HashOf(cred), now))
    case Admit(f, ok) => MoveFlight(s, f, if ok then Fetching else Finishing(Failed))
    case Answered(f, answer) =>
      var cred := s.flights[f].cred;
      (match answer
       case Granted(groups) =>
         MoveFlight(s, f, Storing(groups)).(log := s.log.(fetches := s.log.fetches + [Fetch(cred, groups)]))
       case Denied => MoveFlight(s, f, Denying).(log := s.log.(denials := s.log.denials + [Denial(cred)]))
       case Unavailable => MoveFlight(s, f, Finishing(Failed)))
    case StoreGroups(f, now, after) =>
      var cred, groups := s.flights[f].cred, s.flights[f].pc.groups;
      MoveFlight(s, f, Finishing(Groups(groups, None)))
        .(data := after, rejected := s.rejected - {HashOf(cred)},
          log := s.log.(stored := s.log.stored + [Stored(cred, groups, now)]))
    case StoreDenial(f, now, after) =>
      MoveFlight(s, f, Finishing(Rejection(None)))
        .(rejected := after, log := s.log.(storedDenials := s.log.storedDenials + [StoredDenial(s.flights[f].cred, now)]))
    case Finish(f) =>
      MoveFlight(s, f, Finished(s.flights[f].pc.result)).(lookups := s.lookups - {HashOf(s.flights[f].cred)})
  }

  /** `run` leads from `s` to `end`. */
  ghost predicate Leads(s: State, run: seq<Step>, end: State)
    decreases |run|
  {
    if run == [] then s == end else Enabled(s, run[0]) && Leads(Apply(s, run[0]), run[1..], end)
  }

  // --------------------------------------------------------------------- the invariant

  predicate IsFetch(fetches: seq<Fetch>, h: string, groups: set<string>) {
    exists i :: 0 <= i < |fetches| && HashOf(fetches[i].cred) == h && fetches[i].groups == groups
  }

  predicate IsDenial(denials: seq<Denial>, h: string) {
    exists i :: 0 <= i < |denials| && HashOf(denials[i].cred) == h
  }

  /** A cache entry is what a Set stored for that user name and hash, with its expiry. */
  predicate Backed(stored: seq<Stored>, ttl: real, upn: string, e: Entry) {
    exists i :: 0 <= i < |stored| && stored[i].cred.upn == upn && HashOf(stored[i].cred) == e.hash
                && stored[i].groups == e.groups && stored[i].at + ttl == e.expires
  }

  predicate BackedDenial(stored: seq<StoredDenial>, ttl: real, h: string, until: real) {
    exists i :: 0 <= i < |stored| && HashOf(stored[i].cred) == h && stored[i].at + ttl == until
  }

  /** A hit at `now` is a Set for this very pair that has not expired. */
  predicate IsHit(stored: seq<Stored>, ttl: real, c: Cred, groups: set<string>, now: real) {
    exists i :: 0 <= i < |stored| && stored[i].cred == c && stored[i].groups == groups && now <= stored[i].at + ttl
  }

  predicate IsDeniedHit(stored: seq<StoredDenial>, ttl: real, h: string, now: real) {
    exists i :: 0 <= i < |stored| && HashOf(stored[i].cred) == h && now <= stored[i].at + ttl
  }

  /** Where a result may come from, for credentials with this hash. */
  ghost predicate Sourced(log: Log, ttl: real, h: string, r: Result) {
    match r
    case Groups(g, None) => IsFetch(log.fetches, h, g)
    case Groups(g, Some(now)) => exists c :: HashOf(c) == h && IsHit(log.stored, ttl, c, g, now)
    case Rejection(None) => IsDenial(log.denials, h)
    case Rejection(Some(now)) => IsDeniedHit(log.storedDenials, ttl, h, now)
    case Failed => true
    case Canceled => true
  }

  ghost predicate DataOk(data: map<string, Entry>, max: int, stored: seq<Stored>, ttl: real) {
    |data| <= max && forall u :: u in data ==> Backed(stored, ttl, u, data[u])
  }

  ghost predicate RejectedOk(rejected: map<string, real>, max: int, stored: seq<StoredDenial>, ttl: real) {
    |rejected| <= max && forall h :: h in rejected ==> BackedDenial(stored, ttl, h, rejected[h])
  }

  /** The table holds exactly the unfinished lookups, each under its own key. */
  ghost predicate TableOk(lookups: map<string, int>, flights: map<int, Flight>) {
    && (forall f :: f in flights && !flights[f].pc.Finished? ==>
          HashOf(flights[f].cred) in lookups && lookups[HashOf(flights[f].cred)] == f)
    && (forall h :: h in lookups ==>
          lookups[h] in flights && HashOf(flights[lookups[h]].cred) == h && !flights[lookups[h]].pc.Finished?)
  }

  ghost predicate FlightsOk(flights: map<int, Flight>, log: Log, ttl: real) {
    forall f :: f in flights ==> FlightOk(flights[f], log, ttl)
  }

  ghost predicate FlightOk(f: Flight, log: Log, ttl: real) {
    && (f.pc.Finishing? || f.pc.Finished? ==> Sourced(log, ttl, HashOf(f.cred), f.pc.result))
    && (f.pc.Storing? ==> IsFetch(log.fetches, HashOf(f.cred), f.pc.groups))
    && (f.pc.Denying? ==> IsDenial(log.denials, HashOf(f.cred)))
  }

  ghost predicate CallersOk(callers: map<int, Caller>, flights: map<int, Flight>) {
    forall c, f {:trigger callers[c], flights[f]} ::
      c in callers && callers[c].pc == Waiting(f) && f in flights ==> HashOf(flights[f].cred) == HashOf(callers[c].cred)
  }

  ghost predicate NoneLost(callers: map<int, Caller>, flights: map<int, Flight>) {
    forall c :: c in callers && callers[c].pc.Waiting? ==> callers[c].pc.flight in flights
  }

  ghost predicate ResultsOk(callers: map<int, Caller>, log: Log, ttl: real) {
    forall c :: c in callers && callers[c].pc.Returned? ==> Sourced(log, ttl, HashOf(callers[c].cred), callers[c].pc.result)
  }

  ghost predicate Inv(s: State) {
    && s.max >= 1
    && DataOk(s.data, s.max, s.log.stored, s.ttl) && RejectedOk(s.rejected, s.max, s.log.storedDenials, s.ttl)
    && TableOk(s.lookups, s.flights) && FlightsOk(s.flights, s.log, s.ttl)
    && CallersOk(s.callers, s.flights) && NoneLost(s.callers, s.flights) && ResultsOk(s.callers, s.log, s.ttl)
  }
}
