/** What every step of the credential lookups keeps, and what follows for every run. */
module GroupLookupProofs {
  import opened Text
  import opened CredentialKeys
  import opened GroupCache
  import opened GroupLookup
  import opened Sizes

  // ----------------------------------------------------------------------- a growing log

  predicate Grew(a: Log, b: Log) {
    a.fetches <= b.fetches && a.stored <= b.stored && a.denials <= b.denials && a.storedDenials <= b.storedDenials
  }

  lemma SourcedGrows(a: Log, b: Log, ttl: real, h: string, r: Result)
    requires Grew(a, b) && Sourced(a, ttl, h, r)
    ensures Sourced(b, ttl, h, r)
  {
    match r
    case Groups(g, None) =>
      var i :| 0 <= i < |a.fetches| && HashOf(a.fetches[i].cred) == h && a.fetches[i].groups == g;
      assert b.fetches[i] == a.fetches[i];
    case Groups(g, Some(now)) =>
      var c :| HashOf(c) == h && IsHit(a.stored, ttl, c, g, now);
      var i :| 0 <= i < |a.stored| && a.stored[i].cred == c && a.stored[i].groups == g && now <= a.stored[i].at + ttl;
      assert b.stored[i] == a.stored[i];
      assert IsHit(b.stored, ttl, c, g, now);
    case Rejection(None) =>
      var i :| 0 <= i < |a.denials| && HashOf(a.denials[i].cred) == h;
      assert b.denials[i] == a.denials[i];
    case Rejection(Some(now)) =>
      var i :| 0 <= i < |a.storedDenials| && HashOf(a.storedDenials[i].cred) == h && now <= a.storedDenials[i].at + ttl;
      assert b.storedDenials[i] == a.storedDenials[i];
    case Failed =>
    case Canceled =>
  }

  lemma ResultsGrow(callers: map<int, Caller>, a: Log, b: Log, ttl: real)
    requires Grew(a, b) && ResultsOk(callers, a, ttl)
    ensures ResultsOk(callers, b, ttl)
  {
    hide Sourced;
    forall c | c in callers && callers[c].pc.Returned? ensures Sourced(b, ttl, HashOf(callers[c].cred), callers[c].pc.result) {
      SourcedGrows(a, b, ttl, HashOf(callers[c].cred), callers[c].pc.result);
    }
  }

  lemma FetchGrows(a: seq<Fetch>, b: seq<Fetch>, h: string, g: set<string>)
    requires a <= b && IsFetch(a, h, g)
    ensures IsFetch(b, h, g)
  {
    var i :| 0 <= i < |a| && HashOf(a[i].cred) == h && a[i].groups == g;
    assert b[i] == a[i];
  }

  lemma DenialGrows(a: seq<Denial>, b: seq<Denial>, h: string)
    requires a <= b && IsDenial(a, h)
    ensures IsDenial(b, h)
  {
    var i :| 0 <= i < |a| && HashOf(a[i].cred) == h;
    assert b[i] == a[i];
  }

  lemma FlightsGrow(flights: map<int, Flight>, a: Log, b: Log, ttl: real)
    requires Grew(a, b) && FlightsOk(flights, a, ttl)
    ensures FlightsOk(flights, b, ttl)
  {
    hide Sourced, IsFetch, IsDenial;
    forall f | f in flights ensures FlightOk(flights[f], b, ttl) {
      var x := flights[f];
      assert FlightOk(x, a, ttl);
      if x.pc.Finishing? || x.pc.Finished? { SourcedGrows(a, b, ttl, HashOf(x.cred), x.pc.result); }
      if x.pc.Storing? { FetchGrows(a.fetches, b.fetches, HashOf(x.cred), x.pc.groups); }
      if x.pc.Denying? { DenialGrows(a.denials, b.denials, HashOf(x.cred)); }
    }
  }

  lemma BackedGrows(a: seq<Stored>, b: seq<Stored>, ttl: real, u: string, e: Entry)
    requires a <= b && Backed(a, ttl, u, e)
    ensures Backed(b, ttl, u, e)
  {
    var i :| 0 <= i < |a| && a[i].cred.upn == u && HashOf(a[i].cred) == e.hash && a[i].groups == e.groups && a[i].at + ttl == e.expires;
    assert b[i] == a[i];
  }

  lemma BackedDenialGrows(a: seq<StoredDenial>, b: seq<StoredDenial>, ttl: real, h: string, until: real)
    requires a <= b && BackedDenial(a, ttl, h, until)
    ensures BackedDenial(b, ttl, h, until)
  {
    var i :| 0 <= i < |a| && HashOf(a[i].cred) == h && a[i].at + ttl == until;
    assert b[i] == a[i];
  }

  // -------------------------------------------------------------------------- the cache

  /** A hit is an unexpired Set of the same pair: the entry is found by the user name, and with
      equal names equal hashes mean equal passwords. */
  lemma HitIsStored(data: map<string, Entry>, stored: seq<Stored>, ttl: real, c: Cred, now: real)
    requires Hit(data, c.upn, c.pass, now) && Backed(stored, ttl, c.upn, data[c.upn])
    ensures IsHit(stored, ttl, c, data[c.upn].groups, now)
  {
    var e := data[c.upn];
    var i :| 0 <= i < |stored| && stored[i].cred.upn == c.upn && HashOf(stored[i].cred) == e.hash
             && stored[i].groups == e.groups && stored[i].at + ttl == e.expires;
    SameHash(c.upn, c.pass, stored[i].cred.upn, stored[i].cred.pass);
    assert stored[i].cred == c;
  }

  lemma DeniedHitIsStored(rejected: map<string, real>, stored: seq<StoredDenial>, ttl: real, c: Cred, now: real)
    requires IsRejected(rejected, HashOf(c), now) && BackedDenial(stored, ttl, HashOf(c), rejected[HashOf(c)])
    ensures IsDeniedHit(stored, ttl, HashOf(c), now)
  {
    var h := HashOf(c);
    var i :| 0 <= i < |stored| && HashOf(stored[i].cred) == h && stored[i].at + ttl == rejected[h];
    assert now <= stored[i].at + ttl;
  }

  lemma GetKeeps(data: map<string, Entry>, max: int, stored: seq<Stored>, ttl: real, c: Cred, now: real)
    requires DataOk(data, max, stored, ttl)
    ensures DataOk(AfterGet(data, c.upn, c.pass, now), max, stored, ttl)
  {
    if c.upn in data {
      SizeUpdate(data, c.upn, data[c.upn].(lastSeen := now));
      SizeRemove(data, c.upn);
      var e := data[c.upn];
      assert Backed(stored, ttl, c.upn, e);
      SeenIsBacked(stored, ttl, c.upn, e, now);
    }
    hide Backed;
  }

  lemma SeenIsBacked(stored: seq<Stored>, ttl: real, u: string, e: Entry, now: real)
    requires Backed(stored, ttl, u, e)
    ensures Backed(stored, ttl, u, e.(lastSeen := now))
  {}

  lemma RejectedKeeps(rejected: map<string, real>, max: int, stored: seq<StoredDenial>, ttl: real, c: Cred, now: real)
    requires RejectedOk(rejected, max, stored, ttl)
    ensures RejectedOk(AfterRejected(rejected, HashOf(c), now), max, stored, ttl)
  {
    hide BackedDenial;
    if HashOf(c) in rejected { SizeRemove(rejected, HashOf(c)); }
  }

  lemma SetKeeps(data: map<string, Entry>, after: map<string, Entry>, max: int, stored: seq<Stored>, ttl: real,
                 c: Cred, groups: set<string>, now: real)
    requires DataOk(data, max, stored, ttl)
    requires SetTo(data, after, c.upn, Entry(groups, HashOf(c), now + ttl, now), now, max)
    ensures DataOk(after, max, stored + [Stored(c, groups, now)], ttl)
  {
    var more := stored + [Stored(c, groups, now)];
    assert more[|stored|] == Stored(c, groups, now);
    assert Backed(more, ttl, c.upn, after[c.upn]);
    hide Backed, Earlier;
    forall u | u in after ensures Backed(more, ttl, u, after[u]) {
      if u != c.upn { BackedGrows(stored, more, ttl, u, data[u]); }
    }
  }

  lemma DenyKeeps(rejected: map<string, real>, after: map<string, real>, max: int, stored: seq<StoredDenial>, ttl: real,
                  c: Cred, now: real)
    requires RejectedOk(rejected, max, stored, ttl)
    requires RejectTo(rejected, after, HashOf(c), now + ttl, now, max)
    ensures RejectedOk(after, max, stored + [StoredDenial(c, now)], ttl)
  {
    var more := stored + [StoredDenial(c, now)];
    assert more[|stored|] == StoredDenial(c, now);
    assert BackedDenial(more, ttl, HashOf(c), after[HashOf(c)]);
    hide BackedDenial;
    forall h | h in after ensures BackedDenial(more, ttl, h, after[h]) {
      if h != HashOf(c) { BackedDenialGrows(stored, more, ttl, h, rejected[h]); }
    }
  }

  lemma ForgetKeeps(rejected: map<string, real>, max: int, stored: seq<StoredDenial>, ttl: real, h: string)
    requires RejectedOk(rejected, max, stored, ttl)
    ensures RejectedOk(rejected - {h}, max, stored, ttl)
  {
    hide BackedDenial;
    if h in rejected { SizeRemove(rejected, h); } else { assert rejected - {h} == rejected; }
  }

  // ------------------------------------------------------------------- callers and flights

  /** A flight moves on without finishing. */
  lemma FlightMoves(lookups: map<string, int>, flights: map<int, Flight>, f: int, pc: FlightPc, log: Log, ttl: real)
    requires TableOk(lookups, flights) && FlightsOk(flights, log, ttl)
    requires f in flights && !flights[f].pc.Finished? && !pc.Finished? && FlightOk(flights[f].(pc := pc), log, ttl)
    ensures TableOk(lookups, flights[f := flights[f].(pc := pc)])
    ensures FlightsOk(flights[f := flights[f].(pc := pc)], log, ttl)
  {
    hide FlightOk, CredentialHash;
  }

  lemma CallersUnmoved(callers: map<int, Caller>, flights: map<int, Flight>, f: int, pc: FlightPc)
    requires CallersOk(callers, flights) && NoneLost(callers, flights) && f in flights
    ensures CallersOk(callers, flights[f := flights[f].(pc := pc)]) && NoneLost(callers, flights[f := flights[f].(pc := pc)])
  {
    var after := flights[f := flights[f].(pc := pc)];
    forall c, g | c in callers && callers[c].pc == Waiting(g) && g in after
      ensures HashOf(after[g].cred) == HashOf(callers[c].cred)
    {
      assert g in flights && callers[c].pc.flight in flights;
      assert flights[g].cred == after[g].cred;
    }
    hide CredentialHash;
  }

  /** A caller moves to a state that is not waiting. */
  lemma CallerMoves(callers: map<int, Caller>, flights: map<int, Flight>, log: Log, ttl: real, c: int, x: Caller)
    requires CallersOk(callers, flights) && NoneLost(callers, flights) && ResultsOk(callers, log, ttl)
    requires !x.pc.Waiting? && (x.pc.Returned? ==> Sourced(log, ttl, HashOf(x.cred), x.pc.result))
    ensures CallersOk(callers[c := x], flights) && NoneLost(callers[c := x], flights) && ResultsOk(callers[c := x], log, ttl)
  {
    hide Sourced, CredentialHash;
  }

  // --------------------------------------------------------------------------------- steps

  lemma CallerStep(s: State, step: Step)
    requires step.Arrive? || step.CallerGet? || step.CallerRejected? || step.Cancel? || step.Wake?
    requires Enabled(s, step)
    requires Inv(s)
    ensures Inv(Apply(s, step))
  {
    hide DataOk, RejectedOk, TableOk, FlightsOk, CallersOk, NoneLost, ResultsOk, AfterGet, AfterRejected, Hit, IsRejected;
    var c := step.c;
    match step
    case Arrive(_, cred) =>
      CallerMoves(s.callers, s.flights, s.log, s.ttl, c, Apply(s, step).callers[c]);
    case CallerGet(_, now) =>
      var cred := s.callers[c].cred;
      GetKeeps(s.data, s.max, s.log.stored, s.ttl, cred, now);
      if Hit(s.data, cred.upn, cred.pass, now) { HitSourced(s, cred, now); }
      CallerMoves(s.callers, s.flights, s.log, s.ttl, c, Apply(s, step).callers[c]);
    case CallerRejected(_, now) =>
      var cred := s.callers[c].cred;
      RejectedKeeps(s.rejected, s.max, s.log.storedDenials, s.ttl, cred, now);
      if IsRejected(s.rejected, HashOf(cred), now) { DeniedSourced(s, cred, now); }
      CallerMoves(s.callers, s.flights, s.log, s.ttl, c, Apply(s, step).callers[c]);
    case Cancel(_) =>
      CallerMoves(s.callers, s.flights, s.log, s.ttl, c, Apply(s, step).callers[c]);
    case Wake(_) =>
      WakeSourced(s, c);
      CallerMoves(s.callers, s.flights, s.log, s.ttl, c, Apply(s, step).callers[c]);
  }

  lemma HitSourced(s: State, c: Cred, now: real)
    requires Inv(s) && Hit(s.data, c.upn, c.pass, now)
    ensures Sourced(s.log, s.ttl, HashOf(c), Groups(s.data[c.upn].groups, Some(now)))
  {
    hide Backed, TableOk, FlightsOk, CallersOk, NoneLost, ResultsOk, RejectedOk;
    HitIsStored(s.data, s.log.stored, s.ttl, c, now);
  }

  lemma DeniedSourced(s: State, c: Cred, now: real)
    requires Inv(s) && IsRejected(s.rejected, HashOf(c), now)
    ensures Sourced(s.log, s.ttl, HashOf(c), Rejection(Some(now)))
  {
    hide BackedDenial, TableOk, FlightsOk, CallersOk, NoneLost, ResultsOk, DataOk;
    DeniedHitIsStored(s.rejected, s.log.storedDenials, s.ttl, c, now);
  }

  lemma WakeSourced(s: State, c: int)
    requires Inv(s) && Enabled(s, Wake(c))
    ensures Sourced(s.log, s.ttl, HashOf(s.callers[c].cred), s.flights[s.callers[c].pc.flight].pc.result)
  {
    hide DataOk, RejectedOk, TableOk, NoneLost, ResultsOk, Sourced, CredentialHash;
    var f := s.callers[c].pc.flight;
    assert FlightOk(s.flights[f], s.log, s.ttl);
    assert s.callers[c].pc == Waiting(f);
  }

  lemma JoinStep(s: State, c: int, f: int)
    requires Enabled(s, Join(c, f))
    requires Inv(s)
    ensures Inv(Apply(s, Join(c, f)))
  {
    hide DataOk, RejectedOk, CredentialHash, FlightOk, Sourced;
    var cred := s.callers[c].cred;
    if HashOf(cred) in s.lookups {
      JoinWaits(s.callers, s.flights, c, s.lookups[HashOf(cred)]);
    } else {
      JoinOpens(s.lookups, s.flights, f, cred);
      FreshFlight(s.callers, s.flights, f, Flight(cred, Started));
      JoinWaits(s.callers, s.flights[f := Flight(cred, Started)], c, f);
      assert FlightOk(Flight(cred, Started), s.log, s.ttl) by { NewFlightOk(cred, s.log, s.ttl); }
    }
    JoinResults(s.callers, s.log, s.ttl, c, Apply(s, Join(c, f)).callers[c].pc);
  }

  lemma NewFlightOk(cred: Cred, log: Log, ttl: real)
    ensures FlightOk(Flight(cred, Started), log, ttl)
  {}

  lemma JoinWaits(callers: map<int, Caller>, flights: map<int, Flight>, c: int, f: int)
    requires CallersOk(callers, flights) && NoneLost(callers, flights)
    requires c in callers && f in flights && HashOf(flights[f].cred) == HashOf(callers[c].cred)
    ensures var after := callers[c := callers[c].(pc := Waiting(f))]; CallersOk(after, flights) && NoneLost(after, flights)
  {
    hide CredentialHash;
  }

  lemma JoinResults(callers: map<int, Caller>, log: Log, ttl: real, c: int, pc: CallerPc)
    requires ResultsOk(callers, log, ttl) && c in callers && pc.Waiting?
    ensures ResultsOk(callers[c := callers[c].(pc := pc)], log, ttl)
  {
    hide Sourced;
  }

  lemma JoinOpens(lookups: map<string, int>, flights: map<int, Flight>, f: int, cred: Cred)
    requires TableOk(lookups, flights) && HashOf(cred) !in lookups && f !in flights
    ensures TableOk(lookups[HashOf(cred) := f], flights[f := Flight(cred, Started)])
  {
    hide CredentialHash;
  }

  /** A new flight has no one waiting for it yet. */
  lemma FreshFlight(callers: map<int, Caller>, flights: map<int, Flight>, f: int, x: Flight)
    requires CallersOk(callers, flights) && NoneLost(callers, flights) && f !in flights
    ensures CallersOk(callers, flights[f := x]) && NoneLost(callers, flights[f := x])
  {
    hide CredentialHash;
    var after := flights[f := x];
    forall c, g | c in callers && callers[c].pc == Waiting(g) && g in after
      ensures HashOf(after[g].cred) == HashOf(callers[c].cred)
    {
      assert callers[c].pc.flight in flights;
      assert after[g] == flights[g];
    }
  }

  /** The steps of a flight that leave the log alone. */
  lemma QuietFlightStep(s: State, step: Step)
    requires step.FlightGet? || step.FlightRejected? || step.Admit?
    requires Enabled(s, step)
    requires Inv(s)
    ensures Inv(Apply(s, step))
  {
    hide DataOk, RejectedOk, TableOk, FlightsOk, CallersOk, NoneLost, ResultsOk, AfterGet, AfterRejected, Hit, IsRejected, Sourced;
    var f := step.f;
    var cred := s.flights[f].cred;
    match step
    case FlightGet(_, now) =>
      GetKeeps(s.data, s.max, s.log.stored, s.ttl, cred, now);
      if Hit(s.data, cred.upn, cred.pass, now) { HitSourced(s, cred, now); }
      MoveBoth(s, f, Apply(s, step).flights[f].pc);
    case FlightRejected(_, now) =>
      RejectedKeeps(s.rejected, s.max, s.log.storedDenials, s.ttl, cred, now);
      if IsRejected(s.rejected, HashOf(cred), now) { DeniedSourced(s, cred, now); }
      MoveBoth(s, f, Apply(s, step).flights[f].pc);
    case Admit(_, ok) =>
      FailedIsSourced(s.log, s.ttl, HashOf(cred));
      MoveBoth(s, f, Apply(s, step).flights[f].pc);
  }

  lemma FailedIsSourced(log: Log, ttl: real, h: string)
    ensures Sourced(log, ttl, h, Failed)
  {}

  lemma MoveBoth(s: State, f: int, pc: FlightPc)
    requires Inv(s) && f in s.flights && !s.flights[f].pc.Finished? && !pc.Finished?
    requires FlightOk(s.flights[f].(pc := pc), s.log, s.ttl)
    ensures var after := s.flights[f := s.flights[f].(pc := pc)];
            && TableOk(s.lookups, after) && FlightsOk(after, s.log, s.ttl)
            && CallersOk(s.callers, after) && NoneLost(s.callers, after)
  {
    hide DataOk, RejectedOk, TableOk, FlightsOk, CallersOk, NoneLost, ResultsOk, FlightOk;
    FlightMoves(s.lookups, s.flights, f, pc, s.log, s.ttl);
    CallersUnmoved(s.callers, s.flights, f, pc);
  }

  /** The log grows and nothing else changes. */
  lemma LogGrows(s: State, log: Log)
    requires Inv(s) && Grew(s.log, log) && log.stored == s.log.stored && log.storedDenials == s.log.storedDenials
    ensures Inv(s.(log := log))
  {
    hide DataOk, RejectedOk, TableOk, FlightsOk, CallersOk, NoneLost, ResultsOk;
    FlightsGrow(s.flights, s.log, log, s.ttl);
    ResultsGrow(s.callers, s.log, log, s.ttl);
  }

  lemma AnsweredStep(s: State, f: int, answer: Answer)
    requires Enabled(s, Answered(f, answer))
    requires Inv(s)
    ensures Inv(Apply(s, Answered(f, answer)))
  {
    hide Inv, FlightOk, IsFetch, IsDenial;
    var s' := Apply(s, Answered(f, answer));
    var mid := s.(log := s'.log);
    LogGrows(s, s'.log);
    AnswerIsLogged(s, f, answer);
    FlightInv(mid, f, s'.flights[f].pc);
  }

  lemma AnswerIsLogged(s: State, f: int, answer: Answer)
    requires Enabled(s, Answered(f, answer))
    ensures var s' := Apply(s, Answered(f, answer)); FlightOk(s'.flights[f], s'.log, s.ttl)
  {
    var cred := s.flights[f].cred;
    match answer
    case Granted(groups) =>
      assert (s.log.fetches + [Fetch(cred, groups)])[|s.log.fetches|] == Fetch(cred, groups);
    case Denied =>
      assert (s.log.denials + [Denial(cred)])[|s.log.denials|] == Denial(cred);
    case Unavailable =>
  }

  lemma FlightInv(s: State, f: int, pc: FlightPc)
    requires f in s.flights && !s.flights[f].pc.Finished? && !pc.Finished?
    requires FlightOk(s.flights[f].(pc := pc), s.log, s.ttl)
    requires Inv(s)
    ensures Inv(MoveFlight(s, f, pc))
  {
    hide DataOk, RejectedOk, TableOk, FlightsOk, CallersOk, NoneLost, ResultsOk, FlightOk;
    MoveBoth(s, f, pc);
  }

  lemma StoreStep(s: State, f: int, now: real, after: map<string, Entry>)
    requires Enabled(s, StoreGroups(f, now, after))
    requires Inv(s)
    ensures Inv(Apply(s, StoreGroups(f, now, after)))
  {
    hide DataOk, RejectedOk, TableOk, CallersOk, NoneLost, ResultsOk, SetTo, IsFetch, CredentialHash, FlightsOk;
    var s' := Apply(s, StoreGroups(f, now, after));
    var x := s.flights[f];
    SetKeeps(s.data, after, s.max, s.log.stored, s.ttl, x.cred, x.pc.groups, now);
    ForgetKeeps(s.rejected, s.max, s.log.storedDenials, s.ttl, HashOf(x.cred));
    FlightsGrow(s.flights, s.log, s'.log, s.ttl);
    ResultsGrow(s.callers, s.log, s'.log, s.ttl);
    FlightIsOk(s, f);
    FlightMoves(s.lookups, s.flights, f, s'.flights[f].pc, s'.log, s.ttl);
    CallersUnmoved(s.callers, s.flights, f, s'.flights[f].pc);
  }

  lemma FlightIsOk(s: State, f: int)
    requires f in s.flights && FlightsOk(s.flights, s.log, s.ttl)
    ensures FlightOk(s.flights[f], s.log, s.ttl)
  {}

  lemma StoreDenialStep(s: State, f: int, now: real, after: map<string, real>)
    requires Enabled(s, StoreDenial(f, now, after))
    requires Inv(s)
    ensures Inv(Apply(s, StoreDenial(f, now, after)))
  {
    hide DataOk, RejectedOk, TableOk, CallersOk, NoneLost, ResultsOk, RejectTo, IsDenial, CredentialHash, FlightsOk;
    var s' := Apply(s, StoreDenial(f, now, after));
    DenyKeeps(s.rejected, after, s.max, s.log.storedDenials, s.ttl, s.flights[f].cred, now);
    FlightsGrow(s.flights, s.log, s'.log, s.ttl);
    ResultsGrow(s.callers, s.log, s'.log, s.ttl);
    FlightIsOk(s, f);
    FlightMoves(s.lookups, s.flights, f, s'.flights[f].pc, s'.log, s.ttl);
    CallersUnmoved(s.callers, s.flights, f, s'.flights[f].pc);
  }

  lemma FinishStep(s: State, f: int)
    requires Enabled(s, Finish(f))
    requires Inv(s)
    ensures Inv(Apply(s, Finish(f)))
  {
    hide DataOk, RejectedOk, TableOk, CallersOk, NoneLost, ResultsOk, Sourced, FlightsOk, CredentialHash;
    var pc := Finished(s.flights[f].pc.result);
    FlightIsOk(s, f);
    FlightFinishes(s.lookups, s.flights, f, s.log, s.ttl);
    CallersUnmoved(s.callers, s.flights, f, pc);
  }

  lemma FlightFinishes(lookups: map<string, int>, flights: map<int, Flight>, f: int, log: Log, ttl: real)
    requires TableOk(lookups, flights) && FlightsOk(flights, log, ttl)
    requires f in flights && flights[f].pc.Finishing? && FlightOk(flights[f], log, ttl)
    ensures var after := flights[f := flights[f].(pc := Finished(flights[f].pc.result))];
            TableOk(lookups - {HashOf(flights[f].cred)}, after) && FlightsOk(after, log, ttl)
  {
    hide Sourced, CredentialHash;
  }

  lemma StepKeeps(s: State, step: Step)
    requires Enabled(s, step)
    requires Inv(s)
    ensures Inv(Apply(s, step))
  {
    hide Inv, Apply, Enabled;
    match step
    case Arrive(_, _) => CallerStep(s, step);
    case CallerGet(_, _) => CallerStep(s, step);
    case CallerRejected(_, _) => CallerStep(s, step);
    case Join(c, f) => JoinStep(s, c, f);
    case Wake(_) => CallerStep(s, step);
    case Cancel(_) => CallerStep(s, step);
    case FlightGet(_, _) => QuietFlightStep(s, step);
    case FlightRejected(_, _) => QuietFlightStep(s, step);
    case Admit(_, _) => QuietFlightStep(s, step);
    case Answered(f, answer) => AnsweredStep(s, f, answer);
    case StoreGroups(f, now, after) => StoreStep(s, f, now, after);
    case StoreDenial(f, now, after) => StoreDenialStep(s, f, now, after);
    case Finish(f) => FinishStep(s, f);
  }

  lemma {:induction false} RunKeeps(s: State, run: seq<Step>, end: State)
    requires Leads(s, run, end) && Inv(s)
    ensures Inv(end)
    decreases |run|
  {
    hide Inv, Apply, Enabled;
    if run != [] {
      StepKeeps(s, run[0]);
      RunKeeps(Apply(s, run[0]), run[1..], end);
    }
  }
}
