/** How long an answer of the backend is remembered: until it expires, nobody asks again. */
module GroupLookupMemory {
  import opened Text
  import opened CredentialKeys
  import opened GroupCache
  import opened GroupLookup
  import opened GroupLookupTheorems

  // ------------------------------------------------------------------------------- denials

  predicate Ended(pc: FlightPc) { pc.Finishing? || pc.Finished? }

  /** A lookup that has not got past the look at the rejections. */
  predicate Outside(pc: FlightPc) { pc.Started? || pc.Missed? || Ended(pc) }

  /** The hash is rejected until then, and no lookup of it is under way to the backend. */
  ghost predicate Barred(s: State, h: string, until: real) {
    && h in s.rejected && s.rejected[h] == until
    && forall f :: f in s.flights && HashOf(s.flights[f].cred) == h ==> Outside(s.flights[f].pc)
  }

  /** The step happens before the record expires, sets no groups for the hash and evicts no rejection of it. */
  ghost predicate LeavesDenial(s: State, step: Step, h: string, until: real)
    requires Enabled(s, step)
  {
    match step
    case CallerRejected(_, now) => now <= until
    case FlightRejected(_, now) => now <= until
    case StoreGroups(f, _, _) => HashOf(s.flights[f].cred) != h
    case StoreDenial(_, now, after) => now <= until && h in after
    case _ => true
  }

  ghost predicate AllLeaveDenial(s: State, run: seq<Step>, h: string, until: real)
    decreases |run|
  {
    run == [] || (Enabled(s, run[0]) && LeavesDenial(s, run[0], h, until) && AllLeaveDenial(Apply(s, run[0]), run[1..], h, until))
  }

  /** Storing a denial bars its hash for the lifetime. */
  lemma DenialBars(s: State, f: int, now: real, after: map<string, real>)
    requires Inv(s) && Enabled(s, StoreDenial(f, now, after))
    ensures Barred(Apply(s, StoreDenial(f, now, after)), HashOf(s.flights[f].cred), now + s.ttl)
  {
    hide CredentialHash, EarliestRejectionsGone, FreshRejections, DataOk, RejectedOk, FlightsOk, CallersOk, NoneLost, ResultsOk;
    var h := HashOf(s.flights[f].cred);
    forall g | g in s.flights && g != f && HashOf(s.flights[g].cred) == h ensures s.flights[g].pc.Finished? {
      assert !s.flights[f].pc.Finished? && s.lookups[h] == f;
    }
  }

  lemma CallerStepBars(s: State, step: Step, h: string, until: real)
    requires Barred(s, h, until) && Enabled(s, step) && LeavesDenial(s, step, h, until)
    requires step.Arrive? || step.CallerGet? || step.CallerRejected? || step.Join? || step.Wake? || step.Cancel?
    ensures Barred(Apply(s, step), h, until)
  {
    hide AfterGet, Hit, CredentialHash;
  }

  lemma FlightStepBars(s: State, step: Step, h: string, until: real)
    requires Barred(s, h, until) && Enabled(s, step) && LeavesDenial(s, step, h, until)
    requires step.FlightGet? || step.FlightRejected? || step.Admit? || step.Answered? || step.StoreGroups? || step.Finish?
    ensures Barred(Apply(s, step), h, until)
  {
    hide AfterGet, Hit, CredentialHash, SetTo;
    assert HashOf(s.flights[step.f].cred) == h ==> Outside(s.flights[step.f].pc);
  }

  lemma StoreStepBars(s: State, f: int, now: real, after: map<string, real>, h: string, until: real)
    requires Barred(s, h, until) && Enabled(s, StoreDenial(f, now, after)) && LeavesDenial(s, StoreDenial(f, now, after), h, until)
    ensures Barred(Apply(s, StoreDenial(f, now, after)), h, until)
  {
    hide CredentialHash;
    assert HashOf(s.flights[f].cred) != h;
    assert after[h] == s.rejected[h];
  }

  lemma {:induction false} StaysBarred(s: State, run: seq<Step>, end: State, h: string, until: real)
    requires Barred(s, h, until) && Leads(s, run, end) && AllLeaveDenial(s, run, h, until)
    ensures Barred(end, h, until)
    decreases |run|
  {
    if run != [] {
      hide Barred, LeavesDenial, Apply, Enabled;
      var step := run[0];
      if step.StoreDenial? { StoreStepBars(s, step.f, step.now, step.after', h, until); }
      else if step.Arrive? || step.CallerGet? || step.CallerRejected? || step.Join? || step.Wake? || step.Cancel? {
        CallerStepBars(s, step, h, until);
      } else { FlightStepBars(s, step, h, until); }
      StaysBarred(Apply(s, step), run[1..], end, h, until);
    }
  }

  /** No lookup of the hash is at the backend, and whoever looks until then is rejected. */
  ghost predicate Rejects(s: State, h: string, until: real) {
    && (forall f :: f in s.flights && HashOf(s.flights[f].cred) == h ==> !s.flights[f].pc.Fetching?)
    && (forall c, now :: Enabled(s, CallerRejected(c, now)) && HashOf(s.callers[c].cred) == h && now <= until ==>
          Apply(s, CallerRejected(c, now)).callers[c].pc == Returned(Rejection(Some(now))))
    && (forall f, now :: Enabled(s, FlightRejected(f, now)) && HashOf(s.flights[f].cred) == h && now <= until ==>
          Apply(s, FlightRejected(f, now)).flights[f].pc == Finishing(Rejection(Some(now))))
  }

  lemma BarredRejects(s: State, h: string, until: real)
    requires Barred(s, h, until)
    ensures Rejects(s, h, until)
  {
    hide CredentialHash, AfterRejected;
  }

  /** From the time a denial is stored until it expires, as long as no groups are set for the
      credentials and the record is not evicted: no lookup of them reaches the backend, and every
      caller and every lookup with them that looks is rejected. */
  lemma DenialIsRemembered(ttl: real, max: int, before: seq<Step>, mid: State, f: int, at: real, after: map<string, real>,
                           run: seq<Step>, end: State)
    requires max >= 1 && Leads(Initial(ttl, max), before, mid) && Enabled(mid, StoreDenial(f, at, after))
    requires Leads(Apply(mid, StoreDenial(f, at, after)), run, end)
    requires AllLeaveDenial(Apply(mid, StoreDenial(f, at, after)), run, HashOf(mid.flights[f].cred), at + ttl)
    ensures Rejects(end, HashOf(mid.flights[f].cred), at + ttl)
  {
    hide CredentialHash, AllLeaveDenial, RejectTo, LeavesDenial, Leads, Barred, Rejects;
    ReachableInv(ttl, max, before, mid);
    LimitsStay(Initial(ttl, max), before, mid);
    hide Inv;
    DenialBars(mid, f, at, after);
    StaysBarred(Apply(mid, StoreDenial(f, at, after)), run, end, HashOf(mid.flights[f].cred), at + ttl);
    BarredRejects(end, HashOf(mid.flights[f].cred), at + ttl);
  }

  // --------------------------------------------------------------------------------- groups

  /** The groups of the credentials are cached until then, and no lookup of them is past the cache. */
  ghost predicate Kept(s: State, c: Cred, groups: set<string>, until: real) {
    && c.upn in s.data && s.data[c.upn].hash == HashOf(c) && s.data[c.upn].groups == groups && s.data[c.upn].expires == until
    && forall f :: f in s.flights && s.flights[f].cred == c ==> s.flights[f].pc.Started? || Ended(s.flights[f].pc)
  }

  /** The step happens before the entry expires, and stores nothing that takes the entry's place. */
  ghost predicate LeavesGroups(s: State, step: Step, c: Cred, until: real) {
    match step
    case CallerGet(_, now) => now <= until
    case FlightGet(_, now) => now <= until
    case StoreGroups(_, now, after) => now <= until && c.upn in after && after[c.upn].hash == HashOf(c)
    case _ => true
  }

  ghost predicate AllLeaveGroups(s: State, run: seq<Step>, c: Cred, until: real)
    decreases |run|
  {
    run == [] || (Enabled(s, run[0]) && LeavesGroups(s, run[0], c, until) && AllLeaveGroups(Apply(s, run[0]), run[1..], c, until))
  }

  lemma GroupsAreKept(s: State, f: int, now: real, after: map<string, Entry>)
    requires Inv(s) && Enabled(s, StoreGroups(f, now, after))
    ensures Kept(Apply(s, StoreGroups(f, now, after)), s.flights[f].cred, s.flights[f].pc.groups, now + s.ttl)
  {
    hide CredentialHash, EarliestGone, Fresh, DataOk, RejectedOk, FlightsOk, CallersOk, NoneLost, ResultsOk;
    var c := s.flights[f].cred;
    forall g | g in s.flights && g != f && s.flights[g].cred == c ensures s.flights[g].pc.Finished? {
      assert !s.flights[f].pc.Finished? && s.lookups[HashOf(c)] == f;
    }
  }

  lemma CallerStepKeeps(s: State, step: Step, c: Cred, groups: set<string>, until: real)
    requires Kept(s, c, groups, until) && Enabled(s, step) && LeavesGroups(s, step, c, until)
    requires step.Arrive? || step.CallerGet? || step.CallerRejected? || step.Join? || step.Wake? || step.Cancel?
    ensures Kept(Apply(s, step), c, groups, until)
  {
    hide AfterRejected, IsRejected, CredentialHash;
  }

  lemma FlightStepKeeps(s: State, step: Step, c: Cred, groups: set<string>, until: real)
    requires Kept(s, c, groups, until) && Enabled(s, step) && LeavesGroups(s, step, c, until)
    requires step.FlightGet? || step.FlightRejected? || step.Admit? || step.Answered? || step.StoreDenial? || step.Finish?
    ensures Kept(Apply(s, step), c, groups, until)
  {
    hide AfterRejected, IsRejected, CredentialHash, RejectTo;
    assert s.flights[step.f].cred == c ==> s.flights[step.f].pc.Started? || Ended(s.flights[step.f].pc);
  }

  lemma StoreStepKeeps(s: State, f: int, now: real, after: map<string, Entry>, c: Cred, groups: set<string>, until: real)
    requires Kept(s, c, groups, until) && Enabled(s, StoreGroups(f, now, after)) && LeavesGroups(s, StoreGroups(f, now, after), c, until)
    ensures Kept(Apply(s, StoreGroups(f, now, after)), c, groups, until)
  {
    var d := s.flights[f].cred;
    assert d.upn != c.upn by {
      if d.upn == c.upn && HashOf(d) == HashOf(c) { SameHash(d.upn, d.pass, c.upn, c.pass); }
    }
    hide CredentialHash, Earlier;
    assert after[c.upn] == s.data[c.upn];
  }

  lemma {:induction false} StaysKept(s: State, run: seq<Step>, end: State, c: Cred, groups: set<string>, until: real)
    requires Kept(s, c, groups, until) && Leads(s, run, end) && AllLeaveGroups(s, run, c, until)
    ensures Kept(end, c, groups, until)
    decreases |run|
  {
    if run != [] {
      hide Kept, LeavesGroups, Apply, Enabled;
      var step := run[0];
      if step.StoreGroups? { StoreStepKeeps(s, step.f, step.now, step.after, c, groups, until); }
      else if step.Arrive? || step.CallerGet? || step.CallerRejected? || step.Join? || step.Wake? || step.Cancel? {
        CallerStepKeeps(s, step, c, groups, until);
      } else { FlightStepKeeps(s, step, c, groups, until); }
      StaysKept(Apply(s, step), run[1..], end, c, groups, until);
    }
  }

  /** No lookup of the credentials is at the backend, and whoever looks until then gets the groups. */
  ghost predicate Serves(s: State, c: Cred, groups: set<string>, until: real) {
    && (forall f :: f in s.flights && s.flights[f].cred == c ==> !s.flights[f].pc.Fetching?)
    && (forall i, now :: Enabled(s, CallerGet(i, now)) && s.callers[i].cred == c && now <= until ==>
          Apply(s, CallerGet(i, now)).callers[i].pc == Returned(Groups(groups, Some(now))))
    && (forall f, now :: Enabled(s, FlightGet(f, now)) && s.flights[f].cred == c && now <= until ==>
          Apply(s, FlightGet(f, now)).flights[f].pc == Finishing(Groups(groups, Some(now))))
  }

  lemma KeptServes(s: State, c: Cred, groups: set<string>, until: real)
    requires Kept(s, c, groups, until)
    ensures Serves(s, c, groups, until)
  {
    hide CredentialHash, AfterGet;
  }

  /** From the time groups are set until they expire, as long as the entry is neither replaced nor
      evicted: no lookup of the credentials reaches the backend, and every caller and every lookup
      with them that looks gets these groups. */
  lemma GroupsAreRemembered(ttl: real, max: int, before: seq<Step>, mid: State, f: int, at: real, after: map<string, Entry>,
                            run: seq<Step>, end: State)
    requires max >= 1 && Leads(Initial(ttl, max), before, mid) && Enabled(mid, StoreGroups(f, at, after))
    requires Leads(Apply(mid, StoreGroups(f, at, after)), run, end)
    requires AllLeaveGroups(Apply(mid, StoreGroups(f, at, after)), run, mid.flights[f].cred, at + ttl)
    ensures Serves(end, mid.flights[f].cred, mid.flights[f].pc.groups, at + ttl)
  {
    hide CredentialHash, AllLeaveGroups, SetTo, LeavesGroups, Leads, Kept, Serves;
    ReachableInv(ttl, max, before, mid);
    LimitsStay(Initial(ttl, max), before, mid);
    hide Inv;
    GroupsAreKept(mid, f, at, after);
    StaysKept(Apply(mid, StoreGroups(f, at, after)), run, end, mid.flights[f].cred, mid.flights[f].pc.groups, at + ttl);
    KeptServes(end, mid.flights[f].cred, mid.flights[f].pc.groups, at + ttl);
  }
}
