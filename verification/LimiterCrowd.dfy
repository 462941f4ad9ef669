/** One principal more than the limiter keeps is enough to lift a principal over its own burst. */
module LimiterCrowd {
  import opened Text
  import opened Sizes
  import opened LimiterSpec
  import opened LimiterInv
  import opened LimiterRuns
  import opened LimiterTheorems
  import opened LimiterWindow
  import opened LimiterKeys

  /** A wide pool, and one request per client and principal. */
  function Narrow(maxKeys: int): (l: Limits) {
    Limits(4, 4, 4, 0, 0, 0, 1, 1, 1, 1, 1, 1, 1, 1, maxKeys, 60.0)
  }

  function Stranger(i: nat): (name: Key) { seq(i, _ => 'b') }

  lemma StrangersDiffer(i: nat, j: nat)
    requires i != j
    ensures Stranger(i) != Stranger(j)
  {
    assert |Stranger(i)| == i && |Stranger(j)| == j;
  }

  lemma NobodyIsA(i: nat)
    ensures Stranger(i) != "a"
  {
    if i > 0 { assert Stranger(i)[0] == 'b'; }
  }

  function Try(client: Key, principal: Key): (t: Timed) { Timed(Acquire(Attempt(client, principal, "")), 0.0) }

  /** "a" gets a grant and gives it back; then `count` others try, of a client without tokens. */
  function Crowd(count: nat): (run: seq<Timed>) {
    if count == 0 then [Try("c", "a"), Timed(Finish(0), 0.0)] else Crowd(count - 1) + [Try("c", Stranger(count))]
  }

  const SPENT := Entry(0, Bucket(0.0, Some(0.0)))

  // -------------------------------------------------------------------------- the first grant

  function Fresh(maxKeys: int): (l: Limiter) {
    Limiter(NewPool(4, 4, 4), NewPool(0, 0, 0), NewKeyed(maxKeys, 1, 1, 1), NewKeyed(maxKeys, 1, 1, 1), NewKeyed(maxKeys, 1, 1, 1),
            Trust(map[], [], maxKeys, 60.0))
  }

  lemma FreshIsInit(maxKeys: int)
    requires maxKeys >= 1
    ensures NormalizeLimits(Narrow(maxKeys)) == Narrow(maxKeys) && Init(Narrow(maxKeys)).l == Fresh(maxKeys)
  {}

  function Taken(maxKeys: int): (l: Limiter) {
    var busy := Entry(1, Bucket(0.0, Some(0.0)));
    Limiter(Pool(4, 4, 4, 1, Bucket(3.0, Some(0.0))), NewPool(0, 0, 0),
            Keyed(map["c" := busy], ["c"], maxKeys, 1, 1, 1), Keyed(map["a" := busy], ["a"], maxKeys, 1, 1, 1),
            NewKeyed(maxKeys, 1, 1, 1), Trust(map[], [], maxKeys, 60.0))
  }

  lemma NewEntry(maxKeys: int, key: Key)
    requires maxKeys >= 1
    ensures var k := ReadyKey(Touch(NewKeyed(maxKeys, 1, 1, 1), key), key, 0.0);
            && k == Keyed(map[key := Entry(0, Bucket(1.0, Some(0.0)))], [key], maxKeys, 1, 1, 1) && OpenKey(k, key)
            && TakeKey(k, key) == Keyed(map[key := Entry(1, Bucket(0.0, Some(0.0)))], [key], maxKeys, 1, 1, 1)
  {
    var none := NewKeyed(maxKeys, 1, 1, 1);
    assert MakeRoom(none) == none;
    var made := Touch(none, key);
    assert made == Keyed(map[key := Entry(0, EMPTY)], [key], maxKeys, 1, 1, 1);
    assert made.states[key].bucket == EMPTY;
  }

  lemma FirstTry(maxKeys: int)
    requires maxKeys >= 1
    ensures Step(Init(Narrow(maxKeys)), Try("c", "a")) == World(Taken(maxKeys), [Grant("c", "a", false)], map[], map[])
  {
    FreshIsInit(maxKeys);
    NewEntry(maxKeys, "c");
    NewEntry(maxKeys, "a");
    hide NormalizeLimits, Touch, ReadyKey, OpenKey, TakeKey, CheckTrust, Trusted;
  }

  function Returned(maxKeys: int): (l: Limiter) {
    Taken(maxKeys).(shared := Pool(4, 4, 4, 0, Bucket(3.0, Some(0.0))), clients := Keyed(map["c" := SPENT], ["c"], maxKeys, 1, 1, 1),
                    principals := Keyed(map["a" := SPENT], ["a"], maxKeys, 1, 1, 1))
  }

  lemma FirstReturn(maxKeys: int)
    ensures Step(World(Taken(maxKeys), [Grant("c", "a", false)], map[], map[]), Timed(Finish(0), 0.0)).l == Returned(maxKeys)
    ensures Step(World(Taken(maxKeys), [Grant("c", "a", false)], map[], map[]), Timed(Finish(0), 0.0)).grants == []
  {
    GiveOnly(maxKeys, "c");
    GiveOnly(maxKeys, "a");
    hide GiveKey;
  }

  lemma GiveOnly(maxKeys: int, key: Key)
    ensures GiveKey(Keyed(map[key := Entry(1, Bucket(0.0, Some(0.0)))], [key], maxKeys, 1, 1, 1), key) ==
            Keyed(map[key := SPENT], [key], maxKeys, 1, 1, 1)
  {}

  // ---------------------------------------------------------------------------- the strangers

  ghost predicate NoneAfter(states: map<Key, Entry>, count: nat) { forall i: nat :: i > count ==> Stranger(i) !in states }

  /** "a" is at the back of the list of principals, until the list is full. */
  ghost predicate Crowded(l: Limiter, count: nat, maxKeys: int) {
    && l.shared == Pool(4, 4, 4, 0, Bucket(3.0, Some(0.0)))
    && l.clients == Keyed(map["c" := SPENT], ["c"], maxKeys, 1, 1, 1)
    && HasLimits(l.principals, maxKeys, 1, 1, 1) && NoneAfter(l.principals.states, count)
    && if count < maxKeys
       then |l.principals.states| == count + 1 && AtBack(l.principals)
       else "a" !in l.principals.states
  }

  predicate AtBack(k: Keyed) {
    k.lru != [] && k.lru[|k.lru| - 1] == "a" && "a" in k.states && k.states["a"].inFlight == 0
  }

  lemma NoTokens(maxKeys: int, now: real)
    requires now == 0.0
    ensures var k := Keyed(map["c" := SPENT], ["c"], maxKeys, 1, 1, 1);
            ReadyKey(Touch(k, "c"), "c", now) == k && !OpenKey(k, "c")
  {
    var k := Keyed(map["c" := SPENT], ["c"], maxKeys, 1, 1, 1);
    assert k.states["c"] == SPENT;
    assert Touch(k, "c") == k;
    assert Refill(SPENT.bucket, now, 1.0, 1.0) == SPENT.bucket;
    assert k.states["c" := SPENT] == k.states;
  }

  /** A try of the client without tokens touches the principal and is refused. */
  lemma RefusedTry(l: Limiter, principal: Key, maxKeys: int)
    requires l.clients == Keyed(map["c" := SPENT], ["c"], maxKeys, 1, 1, 1)
    ensures TryAcquire(l, Attempt("c", principal, ""), 0.0) == Acquired(l.(principals := Touch(l.principals, principal)), None)
  {
    NoTokens(maxKeys, 0.0);
    hide Touch, ReadyKey, OpenKey, ChoosePool, TakeKey;
  }

  lemma NextStranger(k: Keyed, count: nat, maxKeys: int)
    requires HasLimits(k, maxKeys, 1, 1, 1) && NoneAfter(k.states, count) && count < maxKeys && |k.states| == count + 1 && AtBack(k)
    ensures var t := Touch(k, Stranger(count + 1));
            && HasLimits(t, maxKeys, 1, 1, 1) && NoneAfter(t.states, count + 1)
            && if count + 1 < maxKeys then |t.states| == count + 2 && AtBack(t) else "a" !in t.states
  {
    var name := Stranger(count + 1);
    NobodyIsA(count + 1);
    forall i: nat | i > count + 1 ensures Stranger(i) != name { StrangersDiffer(i, count + 1); }
    hide Stranger;
    if count + 1 < maxKeys {
      assert MakeRoom(k) == k;
      SizeUpdate(k.states, name, Entry(0, EMPTY));
      var t := Touch(k, name);
      assert t.lru[|t.lru| - 1] == k.lru[|k.lru| - 1];
    } else {
      FullDrops(k);
      hide MakeRoom;
    }
  }

  /** A full list with "a" idle at its back drops exactly "a". */
  lemma FullDrops(k: Keyed)
    requires AtBack(k) && |k.states| == k.maxEntries
    ensures MakeRoom(k).states == k.states - {"a"} && |MakeRoom(k).states| < k.maxEntries
  {
    var v := LastIdle(k.lru, k.states);
    assert v == |k.lru| - 1;
    SizeRemove(k.states, "a");
    var less := k.(states := k.states - {"a"}, lru := k.lru[..v] + k.lru[v + 1..]);
    assert MakeRoom(less) == less;
    assert MakeRoom(k) == MakeRoom(less);
  }

  lemma {:induction false} CrowdIsCrowded(maxKeys: int, count: nat)
    requires 1 <= maxKeys && count <= maxKeys
    ensures var w := Exec(Init(Narrow(maxKeys)), Crowd(count)); w.grants == [] && Crowded(w.l, count, maxKeys)
    decreases count
  {
    hide Step, Init, Narrow, Crowded;
    if count == 0 {
      CrowdBegins(maxKeys);
    } else {
      CrowdIsCrowded(maxKeys, count - 1);
      var run, t := Crowd(count - 1), Try("c", Stranger(count));
      assert (run + [t])[..|run|] == run;
      CrowdGrows(Exec(Init(Narrow(maxKeys)), run), count, maxKeys);
    }
  }

  lemma CrowdBegins(maxKeys: int)
    requires maxKeys >= 1
    ensures var w := Exec(Init(Narrow(maxKeys)), Crowd(0)); w.grants == [] && Crowded(w.l, 0, maxKeys)
  {
    hide Step, Init, Narrow, Crowded;
    var run := Crowd(0);
    assert run[..1] == [Try("c", "a")] && run[..1][..0] == [];
    var w := Init(Narrow(maxKeys));
    assert Exec(w, run[..1]) == Step(w, Try("c", "a")) by { assert Exec(w, []) == w; }
    FirstTry(maxKeys);
    FirstReturn(maxKeys);
    NoStrangersYet(maxKeys);
  }

  lemma CrowdGrows(w: World, count: nat, maxKeys: int)
    requires 1 <= count <= maxKeys && w.grants == [] && Crowded(w.l, count - 1, maxKeys)
    ensures var r := Step(w, Try("c", Stranger(count))); r.grants == [] && Crowded(r.l, count, maxKeys)
  {
    hide Step, Touch, Stranger, TryAcquire, NoneAfter, AtBack;
    RefusedTry(w.l, Stranger(count), maxKeys);
    NextStranger(w.l.principals, count - 1, maxKeys);
    RefusedStep(w, Stranger(count));
  }

  lemma RefusedStep(w: World, principal: Key)
    requires TryAcquire(w.l, Attempt("c", principal, ""), 0.0).grant.None?
    ensures Step(w, Try("c", principal)) == w.(l := TryAcquire(w.l, Attempt("c", principal, ""), 0.0).after)
  {
    hide TryAcquire;
  }

  lemma NoStrangersYet(maxKeys: int)
    requires maxKeys >= 1
    ensures Crowded(Returned(maxKeys), 0, maxKeys)
  {
    forall i: nat | i > 0 ensures Stranger(i) != "a" { NobodyIsA(i); }
    hide Stranger;
    SizeUpdate(map[], "a", SPENT);
    var none: map<Key, Entry> := map[];
    assert none["a" := SPENT] == map["a" := SPENT];
  }

  // --------------------------------------------------------------------------- the second grant

  lemma OpenIsGranted(l: Limiter, a: Attempt, now: real)
    requires OpenKey(ReadyKey(Touch(l.clients, a.client), a.client, now), a.client)
    requires OpenKey(ReadyKey(Touch(l.principals, a.principal), a.principal, now), a.principal)
    requires l.shared.Ready(now).Open()
    ensures TryAcquire(l, a, now).grant == Some(Grant(a.client, a.principal, false))
  {
    hide Touch, ReadyKey, OpenKey, TakeKey, CheckTrust, Trusted, Pool.Ready, Pool.Open;
  }

  lemma SecondGrant(maxKeys: int)
    requires maxKeys >= 1
    ensures TryAcquire(Exec(Init(Narrow(maxKeys)), Crowd(maxKeys)).l, Attempt("d", "a", ""), 0.0).grant == Some(Grant("d", "a", false))
  {
    hide Exec, Init, NormalizeLimits, Crowd, Configured, PoolsOk, KeyedOk, TrustOk, IngressOk, Crowded, TryAcquire, Narrow;
    CrowdIsCrowded(maxKeys, maxKeys);
    ReachableInv(Narrow(maxKeys), Crowd(maxKeys));
    AgainFromFull(Exec(Init(Narrow(maxKeys)), Crowd(maxKeys)).l, maxKeys);
  }

  /** A principal that was dropped starts again with a full burst. */
  lemma AgainFromFull(l: Limiter, maxKeys: nat)
    requires Crowded(l, maxKeys, maxKeys) && KeyedOk(l.clients, [], true) && KeyedOk(l.principals, [], false)
    ensures TryAcquire(l, Attempt("d", "a", ""), 0.0).grant == Some(Grant("d", "a", false))
  {
    hide KeyedOk, NoneAfter, Touch, ReadyKey, OpenKey, TryAcquire;
    RestedKeyIsOpen(l.clients, "d", 0.0, true);
    RestedKeyIsOpen(l.principals, "a", 0.0, false);
    OpenIsGranted(l, Attempt("d", "a", ""), 0.0);
  }

  // ------------------------------------------------------------------------------------ the run

  function Overrun(maxKeys: nat): (run: seq<Timed>) { Crowd(maxKeys) + [Try("d", "a")] }

  ghost predicate SeenSoFar(run: seq<Timed>, count: nat) {
    var seen := Seen(run, false);
    |seen| == count + 1 && "a" in seen && forall i: nat :: i > count ==> Stranger(i) !in seen
  }

  lemma {:induction false} CrowdSeen(count: nat)
    ensures SeenSoFar(Crowd(count), count)
  {
    hide SeenSoFar, Stranger;
    if count == 0 {
      FirstSeen();
    } else {
      CrowdSeen(count - 1);
      NextSeen(Crowd(count - 1), count);
    }
  }

  lemma FirstSeen()
    ensures SeenSoFar(Crowd(0), 0)
  {
    var run := Crowd(0);
    assert run[..1] == [run[0]] && run[..1][..0] == [];
    hide Stranger;
    assert Seen(run[..1], false) == {"a"};
    assert Seen(run, false) == {"a"};
    forall i: nat | i > 0 ensures Stranger(i) != "a" { NobodyIsA(i); }
  }

  lemma NextSeen(run: seq<Timed>, count: nat)
    requires count > 0 && SeenSoFar(run, count - 1)
    ensures SeenSoFar(run + [Try("c", Stranger(count))], count)
  {
    hide Stranger;
    assert (run + [Try("c", Stranger(count))])[..|run|] == run;
    forall i: nat | i > count ensures Stranger(i) != Stranger(count) { StrangersDiffer(i, count); }
  }

  lemma {:induction false} CrowdAtOnce(count: nat)
    ensures forall i :: 0 <= i < |Crowd(count)| ==> Crowd(count)[i].now == 0.0
  {
    hide Stranger;
    if count > 0 { CrowdAtOnce(count - 1); }
  }

  lemma {:induction false} GrantsGrow(w: World, a: seq<Timed>, b: seq<Timed>, clients: bool, key: Key)
    ensures GrantsTo(w, a, clients, key) <= GrantsTo(w, a + b, clients, key)
    decreases |b|
  {
    hide GrantTo, Step;
    if b == [] {
      assert a + b == a;
    } else {
      GrantsGrow(w, a, b[..|b| - 1], clients, key);
      assert (a + b)[..|a + b| - 1] == a + b[..|b| - 1];
    }
  }

  lemma {:induction false} CrowdStarts(count: nat)
    ensures Crowd(count) == [Try("c", "a")] + Crowd(count)[1..]
  {
    if count > 0 { CrowdStarts(count - 1); }
  }

  lemma FirstGrantCounts(maxKeys: nat)
    requires maxKeys >= 1
    ensures GrantsTo(Init(Narrow(maxKeys)), Crowd(maxKeys), false, "a") >= 1
  {
    var w, first := Init(Narrow(maxKeys)), [Try("c", "a")];
    FirstTry(maxKeys);
    CrowdStarts(maxKeys);
    GrantsGrow(w, first, Crowd(maxKeys)[1..], false, "a");
    assert first[..0] == [] && Exec(w, []) == w;
    hide Init, Crowd, Narrow;
    assert GrantTo(w, first[0], false, "a") == 1 by { GrantedInStep(w, first[0]); }
  }

  lemma GrantedInStep(w: World, t: Timed)
    requires t.op.Acquire? && |Step(w, t).grants| > |w.grants|
    ensures GrantTo(w, t, false, t.op.attempt.principal) == 1
  {
    hide TryAcquire;
  }

  /** For every maxKeys there is a run, all at one time, that names one principal more than that and
      grants two requests of a principal whose burst is one. */
  lemma CrowdLiftsTheBound(maxKeys: nat)
    requires maxKeys >= 1
    ensures var run, limits := Overrun(maxKeys), Narrow(maxKeys); var n := NormalizeLimits(limits);
            && n.maxKeys == maxKeys && KeyBurst(n, false) == 1 && |Seen(run, false)| == maxKeys + 1
            && (forall i :: 0 <= i < |run| ==> run[i].now == 0.0)
            && GrantsTo(Exec(Init(limits), []), run, false, "a") as real > KeyBurst(n, false) as real + KeyRate(n, false) as real * 0.0
  {
    var run, crowd, t := Overrun(maxKeys), Crowd(maxKeys), Try("d", "a");
    assert run[..|run| - 1] == crowd && run[|run| - 1] == t;
    FreshIsInit(maxKeys);
    var w := Init(Narrow(maxKeys));
    assert Exec(w, []) == w;
    CrowdSeen(maxKeys);
    CrowdAtOnce(maxKeys);
    assert Seen(run, false) == Seen(crowd, false) + {"a"} == Seen(crowd, false);
    FirstGrantCounts(maxKeys);
    SecondGrant(maxKeys);
    hide Init, Crowd, NormalizeLimits, Seen, TryAcquire;
    assert GrantTo(Exec(w, crowd), t, false, "a") == 1;
  }

  /** A stretch of time of length `d` from `s` on, after some history. */
  predicate Stretch(before: seq<Timed>, window: seq<Timed>, s: real, d: real) {
    Monotone(before + window) && d >= 0.0 && forall i :: 0 <= i < |window| ==> s <= window[i].now <= s + d
  }

  /** A principal gets its burst and its rate times `d` in that time, no more. */
  predicate Within(limits: Limits, before: seq<Timed>, window: seq<Timed>, d: real, key: Key) {
    var n := NormalizeLimits(limits);
    GrantsTo(Exec(Init(limits), before), window, false, key) as real <= n.principalBurst as real + n.principalRate as real * d
  }

  /** Every principal keeps to its own rate in every run over `named` principals. */
  ghost predicate RateHolds(maxKeys: nat, named: nat) {
    forall limits: Limits, before: seq<Timed>, window: seq<Timed>, s: real, d: real, key: Key
      {:trigger Stretch(before, window, s, d), Within(limits, before, window, d, key)} ::
      NormalizeLimits(limits).maxKeys == maxKeys && Stretch(before, window, s, d) && |Seen(before + window, false)| <= named
      ==> Within(limits, before, window, d, key)
  }

  /** The exact condition: a principal's own rate bound holds as long as no more principals are
      named than the limiter keeps, and not beyond. */
  lemma RateHoldsIff(maxKeys: nat, named: nat)
    requires maxKeys >= 1
    ensures RateHolds(maxKeys, named) <==> named <= maxKeys
  {
    hide NormalizeLimits, Stretch, Within, Seen;
    if named <= maxKeys {
      forall limits: Limits, before: seq<Timed>, window: seq<Timed>, s: real, d: real, key: Key
        | NormalizeLimits(limits).maxKeys == maxKeys && Stretch(before, window, s, d) && |Seen(before + window, false)| <= named
        ensures Within(limits, before, window, d, key)
      {
        FewKeysWithin(limits, before, window, s, d, key);
      }
    } else {
      CrowdIsNotWithin(maxKeys);
    }
  }

  lemma FewKeysWithin(limits: Limits, before: seq<Timed>, window: seq<Timed>, s: real, d: real, key: Key)
    requires Stretch(before, window, s, d) && |Seen(before + window, false)| <= NormalizeLimits(limits).maxKeys
    ensures Within(limits, before, window, d, key)
  {
    hide NormalizeLimits, GrantsTo, Seen, Exec, Init, Monotone;
    FewKeysBound(limits, before, window, s, d, false, key);
  }

  lemma CrowdIsNotWithin(maxKeys: nat)
    requires maxKeys >= 1
    ensures var run, limits := Overrun(maxKeys), Narrow(maxKeys);
            && NormalizeLimits(limits).maxKeys == maxKeys && |Seen([] + run, false)| == maxKeys + 1
            && Stretch([], run, 0.0, 0.0) && !Within(limits, [], run, 0.0, "a")
  {
    hide NormalizeLimits, GrantsTo, Seen, Overrun, Exec, Init;
    CrowdLiftsTheBound(maxKeys);
    assert [] + Overrun(maxKeys) == Overrun(maxKeys);
  }
}
