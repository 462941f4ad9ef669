/** Interleavings of enqueues with a flush: the flush holds its permit from taking the pending
    events until its last batch is acknowledged or one fails. */
module SplunkRuns {
  import opened SplunkBuffer
  import opened Sizes

  /** `acked` were acknowledged by Splunk, `taken` are in the hands of the flush; `offers` counts
      the events offered so far and `lost` lists the dropped ones, of which `reported` were logged. */
  datatype State = State(
    pending: seq<Event>, pendingBytes: int, dropped: int,
    flushing: bool, taken: seq<Event>, acked: seq<Event>,
    offers: int, lost: seq<Event>, reported: int)

  const START := State([], 0, 0, false, [], [], 0, [], 0)

  datatype Step = Offer(payload: string) | Take | Delivered | Refused | Done

  predicate Enabled(s: State, step: Step) {
    match step
    case Offer(_) => true
    case Take => !s.flushing
    case Delivered => s.flushing && s.taken != []
    case Refused => s.flushing && s.taken != []
    case Done => s.flushing && s.taken == []
  }

  function Apply(s: State, step: Step): (r: State)
    requires Enabled(s, step)
  {
    match step
    case Offer(payload) =>
      var e := Event(s.offers, payload);
      if |payload| > MAX_PENDING_BYTES || s.pendingBytes + |payload| > MAX_PENDING_BYTES
      then s.(dropped := s.dropped + 1, offers := s.offers + 1, lost := s.lost + [e])
      else s.(pending := s.pending + [e], pendingBytes := s.pendingBytes + |payload|, offers := s.offers + 1)
    case Take =>
      s.(pending := [], pendingBytes := 0, dropped := 0, flushing := true, taken := s.pending, reported := s.reported + s.dropped)
    case Delivered =>
      var k := BatchCount(s.taken);
      s.(acked := s.acked + s.taken[..k], taken := s.taken[k..])
    case Refused =>
      var r := Fit(s.pending, Bytes(s.taken));
      s.(pending := s.taken + r.kept, pendingBytes := Bytes(s.taken + r.kept), dropped := s.dropped + |r.dropped|,
         flushing := false, taken := [], lost := s.lost + r.dropped)
    case Done => s.(flushing := false)
  }

  predicate Leads(s: State, run: seq<Step>, end: State)
    decreases |run|
  {
    if run == [] then s == end else Enabled(s, run[0]) && Leads(Apply(s, run[0]), run[1..], end)
  }

  // --------------------------------------------------------------------------- invariant

  /** Places rise along the sequence, so it is in the order of the offers. */
  predicate InOrder(events: seq<Event>) {
    forall i, j :: 0 <= i < j < |events| ==> events[i].place < events[j].place
  }

  /** Every event that has been acknowledged, is in flight or is pending, in that order. */
  function Line(s: State): (events: seq<Event>) { s.acked + s.taken + s.pending }

  predicate Places(line: seq<Event>, lost: seq<Event>, offers: int) {
    && (forall i :: 0 <= i < |line| ==> 0 <= line[i].place < offers)
    && (forall i :: 0 <= i < |lost| ==> 0 <= lost[i].place < offers)
  }

  /** Each offered event is in the line or among the lost, and only once. */
  ghost predicate OnceEach(line: seq<Event>, lost: seq<Event>, offers: int) {
    |line| + |lost| == offers && InOrder(line) && Places(line, lost, offers) && Distinct(line, lost)
  }

  predicate Distinct(line: seq<Event>, lost: seq<Event>) {
    && (forall i, j :: 0 <= i < j < |lost| ==> lost[i].place != lost[j].place)
    && (forall i, j :: 0 <= i < |line| && 0 <= j < |lost| ==> line[i].place != lost[j].place)
  }

  ghost predicate Inv(s: State) {
    && s.pendingBytes == Bytes(s.pending) <= MAX_PENDING_BYTES && Bytes(s.taken) <= MAX_PENDING_BYTES
    && (!s.flushing ==> s.taken == []) && s.dropped >= 0 && s.offers >= 0 && s.reported + s.dropped == |s.lost|
    && OnceEach(Line(s), s.lost, s.offers)
  }

  // -------------------------------------------------------------------------------- steps

  lemma OfferKeeps(s: State, payload: string)
    requires Inv(s)
    ensures Inv(Apply(s, Offer(payload)))
  {
    hide Bytes, OnceEach;
    var e := Event(s.offers, payload);
    BytesPush(s.pending, e);
    assert s.acked + s.taken + (s.pending + [e]) == Line(s) + [e];
    OneMore(Line(s), s.lost, s.offers, e);
  }

  lemma OneMore(line: seq<Event>, lost: seq<Event>, offers: int, e: Event)
    requires OnceEach(line, lost, offers) && e.place == offers && offers >= 0
    ensures OnceEach(line + [e], lost, offers + 1) && OnceEach(line, lost + [e], offers + 1)
  {}

  lemma BytesOfPart(events: seq<Event>, size: int)
    requires size >= 0 && size <= MAX_PENDING_BYTES
    ensures size + Bytes(Fit(events, size).kept) <= MAX_PENDING_BYTES
  {
    if events != [] {
      BytesOfPart(events[..|events| - 1], size);
      BytesPush(Fit(events[..|events| - 1], size).kept, events[|events| - 1]);
    }
  }

  /** Dropping one event of the line moves it to the lost ones. */
  lemma MoveToLost(a: seq<Event>, e: Event, b: seq<Event>, lost: seq<Event>, offers: int)
    requires OnceEach(a + [e] + b, lost, offers)
    ensures OnceEach(a + b, lost + [e], offers)
  {
    var was, line := a + [e] + b, a + b;
    assert was[|a|] == e;
    forall i | 0 <= i < |line| ensures line[i] == was[if i < |a| then i else i + 1] {}
    forall i, j | 0 <= i < |line| && 0 <= j < |lost + [e]| ensures line[i].place != (lost + [e])[j].place {
      var k := if i < |a| then i else i + 1;
      assert line[i] == was[k];
    }
    forall i, j | 0 <= i < j < |line| ensures line[i].place < line[j].place {
      var k, l := if i < |a| then i else i + 1, if j < |a| then j else j + 1;
      assert line[i] == was[k] && line[j] == was[l];
    }
    forall j | 0 <= j < |lost| ensures lost[j].place != e.place { assert was[|a|].place != lost[j].place; }
  }

  /** Events dropped on the way leave the line for the lost; those kept stay in their order. */
  lemma {:induction false} FitSplits(front: seq<Event>, events: seq<Event>, i: nat, lost: seq<Event>, size: int, offers: int)
    requires OnceEach(front + events, lost, offers) && i <= |events|
    ensures var r := Fit(events[..i], size); OnceEach(front + r.kept + events[i..], lost + r.dropped, offers)
    decreases i
  {
    hide OnceEach, Bytes, Fit;
    if i == 0 {
      assert events[..0] == [] && events[0..] == events;
      FitNothing(events[..0], size);
      assert front + [] + events == front + events && lost + [] == lost;
    } else {
      FitSplits(front, events, i - 1, lost, size, offers);
      FitPush(events, i - 1, size);
      var r, e := Fit(events[..i - 1], size), events[i - 1];
      assert events[i - 1..] == [e] + events[i..];
      assert front + r.kept + events[i - 1..] == front + r.kept + [e] + events[i..];
      assert front + (r.kept + [e]) + events[i..] == front + r.kept + [e] + events[i..];
      MoveToLost(front + r.kept, e, events[i..], lost + r.dropped, offers);
      assert lost + r.dropped + [e] == lost + (r.dropped + [e]);
    }
  }

  lemma RefusedKeeps(s: State)
    requires Inv(s) && Enabled(s, Refused)
    ensures Inv(Apply(s, Refused))
  {
    hide OnceEach, Bytes, Fit;
    var size := Bytes(s.taken);
    var r := Fit(s.pending, size);
    FitNothing([], size);
    FitSplits(s.acked + s.taken, s.pending, |s.pending|, s.lost, size, s.offers);
    assert s.pending[..|s.pending|] == s.pending && s.pending[|s.pending|..] == [];
    BytesOfPart(s.pending, size);
    BytesOfBoth(s.taken, r.kept);
    assert s.acked + [] + (s.taken + r.kept) == s.acked + s.taken + r.kept + [];
  }

  lemma StepKeeps(s: State, step: Step)
    requires Enabled(s, step)
    requires Inv(s)
    ensures Inv(Apply(s, step))
  {
    match step
    case Offer(payload) => OfferKeeps(s, payload);
    case Refused => RefusedKeeps(s);
    case Take =>
      hide OnceEach;
      assert s.acked + [] + s.pending == s.acked + s.pending + [];
    case Delivered =>
      hide OnceEach, BatchCount;
      var k := BatchCount(s.taken);
      Split(s.taken, k);
      hide Bytes;
      assert s.acked + s.taken[..k] + s.taken[k..] + s.pending == s.acked + (s.taken[..k] + s.taken[k..]) + s.pending;
    case Done =>
  }

  lemma {:induction false} RunKeeps(s: State, run: seq<Step>, end: State)
    requires Leads(s, run, end) && Inv(s)
    ensures Inv(end)
    decreases |run|
  {
    hide Inv, Apply, Enabled;
    if run != [] {
      StepKeeps(s, run[0]);
      RunKeeps(Apply(s, run[0]), run[1..], end);
    }
  }

  // ----------------------------------------------------------------------------- theorems

  /** In every interleaving each offered event is acknowledged, in flight, pending or dropped, and
      only one of these; the first three together are in the order of the offers; the dropped ones
      are counted, once, in what was reported or will be; and the byte count is exact and bounded. */
  lemma EventsAreConserved(run: seq<Step>, end: State)
    requires Leads(START, run, end)
    ensures OnceEach(Line(end), end.lost, end.offers) && end.reported + end.dropped == |end.lost|
    ensures end.pendingBytes == Bytes(end.pending) <= MAX_PENDING_BYTES
  {
    hide *;
    StartOk();
    RunKeeps(START, run, end);
    InvSays(end);
  }

  lemma InvSays(s: State)
    requires Inv(s)
    ensures OnceEach(Line(s), s.lost, s.offers) && s.reported + s.dropped == |s.lost|
    ensures s.pendingBytes == Bytes(s.pending) <= MAX_PENDING_BYTES
  {}

  lemma StartOk()
    ensures Inv(START)
  {
    assert Line(START) == [];
  }

  /** Being listed without repetition and in full, every place is somewhere. */
  lemma NoEventIsForgotten(line: seq<Event>, lost: seq<Event>, offers: int, place: int)
    requires OnceEach(line, lost, offers) && 0 <= place < offers
    ensures exists e :: (e in line || e in lost) && e.place == place
  {
    var seen := PlacesOf(line + lost);
    DistinctPlaces(line, lost);
    AllPlaces(line + lost, offers);
    var range := Range(offers);
    if place !in seen {
      assert seen <= range - {place};
      SubsetIsSmaller(seen, range - {place});
      assert false;
    }
    var e :| e in line + lost && e.place == place;
    assert e in line || e in lost;
  }

  function PlacesOf(events: seq<Event>): (r: set<int>) { set e | e in events :: e.place }

  lemma {:induction false} PlacesAreMany(events: seq<Event>)
    requires forall i, j :: 0 <= i < j < |events| ==> events[i].place != events[j].place
    ensures |PlacesOf(events)| == |events|
  {
    if events != [] {
      var k := |events| - 1;
      PlacesAreMany(events[..k]);
      OnePlaceMore(events, k);
      hide PlacesOf;
    }
  }

  lemma OnePlaceMore(events: seq<Event>, k: nat)
    requires k == |events| - 1 && forall i, j :: 0 <= i < j < |events| ==> events[i].place != events[j].place
    ensures PlacesOf(events) == PlacesOf(events[..k]) + {events[k].place} && events[k].place !in PlacesOf(events[..k])
  {
    var less := events[..k];
    assert forall e :: e in events <==> e in less || e == events[k];
    forall e | e in less ensures e.place != events[k].place {
      var i :| 0 <= i < |less| && less[i] == e;
      assert events[i] == e;
    }
  }

  lemma DistinctPlaces(line: seq<Event>, lost: seq<Event>)
    requires InOrder(line) && Distinct(line, lost)
    ensures |PlacesOf(line + lost)| == |line| + |lost|
  {
    var all := line + lost;
    forall i, j | 0 <= i < j < |all| ensures all[i].place != all[j].place {
      if j < |line| { assert all[i] == line[i] && all[j] == line[j]; }
      else if i >= |line| { assert all[i] == lost[i - |line|] && all[j] == lost[j - |line|]; }
      else { assert all[i] == line[i] && all[j] == lost[j - |line|]; }
    }
    PlacesAreMany(all);
  }

  function Range(n: nat): (r: set<int>)
    ensures |r| == n && forall p :: p in r <==> 0 <= p < n
  {
    if n == 0 then {} else Range(n - 1) + {n - 1}
  }

  lemma AllPlaces(events: seq<Event>, offers: nat)
    requires forall i :: 0 <= i < |events| ==> 0 <= events[i].place < offers
    ensures PlacesOf(events) <= Range(offers)
  {}

  /** Every batch that is sent is non-empty and within 1 MiB, or a single event. */
  lemma BatchesAreBounded(events: seq<Event>)
    requires events != []
    ensures var k := BatchCount(events);
            0 < k <= |events| && (k == 1 || BodyBytes(events[..k]) <= MAX_BATCH_BYTES)
            && (k < |events| ==> BodyBytes(events[..k + 1]) > MAX_BATCH_BYTES)
  {
    assert events[..0] == [];
    BatchFromBounded(events, 0, 0);
  }

  lemma {:induction false} BatchFromBounded(events: seq<Event>, i: nat, size: int)
    requires i <= |events| && size == BodyBytes(events[..i]) && (i <= 1 || size <= MAX_BATCH_BYTES)
    ensures var k := BatchFrom(events, i, size);
            && (k <= 1 || BodyBytes(events[..k]) <= MAX_BATCH_BYTES)
            && (k < |events| ==> k > 0 && BodyBytes(events[..k + 1]) > MAX_BATCH_BYTES)
    decreases |events| - i
  {
    hide Bytes, BodyBytes;
    if i < |events| {
      BodyPush(events, i);
      if !(i > 0 && size + (|events[i].payload| + 1) > MAX_BATCH_BYTES) {
        BatchFromBounded(events, i + 1, size + (|events[i].payload| + 1));
      }
    }
  }

  lemma BodyPush(events: seq<Event>, i: nat)
    requires i < |events|
    ensures BodyBytes(events[..i + 1]) == BodyBytes(events[..i]) + (|events[i].payload| + 1)
  {
    hide Bytes;
    BytesPush(events[..i], events[i]);
    assert events[..i + 1] == events[..i] + [events[i]];
  }

  // ------------------------------------------------------------------------------- payloads

  /** What was offered, in order. */
  function Offered(run: seq<Step>): (payloads: seq<string>)
    decreases |run|
  {
    if run == [] then [] else (if run[0].Offer? then [run[0].payload] else []) + Offered(run[1..])
  }

  /** Every event carries what was offered at its place. */
  ghost predicate Carry(events: seq<Event>, offered: seq<string>) {
    forall e :: e in events ==> 0 <= e.place < |offered| && e.payload == offered[e.place]
  }

  ghost predicate AllCarry(s: State, offered: seq<string>) {
    && s.offers == |offered| && Carry(s.acked, offered) && Carry(s.taken, offered) && Carry(s.pending, offered) && Carry(s.lost, offered)
  }

  lemma {:induction false} FitIsPart(newer: seq<Event>, size: int)
    ensures forall e :: e in Fit(newer, size).kept || e in Fit(newer, size).dropped ==> e in newer
  {
    if newer != [] {
      FitIsPart(newer[..|newer| - 1], size);
      hide Bytes;
    }
  }

  lemma CarryMore(events: seq<Event>, offered: seq<string>, payload: string)
    requires Carry(events, offered)
    ensures Carry(events, offered + [payload]) && Carry(events + [Event(|offered|, payload)], offered + [payload])
  {}

  lemma StepCarries(s: State, step: Step, offered: seq<string>)
    requires Enabled(s, step) && AllCarry(s, offered)
    ensures AllCarry(Apply(s, step), Next(offered, step))
  {
    if step.Offer? {
      CarryMore(s.acked, offered, step.payload);
      CarryMore(s.taken, offered, step.payload);
      CarryMore(s.pending, offered, step.payload);
      CarryMore(s.lost, offered, step.payload);
      hide Carry;
    } else if step.Refused? {
      FitIsPart(s.pending, Bytes(s.taken));
      hide Fit, Bytes;
    } else {
      hide BatchCount;
    }
  }

  lemma {:induction false} RunCarries(s: State, run: seq<Step>, end: State, offered: seq<string>)
    requires Leads(s, run, end) && AllCarry(s, offered)
    ensures AllCarry(end, offered + Offered(run))
    decreases |run|
  {
    hide AllCarry, Apply, Enabled, Offered;
    OfferedNext(run, offered);
    if run != [] {
      StepCarries(s, run[0], offered);
      RunCarries(Apply(s, run[0]), run[1..], end, Next(offered, run[0]));
    }
  }

  function Next(offered: seq<string>, step: Step): (r: seq<string>) { if step.Offer? then offered + [step.payload] else offered }

  lemma OfferedNext(run: seq<Step>, offered: seq<string>)
    ensures offered + Offered(run) == if run == [] then offered else Next(offered, run[0]) + Offered(run[1..])
  {}

  /** In every interleaving the events hold what was offered: the one with place `k`, wherever it is,
      the payload of offer `k`. */
  lemma PayloadsAreKept(run: seq<Step>, end: State, e: Event)
    requires Leads(START, run, end) && (e in Line(end) || e in end.lost)
    ensures 0 <= e.place < |Offered(run)| && e.payload == Offered(run)[e.place] && end.offers == |Offered(run)|
  {
    hide Leads, Offered;
    assert AllCarry(START, []);
    RunCarries(START, run, end, []);
    assert [] + Offered(run) == Offered(run);
  }

  // ---------------------------------------------------------------------------------- drops

  /** Whatever is dropped when events are put back would not fit beside all that were kept. */
  lemma {:induction false} DroppedDoNotFit(newer: seq<Event>, size: int, e: Event)
    requires e in Fit(newer, size).dropped
    ensures size + Bytes(Fit(newer, size).kept) + |e.payload| > 67108864
  {
    if newer != [] {
      var less, last := newer[..|newer| - 1], newer[|newer| - 1];
      var before, r := Fit(less, size), Fit(newer, size);
      BytesPush(before.kept, last);
      hide Bytes;
      if e in before.dropped { DroppedDoNotFit(less, size, e); }
    }
  }

  /** An offer is dropped exactly if the buffer has no room for it, and otherwise joins the end of the line;
      events are dropped on a failure only where they would not fit, and none if all fit. */
  lemma OnlyOverflowDrops(run: seq<Step>, s: State, payload: string)
    requires Leads(START, run, s)
    ensures var e := Event(s.offers, payload); var after := Apply(s, Offer(payload));
            if Bytes(s.pending) + |payload| <= 67108864
            then after.lost == s.lost && Line(after) == Line(s) + [e]
            else after.lost == s.lost + [e] && Line(after) == Line(s)
    ensures Enabled(s, Refused) ==>
              var after := Apply(s, Refused);
              && s.lost <= after.lost
              && forall e :: e in after.lost[|s.lost|..] ==> Bytes(after.pending) + |e.payload| > 67108864
  {
    EventsAreConserved(run, s);
    var e := Event(s.offers, payload);
    assert s.acked + s.taken + (s.pending + [e]) == s.acked + s.taken + s.pending + [e];
    if Enabled(s, Refused) {
      var r := Fit(s.pending, Bytes(s.taken));
      BytesOfBoth(s.taken, r.kept);
      assert (s.lost + r.dropped)[|s.lost|..] == r.dropped;
      forall x | x in r.dropped ensures Bytes(s.taken) + Bytes(r.kept) + |x.payload| > 67108864 { DroppedDoNotFit(s.pending, Bytes(s.taken), x); }
    }
    hide Bytes, Fit, Leads, OnceEach;
  }
}
