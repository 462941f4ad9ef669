/** The buffer of the Splunk HEC log handler. */
module SplunkBuffer {

  const MAX_BATCH_BYTES := 1 * 1024 * 1024
  const MAX_PENDING_BYTES := 64 * 1024 * 1024

  /** One log event: its JSON payload and, to tell events apart, its place in the order of offers. */
  datatype Event = Event(place: int, payload: string)

  function Bytes(events: seq<Event>): (n: nat) {
    if events == [] then 0 else Bytes(events[..|events| - 1]) + |events[|events| - 1].payload|
  }

  /** The size of a request body: every payload and a newline. */
  function BodyBytes(events: seq<Event>): (n: nat) { Bytes(events) + |events| }

  lemma {:induction false} BytesOfBoth(a: seq<Event>, b: seq<Event>)
    ensures Bytes(a + b) == Bytes(a) + Bytes(b)
  {
    if b == [] {
      assert a + b == a;
    } else {
      BytesOfBoth(a, b[..|b| - 1]);
      assert (a + b)[..|a + b| - 1] == a + b[..|b| - 1];
    }
  }

  // ------------------------------------------------------------------------------ batches

  /** batchEventCount: the longest batch within the limit, and at least one event. */
  method BatchEventCount(events: seq<Event>) returns (count: int)
    ensures count == BatchCount(events)
    ensures 0 <= count <= |events| && (events != [] ==> count > 0)
    ensures count <= 1 || BodyBytes(events[..count]) <= MAX_BATCH_BYTES
    ensures count < |events| ==> BodyBytes(events[..count + 1]) > MAX_BATCH_BYTES
  {
    var size, i := 0, 0;
    while i < |events|
      invariant 0 <= i <= |events| && size == BodyBytes(events[..i])
      invariant i <= 1 || size <= MAX_BATCH_BYTES
      invariant BatchCount(events) == BatchFrom(events, i, size)
    {
      var eventSize := |events[i].payload| + 1;
      assert events[..i + 1][..i] == events[..i];
      if i > 0 && size + eventSize > MAX_BATCH_BYTES { return i; }
      size, i := size + eventSize, i + 1;
    }
    assert events[..i] == events;
    return i;
  }

  function BatchFrom(events: seq<Event>, i: nat, size: int): (count: nat)
    requires i <= |events|
    ensures i <= count <= |events| && (i == 0 && events != [] ==> count > 0)
    decreases |events| - i
  {
    if i == |events| then i
    else
      var eventSize := |events[i].payload| + 1;
      if i > 0 && size + eventSize > MAX_BATCH_BYTES then i else BatchFrom(events, i + 1, size + eventSize)
  }

  function BatchCount(events: seq<Event>): (count: nat)
    ensures count <= |events| && (events != [] ==> count > 0)
  {
    BatchFrom(events, 0, 0)
  }

  // ---------------------------------------------------------------------------- restoring

  datatype Sorted = Sorted(kept: seq<Event>, dropped: seq<Event>)

  /** Which of the newer events still fit behind `size` bytes of restored ones. */
  function Fit(newer: seq<Event>, size: int): (r: Sorted)
    ensures |r.kept| + |r.dropped| == |newer|
  {
    if newer == [] then Sorted([], [])
    else
      var before := Fit(newer[..|newer| - 1], size);
      var e := newer[|newer| - 1];
      if size + Bytes(before.kept) + |e.payload| > MAX_PENDING_BYTES
      then before.(dropped := before.dropped + [e]) else before.(kept := before.kept + [e])
  }

  lemma BytesPush(events: seq<Event>, e: Event)
    ensures Bytes(events + [e]) == Bytes(events) + |e.payload|
  {
    assert (events + [e])[..|events|] == events;
  }

  /** One more event is kept if it fits behind those kept before it. */
  lemma FitPush(newer: seq<Event>, i: nat, size: int)
    requires i < |newer|
    ensures var r, e := Fit(newer[..i], size), newer[i];
            Fit(newer[..i + 1], size) ==
            if size + Bytes(r.kept) + |e.payload| > MAX_PENDING_BYTES then r.(dropped := r.dropped + [e])
            else r.(kept := r.kept + [e])
  {
    assert newer[..i + 1][..i] == newer[..i];
  }

  lemma FitNothing(none: seq<Event>, size: int)
    requires none == []
    ensures Fit(none, size) == Sorted([], []) && Bytes([]) == 0
  {}

  lemma Split(events: seq<Event>, k: nat)
    requires k <= |events|
    ensures events == events[..k] + events[k..] && Bytes(events[k..]) <= Bytes(events)
  {
    hide Bytes;
    assert events == events[..k] + events[k..];
    BytesOfBoth(events[..k], events[k..]);
  }

  class HandlerCore {
    var pending: seq<Event>
    var pendingBytes: int
    var dropped: int
    var closed: bool

    ghost predicate Valid()
      reads this
    {
      pendingBytes == Bytes(pending) <= MAX_PENDING_BYTES && dropped >= 0
    }

    constructor ()
      ensures Valid() && pending == [] && dropped == 0 && !closed
    {
      pending, pendingBytes, dropped, closed := [], 0, 0, false;
    }

    method Enqueue(e: Event)
      requires Valid()
      modifies this
      ensures Valid() && closed == old(closed)
      ensures var fits := Bytes(old(pending)) + |e.payload| <= MAX_PENDING_BYTES;
              && pending == (if !closed && fits then old(pending) + [e] else old(pending))
              && dropped == old(dropped) + if !closed && !fits then 1 else 0
    {
      if closed { return; }
      if |e.payload| > MAX_PENDING_BYTES || pendingBytes + |e.payload| > MAX_PENDING_BYTES {
        dropped := dropped + 1;
        return;
      }
      BytesOfBoth(pending, [e]);
      assert [e][..0] == [];
      pending, pendingBytes := pending + [e], pendingBytes + |e.payload|;
    }

    method TakePending() returns (taken: seq<Event>, lost: int)
      requires Valid()
      modifies this
      ensures Valid() && closed == old(closed)
      ensures taken == old(pending) && lost == old(dropped) && pending == [] && dropped == 0
    {
      taken, lost := pending, dropped;
      pending, pendingBytes, dropped := [], 0, 0;
    }

    method RestorePending(events: seq<Event>)
      requires Valid() && Bytes(events) <= MAX_PENDING_BYTES
      modifies this
      ensures Valid() && closed == old(closed)
      ensures var r := Fit(old(pending), Bytes(events));
              pending == events + r.kept && dropped == old(dropped) + |r.dropped|
    {
      hide Bytes, Fit;
      var current := pending;
      var restored, restoredBytes := CopyEvents(events);
      ghost var r := Fit(current[..0], Bytes(events));
      FitNothing(current[..0], Bytes(events));
      for i := 0 to |current|
        invariant r == Fit(current[..i], Bytes(events))
        invariant restored == events + r.kept && dropped == old(dropped) + |r.dropped|
        invariant restoredBytes == Bytes(events) + Bytes(r.kept) == Bytes(restored) <= MAX_PENDING_BYTES
        invariant closed == old(closed)
      {
        var e := current[i];
        FitPush(current, i, Bytes(events));
        r := Fit(current[..i + 1], Bytes(events));
        if restoredBytes + |e.payload| > MAX_PENDING_BYTES {
          dropped := dropped + 1;
        } else {
          BytesPush(restored, e);
          BytesPush(r.kept[..|r.kept| - 1], e);
          restored, restoredBytes := restored + [e], restoredBytes + |e.payload|;
        }
      }
      assert current[..|current|] == current;
      pending, pendingBytes := restored, restoredBytes;
    }

    static method CopyEvents(events: seq<Event>) returns (restored: seq<Event>, restoredBytes: int)
      ensures restored == events && restoredBytes == Bytes(events)
    {
      restored, restoredBytes := [], 0;
      for i := 0 to |events|
        invariant restored == events[..i] && restoredBytes == Bytes(restored)
      {
        BytesPush(events[..i], events[i]);
        assert events[..i + 1] == events[..i] + [events[i]];
        restored, restoredBytes := restored + [events[i]], restoredBytes + |events[i].payload|;
      }
      assert events[..|events|] == events;
    }

    /** flush with the permit held and no one else at work: batches go out in order until one
        fails, and from that one on everything stays pending. */
    method Flush() returns (ok: bool, sent: seq<Event>, lost: int)
      requires Valid()
      modifies this
      ensures Valid() && closed == old(closed) && lost == old(dropped) && dropped == 0
      ensures sent + pending == old(pending) && (ok ==> pending == [])
    {
      hide Bytes, Fit, BatchCount;
      var taken;
      taken, lost := TakePending();
      sent := [];
      while taken != []
        invariant Valid() && closed == old(closed) && pending == [] && dropped == 0 && sent + taken == old(pending)
        invariant Bytes(taken) <= MAX_PENDING_BYTES
        decreases |taken|
      {
        var count := BatchEventCount(taken);
        var delivered := *;
        if !delivered {
          FitNothing(pending, Bytes(taken));
          RestorePending(taken);
          return false, sent, lost;
        }
        Split(taken, count);
        sent, taken := sent + taken[..count], taken[count..];
      }
      ok := true;
    }
  }
}
