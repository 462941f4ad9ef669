/** The idle watchdog of a transfer: a timer whose callback looks at the deadline again, request
    progress that moves the deadline, and connection deadlines that end a transfer. Times are reals. */
module Watchdog {
  import opened Text

  /** `timer` is when an armed timer fires; `firing` counts callbacks that have started and wait for
      the lock. `readLimit` and `writeLimit` are the deadlines set on the connection. `lastProgress`
      and `expiredAt` are bookkeeping that no operation reads. */
  datatype Activity = Activity(
    idle: real, keepRead: bool, keepWrite: bool,
    deadline: real, timer: Option<real>, firing: int,
    readDeadline: Option<real>, writeDeadline: Option<real>,
    readLimit: Option<real>, writeLimit: Option<real>,
    finished: bool, expired: bool, canceled: bool,
    lastProgress: real, expiredAt: real)

  /** withTransferLimits starts one; `keepRead` and `keepWrite` tell that the server has absolute
      timeouts of its own. */
  function Started(idle: real, keepRead: bool, keepWrite: bool, now: real): (a: Activity) {
    Activity(idle, keepRead, keepWrite, now + idle, Some(now + idle), 0, None, None, None, None,
             false, false, false, now, now)
  }

  function Progress(a: Activity, now: real): (r: Activity) {
    (if !a.finished && !a.expired then a.(deadline := now + a.idle) else a).(lastProgress := now)
  }

  /** The runtime fires the timer: a callback starts and will take the lock. */
  function Fire(a: Activity): (r: Activity) { a.(timer := None, firing := a.firing + 1) }

  /** The callback, expire, under the lock. */
  function Expire(a: Activity, now: real): (r: Activity) {
    var b := a.(firing := a.firing - 1);
    if a.finished then b
    else if a.deadline - now > 0.0 then b.(timer := Some(now + (a.deadline - now)))
    else b.(expired := true, canceled := true, readLimit := Some(now), writeLimit := Some(now), expiredAt := now)
  }

  function Earlier(idleDeadline: real, explicit: Option<real>): (r: real) {
    if explicit.Some? && explicit.value < idleDeadline then explicit.value else idleDeadline
  }

  function Finish(a: Activity, now: real): (r: Activity) {
    var b := a.(finished := true, timer := None);
    if a.expired then b
    else
      b.(readLimit := if a.keepRead then a.readLimit else Some(Earlier(now + a.idle, a.readDeadline)),
         writeLimit := if a.keepWrite then a.writeLimit else Some(Earlier(now + a.idle, a.writeDeadline)))
  }

  function SetRead(a: Activity, d: Option<real>): (r: Activity) {
    if a.expired then a else a.(readDeadline := d, readLimit := d)
  }

  function SetWrite(a: Activity, d: Option<real>): (r: Activity) {
    if a.expired then a else a.(writeDeadline := d, writeLimit := d)
  }

  // --------------------------------------------------------------------------------- runs

  datatype Event =
    | Progressed | Fired | Called | Finished
    | ReadSet(d: Option<real>) | WriteSet(d': Option<real>)

  datatype Timed = Timed(event: Event, now: real)

  predicate Enabled(a: Activity, t: Timed) {
    match t.event
    case Fired => a.timer.Some? && a.timer.value <= t.now
    case Called => a.firing > 0
    case Finished => !a.finished
    case Progressed => true
    case ReadSet(_) => true
    case WriteSet(_) => true
  }

  function Apply(a: Activity, t: Timed): (r: Activity) {
    match t.event
    case Progressed => Progress(a, t.now)
    case Fired => Fire(a)
    case Called => Expire(a, t.now)
    case Finished => Finish(a, t.now)
    case ReadSet(d) => SetRead(a, d)
    case WriteSet(d) => SetWrite(a, d)
  }

  /** A run of events at times that do not go back, from `since` on. */
  predicate Leads(a: Activity, since: real, run: seq<Timed>, end: Activity)
    decreases |run|
  {
    if run == [] then a == end
    else since <= run[0].now && Enabled(a, run[0]) && Leads(Apply(a, run[0]), run[0].now, run[1..], end)
  }

  /** Until the transfer ends there is exactly one watcher, an armed timer or a callback under way,
      and the timer fires no later than the deadline, a full idle interval after the last progress.
      Afterwards an expired transfer keeps the limits of its expiry. */
  ghost predicate Inv(a: Activity, now: real) {
    && a.idle >= 0.0 && a.firing >= 0
    && (!a.finished && !a.expired ==>
          && (if a.timer.Some? then a.firing == 0 && a.timer.value <= a.deadline else a.firing == 1)
          && a.deadline == a.lastProgress + a.idle && a.lastProgress <= now)
    && (a.expired ==>
          && a.canceled && a.timer.None? && a.firing == 0
          && a.readLimit == a.writeLimit == Some(a.expiredAt) && a.deadline <= a.expiredAt <= now)
    && (a.finished ==> a.timer.None?)
    && (a.canceled ==> a.expired)
    && (!a.finished && !a.expired ==> a.readLimit == a.readDeadline && a.writeLimit == a.writeDeadline)
  }

  lemma StepKeeps(a: Activity, since: real, t: Timed)
    requires Inv(a, since) && since <= t.now && Enabled(a, t)
    ensures Inv(Apply(a, t), t.now)
  {}

  lemma {:induction false} RunKeeps(a: Activity, since: real, run: seq<Timed>, end: Activity) returns (now: real)
    requires Inv(a, since) && Leads(a, since, run, end)
    ensures Inv(end, now) && now >= since
    decreases |run|
  {
    now := since;
    if run != [] {
      StepKeeps(a, since, run[0]);
      hide Inv, Apply;
      now := RunKeeps(Apply(a, run[0]), run[0].now, run[1..], end);
    }
  }

  // ----------------------------------------------------------------------------- theorems

  /** A callback expires a live transfer exactly when a full idle interval has passed since its last
      progress; otherwise it arms the timer for the current deadline. */
  lemma CallbackDecides(idle: real, keepRead: bool, keepWrite: bool, start: real, run: seq<Timed>, a: Activity, now: real)
    requires idle >= 0.0 && Leads(Started(idle, keepRead, keepWrite, start), start, run, a)
    requires a.firing > 0 && !a.finished && !a.expired
    ensures var b := Expire(a, now);
            && (b.expired <==> now >= a.lastProgress + a.idle)
            && (!b.expired ==> b.timer == Some(a.lastProgress + a.idle))
  {
    var end := RunKeeps(Started(idle, keepRead, keepWrite, start), start, run, a);
  }

  /** A transfer that made progress less than an idle interval ago is not expired, and a live one is
      always watched by one timer or callback. */
  lemma NoEarlyExpiry(idle: real, keepRead: bool, keepWrite: bool, start: real, run: seq<Timed>, a: Activity)
    requires idle >= 0.0 && Leads(Started(idle, keepRead, keepWrite, start), start, run, a)
    ensures !a.finished && !a.expired ==> (a.timer.Some? <==> a.firing == 0) && a.firing <= 1
    ensures a.timer.Some? ==> a.timer.value <= a.deadline
    ensures a.expired ==> a.expiredAt >= a.deadline && a.canceled
  {
    var now := RunKeeps(Started(idle, keepRead, keepWrite, start), start, run, a);
  }

  /** From the expiry on nothing changes what ends the transfer: neither progress, nor a deadline
      setter, nor finish, nor a timer. */
  lemma {:induction false} ExpiryIsFinal(a: Activity, since: real, run: seq<Timed>, end: Activity)
    requires a.expired && Inv(a, since) && Leads(a, since, run, end)
    ensures end.expired && end.canceled && end.readLimit == a.readLimit && end.writeLimit == a.writeLimit
    ensures end.deadline == a.deadline && end.expiredAt == a.expiredAt && end.timer.None?
    decreases |run|
  {
    if run != [] {
      StepKeeps(a, since, run[0]);
      var b := Apply(a, run[0]);
      assert b.expired && b.readLimit == a.readLimit && b.writeLimit == a.writeLimit && b.deadline == a.deadline
             && b.expiredAt == a.expiredAt;
      hide Inv, Apply;
      ExpiryIsFinal(b, run[0].now, run[1..], end);
    }
  }

  predicate SetsNothing(run: seq<Timed>) {
    forall j :: 0 <= j < |run| ==> !run[j].event.ReadSet? && !run[j].event.WriteSet?
  }

  /** After finish only a deadline setter changes what ends the transfer. */
  lemma {:induction false} FinishedStays(a: Activity, since: real, run: seq<Timed>, end: Activity)
    requires a.finished && Leads(a, since, run, end) && SetsNothing(run)
    ensures end.readLimit == a.readLimit && end.writeLimit == a.writeLimit && end.expired == a.expired
    ensures end.readDeadline == a.readDeadline && end.writeDeadline == a.writeDeadline
    decreases |run|
  {
    if run != [] {
      assert !run[0].event.ReadSet? && !run[0].event.WriteSet?;
      FinishedStays(Apply(a, run[0]), run[0].now, run[1..], end);
    }
  }

  /** A limit that ends a drain: an idle interval after `at`, or the handler's own deadline if that comes first. */
  predicate Drains(limit: Option<real>, at: real, idle: real, explicit: Option<real>) {
    && limit.Some? && limit.value <= at + idle && (explicit.Some? ==> limit.value <= explicit.value)
    && (limit.value == at + idle || limit == explicit)
  }

  /** What is left of the connection's limits: of a kept timeout the handler's own deadline, or a drain. */
  predicate LimitAfter(limit: Option<real>, keep: bool, at: real, idle: real, explicit: Option<real>) {
    if keep then limit == explicit else Drains(limit, at, idle, explicit)
  }

  lemma {:induction false} FinishesOnce(a: Activity, since: real, run: seq<Timed>, end: Activity, i: nat)
    requires a.finished && Leads(a, since, run, end) && i < |run|
    ensures !run[i].event.Finished?
    decreases i
  {
    if i > 0 { FinishesOnce(Apply(a, run[0]), run[0].now, run[1..], end, i - 1); }
  }

  lemma {:induction false} FinishedWithin(a: Activity, since: real, run: seq<Timed>, i: nat, end: Activity)
    requires Inv(a, since) && !a.finished && Leads(a, since, run, end)
    requires i < |run| && run[i].event.Finished? && SetsNothing(run[i + 1..])
    ensures !end.expired ==>
              && LimitAfter(end.readLimit, a.keepRead, run[i].now, a.idle, end.readDeadline)
              && LimitAfter(end.writeLimit, a.keepWrite, run[i].now, a.idle, end.writeDeadline)
    ensures end.expired ==> end.readLimit == end.writeLimit == Some(end.expiredAt) && end.expiredAt <= run[i].now
    decreases i
  {
    var b := Apply(a, run[0]);
    if i == 0 {
      StepKeeps(a, since, run[0]);
      FinishedStays(b, run[0].now, run[1..], end);
      if b.expired { ExpiryIsFinal(b, run[0].now, run[1..], end); }
    } else {
      StepKeeps(a, since, run[0]);
      if b.finished { FinishesOnce(b, run[0].now, run[1..], end, i - 1); }
      assert b.idle == a.idle && b.keepRead == a.keepRead && b.keepWrite == a.keepWrite && !b.finished;
      assert run[1..][i..] == run[i + 1..];
      hide Inv, Apply;
      FinishedWithin(b, run[0].now, run[1..], i - 1, end);
    }
  }

  /** In every run, once the handler has finished, at event `i`, the connection's limits are exactly: for
      an expired transfer the time it expired; otherwise an idle interval from then, or the handler's own
      deadline if that comes first, unless the server keeps absolute timeouts of its own. */
  lemma DrainIsBounded(idle: real, keepRead: bool, keepWrite: bool, start: real, run: seq<Timed>, i: nat, end: Activity)
    requires idle >= 0.0 && Leads(Started(idle, keepRead, keepWrite, start), start, run, end)
    requires i < |run| && run[i].event.Finished? && SetsNothing(run[i + 1..])
    ensures !end.expired ==>
              && LimitAfter(end.readLimit, keepRead, run[i].now, idle, end.readDeadline)
              && LimitAfter(end.writeLimit, keepWrite, run[i].now, idle, end.writeDeadline)
    ensures end.expired ==> end.readLimit == end.writeLimit == Some(end.expiredAt) && end.expiredAt <= run[i].now
  {
    hide LimitAfter;
    FinishedWithin(Started(idle, keepRead, keepWrite, start), start, run, i, end);
  }

  /** The deadline that the handler set last, or `d` if it set none. */
  function LastRead(run: seq<Timed>, d: Option<real>): (r: Option<real>)
    decreases |run|
  {
    if run == [] then d else LastRead(run[1..], if run[0].event.ReadSet? then run[0].event.d else d)
  }

  function LastWrite(run: seq<Timed>, d: Option<real>): (r: Option<real>)
    decreases |run|
  {
    if run == [] then d else LastWrite(run[1..], if run[0].event.WriteSet? then run[0].event.d' else d)
  }

  lemma {:induction false} DeadlinesFollow(a: Activity, since: real, run: seq<Timed>, end: Activity)
    requires Inv(a, since) && Leads(a, since, run, end) && !end.expired
    ensures end.readDeadline == LastRead(run, a.readDeadline) && end.writeDeadline == LastWrite(run, a.writeDeadline)
    decreases |run|
  {
    if run != [] {
      StepKeeps(a, since, run[0]);
      var b := Apply(a, run[0]);
      if b.expired { ExpiryIsFinal(b, run[0].now, run[1..], end); }
      assert b.readDeadline == if run[0].event.ReadSet? then run[0].event.d else a.readDeadline;
      assert b.writeDeadline == if run[0].event.WriteSet? then run[0].event.d' else a.writeDeadline;
      hide Inv, Apply;
      DeadlinesFollow(b, run[0].now, run[1..], end);
    }
  }

  /** Until a transfer expires its deadlines are the last ones the handler set, and until it finishes
      the connection has exactly these. */
  lemma SettersDecide(idle: real, keepRead: bool, keepWrite: bool, start: real, run: seq<Timed>, end: Activity)
    requires idle >= 0.0 && Leads(Started(idle, keepRead, keepWrite, start), start, run, end) && !end.expired
    ensures end.readDeadline == LastRead(run, None) && end.writeDeadline == LastWrite(run, None)
    ensures !end.finished ==> end.readLimit == LastRead(run, None) && end.writeLimit == LastWrite(run, None)
  {
    var a := Started(idle, keepRead, keepWrite, start);
    DeadlinesFollow(a, start, run, end);
    var now := RunKeeps(a, start, run, end);
  }

  lemma {:induction false} FinishIsFinal(a: Activity, since: real, run: seq<Timed>, end: Activity)
    requires a.finished && !a.expired && Leads(a, since, run, end)
    ensures end.finished && !end.expired && end.canceled == a.canceled
    decreases |run|
  {
    if run != [] { FinishIsFinal(Apply(a, run[0]), run[0].now, run[1..], end); }
  }

  // ---------------------------------------------------------------------- the activity object

  class TransferActivity {
    const idle: real
    const keepRead: bool
    const keepWrite: bool
    var deadline: real
    var timer: Option<real>
    var readDeadline: Option<real>
    var writeDeadline: Option<real>
    var readLimit: Option<real>
    var writeLimit: Option<real>
    var finished: bool
    var expired: bool
    var canceled: bool
    ghost var firing: int
    ghost var lastProgress: real
    ghost var expiredAt: real

    ghost function Now(): (a: Activity)
      reads this
    {
      Activity(idle, keepRead, keepWrite, deadline, timer, firing, readDeadline, writeDeadline,
               readLimit, writeLimit, finished, expired, canceled, lastProgress, expiredAt)
    }

    constructor (idle: real, keepRead: bool, keepWrite: bool, now: real)
      ensures Now() == Started(idle, keepRead, keepWrite, now)
    {
      this.idle, this.keepRead, this.keepWrite := idle, keepRead, keepWrite;
      deadline, timer := now + idle, Some(now + idle);
      readDeadline, writeDeadline, readLimit, writeLimit := None, None, None, None;
      finished, expired, canceled := false, false, false;
      firing, lastProgress, expiredAt := 0, now, now;
    }

    method OnProgress(now: real)
      modifies this
      ensures Now() == Progress(old(Now()), now)
    {
      lastProgress := now;
      if !finished && !expired { deadline := now + idle; }
    }

    method OnTimer(now: real)
      modifies this
      ensures Now() == Expire(old(Now()), now)
    {
      firing := firing - 1;
      if finished { return; }
      var remaining := deadline - now;
      if remaining > 0.0 {
        timer := Some(now + remaining);
        return;
      }
      expired, canceled, expiredAt := true, true, now;
      readLimit, writeLimit := Some(now), Some(now);
    }

    method OnFinish(now: real)
      modifies this
      ensures Now() == Finish(old(Now()), now)
    {
      finished, timer := true, None;
      if expired { return; }
      var limit := now + idle;
      if !keepRead { readLimit := Some(Earlier(limit, readDeadline)); }
      if !keepWrite { writeLimit := Some(Earlier(limit, writeDeadline)); }
    }

    method SetReadDeadline(d: Option<real>) returns (ok: bool)
      modifies this
      ensures Now() == SetRead(old(Now()), d) && ok == !old(expired)
    {
      if expired { return false; }
      readDeadline, readLimit := d, d;
      return true;
    }

    method SetWriteDeadline(d: Option<real>) returns (ok: bool)
      modifies this
      ensures Now() == SetWrite(old(Now()), d) && ok == !old(expired)
    {
      if expired { return false; }
      writeDeadline, writeLimit := d, d;
      return true;
    }
  }

  // ------------------------------------------------------------------------ sliced responses

  const SLICE := 32 * 1024

  /** The client's side of a response: what arrived, and the size of each write. */
  class Connection {
    var arrived: string
    var writes: seq<int>

    constructor ()
      ensures arrived == "" && writes == []
    {
      arrived, writes := "", [];
    }

    /** A write may stop anywhere, with or without an error. */
    method Write(chunk: string) returns (n: nat, ok: bool)
      modifies this
      ensures n <= |chunk| && arrived == old(arrived) + chunk[..n] && writes == old(writes) + [|chunk|]
    {
      n :| 0 <= n <= |chunk|;
      ok := *;
      arrived, writes := arrived + chunk[..n], writes + [|chunk|];
    }
  }

  datatype WriteError = WriteFailed | ShortWrite

  /** The writes made since `before`, each of at most a slice. */
  predicate Slices(before: seq<int>, after: seq<int>) {
    before <= after && forall i :: |before| <= i < |after| ==> 0 <= after[i] <= SLICE
  }

  /** transferResponseWriter.Write: in slices of at most 32 KiB, with progress after each slice of
      which anything arrived. `last` is the last such write, made at `now(last)`. */
  method WriteSliced(w: Connection, a: TransferActivity, p: string, now: int -> real)
    returns (total: nat, e: Option<WriteError>, ghost last: int)
    modifies w, a
    ensures total <= |p| && w.arrived == old(w.arrived) + p[..total] && Slices(old(w.writes), w.writes)
    ensures e.None? ==> total == |p|
    ensures e == Some(ShortWrite) ==> total < |p|
    ensures a.expired == old(a.expired) && a.finished == old(a.finished)
    ensures total == 0 ==> a.Now() == old(a.Now())
    ensures total > 0 ==> |old(w.writes)| <= last < |w.writes| && a.lastProgress == now(last)
  {
    total, e, last := 0, None, 0;
    if p == "" {
      var _, ok := w.Write(p);
      if !ok { e := Some(WriteFailed); }
      return;
    }
    while total < |p|
      invariant total <= |p| && w.arrived == old(w.arrived) + p[..total] && Slices(old(w.writes), w.writes)
      invariant a.expired == old(a.expired) && a.finished == old(a.finished)
      invariant total == 0 ==> a.Now() == old(a.Now())
      invariant total > 0 ==> |old(w.writes)| <= last < |w.writes| && a.lastProgress == now(last)
    {
      var size := if |p| - total < SLICE then |p| - total else SLICE;
      var k := |w.writes|;
      var n, ok := w.Write(p[total..total + size]);
      Extend(p, total, size, n);
      total := total + n;
      if n > 0 {
        a.OnProgress(now(k));
        last := k;
      }
      if !ok { return total, Some(WriteFailed), last; }
      if n != size { return total, Some(ShortWrite), last; }
    }
  }

  lemma Extend(p: string, total: nat, size: nat, n: nat)
    requires total + size <= |p| && n <= size
    ensures p[..total] + p[total..total + size][..n] == p[..total + n]
  {}
}
