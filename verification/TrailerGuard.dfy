/** The guard that keeps the last byte of a body back until its end has been validated. */
module TrailerGuard {
  import opened Text
  import opened ChunkSpec
  import opened AwsChunked
  import opened PayloadHash

  /** What a guard can stand in front of. */
  datatype Upstream = Plain(feed: Feed) | Hashed(hashed: HashReader) | Chunked(chunked: AwsChunkedReader)
  {
    ghost function Repr(): (objects: set<object>)
      reads match this case Plain(f) => {f} case Hashed(h) => {h} case Chunked(c) => {c}
    {
      match this
      case Plain(f) => {f}
      case Hashed(h) => {h, h.r}
      case Chunked(c) => {c, c.br, c.buf}
    }

    ghost predicate Valid()
      reads Repr(), match this case Plain(f) => {f} case Hashed(h) => {h} case Chunked(c) => {c}
    {
      Chunked? ==> chunked.Valid()
    }

    /** All that is still to come from here, and how it ends. */
    ghost function Future(): (o: Outcome)
      reads Repr(), match this case Plain(f) => {f} case Hashed(h) => {h} case Chunked(c) => {c}
      requires Valid()
    {
      match this
      case Plain(f) => Outcome(f.rest, f.fail, false)
      case Hashed(h) => h.Future()
      case Chunked(c) => TakeRest(c.cfg, c.Now(), c.br.fail)
    }

    ghost function Stalls(): (n: nat)
      reads Repr(), match this case Plain(f) => {f} case Hashed(h) => {h} case Chunked(c) => {c}
    {
      match this case Plain(f) => f.stalls case Hashed(h) => h.r.stalls case Chunked(c) => 0
    }

    method Read(p: array<char>, lo: nat, hi: nat) returns (n: nat, e: Option<Err>, ghost data: string)
      requires Valid() && lo < hi <= p.Length && p !in Repr()
      modifies Repr(), p
      ensures Valid() && fresh(Repr() - old(Repr())) && p !in Repr()
      ensures n <= hi - lo && |data| == n && p[lo..lo + n] == data
      ensures forall i :: 0 <= i < p.Length && !(lo <= i < lo + n) ==> p[i] == old(p[i])
      ensures e.None? ==> old(Future()) == Prepend(data, Future())
      ensures e.Some? ==> old(Future()).out == data && old(Future()).err == e.value
      ensures n == 0 && e.None? ==> Stalls() < old(Stalls())
    {
      match this
      case Plain(f) =>
        n, e, data := f.Read(p, lo, hi);
        assert e.Some? ==> data + "" == data;
      case Hashed(h) =>
        n, e, data := h.Read(p, lo, hi);
      case Chunked(c) =>
        hide TakeRest;
        n, e, data := c.Read(p, lo, hi);
    }
  }

  // ------------------------------------------------------------------------------ the guard

  function ButLast(s: string): (r: string) {
    if s == "" then "" else s[..|s| - 1]
  }

  /** What a guard hands out of a stream: all of it after a clean end, otherwise all but its last byte. */
  function Released(o: Outcome): (r: string) {
    if o.err.Eof? then o.out else ButLast(o.out)
  }

  lemma Regroup(got: string, data: string, before: string, after: string)
    ensures before == data + after ==> got + before == got + data + after
    ensures before == data ==> got + before == got + data
  {}

  /** Less is left to come, or as much with fewer empty reads. */
  predicate Closer(before: nat, stallsBefore: nat, after: nat, stalls: nat) {
    after < before || (after == before && stalls < stallsBefore)
  }

  class TrailerGuardReader {
    const up: Upstream
    var carry: char
    var haveCarry: bool
    var err: Option<Err>

    ghost const total: Outcome  // what the stream behind the guard holds
    ghost var got: string       // what was read from it
    ghost var out: string       // what was handed out

    ghost function Held(): (s: string)
      reads this
    {
      if haveCarry then [carry] else ""
    }

    /** Before the end exactly the last byte read is held back; after a clean end whatever is held
        was validated; after any other error the last byte is gone. */
    ghost predicate Holds()
      reads this
    {
      match err
      case None => out + Held() == got && (haveCarry <==> got != "")
      case Some(e) =>
        && total.out == got && total.err == e
        && if e.Eof? then out + Held() == got else !haveCarry && out == ButLast(got)
    }

    ghost predicate Valid()
      reads this, up.Repr(), match up case Plain(f) => {f} case Hashed(h) => {h} case Chunked(c) => {c}
    {
      && up.Valid() && this !in up.Repr() && Holds()
      && (err.None? ==> total == Prepend(got, up.Future()))
    }

    constructor (up: Upstream)
      requires up.Valid()
      ensures Valid() && this.up == up && total == up.Future() && got == "" && out == "" && err == None
    {
      this.up, carry, haveCarry, err, got, out := up, '\0', false, None, "", "";
      total := up.Future();
      new;
      assert "" + up.Future().out == up.Future().out;
    }

    /** One read of the stream behind the guard. */
    method Pull(p: array<char>, lo: nat) returns (n: nat, e: Option<Err>, ghost data: string)
      requires Valid() && err.None? && lo < p.Length && p !in up.Repr()
      modifies `got, up.Repr(), p
      ensures up.Valid() && this !in up.Repr() && p !in up.Repr() && fresh(up.Repr() - old(up.Repr()))
      ensures |data| == n <= p.Length - lo && p[lo..lo + n] == data && got == old(got) + data
      ensures forall i :: 0 <= i < lo ==> p[i] == old(p[i])
      ensures e.None? ==> total == Prepend(got, up.Future())
      ensures e.Some? ==> total.out == got && total.err == e.value
      ensures e.None? ==> Closer(|old(up.Future().out)|, old(up.Stalls()), |up.Future().out|, up.Stalls())
    {
      ghost var before := up.Future();
      n, e, data := up.Read(p, lo, p.Length);
      Regroup(got, data, before.out, if e.None? then up.Future().out else "");
      got := got + data;
    }

    /** With a byte held and room for one: any further byte shows that the held one was not the last. */
    method SettleOne(p: array<char>, k: nat, x: Option<Err>, ghost data: string) returns (n: nat, e: Option<Err>)
      requires p.Length == 1 && k <= 1 && p[..k] == data && err.None? && haveCarry && out + [carry] + data == got
      requires x.Some? ==> total.out == got && total.err == x.value
      modifies `carry, `haveCarry, `err, `out, p
      ensures Holds() && err == x && n <= 1 && out == old(out) + p[..n]
      ensures e.Some? ==> n == 0 && x == e && !haveCarry
      ensures n == 0 && e.None? ==> x.None? && k == 0
    {
      var held, next := carry, p[0];
      p[0] := held;
      err := x;
      if k > 0 {
        out, carry, haveCarry := out + [held], next, x.None? || x.value.Eof?;
        return 1, None;
      }
      if x.None? { return 0, None; }
      haveCarry := false;
      if !x.value.Eof? { return 0, x; }
      out := out + [held];
      return 1, None;
    }

    function Lo(): (lo: nat)
      reads this
    {
      if haveCarry then 1 else 0
    }

    /** New bytes behind any held one: all but the last of them are known not to be final, unless
        a clean end came with them. */
    method SettleMany(p: array<char>, k: nat, x: Option<Err>, ghost all: string) returns (n: nat, e: Option<Err>)
      requires err.None? && k > 0 && Lo() + k <= p.Length && p[..Lo() + k] == all && out + all == got
      requires x.Some? ==> total.out == got && total.err == x.value
      modifies `carry, `haveCarry, `err, `out
      ensures Holds() && err == x && n <= p.Length && out == old(out) + p[..n]
      ensures e.Some? ==> n == 0 && x == e && !haveCarry
      ensures n == 0 && e.None? ==> x.None?
    {
      n := Lo() + k - 1;
      carry, haveCarry, err := p[n], x.None?, x;
      assert all == p[..n] + [p[n]];
      assert out + all == out + p[..n] + [p[n]];
      if x.Some? && x.value.Eof? {
        n := n + 1;
        assert p[..n] == all;
      }
      out := out + p[..n];
      e := if n == 0 then x else None;
    }

    /** Nothing new. */
    method SettleNone(p: array<char>, x: Option<Err>) returns (n: nat, e: Option<Err>)
      requires err.None? && Holds() && (haveCarry ==> p.Length > 0 && p[0] == carry)
      requires x.Some? ==> total.out == got && total.err == x.value
      modifies `haveCarry, `err, `out
      ensures Holds() && err == x && n <= p.Length && out == old(out) + p[..n]
      ensures e.Some? ==> n == 0 && x == e && !haveCarry
      ensures n == 0 && e.None? ==> x.None?
    {
      if x.None? { return 0, None; }
      var had := haveCarry;
      haveCarry, err := false, x;
      if !x.value.Eof? || !had { return 0, x; }
      out := out + p[..1];
      return 1, None;
    }

    method Settle(p: array<char>, k: nat, x: Option<Err>, ghost data: string) returns (n: nat, e: Option<Err>)
      requires err.None? && Lo() + k <= p.Length && |data| == k && p[Lo()..Lo() + k] == data
      requires out + Held() + data == got && (haveCarry <==> out + Held() != "")
      requires haveCarry ==> p.Length > 0 && p[0] == carry
      requires x.Some? ==> total.out == got && total.err == x.value
      modifies `carry, `haveCarry, `err, `out
      ensures Holds() && err == x && n <= p.Length && out == old(out) + p[..n]
      ensures e.Some? ==> n == 0 && x == e && !haveCarry
      ensures n == 0 && e.None? ==> x.None?
    {
      if k > 0 {
        Joined(p, Lo(), k, Held(), data, out);
        n, e := SettleMany(p, k, x, Held() + data);
      } else {
        n, e := SettleNone(p, x);
      }
    }

    /** Settling touches neither the stream behind the guard nor the buffer. */
    method SettleBehind(p: array<char>, k: nat, x: Option<Err>, ghost data: string) returns (n: nat, e: Option<Err>)
      requires err.None? && Lo() + k <= p.Length && |data| == k && p[Lo()..Lo() + k] == data
      requires out + Held() + data == got && (haveCarry <==> out + Held() != "")
      requires haveCarry ==> p.Length > 0 && p[0] == carry
      requires x.Some? ==> total.out == got && total.err == x.value
      requires up.Valid() && this !in up.Repr() && (x.None? ==> total == Prepend(got, up.Future()))
      modifies `carry, `haveCarry, `err, `out
      ensures Valid() && up.Future() == old(up.Future()) && up.Stalls() == old(up.Stalls())
      ensures err == x && n <= p.Length && out == old(out) + p[..n]
      ensures e.Some? ==> n == 0 && x == e && !haveCarry
      ensures n == 0 && e.None? ==> x.None?
    {
      hide Upstream.Future, Upstream.Valid, Upstream.Stalls, Holds, Prepend;
      n, e := Settle(p, k, x, data);
    }

    /** A turn of the loop of Read with a byte held and room for one. */
    method TurnOne(p: array<char>) returns (n: nat, e: Option<Err>)
      requires Valid() && err.None? && haveCarry && p.Length == 1 && p !in up.Repr()
      modifies this, up.Repr(), p
      ensures Valid() && fresh(up.Repr() - old(up.Repr())) && p !in up.Repr()
      ensures n <= p.Length && out == old(out) + p[..n]
      ensures e.Some? ==> n == 0 && err == e && !haveCarry
      ensures n == 0 && e.None? ==>
                err.None? && Closer(|old(up.Future().out)|, old(up.Stalls()), |up.Future().out|, up.Stalls())
    {
      hide Upstream.Future, Upstream.Valid, Upstream.Stalls, Closer;
      var k, x;
      ghost var data;
      k, x, data := Pull(p, 0);
      n, e := SettleOne(p, k, x, data);
    }

    /** A turn that reads behind any held byte. */
    method TurnMany(p: array<char>) returns (n: nat, e: Option<Err>)
      requires Valid() && err.None? && Lo() < p.Length && (haveCarry ==> p[0] == carry) && p !in up.Repr()
      modifies this, up.Repr(), p
      ensures Valid() && fresh(up.Repr() - old(up.Repr())) && p !in up.Repr()
      ensures n <= p.Length && out == old(out) + p[..n]
      ensures e.Some? ==> n == 0 && err == e && !haveCarry
      ensures n == 0 && e.None? ==>
                err.None? && Closer(|old(up.Future().out)|, old(up.Stalls()), |up.Future().out|, up.Stalls())
    {
      hide Upstream.Future, Upstream.Valid, Upstream.Stalls, Closer;
      ghost var before := out + Held();
      assert before == got && (haveCarry <==> before != "");
      hide Holds, Prepend;
      var k, x;
      ghost var data;
      k, x, data := Pull(p, Lo());
      assert out + Held() == before && got == before + data;
      n, e := SettleBehind(p, k, x, data);
    }

    method Turn(p: array<char>) returns (n: nat, e: Option<Err>)
      requires Valid() && err.None? && p.Length > 0 && p !in up.Repr()
      modifies this, up.Repr(), p
      ensures Valid() && fresh(up.Repr() - old(up.Repr())) && p !in up.Repr()
      ensures n <= p.Length && out == old(out) + p[..n]
      ensures e.Some? ==> n == 0 && err == e && !haveCarry
      ensures n == 0 && e.None? ==>
                err.None? && Closer(|old(up.Future().out)|, old(up.Stalls()), |up.Future().out|, up.Stalls())
    {
      hide Upstream.Future, Upstream.Valid, Upstream.Stalls, Closer, Holds;
      if haveCarry && p.Length == 1 {
        n, e := TurnOne(p);
        return;
      }
      if haveCarry { p[0] := carry; }
      n, e := TurnMany(p);
    }

    /** After the end was seen: the held byte of a validated stream, then the error itself. */
    method Ended(p: array<char>) returns (n: nat, e: Option<Err>)
      requires err.Some? && Holds()
      modifies `haveCarry, `out, p
      ensures Holds() && n <= p.Length && out == old(out) + p[..n]
      ensures e.Some? ==> n == 0 && err == e && !haveCarry
      ensures e.None? && p.Length > 0 ==> n > 0
    {
      if !err.value.Eof? || !haveCarry { return 0, err; }
      if p.Length == 0 { return 0, None; }
      p[0], haveCarry := carry, false;
      out := out + p[..1];
      return 1, None;
    }

    method Read(p: array<char>) returns (n: nat, e: Option<Err>)
      requires Valid() && p !in up.Repr()
      modifies this, up.Repr(), p
      ensures Valid() && fresh(up.Repr() - old(up.Repr())) && p !in up.Repr()
      ensures n <= p.Length && out == old(out) + p[..n]
      ensures e.Some? ==> n == 0 && err == e && !haveCarry
      ensures e.None? && p.Length > 0 ==> n > 0
    {
      hide Upstream.Future, Upstream.Valid, Upstream.Stalls, Holds;
      if err.Some? {
        n, e := Ended(p);
        return;
      }
      n, e := 0, None;
      while p.Length > 0 && n == 0 && e.None?
        invariant Valid() && fresh(up.Repr() - old(up.Repr())) && p !in up.Repr()
        invariant n <= p.Length && out == old(out) + p[..n]
        invariant e.Some? ==> n == 0 && err == e && !haveCarry
        invariant n == 0 && e.None? ==> err.None?
        decreases n == 0 && e.None?, |up.Future().out|, up.Stalls()
      {
        n, e := Turn(p);
      }
    }

    /** What was handed out is always a prefix of the stream, short of its last byte until its end
        is known, and after the final error it is exactly what may be released. */
    lemma Progress()
      requires Valid()
      ensures out <= total.out
      ensures err.None? && got != "" ==> out < got <= total.out
      ensures err.Some? && !haveCarry ==> out == Released(total) && err.value == total.err
    {
      hide Upstream.Future, Upstream.Valid, Upstream.Stalls;
      assert err.None? ==> got <= total.out;
      assert out <= got;
    }
  }

  lemma Joined(p: array<char>, lo: nat, k: nat, held: string, data: string, out: string)
    requires lo + k <= p.Length && p[lo..lo + k] == data && |held| == lo && (lo <= 1) && (lo == 1 ==> held[0] == p[0])
    ensures p[..lo + k] == held + data && out + (held + data) == out + held + data
  {}
}
