/** The reader that compares a body with its declared SHA-256 when the body ends. */
module PayloadHash {
  import opened Text
  import opened ChunkSpec

  /** Any source of reads: as short as it likes, empty `stalls` times, and free to report its end
      together with its last bytes. */
  class Feed {
    var rest: string
    var stalls: nat
    const fail: Err

    constructor (rest: string, stalls: nat, fail: Err)
      ensures this.rest == rest && this.stalls == stalls && this.fail == fail
    {
      this.rest, this.stalls, this.fail := rest, stalls, fail;
    }

    method Read(p: array<char>, lo: nat, hi: nat) returns (n: nat, e: Option<Err>, ghost data: string)
      requires lo < hi <= p.Length
      modifies this, p
      ensures n <= hi - lo && |data| == n && p[lo..lo + n] == data && old(rest) == data + rest
      ensures forall i :: 0 <= i < p.Length && !(lo <= i < lo + n) ==> p[i] == old(p[i])
      ensures e.Some? ==> rest == "" && e.value == fail
      ensures n == 0 && e.None? ==> stalls < old(stalls)
    {
      if rest == "" { return 0, Some(fail), ""; }
      if * {
        if stalls > 0 {
          stalls := stalls - 1;
          return 0, None, "";
        }
      }
      n :| 1 <= n <= hi - lo && n <= |rest|;
      data := rest[..n];
      forall i | 0 <= i < n { p[lo + i] := rest[i]; }
      assert forall i :: lo <= i < lo + n ==> p[i] == data[i - lo];
      rest := rest[n..];
      e := None;
      if * {
        if rest == "" { e := Some(fail); }
      }
    }
  }

  class HashReader {
    const r: Feed
    const sha256: string -> string
    const expected: string
    var hashed: string        // what the running hash has absorbed
    var err: Option<Err>

    constructor (r: Feed, sha256: string -> string, expected: string)
      ensures this.r == r && this.sha256 == sha256 && this.expected == expected && hashed == "" && err == None
    {
      this.r, this.sha256, this.expected, hashed, err := r, sha256, expected, "", None;
    }

    /** What this reader still delivers and how it ends: a clean end only for the declared digest. */
    ghost function Future(): (o: Outcome)
      reads this, r
    {
      if err.Some? then Outcome("", err.value, false)
      else
        Outcome(r.rest,
                if r.fail.Eof? && sha256(hashed + r.rest) != expected then PayloadHashMismatch else r.fail, false)
    }

    method Read(p: array<char>, lo: nat, hi: nat) returns (n: nat, e: Option<Err>, ghost data: string)
      requires lo < hi <= p.Length
      modifies this, r, p
      ensures n <= hi - lo && |data| == n && p[lo..lo + n] == data
      ensures forall i :: 0 <= i < p.Length && !(lo <= i < lo + n) ==> p[i] == old(p[i])
      ensures hashed == old(hashed) + data
      ensures e.None? ==> old(Future()) == Prepend(data, Future())
      ensures e.Some? ==> old(Future()).out == data && old(Future()).err == e.value
      ensures e == Some(Eof) && old(err).None? ==> sha256(hashed) == expected
      ensures n == 0 && e.None? ==> r.stalls < old(r.stalls)
    {
      if err.Some? { return 0, err, ""; }
      n, e, data := r.Read(p, lo, hi);
      hashed := hashed + p[lo..lo + n];
      assert old(hashed) + (data + r.rest) == hashed + r.rest;
      if e == Some(Eof) {
        assert hashed + "" == hashed;
        if sha256(hashed) != expected {
          err, e := Some(PayloadHashMismatch), Some(PayloadHashMismatch);
        }
      } else if e.Some? {
        err := e;
      }
    }
  }
}
