/** The buffered byte source of a request body, with reads as short as it likes. */
module ByteSource {
  import opened Text
  import opened ChunkText
  import opened ChunkSpec

  /** `rest` is what the client still sends and `fail` what the source answers after it. A read
      may deliver any part of what was asked for, or nothing without an error `stalls` times. */
  class ByteStream {
    var rest: string
    var stalls: nat
    const fail: Err

    constructor (rest: string, stalls: nat, fail: Err)
      ensures this.rest == rest && this.stalls == stalls && this.fail == fail
    {
      this.rest, this.stalls, this.fail := rest, stalls, fail;
    }

    method ReadByte() returns (c: Option<char>)
      modifies `rest
      ensures c == if old(rest) == "" then None else Some(old(rest)[0])
      ensures rest == if old(rest) == "" then "" else old(rest)[1..]
    {
      if rest == "" { return None; }
      c, rest := Some(rest[0]), rest[1..];
    }

    method ReadSome(p: array<char>, lo: nat, hi: nat) returns (n: nat, e: Option<Err>)
      requires lo < hi <= p.Length
      modifies this, p
      ensures n <= hi - lo && n <= |old(rest)| && rest == old(rest)[n..]
      ensures p[..] == old(p[..lo]) + old(rest)[..n] + old(p[lo + n..])
      ensures n > 0 ==> e.None?
      ensures e.Some? ==> old(rest) == "" && e.value == fail
      ensures stalls <= old(stalls) && (n == 0 && e.None? ==> stalls < old(stalls))
    {
      if rest == "" { return 0, Some(fail); }
      if * {
        if stalls > 0 {
          stalls := stalls - 1;
          return 0, None;
        }
      }
      n :| 1 <= n <= hi - lo && n <= |rest|;
      e := None;
      ghost var before, data := p[..], rest[..n];
      forall i | 0 <= i < n { p[lo + i] := rest[i]; }
      rest := rest[n..];
      assert p[..] == before[..lo] + data + before[lo + n..];
    }

    /** io.ReadFull into the first `n` cells of `p`. */
    method ReadFull(p: array<char>, n: nat) returns (got: nat, e: Option<Err>)
      requires 0 < n <= p.Length
      modifies this, p
      ensures got == (if |old(rest)| < n then |old(rest)| else n) && p[..got] == old(rest)[..got] && rest == old(rest)[got..]
      ensures e == if got == n then None else Some(if got > 0 && fail.Eof? then UnexpectedEof else fail)
    {
      got := 0;
      while got < n
        invariant got <= n && got <= |old(rest)|
        invariant p[..got] == old(rest)[..got] && rest == old(rest)[got..]
        decreases n - got, stalls
      {
        var k, err := ReadSome(p, got, n);
        if err.Some? {
          return got, Some(if got > 0 && fail.Eof? then UnexpectedEof else fail);
        }
        got := got + k;
      }
      e := None;
    }

    /** readLineBounded. */
    method ReadLineBounded(max: nat) returns (line: string, e: Option<Err>)
      modifies `rest
      ensures match ReadLine(old(rest), max)
              case Line(text, more) => e == None && line == text && rest == more
              case TooLong(more) => e == Some(InvalidHeader) && rest == more
              case Dry(partial) => e == Some(fail) && line == partial && rest == ""
    {
      line := "";
      while true
        invariant old(rest) == line + rest && '\n' !in line && |line| <= max
        decreases |rest|
      {
        ghost var before := rest;
        var c := ReadByte();
        if c.None? {
          assert line + "" == line;
          return line, Some(fail);
        }
        assert old(rest) == line + [c.value] + rest;
        if c.value == '\n' {
          IndexOfAfter(line, '\n', rest);
          assert old(rest)[..|line|] == line && old(rest)[|line| + 1..] == rest;
          return line, None;
        }
        if |line| >= max {
          assert '\n' !in old(rest)[..max + 1];
          assert old(rest)[max + 1..] == rest;
          return "", Some(InvalidHeader);
        }
        line := line + [c.value];
      }
    }

    /** consumeCRLF. */
    method ConsumeCrlf() returns (e: Option<Err>)
      modifies `rest
      ensures var r := EatCrlf(old(rest), fail);
              rest == r.rest && e == if r.SectionErr? then Some(r.err) else None
    {
      var b1 := ReadByte();
      if b1.None? { return Some(fail); }
      var b2 := ReadByte();
      if b2.None? { return Some(fail); }
      if b1.value != '\r' || b2.value != '\n' { return Some(MissingCrlf); }
      return None;
    }

    /** discardOptionalBlankLine. */
    method DiscardOptionalBlankLine()
      modifies `rest
      ensures rest == DropBlank(old(rest))
    {
      if |rest| >= 2 && rest[0] == '\r' && rest[1] == '\n' {
        rest := rest[2..];
      } else if |rest| >= 1 && rest[0] == '\n' {
        rest := rest[1..];
      }
    }
  }
}
