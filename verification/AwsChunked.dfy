/** The aws-chunked reader of internal/sigv4: it decodes in place, one chunk buffer per request. */
module AwsChunked {
  import opened Text
  import opened ChunkText
  import opened ChunkSpec
  import opened ChunkSafety
  import opened ByteSource

  // ----------------------------------------------------------------- the verified links

  /** What a signature vouched for: a chunk (the last one is empty) or the trailers. */
  datatype Link = ChunkLink(sig: string, data: string) | TrailerLink(sig: string, trailers: seq<Trailer>)

  function LastOf(origin: string, links: seq<Link>): (sig: string) {
    if links == [] then origin else links[|links| - 1].sig
  }

  /** The signature that continues `prev` over what `link` holds. */
  function Continues(sg: Signer, prev: string, link: Link): (sig: string) {
    if link.ChunkLink? then ChunkSignature(sg, prev, link.data) else TrailerSignature(sg, prev, link.trailers)
  }

  /** Every signature continues the one before it, from the request's own signature on. */
  predicate Linked(sg: Signer, origin: string, links: seq<Link>) {
    links == [] ||
    (var before := links[..|links| - 1];
     && Linked(sg, origin, before)
     && links[|links| - 1].sig == Continues(sg, LastOf(origin, before), links[|links| - 1]))
  }

  function LinkData(links: seq<Link>): (data: string) {
    if links == [] then ""
    else
      var last := links[|links| - 1];
      LinkData(links[..|links| - 1]) + (if last.ChunkLink? then last.data else "")
  }

  lemma AppendLink(sg: Signer, origin: string, links: seq<Link>, link: Link)
    requires Linked(sg, origin, links) && link.sig == Continues(sg, LastOf(origin, links), link)
    ensures Linked(sg, origin, links + [link]) && LastOf(origin, links + [link]) == link.sig
    ensures LinkData(links + [link]) == LinkData(links) + (if link.ChunkLink? then link.data else "")
  {
    hide Continues;
    assert (links + [link])[..|links|] == links;
  }

  // --------------------------------------------------------------------- checksum loops

  /** verifyTrailingChecksums over the payload absorbed by the running hashes. */
  method VerifyTrailingChecksums(checksums: seq<string>, digest: (string, string) -> string, hashed: string,
                                 trailers: seq<Trailer>)
    returns (e: Option<Err>)
    ensures e == ChecksumErr(checksums, digest, hashed, trailers)
  {
    for i := 0 to |checksums|
      invariant ChecksumErr(checksums, digest, hashed, trailers) == ChecksumErr(checksums[i..], digest, hashed, trailers)
    {
      var found, name := false, checksums[i];
      for j := 0 to |trailers|
        invariant found <==> Names(trailers[..j], name)
        invariant AllMatch(trailers[..j], name, digest(name, hashed))
      {
        assert trailers[..j + 1] == trailers[..j] + [trailers[j]];
        if trailers[j].name == name {
          found := true;
          assert trailers[..j + 1][j].name == name;
          if trailers[j].value != digest(name, hashed) {
            return Some(ChecksumMismatch);
          }
        }
      }
      assert trailers[..|trailers|] == trailers;
      if !found { return Some(InvalidTrailer); }
      assert checksums[i..][1..] == checksums[i + 1..];
    }
    return None;
  }

  // ------------------------------------------------------------------------ partial reads

  /** Handing out the first bytes of the buffer leaves the rest to hand out. */
  lemma TakeHead(cfg: Config, d: State, n: nat, fin: Err)
    requires cfg.Valid() && n <= |d.buffered|
    ensures TakeRest(cfg, d, fin) == Prepend(d.buffered[..n], TakeRest(cfg, d.(buffered := d.buffered[n..]), fin))
  {
    hide BeginChunk;
    var e := d.(buffered := d.buffered[n..]);
    var r := TakeRest(cfg, d.(buffered := ""), fin);
    TakeBuffered(cfg, d, fin);
    TakeBuffered(cfg, e, fin);
    assert e.(buffered := "") == d.(buffered := "");
    assert d.buffered + r.out == d.buffered[..n] + (d.buffered[n..] + r.out);
  }

  /** Streaming the first bytes of an unsigned chunk leaves the rest of it to stream. */
  lemma TakePart(cfg: Config, d: State, n: nat, fin: Err)
    requires cfg.Valid() && d.buffered == "" && n <= d.remaining && n <= |d.input|
    ensures TakeRest(cfg, d, fin) ==
            Prepend(d.input[..n], TakeRest(cfg, d.(input := d.input[n..], remaining := d.remaining - n,
                                                   decoded := d.decoded + d.input[..n]), fin))
  {
    hide BeginChunk, TakeRest;
    if n == 0 {
      var r := TakeRest(cfg, d, fin);
      assert d.input[..0] == "" && d.input[0..] == d.input && d.decoded + "" == d.decoded && "" + r.out == r.out;
    } else if d.remaining > |d.input| {
      TakeShort(cfg, d, fin);
      assert d.input[..n] + d.input[n..] == d.input;
      TakeShort(cfg, d.(input := d.input[n..], remaining := d.remaining - n, decoded := d.decoded + d.input[..n]), fin);
    } else {
      TakeStreamed(cfg, d, fin);
      if n < d.remaining { TakeInTwo(cfg, d, n, fin); }
    }
  }

  lemma TakeShort(cfg: Config, d: State, fin: Err)
    requires cfg.Valid() && d.buffered == "" && d.remaining > |d.input|
    ensures TakeRest(cfg, d, fin) == Outcome(d.input, if fin.Eof? then UnexpectedEof else fin, false)
  {}

  function AfterChunk(d: State): (e: State)
    requires 0 < d.remaining <= |d.input|
  {
    d.(input := d.input[d.remaining..], remaining := 0, decoded := d.decoded + d.input[..d.remaining])
  }

  lemma TakeStreamed(cfg: Config, d: State, fin: Err)
    requires cfg.Valid() && d.buffered == "" && 0 < d.remaining <= |d.input|
    ensures TakeRest(cfg, d, fin) == Prepend(d.input[..d.remaining], TakeRest(cfg, AfterChunk(d), fin))
  {}

  lemma TakeInTwo(cfg: Config, d: State, n: nat, fin: Err)
    requires cfg.Valid() && d.buffered == "" && 0 < n < d.remaining <= |d.input|
    requires TakeRest(cfg, d, fin) == Prepend(d.input[..d.remaining], TakeRest(cfg, AfterChunk(d), fin))
    ensures TakeRest(cfg, d, fin) ==
            Prepend(d.input[..n], TakeRest(cfg, d.(input := d.input[n..], remaining := d.remaining - n,
                                                   decoded := d.decoded + d.input[..n]), fin))
  {
    hide BeginChunk, TakeRest;
    var e := d.(input := d.input[n..], remaining := d.remaining - n, decoded := d.decoded + d.input[..n]);
    TakeStreamed(cfg, e, fin);
    var head, more, whole := d.input[..n], e.input[..e.remaining], d.input[..d.remaining];
    assert head + more == whole;
    assert e.input[e.remaining..] == d.input[d.remaining..];
    assert AfterChunk(e) == AfterChunk(d) by { assert d.decoded + whole == e.decoded + more; }
    var r := TakeRest(cfg, AfterChunk(d), fin);
    assert whole + r.out == head + (more + r.out);
  }

  lemma TakeDone(cfg: Config, d: State, fin: Err)
    requires cfg.Valid() && d.buffered == "" && d.remaining == 0 && d.done
    ensures Handed(cfg, fin, d, d, "", Some(Eof))
  {}

  lemma TakeNext(cfg: Config, d: State, fin: Err)
    requires cfg.Valid() && d.buffered == "" && d.remaining == 0 && !d.done
    ensures var b := BeginChunk(cfg, d, fin);
            Handed(cfg, fin, d, b.after.(done := b.Began? && b.after.done), "", if b.Failed? then Some(b.err) else None)
  {
    hide BeginChunk;
    var b := BeginChunk(cfg, d, fin);
    if b.Began? { NothingHanded(cfg, fin, b.after); }
  }

  /** A read that turned state `d` into `d'` handed out the next bytes of what `d` decodes to, or
      reported how that decoding ends. */
  predicate Handed(cfg: Config, fin: Err, d: State, d': State, data: string, e: Option<Err>)
    requires cfg.Valid()
  {
    if e.None? then TakeRest(cfg, d, fin) == Prepend(data, TakeRest(cfg, d', fin))
    else data == "" && TakeRest(cfg, d, fin) == Outcome("", e.value, d'.done)
  }

  lemma HeadHanded(cfg: Config, d: State, n: nat, fin: Err)
    requires cfg.Valid() && n <= |d.buffered|
    ensures Handed(cfg, fin, d, d.(buffered := d.buffered[n..]), d.buffered[..n], None)
  {
    TakeHead(cfg, d, n, fin);
  }

  lemma PartHanded(cfg: Config, d: State, n: nat, fin: Err)
    requires cfg.Valid() && d.buffered == "" && 0 <= n <= d.remaining && n <= |d.input| && !d.done
    ensures var d' := d.(input := d.input[n..], remaining := d.remaining - n, decoded := d.decoded + d.input[..n]);
            && Handed(cfg, fin, d, d', d.input[..n], None)
            && (n == 0 && d.input == "" && d.remaining > 0 ==>
                  Handed(cfg, fin, d, d', "", Some(if fin.Eof? then UnexpectedEof else fin)))
  {
    TakePart(cfg, d, n, fin);
    if d.remaining > |d.input| { TakeShort(cfg, d, fin); }
    hide TakeRest;
  }

  lemma NothingHanded(cfg: Config, fin: Err, d: State)
    requires cfg.Valid()
    ensures Handed(cfg, fin, d, d, "", None)
  {
    hide TakeRest;
    assert "" + TakeRest(cfg, d, fin).out == TakeRest(cfg, d, fin).out;
  }

  lemma HandedTwice(cfg: Config, fin: Err, d: State, d1: State, d2: State, data: string, e: Option<Err>)
    requires cfg.Valid() && Handed(cfg, fin, d, d1, "", None) && Handed(cfg, fin, d1, d2, data, e)
    ensures Handed(cfg, fin, d, d2, data, e)
  {
    hide TakeRest;
    assert "" + TakeRest(cfg, d1, fin).out == TakeRest(cfg, d1, fin).out;
  }

  lemma TakeFirst(a: string, b: string, n: nat)
    requires n <= |b|
    ensures a + b == a + b[..n] + b[n..]
  {}

  lemma SliceIs(a: array<char>, lo: nat, data: string)
    requires lo + |data| <= a.Length && forall i :: 0 <= i < |data| ==> data[i] == a[lo + i]
    ensures a[lo..lo + |data|] == data
  {}

  method CopyOut(src: array<char>, from: nat, dst: array<char>, lo: nat, n: nat)
    requires src != dst && from + n <= src.Length && lo + n <= dst.Length
    modifies dst
    ensures forall i :: lo <= i < lo + n ==> dst[i] == src[from + (i - lo)]
    ensures forall i :: 0 <= i < dst.Length && !(lo <= i < lo + n) ==> dst[i] == old(dst[i])
  {
    forall i | 0 <= i < n { dst[lo + i] := src[from + i]; }
    assert forall i :: lo <= i < lo + n ==> dst[i] == src[from + (i - lo)];
  }

  // ---------------------------------------------------------------------------- the reader

  class AwsChunkedReader {
    const br: ByteStream
    const cfg: Config
    var prev: string          // the verifier's PrevSig
    var hashed: string        // the payload that the running checksums have absorbed
    var decodedBytes: int
    var buf: array<char>
    var bufLen: nat
    var offset: nat
    var remaining: int
    var needCRLF: bool
    var done: bool
    var err: Option<Err>

    const origin: string
    ghost var links: seq<Link>
    ghost var given: string
    ghost var waiting: string // what is left in the chunk buffer

    /** The signatures accepted so far are one chain from the request signature. */
    ghost predicate Chained()
      reads this
    {
      cfg.signer.Some? ==> Linked(cfg.signer.value, origin, links) && prev == LastOf(origin, links)
    }

    ghost predicate Shape()
      reads this
    {
      && cfg.Valid() && offset <= bufLen <= buf.Length && (offset == bufLen ==> bufLen == 0)
      && |waiting| == bufLen - offset
      && decodedBytes == |hashed| && remaining >= 0 && (remaining > 0 ==> !done)
      && (if cfg.signer.Some? then remaining == 0 && !needCRLF else bufLen == 0)
    }

    /** What was handed out, with what waits in the buffer, is what the chain vouches for. */
    ghost predicate Valid()
      reads this, buf
    {
      && Shape() && Chained() && (forall i :: 0 <= i < |waiting| ==> waiting[i] == buf[offset + i])
      && (cfg.signer.Some? ==> LinkData(links) == given + waiting)
    }

    /** The decoding state this reader is in. */
    ghost function Now(): (d: State)
      reads this, br
    {
      State(prev, hashed, waiting, remaining, needCRLF, done, br.rest)
    }

    constructor (br: ByteStream, cfg: Config, prev: string)
      requires cfg.Valid()
      ensures Valid() && this.br == br && this.cfg == cfg && origin == prev && fresh(buf)
      ensures Now() == Start(prev, br.rest) && given == "" && links == [] && err == None
    {
      this.br, this.cfg, this.prev, origin := br, cfg, prev, prev;
      hashed, decodedBytes, bufLen, offset, remaining := "", 0, 0, 0, 0;
      needCRLF, done, err, links, given, waiting := false, false, None, [], "", "";
      buf := new char[0];
    }

    // ------------------------------------------------------------------------ trailers

    /** readTrailerSection. */
    method ReadTrailerSection() returns (trailers: seq<Trailer>, sig: string, e: Option<Err>)
      modifies br`rest
      ensures var r := ReadSection(cfg.signedTrailer, old(br.rest), br.fail, MAX_TRAILER_LINES, [], "");
              && br.rest == r.rest
              && if r.SectionErr? then e == Some(r.err) else e == None && trailers == r.trailers && sig == r.sig
    {
      hide ReadLine, ParseTrailer, DropCr, DropBlank;
      trailers, sig := [], "";
      for i := 0 to MAX_TRAILER_LINES
        invariant ReadSection(cfg.signedTrailer, old(br.rest), br.fail, MAX_TRAILER_LINES, [], "") ==
                  ReadSection(cfg.signedTrailer, br.rest, br.fail, MAX_TRAILER_LINES - i, trailers, sig)
      {
        var line, err := br.ReadLineBounded(MAX_TRAILER_LINE);
        var eof := err.Some? && err.value.Eof?;
        if err.Some? && !eof { return trailers, sig, err; }
        match ParseTrailer(DropCr(line)) {
          case Blank =>
            if eof || !cfg.signedTrailer || sig != "" { return trailers, sig, None; }
          case NoColon =>
            return trailers, sig, Some(InvalidTrailer);
          case SignatureLine(value) =>
            sig := value;
            if cfg.signedTrailer {
              if !eof { br.DiscardOptionalBlankLine(); }
              return trailers, sig, None;
            }
          case Field(field) =>
            trailers := trailers + [field];
        }
        if eof { return trailers, sig, None; }
      }
      return trailers, sig, Some(InvalidTrailer);
    }

    /** consumeTrailers. */
    method ConsumeTrailers() returns (e: Option<Err>)
      modifies br`rest
      ensures var r := SkipTrailers(old(br.rest), br.fail, MAX_TRAILER_LINES);
              br.rest == r.rest && e == if r.SectionErr? then Some(r.err) else None
    {
      hide ReadLine;
      for i := 0 to MAX_TRAILER_LINES
        invariant SkipTrailers(old(br.rest), br.fail, MAX_TRAILER_LINES) ==
                  SkipTrailers(br.rest, br.fail, MAX_TRAILER_LINES - i)
      {
        var line, err := br.ReadLineBounded(MAX_TRAILER_LINE);
        if err.Some? { return err; }
        if line == "" || line == "\r" { return None; }
      }
      return Some(InvalidTrailer);
    }

    /** verifyTrailerSignature. */
    method VerifyTrailerSignature(text: string, trailers: seq<Trailer>) returns (ok: bool)
      requires cfg.signer.Some? && Chained()
      modifies `prev, `links
      ensures Chained() && LinkData(links) == old(LinkData(links))
      ensures ok <==> Normalize(text) == Some(TrailerSignature(cfg.signer.value, old(prev), trailers))
      ensures prev == if ok then Normalize(text).value else old(prev)
    {
      hide Normalize, TrailerSignature;
      var sig := Normalize(text);
      if sig != Some(TrailerSignature(cfg.signer.value, prev, trailers)) { return false; }
      AppendLink(cfg.signer.value, origin, links, TrailerLink(sig.value, trailers));
      prev, links := sig.value, links + [TrailerLink(sig.value, trailers)];
      return true;
    }

    /** verifyNormalizedChunk. */
    method VerifyNormalizedChunk(sig: string, data: string) returns (ok: bool)
      requires cfg.signer.Some? && Chained()
      modifies `prev, `links
      ensures Chained() && LinkData(links) == old(LinkData(links)) + (if ok then data else "")
      ensures ok <==> sig == ChunkSignature(cfg.signer.value, old(prev), data)
      ensures prev == if ok then sig else old(prev)
    {
      hide ChunkSignature;
      if sig != ChunkSignature(cfg.signer.value, prev, data) { return false; }
      AppendLink(cfg.signer.value, origin, links, ChunkLink(sig, data));
      prev, links := sig, links + [ChunkLink(sig, data)];
      return true;
    }

    /** What a step of the specification does, done to this reader's fields. */
    ghost predicate Became(b: Begun, e: Option<Err>)
      reads this, br
    {
      Now() == b.after && e == if b.Failed? then Some(b.err) else None
    }

    /** finishTrailers in the trailer modes, and done. */
    method FinishSection() returns (e: Option<Err>)
      requires Valid() && remaining == 0
      modifies `prev, `links, `done, br`rest
      ensures Valid() && Became(FinishTrailers(cfg, old(Now()), br.fail), e)
      ensures e.Some? ==> done == old(done)
    {
      hide Normalize, ReadSection, ChecksumErr, TrailerSignature, Linked, LinkData, LastOf;
      var trailers, sig;
      trailers, sig, e := ReadTrailerSection();
      if e.Some? { return; }
      if cfg.signedTrailer {
        if sig == "" { return Some(MissingTrailerSig); }
        var ok := VerifyTrailerSignature(sig, trailers);
        if !ok { return Some(InvalidSig); }
      }
      e := VerifyTrailingChecksums(cfg.checksums, cfg.digest, hashed, trailers);
      if e.None? { done := true; }
    }

    /** The end of beginChunk for the zero-length chunk: the length, the trailers, done. */
    method Finish() returns (e: Option<Err>)
      requires Valid() && remaining == 0
      modifies `prev, `links, `done, br`rest
      ensures Valid() && Became(FinishBody(cfg, old(Now()), br.fail), e)
      ensures e.Some? ==> done == old(done)
    {
      hide SkipTrailers, FinishTrailers, Linked, LinkData, LastOf;
      if decodedBytes != cfg.expected { return Some(LengthMismatch); }
      if cfg.signer.Some? && !cfg.signedTrailer {
        e := ConsumeTrailers();
        if e.None? { done := true; }
      } else {
        e := FinishSection();
      }
    }

    // -------------------------------------------------------------------------- chunks

    /** beginChunk for a zero-length header. */
    method BeginLast(text: string) returns (e: Option<Err>)
      requires Valid() && bufLen == 0 && remaining == 0
      modifies `prev, `links, `done, br`rest
      ensures Valid() && Became(LastChunk(cfg, old(Now()), text, br.fail), e)
      ensures e.Some? ==> done == old(done)
    {
      hide Normalize, ChunkSignature, FinishBody, Linked, LinkData, LastOf;
      if cfg.signer.Some? {
        if text == "" { return Some(MissingChunkSig); }
        var sig := Normalize(text);
        if sig.None? { return Some(InvalidSig); }
        var ok := VerifyNormalizedChunk(sig.value, "");
        if !ok { return Some(InvalidSig); }
        assert LinkData(links) == old(LinkData(links)) + "";
      }
      e := Finish();
    }

    /** The data of a signed chunk and its CRLF, into a buffer that is reused when large enough. */
    method FillChunk(size: nat) returns (e: Option<Err>)
      requires Shape() && bufLen == 0 && size > 0
      modifies `buf, br, buf
      ensures Shape() && (buf == old(buf) || fresh(buf))
      ensures |old(br.rest)| < size ==>
                br.rest == "" && e == Some(if old(br.rest) != "" && br.fail.Eof? then UnexpectedEof else br.fail)
      ensures |old(br.rest)| >= size ==>
                var r := EatCrlf(old(br.rest)[size..], br.fail);
                && br.rest == r.rest && e == (if r.SectionErr? then Some(r.err) else None)
                && size <= buf.Length && buf[..size] == old(br.rest)[..size]
    {
      hide EatCrlf;
      if buf.Length < size { buf := new char[size]; }
      var got;
      got, e := br.ReadFull(buf, size);
      if e.None? { e := br.ConsumeCrlf(); }
    }

    /** Verifies the chunk in the buffer. Its bytes count only if the signature continues the chain. */
    method AcceptChunk(size: nat, sig: string) returns (ok: bool)
      requires Valid() && bufLen == 0 && cfg.signer.Some? && 0 < size <= buf.Length
      modifies `prev, `links, `decodedBytes, `hashed, `bufLen, `waiting
      ensures Valid() && (ok <==> sig == ChunkSignature(cfg.signer.value, old(prev), buf[..size]))
      ensures Now() == if ok then old(Now()).(prev := sig, decoded := old(hashed) + buf[..size], buffered := buf[..size])
                       else old(Now())
      ensures !ok ==> bufLen == 0
    {
      hide ChunkSignature, Linked, LinkData, LastOf;
      var chunk := buf[..size];
      ok := VerifyNormalizedChunk(sig, chunk);
      if ok {
        decodedBytes, hashed, bufLen, waiting := decodedBytes + size, hashed + chunk, size, chunk;
      }
    }

    /** beginChunk for a signed chunk. */
    method BeginSigned(size: nat, text: string) returns (e: Option<Err>)
      requires Valid() && bufLen == 0 && cfg.signer.Some? && size > 0
      modifies this, br, buf
      ensures Valid() && (buf == old(buf) || fresh(buf)) && given == old(given) && err == old(err)
      ensures Became(SignedChunk(cfg, old(Now()), size, text, br.fail), e)
      ensures e.Some? ==> done == old(done) && bufLen == 0
    {
      hide Normalize, ChunkSignature, EatCrlf, Linked, LinkData, LastOf;
      if text == "" { return Some(MissingChunkSig); }
      var sig := Normalize(text);
      if sig.None? { return Some(InvalidSig); }
      e := FillChunk(size);
      if e.Some? { return; }
      var ok := AcceptChunk(size, sig.value);
      if !ok { return Some(InvalidSig); }
    }

    /** beginChunk for an unsigned chunk, which is streamed through. */
    method BeginUnsigned(size: nat)
      requires Valid() && bufLen == 0 && !done && cfg.signer.None?
      modifies `remaining, `needCRLF
      ensures Valid() && Now() == old(Now()).(remaining := size, needCRLF := true)
    {
      remaining, needCRLF := size, true;
    }

    /** beginChunk after the header. */
    method BeginSized(size: nat, sig: string) returns (e: Option<Err>)
      requires Valid() && bufLen == 0 && remaining == 0 && !done
      modifies this, br, buf
      ensures Valid() && (buf == old(buf) || fresh(buf)) && given == old(given) && err == old(err)
      ensures Became(StartChunk(cfg, old(Now()), size, sig, br.fail), e)
      ensures e.Some? ==> done == old(done) && bufLen == 0
    {
      hide LastChunk, SignedChunk, Linked, LinkData, LastOf;
      if size == 0 {
        e := BeginLast(sig);
      } else if cfg.signer.Some? && size > MAX_SIGNED_CHUNK {
        e := Some(InvalidHeader);
      } else if decodedBytes > cfg.expected || size > cfg.expected - decodedBytes {
        e := Some(LengthMismatch);
      } else if cfg.signer.None? {
        BeginUnsigned(size);
        e := None;
      } else {
        e := BeginSigned(size, sig);
      }
    }

    /** beginChunk after an outstanding CRLF. */
    method BeginHeader() returns (e: Option<Err>)
      requires Valid() && bufLen == 0 && remaining == 0 && !needCRLF && !done
      modifies this, br, buf
      ensures Valid() && (buf == old(buf) || fresh(buf)) && given == old(given) && err == old(err)
      ensures Became(ReadChunk(cfg, old(Now()), br.fail), e)
      ensures e.Some? ==> done == old(done) && bufLen == 0
    {
      hide ReadLine, ParseHeader, StartChunk, Linked, LinkData, LastOf;
      var line;
      line, e := br.ReadLineBounded(MAX_HEADER_LINE);
      if e.Some? { return; }
      var h := ParseHeader(line);
      if h.BadHeader? { return Some(InvalidHeader); }
      e := BeginSized(h.size, h.sig);
    }

    method BeginNext() returns (e: Option<Err>)
      requires Valid() && bufLen == 0 && remaining == 0 && !done
      modifies this, br, buf
      ensures Valid() && (buf == old(buf) || fresh(buf)) && given == old(given) && err == old(err)
      ensures Became(BeginChunk(cfg, old(Now()), br.fail), e)
      ensures e.Some? ==> done == old(done) && bufLen == 0
    {
      hide ReadChunk, EatCrlf, Linked, LinkData, LastOf;
      if needCRLF {
        e := br.ConsumeCrlf();
        if e.Some? { return; }
        needCRLF := false;
      }
      e := BeginHeader();
    }

    // ----------------------------------------------------------------------------- reads

    method CopyWaiting(p: array<char>, lo: nat, n: nat)
      requires Valid() && n <= |waiting| && lo + n <= p.Length && p != buf
      modifies p
      ensures p[lo..lo + n] == waiting[..n]
      ensures forall i :: 0 <= i < p.Length && !(lo <= i < lo + n) ==> p[i] == old(p[i])
    {
      CopyOut(buf, offset, p, lo, n);
      SliceIs(p, lo, waiting[..n]);
    }

    /** Copies from the chunk buffer, which is kept for the next chunk. */
    method Drain(p: array<char>, lo: nat, hi: nat) returns (n: nat, ghost data: string)
      requires Valid() && offset < bufLen && lo < hi <= p.Length && p != buf
      modifies `bufLen, `offset, `given, `waiting, p
      ensures Valid() && 0 < n <= hi - lo
      ensures forall i :: 0 <= i < p.Length && !(lo <= i < lo + n) ==> p[i] == old(p[i])
      ensures |data| == n && p[lo..lo + n] == data && given == old(given) + data
      ensures Handed(cfg, br.fail, old(Now()), Now(), data, None)
    {
      hide Linked, LinkData, LastOf, Handed;
      n := if bufLen - offset < hi - lo then bufLen - offset else hi - lo;
      HeadHanded(cfg, Now(), n, br.fail);
      data := waiting[..n];
      CopyWaiting(p, lo, n);
      TakeFirst(given, waiting, n);
      given, waiting := given + data, waiting[n..];
      offset := offset + n;
      if offset == bufLen { bufLen, offset := 0, 0; }
    }

    /** Streams from an unsigned chunk. */
    method Stream(p: array<char>, lo: nat, hi: nat) returns (n: nat, e: Option<Err>, ghost data: string)
      requires Valid() && remaining > 0 && lo < hi <= p.Length && p != buf
      modifies `remaining, `decodedBytes, `hashed, `given, br, p
      ensures Valid() && n <= hi - lo
      ensures forall i :: 0 <= i < p.Length && !(lo <= i < lo + n) ==> p[i] == old(p[i])
      ensures |data| == n && p[lo..lo + n] == data && given == old(given) + data
      ensures Handed(cfg, br.fail, old(Now()), Now(), data, e)
      ensures n == 0 && e.None? ==> |br.rest| == |old(br.rest)| && br.stalls < old(br.stalls)
    {
      hide Linked, LinkData, LastOf, Handed;
      ghost var d := Now();
      var limit := if hi - lo > remaining then lo + remaining else hi;
      n, e := br.ReadSome(p, lo, limit);
      data := d.input[..n];
      assert p[lo..lo + n] == data;
      PartHanded(cfg, d, n, br.fail);
      remaining, decodedBytes, hashed, given := remaining - n, decodedBytes + n, hashed + p[lo..lo + n], given + data;
      if e.Some? && e.value.Eof? { e := Some(UnexpectedEof); }
    }

    /** One turn of the loop of read: either it answers, or it gets closer to answering. */
    method Turn(p: array<char>, lo: nat, hi: nat) returns (n: nat, e: Option<Err>, ghost data: string)
      requires Valid() && lo < hi <= p.Length && p != buf
      modifies this, br, buf, p
      ensures Valid() && (buf == old(buf) || fresh(buf)) && err == old(err)
      ensures n <= hi - lo && (e.Some? ==> bufLen == 0)
      ensures forall i :: 0 <= i < p.Length && !(lo <= i < lo + n) ==> p[i] == old(p[i])
      ensures |data| == n && p[lo..lo + n] == data && given == old(given) + data
      ensures Handed(cfg, br.fail, old(Now()), Now(), data, e)
      ensures data == "" && e.None? ==>
                |br.rest| < |old(br.rest)| || (|br.rest| == |old(br.rest)| && br.stalls < old(br.stalls))
    {
      assert Shape();
      hide Valid, Now, Handed;
      if offset < bufLen {
        n, data := Drain(p, lo, hi);
        e := None;
      } else if remaining > 0 {
        n, e, data := Stream(p, lo, hi);
      } else {
        n, data := 0, "";
        e := Advance();
        assert given == old(given) + data;
      }
    }

    /** The turn that reports the end or starts the next chunk. */
    method Advance() returns (e: Option<Err>)
      requires Valid() && bufLen == 0 && remaining == 0
      modifies this, br, buf
      ensures Valid() && (buf == old(buf) || fresh(buf)) && err == old(err) && given == old(given)
      ensures e.Some? ==> bufLen == 0
      ensures Handed(cfg, br.fail, old(Now()), Now(), "", e)
      ensures e.None? ==> |br.rest| < |old(br.rest)|
    {
      hide Linked, LinkData, LastOf, BeginChunk, TakeRest;
      ghost var d := Now();
      assert d.buffered == "";
      if done {
        TakeDone(cfg, d, br.fail);
        return Some(Eof);
      }
      e := BeginNext();
      TakeNext(cfg, d, br.fail);
    }

    /** read. */
    method Fetch(p: array<char>, lo: nat, hi: nat) returns (n: nat, e: Option<Err>, ghost data: string)
      requires Valid() && lo <= hi <= p.Length && p != buf
      modifies this, br, buf, p
      ensures Valid() && (buf == old(buf) || fresh(buf)) && err == old(err)
      ensures n <= hi - lo && (e.None? && lo < hi ==> n > 0) && (e.Some? ==> bufLen == 0)
      ensures forall i :: 0 <= i < p.Length && !(lo <= i < lo + n) ==> p[i] == old(p[i])
      ensures p[lo..lo + n] == data && given == old(given) + data
      ensures Handed(cfg, br.fail, old(Now()), Now(), data, e)
    {
      hide Linked, LinkData, LastOf, TakeRest, Handed;
      n, e, data := 0, None, "";
      NothingHanded(cfg, br.fail, Now());
      while lo < hi && n == 0 && e.None?
        invariant Valid() && (buf == old(buf) || fresh(buf)) && err == old(err) && p != buf
        invariant n <= hi - lo && (e.Some? ==> bufLen == 0)
        invariant forall i :: 0 <= i < p.Length && !(lo <= i < lo + n) ==> p[i] == old(p[i])
        invariant |data| == n && p[lo..lo + n] == data && given == old(given) + data
        invariant Handed(cfg, br.fail, old(Now()), Now(), data, e)
        decreases n == 0 && e.None?, |br.rest|, br.stalls
      {
        ghost var d := Now();
        n, e, data := Turn(p, lo, hi);
        HandedTwice(cfg, br.fail, old(Now()), d, Now(), data, e);
      }
    }

    /** What Read does with an error: it keeps the first that is not the end of the stream, and
        drops the chunk buffer. */
    method Note(e: Err)
      requires Valid() && bufLen == 0
      modifies `err, `buf, `bufLen, `offset
      ensures Valid() && fresh(buf) && Now() == old(Now())
      ensures err == if old(err).None? && !e.Eof? then Some(e) else old(err)
    {
      hide Linked, LinkData, LastOf;
      if err.None? && !e.Eof? { err := Some(e); }
      buf, bufLen, offset := new char[0], 0, 0;
    }

    /** Read. The bytes are the next ones of what the stream decodes to; an error is how that
        decoding ends. */
    method Read(p: array<char>, lo: nat, hi: nat) returns (n: nat, e: Option<Err>, ghost data: string)
      requires Valid() && lo <= hi <= p.Length && p != buf
      modifies this, br, buf, p
      ensures Valid() && (buf == old(buf) || fresh(buf))
      ensures n <= hi - lo && (e.None? && lo < hi ==> n > 0)
      ensures forall i :: 0 <= i < p.Length && !(lo <= i < lo + n) ==> p[i] == old(p[i])
      ensures p[lo..lo + n] == data && given == old(given) + data
      ensures Handed(cfg, br.fail, old(Now()), Now(), data, e)
      ensures err == if old(err).None? && e.Some? && !e.value.Eof? then e else old(err)
    {
      hide Valid, TakeRest, Handed, Shape, Now;
      n, e, data := Fetch(p, lo, hi);
      if e.Some? { Note(e.value); }
    }
  }
}
