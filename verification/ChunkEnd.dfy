/** When the decoder reports a clean end of stream without having verified the end of the body. */
module ChunkEnd {
  import opened Text
  import opened ChunkText
  import opened ChunkSpec
  import opened ChunkSafety
  import opened ChunkRoundTrip

  // ----------------------------------------------------------- where the stream may run dry

  /** Up to `lines` complete non-blank lines, then nothing that ends a line. */
  predicate DryTrailers(text: string, lines: nat)
    decreases lines
  {
    lines > 0 &&
    match ReadLine(text, MAX_TRAILER_LINE)
    case TooLong(_) => false
    case Dry(_) => true
    case Line(line, rest) => line != "" && line != "\r" && DryTrailers(rest, lines - 1)
  }

  /** A stream that stops short inside a header line, right before the data of a signed chunk or
      inside its CRLF, or in the lines after the last header of a plain signed body. */
  predicate DryHeader(cfg: Config, d: State) {
    match ReadLine(d.input, MAX_HEADER_LINE)
    case TooLong(_) => false
    case Dry(_) => true
    case Line(text, rest) =>
      var h := ParseHeader(text);
      && h.Header? && cfg.signer.Some? && h.sig != ""
      && if h.size == 0 then
           && !cfg.signedTrailer && |d.decoded| == cfg.expected
           && Normalize(h.sig) == Some(ChunkSignature(cfg.signer.value, d.prev, ""))
           && DryTrailers(rest, MAX_TRAILER_LINES)
         else
           && h.size <= MAX_SIGNED_CHUNK && |d.decoded| <= cfg.expected && h.size <= cfg.expected - |d.decoded|
           && Normalize(h.sig).Some? && (rest == "" || h.size <= |rest| < h.size + 2)
  }

  predicate DryAt(cfg: Config, d: State) {
    if d.needCRLF then
      |d.input| < 2 || (d.input[..2] == "\r\n" && DryHeader(cfg, d.(input := d.input[2..], needCRLF := false)))
    else DryHeader(cfg, d)
  }

  /** The stream ends in the framing, after whole chunks only. */
  ghost predicate CutInFraming(cfg: Config, d: State)
    requires cfg.Valid()
    decreases |d.input|, if d.remaining > 0 then 1 else 0
  {
    if d.remaining > |d.input| then false
    else if d.remaining > 0 then
      CutInFraming(cfg, d.(input := d.input[d.remaining..], remaining := 0, decoded := d.decoded + d.input[..d.remaining]))
    else if d.done then false
    else
      var b := BeginChunk(cfg, d, Eof);
      DryAt(cfg, d) || (b.Began? && CutInFraming(cfg, b.after.(buffered := "")))
  }

  // -------------------------------------------------------------------------- exactness

  lemma {:induction false} SkipDry(text: string, fin: Err, lines: nat)
    ensures var r := SkipTrailers(text, fin, lines);
            (r.SectionErr? && r.err == Eof) <==> (fin.Eof? && DryTrailers(text, lines))
    decreases lines
  {
    hide ReadLine;
    if lines > 0 {
      var l := ReadLine(text, MAX_TRAILER_LINE);
      if l.Line? { SkipDry(l.rest, fin, lines - 1); }
    }
  }

  /** A trailer section never ends a body with a bare end of stream. */
  lemma {:induction false} SectionNotDry(signed: bool, text: string, fin: Err, lines: nat, acc: seq<Trailer>, sig: string)
    ensures var r := ReadSection(signed, text, fin, lines, acc, sig); r.SectionErr? ==> r.err != Eof
    decreases lines
  {
    hide ReadLine, ParseTrailer, DropCr;
    if lines > 0 {
      var l := ReadLine(text, MAX_TRAILER_LINE);
      if l.Line? {
        match ParseTrailer(DropCr(l.text))
        case Blank => SectionNotDry(signed, l.rest, fin, lines - 1, acc, sig);
        case NoColon =>
        case SignatureLine(value) => SectionNotDry(signed, l.rest, fin, lines - 1, acc, value);
        case Field(field) => SectionNotDry(signed, l.rest, fin, lines - 1, acc + [field], sig);
      }
    }
  }

  lemma {:induction false} ChecksumNotDry(checksums: seq<string>, digest: (string, string) -> string, payload: string,
                                          trailers: seq<Trailer>)
    ensures var r := ChecksumErr(checksums, digest, payload, trailers); r.Some? ==> r.value != Eof
  {
    if checksums != [] { ChecksumNotDry(checksums[1..], digest, payload, trailers); }
  }

  lemma FinishDry(cfg: Config, d: State, fin: Err)
    requires cfg.Valid()
    ensures var b := FinishBody(cfg, d, fin);
            (b.Failed? && b.err == Eof) <==>
            (fin.Eof? && cfg.signer.Some? && !cfg.signedTrailer && |d.decoded| == cfg.expected
             && DryTrailers(d.input, MAX_TRAILER_LINES))
  {
    hide ReadSection, SkipTrailers, Normalize, TrailerSignature, ChecksumErr, DryTrailers;
    SkipDry(d.input, fin, MAX_TRAILER_LINES);
    SectionNotDry(cfg.signedTrailer, d.input, fin, MAX_TRAILER_LINES, [], "");
    var r := ReadSection(cfg.signedTrailer, d.input, fin, MAX_TRAILER_LINES, [], "");
    if r.Section? { ChecksumNotDry(cfg.checksums, cfg.digest, d.decoded, r.trailers); }
  }

  lemma SignedDry(cfg: Config, d: State, n: nat, sig: string, fin: Err)
    requires cfg.signer.Some? && n > 0
    ensures var b := SignedChunk(cfg, d, n, sig, fin);
            (b.Failed? && b.err == Eof) <==>
            (fin.Eof? && sig != "" && Normalize(sig).Some? && (d.input == "" || n <= |d.input| < n + 2))
  {
    hide Normalize, ChunkSignature;
  }

  lemma HeaderDry(cfg: Config, d: State, fin: Err)
    requires cfg.Valid()
    ensures var b := ReadChunk(cfg, d, fin); (b.Failed? && b.err == Eof) <==> (fin.Eof? && DryHeader(cfg, d))
  {
    hide ReadLine, ParseHeader, SignedChunk, FinishBody, DryTrailers, Normalize, ChunkSignature;
    var l := ReadLine(d.input, MAX_HEADER_LINE);
    if l.Line? && ParseHeader(l.text).Header? {
      var h := ParseHeader(l.text);
      var d1 := d.(input := l.rest);
      if h.size > 0 {
        if cfg.signer.Some? { SignedDry(cfg, d1, h.size, h.sig, fin); }
      } else if cfg.signer.None? {
        FinishDry(cfg, d1, fin);
      } else if Normalize(h.sig).Some? {
        FinishDry(cfg, d1.(prev := Normalize(h.sig).value), fin);
      }
    }
  }

  lemma BeginDry(cfg: Config, d: State, fin: Err)
    requires cfg.Valid()
    ensures var b := BeginChunk(cfg, d, fin); (b.Failed? && b.err == Eof) <==> (fin.Eof? && DryAt(cfg, d))
  {
    hide ReadChunk, DryHeader;
    if !d.needCRLF {
      HeaderDry(cfg, d, fin);
    } else if |d.input| >= 2 {
      HeaderDry(cfg, d.(input := d.input[2..], needCRLF := false), fin);
    }
  }

  /** A clean end of stream is reported without a verified end if and only if the source itself
      ended, cleanly, inside the framing. */
  lemma {:induction false} UnverifiedEofIffCut(cfg: Config, d: State, fin: Err)
    requires cfg.Valid() && d.buffered == ""
    ensures var r := TakeRest(cfg, d, fin); (r.err == Eof && !r.done) <==> (fin.Eof? && CutInFraming(cfg, d))
    decreases |d.input|, if d.remaining > 0 then 1 else 0
  {
    hide BeginChunk, DryAt;
    if d.remaining > |d.input| {
    } else if d.remaining > 0 {
      UnverifiedEofIffCut(cfg, d.(input := d.input[d.remaining..], remaining := 0, decoded := d.decoded + d.input[..d.remaining]), fin);
    } else if !d.done {
      BeginDry(cfg, d, fin);
      var b := BeginChunk(cfg, d, fin);
      if b.Began? {
        TakeBuffered(cfg, b.after, fin);
        UnverifiedEofIffCut(cfg, b.after.(buffered := ""), fin);
      }
    }
  }

  // --------------------------------------------------------------- truncated signed bodies

  lemma PrefixIsDry(line: string, input: string, max: nat)
    requires '\n' !in line && |line| <= max && input <= line
    ensures ReadLine(input, max) == ChunkText.Dry(input)
  {
    assert '\n' !in input;
  }

  /** The cut falls strictly inside the data of a chunk. */
  predicate InData(cfg: Config, prev: string, chunks: seq<string>, k: int)
    decreases |chunks|
  {
    chunks != [] &&
    var at := k - |Head(cfg, prev, chunks[0])| - 1;
    0 < at < |chunks[0]|
    || (at >= |chunks[0]| + 2 && InData(cfg, NextSig(cfg, prev, chunks[0]), chunks[1..], at - |chunks[0]| - 2))
  }

  /** How many bytes the frames of the chunks take, without the zero-length chunk. */
  function FramesLength(cfg: Config, prev: string, chunks: seq<string>): (n: nat)
    decreases |chunks|
  {
    if chunks == [] then 0
    else |Head(cfg, prev, chunks[0])| + 1 + |chunks[0]| + 2
         + FramesLength(cfg, NextSig(cfg, prev, chunks[0]), chunks[1..])
  }

  lemma CutInHead(cfg: Config, d: State, data: string)
    requires ShapedSigner(cfg) && cfg.Valid() && |data| < INT64_LIMIT && !d.done && !d.needCRLF
    requires d.input <= Head(cfg, d.prev, data)
    ensures ReadChunk(cfg, d, Eof) == Failed(Eof, d.(input := ""))
  {
    hide ReadLine, FormatHeader, ParseHeader, SignatureShaped, SigFor;
    ChunkShaped(cfg, d.prev, data);
    HeaderFits(|data|, SigFor(cfg, d.prev, data));
    PrefixIsDry(Head(cfg, d.prev, data), d.input, MAX_HEADER_LINE);
  }

  lemma CutInEnd(cfg: Config, d: State, rest: string)
    requires ShapedSigner(cfg) && cfg.signer.Some? && !cfg.signedTrailer && !d.done && !d.needCRLF
    requires |d.decoded| == cfg.expected
    requires d.input == Head(cfg, d.prev, "") + "\n" + rest && (rest == "" || rest == "\r")
    ensures var b := ReadChunk(cfg, d, Eof); b.Failed? && b.err == Eof
  {
    hide ReadLine, ParseHeader, ChunkSignature, Normalize, SignatureShaped, ShapedSigner, Head, ReadChunk, TrimSpace;
    ReadHead(cfg, d.prev, "", rest);
    var sig := ChunkSignature(cfg.signer.value, d.prev, "");
    ChunkShaped(cfg, d.prev, "");
    ShapedIsTrimmed(sig);
    ShapedIsSome(sig);
    PrefixIsDry(rest, rest, MAX_TRAILER_LINE);
    assert DryTrailers(rest, MAX_TRAILER_LINES);
    HeaderDry(cfg, d, Eof);
  }

  lemma CutInChunk(cfg: Config, d: State, data: string, rest: string)
    requires ShapedSigner(cfg) && cfg.signer.Some? && !cfg.signedTrailer && !d.done && !d.needCRLF
    requires 0 < |data| <= MAX_SIGNED_CHUNK && |d.decoded| + |data| <= cfg.expected
    requires d.input == Head(cfg, d.prev, data) + "\n" + rest && rest < data + "\r\n"
    ensures var b := ReadChunk(cfg, d, Eof);
            b.Failed? && b.err == if 0 < |rest| < |data| then UnexpectedEof else Eof
  {
    hide ReadLine, ParseHeader, ChunkSignature, Normalize, SignatureShaped, ShapedSigner, Head, TrimSpace, LastChunk;
    ReadHead(cfg, d.prev, data, rest);
    ChunkShaped(cfg, d.prev, data);
    ShapedIsTrimmed(ChunkSignature(cfg.signer.value, d.prev, data));
    ShapedIsSome(ChunkSignature(cfg.signer.value, d.prev, data));
  }

  /** A plain signed body cut anywhere is never verified. What is handed out is a prefix of its
      payload, and the end is reported as clean unless the cut is inside the data of a chunk. */
  lemma {:induction false} TruncatedFrom(cfg: Config, d: State, chunks: seq<string>, k: nat)
    requires ShapedSigner(cfg) && cfg.signer.Some? && !cfg.signedTrailer && Sendable(cfg, chunks)
    requires !d.done && !d.needCRLF && d.remaining == 0 && d.buffered == ""
    requires |d.decoded + Join(chunks)| == cfg.expected
    requires k < |Encode(cfg, d.prev, chunks, [])| && d.input == Encode(cfg, d.prev, chunks, [])[..k]
    ensures var r := TakeRest(cfg, d, Eof);
            && !r.done && r.out <= Join(chunks)
            && r.err == (if InData(cfg, d.prev, chunks, k) then UnexpectedEof else Eof)
            && (FramesLength(cfg, d.prev, chunks) <= k <==> r.out == Join(chunks))
    decreases |chunks|
  {
    hide ReadChunk, BeginChunk, Head, ShapedSigner, ChunkSignature;
    BeginIsRead(cfg, d, Eof);
    if chunks != [] { FirstChunkCounts(chunks); }
    var data := if chunks == [] then "" else chunks[0];
    var head := Head(cfg, d.prev, data);
    if k <= |head| {
      assert d.input <= head;
      CutInHead(cfg, d, data);
    } else if chunks == [] {
      var rest := "\r\n"[..k - |head| - 1];
      assert d.input == head + "\n" + rest;
      assert d.decoded + Join(chunks) == d.decoded;
      CutInEnd(cfg, d, rest);
    } else {
      TruncatedChunk(cfg, d, chunks, k, head, data);
    }
  }

  lemma {:induction false} TruncatedChunk(cfg: Config, d: State, chunks: seq<string>, k: nat, head: string, data: string)
    requires ShapedSigner(cfg) && cfg.signer.Some? && !cfg.signedTrailer && Sendable(cfg, chunks)
    requires !d.done && !d.needCRLF && d.remaining == 0 && d.buffered == ""
    requires |d.decoded + Join(chunks)| == cfg.expected
    requires chunks != [] && data == chunks[0] && head == Head(cfg, d.prev, data)
    requires |head| < k < |Encode(cfg, d.prev, chunks, [])| && d.input == Encode(cfg, d.prev, chunks, [])[..k]
    ensures var r := TakeRest(cfg, d, Eof);
            && !r.done && r.out <= Join(chunks)
            && r.err == (if InData(cfg, d.prev, chunks, k) then UnexpectedEof else Eof)
            && (FramesLength(cfg, d.prev, chunks) <= k <==> r.out == Join(chunks))
    decreases |chunks|, 0
  {
    hide ReadChunk, BeginChunk, Head, ShapedSigner, ChunkSignature;
    BeginIsRead(cfg, d, Eof);
    var more := Encode(cfg, NextSig(cfg, d.prev, data), chunks[1..], []);
    var at := k - |head| - 1;
    assert Encode(cfg, d.prev, chunks, []) == head + "\n" + (data + ("\r\n" + more));
    if at < |data| + 2 {
      var rest := (data + "\r\n")[..at];
      assert d.input == head + "\n" + rest;
      CutInChunk(cfg, d, data, rest);
      FirstChunkCounts(chunks);
    } else {
      var j := at - |data| - 2;
      assert d.input == head + "\n" + (data + ("\r\n" + more[..j]));
      NextEncoded(cfg, d, data, more[..j], Eof);
      var a := ReadChunk(cfg, d, Eof).after;
      TakeBuffered(cfg, a, Eof);
      var e := a.(buffered := "");
      assert e.decoded + Join(chunks[1..]) == d.decoded + Join(chunks);
      assert Sendable(cfg, chunks[1..]);
      TruncatedFrom(cfg, e, chunks[1..], j);
      SameTail(data, TakeRest(cfg, e, Eof).out, Join(chunks[1..]));
    }
  }

  lemma FirstChunkCounts(chunks: seq<string>)
    requires chunks != [] && chunks[0] != ""
    ensures Join(chunks) != ""
  {
    assert |Join(chunks)| == |chunks[0]| + |Join(chunks[1..])|;
  }

  lemma SameTail(head: string, a: string, b: string)
    ensures head + a == head + b <==> a == b
  {
    assert (head + a)[|head|..] == a && (head + b)[|head|..] == b;
  }

  /** A plain signed body cut anywhere is not verified; its end looks clean unless the cut is inside
      chunk data, and its payload is complete exactly if the cut spares all frames. */
  lemma TruncatedIsUnverified(cfg: Config, prev: string, chunks: seq<string>, k: nat)
    requires ShapedSigner(cfg) && cfg.signer.Some? && !cfg.signedTrailer && Sendable(cfg, chunks)
    requires |Join(chunks)| == cfg.expected && k < |Encode(cfg, prev, chunks, [])|
    ensures var r := Decode(cfg, prev, Encode(cfg, prev, chunks, [])[..k], Eof);
            && !r.done && r.out <= Join(chunks)
            && r.err == (if InData(cfg, prev, chunks, k) then UnexpectedEof else Eof)
            && (FramesLength(cfg, prev, chunks) <= k <==> r.out == Join(chunks))
  {
    var d := Start(prev, Encode(cfg, prev, chunks, [])[..k]);
    hide Encode;
    assert d.decoded + Join(chunks) == Join(chunks);
    TruncatedFrom(cfg, d, chunks, k);
  }

  /** One signed chunk "a" and then nothing: the whole payload and a clean end of stream, though
      the final chunk signature was never seen. */
  lemma CleanEndIsNotVerified()
    ensures exists cfg: Config, input ::
              cfg.Valid() && cfg.signer.Some? && cfg.expected == 1
              && Decode(cfg, "", input, Eof) == Outcome("a", Eof, false)
  {
    hide Encode, Decode, Head;
    var zeros := seq(64, i => '0');
    var cfg := Config(Some(Signer(s => "", s => zeros, "", "")), false, [], (name, payload) => "", 1);
    var chunks := ["a"];
    assert chunks[1..] == [] && Join(chunks) == "a" + "";
    assert "a" + "" == "a";
    assert ShapedSigner(cfg) && Sendable(cfg, chunks);
    var k := FramesLength(cfg, "", chunks);
    FramesAreShort(cfg, "", "a");
    TruncatedIsUnverified(cfg, "", chunks, k);
    NotInData(cfg, "", "a");
  }

  lemma FramesAreShort(cfg: Config, prev: string, data: string)
    requires cfg.Valid()
    ensures FramesLength(cfg, prev, [data]) < |Encode(cfg, prev, [data], [])|
  {
    hide Head, Closing;
    assert [data][1..] == [];
  }

  lemma NotInData(cfg: Config, prev: string, data: string)
    ensures !InData(cfg, prev, [data], FramesLength(cfg, prev, [data]))
  {
    hide Head;
    assert [data][1..] == [];
  }
}
