/** Decoding undoes encoding, in the signed, signed-trailer and unsigned-trailer modes. */
module ChunkRoundTrip {
  import opened Text
  import opened ChunkText
  import opened ChunkSpec
  import opened ChunkSafety

  // ------------------------------------------------------------------------ encoding

  function SigFor(cfg: Config, prev: string, data: string): (sig: string) {
    if cfg.signer.Some? then ChunkSignature(cfg.signer.value, prev, data) else ""
  }

  function NextSig(cfg: Config, prev: string, data: string): (sig: string) {
    if cfg.signer.Some? then ChunkSignature(cfg.signer.value, prev, data) else prev
  }

  function Head(cfg: Config, prev: string, data: string): (line: string) {
    FormatHeader(|data|, SigFor(cfg, prev, data)) + "\r"
  }

  function FieldLine(t: Trailer): (line: string) {
    t.name + ":" + t.value + "\r"
  }

  function Closing(cfg: Config, prev: string, trailers: seq<Trailer>, all: seq<Trailer>): (text: string)
    requires cfg.Valid()
  {
    if trailers != [] then FieldLine(trailers[0]) + "\n" + Closing(cfg, prev, trailers[1..], all)
    else if cfg.signedTrailer then
      FieldLine(Trailer(TRAILER_SIGNATURE, TrailerSignature(cfg.signer.value, prev, all))) + "\n" + "\r\n"
    else "\r\n"
  }

  /** A body as a client writes it: one frame per chunk, the zero-length chunk, the trailers. */
  function Encode(cfg: Config, prev: string, chunks: seq<string>, trailers: seq<Trailer>): (text: string)
    requires cfg.Valid()
    decreases |chunks|
  {
    if chunks == [] then Head(cfg, prev, "") + "\n" + Closing(cfg, NextSig(cfg, prev, ""), trailers, trailers)
    else
      Head(cfg, prev, chunks[0]) + "\n"
      + (chunks[0] + ("\r\n" + Encode(cfg, NextSig(cfg, prev, chunks[0]), chunks[1..], trailers)))
  }

  // ---------------------------------------------------------------------- what clients send

  /** HMAC-SHA256 in hexadecimal has sixty-four lower-case digits. */
  ghost predicate ShapedSigner(cfg: Config) {
    cfg.signer.Some? ==> forall text :: SignatureShaped(cfg.signer.value.hmac(text))
  }

  predicate PlainTrailer(t: Trailer) {
    && ToLower(t.name) == t.name && TrimSpace(t.name) == t.name && TrimSpace(t.value) == t.value
    && ':' !in t.name && '\n' !in t.name && '\n' !in t.value && t.name != TRAILER_SIGNATURE
    && |FieldLine(t)| <= MAX_TRAILER_LINE
  }

  predicate PlainTrailers(trailers: seq<Trailer>) {
    |trailers| < MAX_TRAILER_LINES && forall i :: 0 <= i < |trailers| ==> PlainTrailer(trailers[i])
  }

  predicate Sendable(cfg: Config, chunks: seq<string>) {
    forall i :: 0 <= i < |chunks| ==>
      0 < |chunks[i]| < INT64_LIMIT && (cfg.signer.Some? ==> |chunks[i]| <= MAX_SIGNED_CHUNK)
  }

  // -------------------------------------------------------------------------- trailers

  lemma ReadField(t: Trailer, rest: string)
    requires '\n' !in t.name && '\n' !in t.value && |FieldLine(t)| <= MAX_TRAILER_LINE
    ensures ReadLine(FieldLine(t) + "\n" + rest, MAX_TRAILER_LINE) == Line(FieldLine(t), rest)
  {
    ReadOwnLine(FieldLine(t), rest, MAX_TRAILER_LINE);
  }

  lemma ParseField(t: Trailer)
    requires ':' !in t.name && ToLower(t.name) == t.name && TrimSpace(t.name) == t.name && TrimSpace(t.value) == t.value
    ensures ParseTrailer(DropCr(FieldLine(t))) ==
            if t.name == TRAILER_SIGNATURE then SignatureLine(t.value) else Field(t)
  {
    hide ToLower, TrimSpace, IndexOf;
    var line := t.name + ":" + t.value;
    assert FieldLine(t) == line + "\r";
    assert DropCr(line + "\r") == line;
    IndexOfAfter(t.name, ':', t.value);
    assert line == t.name + [':'] + t.value;
    assert line[..|t.name|] == t.name && line[|t.name| + 1..] == t.value;
  }

  lemma ReadBlank(rest: string, max: nat)
    requires max > 0
    ensures ReadLine("\r\n" + rest, max) == Line("\r", rest)
  {
    ReadOwnLine("\r", rest, max);
    assert "\r" + "\n" + rest == "\r\n" + rest;
  }

  lemma TrailerSignatureLower()
    ensures ToLower(TRAILER_SIGNATURE) == TRAILER_SIGNATURE
  {
    var n := TRAILER_SIGNATURE;
    assert forall i :: 0 <= i < |n| ==> LowerChar(n[i]) == n[i];
  }

  lemma TrailerSignatureName()
    ensures var n := TRAILER_SIGNATURE;
            TrimSpace(n) == n && ':' !in n && '\n' !in n && |n| == 23
  {
    hide TrimSpace;
    var n := TRAILER_SIGNATURE;
    TrimSpaceKeeps(n);
  }

  lemma ShapedIsTrimmed(sig: string)
    requires SignatureShaped(sig)
    ensures TrimSpace(sig) == sig && '\n' !in sig && Normalize(sig) == Some(sig)
  {
    ShapedIsPlain(sig);
    TrimSpaceKeeps(sig);
  }

  lemma SignatureField(sig: string, rest: string)
    requires SignatureShaped(sig)
    ensures var t := Trailer(TRAILER_SIGNATURE, sig);
            && ReadLine(FieldLine(t) + "\n" + rest, MAX_TRAILER_LINE) == Line(FieldLine(t), rest)
            && ParseTrailer(DropCr(FieldLine(t))) == SignatureLine(sig)
  {
    TrailerSignatureLower();
    TrailerSignatureName();
    ShapedIsTrimmed(sig);
    hide TrimSpace, ToLower, Normalize, ParseTrailer, ReadLine, DropCr;
    NamedField(TRAILER_SIGNATURE, sig, rest);
  }

  lemma NamedField(name: string, value: string, rest: string)
    requires ToLower(name) == name && TrimSpace(name) == name && TrimSpace(value) == value
    requires ':' !in name && '\n' !in name && '\n' !in value && |name| + |value| < 1000
    ensures var t := Trailer(name, value);
            && ReadLine(FieldLine(t) + "\n" + rest, MAX_TRAILER_LINE) == Line(FieldLine(t), rest)
            && ParseTrailer(DropCr(FieldLine(t))) == if name == TRAILER_SIGNATURE then SignatureLine(value) else Field(t)
  {
    hide TrimSpace, ToLower, ParseTrailer, ReadLine, DropCr;
    var t := Trailer(name, value);
    ReadField(t, rest);
    ParseField(t);
  }

  lemma SectionField(signed: bool, input: string, line: string, t: Trailer, rest: string, fin: Err, lines: nat, acc: seq<Trailer>)
    requires lines > 0 && ReadLine(input, MAX_TRAILER_LINE) == Line(line, rest) && ParseTrailer(DropCr(line)) == Field(t)
    ensures ReadSection(signed, input, fin, lines, acc, "") == ReadSection(signed, rest, fin, lines - 1, acc + [t], "")
  {
    hide ParseTrailer, DropCr, ReadLine;
  }

  lemma SectionSignature(line: string, sig: string, fin: Err, lines: nat, acc: seq<Trailer>)
    requires lines > 0 && ReadLine(line + "\n" + "\r\n", MAX_TRAILER_LINE) == Line(line, "\r\n")
    requires ParseTrailer(DropCr(line)) == SignatureLine(sig)
    ensures ReadSection(true, line + "\n" + "\r\n", fin, lines, acc, "") == Section(acc, sig, "")
  {
    hide ParseTrailer, DropCr, ReadLine;
    assert DropBlank("\r\n") == "";
  }

  lemma SectionBlank(fin: Err, lines: nat, acc: seq<Trailer>)
    requires lines > 0 && ReadLine("\r\n", MAX_TRAILER_LINE) == Line("\r", "")
    ensures ReadSection(false, "\r\n", fin, lines, acc, "") == Section(acc, "", "")
  {
    hide ReadLine, ToLower, TrimSpace, IndexOf;
    assert DropCr("\r") == "";
  }

  /** The trailer section is read back: its fields in order and, if required, its signature. */
  lemma {:induction false} ReadClosing(cfg: Config, prev: string, trailers: seq<Trailer>, all: seq<Trailer>, fin: Err,
                                       lines: nat, acc: seq<Trailer>)
    requires cfg.Valid() && ShapedSigner(cfg)
    requires |trailers| < lines && forall i :: 0 <= i < |trailers| ==> PlainTrailer(trailers[i])
    ensures ReadSection(cfg.signedTrailer, Closing(cfg, prev, trailers, all), fin, lines, acc, "") ==
            Section(acc + trailers,
                    if cfg.signedTrailer then TrailerSignature(cfg.signer.value, prev, all) else "", "")
    decreases |trailers|
  {
    hide ParseTrailer, DropCr, ReadLine, FieldLine, TrailerSignature, ToLower, TrimSpace, ReadSection;
    if trailers != [] {
      var rest := Closing(cfg, prev, trailers[1..], all);
      ReadField(trailers[0], rest);
      ParseField(trailers[0]);
      SectionField(cfg.signedTrailer, FieldLine(trailers[0]) + "\n" + rest, FieldLine(trailers[0]), trailers[0], rest, fin, lines, acc);
      ReadClosing(cfg, prev, trailers[1..], all, fin, lines - 1, acc + [trailers[0]]);
      assert acc + [trailers[0]] + trailers[1..] == acc + trailers;
    } else {
      assert acc + trailers == acc;
      if cfg.signedTrailer {
        TrailerShaped(cfg, prev, all);
        SignatureField(TrailerSignature(cfg.signer.value, prev, all), "\r\n");
        SectionSignature(FieldLine(Trailer(TRAILER_SIGNATURE, TrailerSignature(cfg.signer.value, prev, all))),
                         TrailerSignature(cfg.signer.value, prev, all), fin, lines, acc);
      } else {
        ReadBlank("", MAX_TRAILER_LINE);
        assert "\r\n" + "" == "\r\n";
        SectionBlank(fin, lines, acc);
      }
    }
  }

  lemma TrailerShaped(cfg: Config, prev: string, all: seq<Trailer>)
    requires cfg.signer.Some? && ShapedSigner(cfg)
    ensures SignatureShaped(TrailerSignature(cfg.signer.value, prev, all))
  {}

  lemma ChunkShaped(cfg: Config, prev: string, data: string)
    requires ShapedSigner(cfg)
    ensures SigFor(cfg, prev, data) == "" || SignatureShaped(SigFor(cfg, prev, data))
    ensures cfg.signer.Some? ==> SignatureShaped(ChunkSignature(cfg.signer.value, prev, data))
  {}

  // ---------------------------------------------------------------------------- chunks

  lemma ReadHead(cfg: Config, prev: string, data: string, rest: string)
    requires ShapedSigner(cfg) && |data| < INT64_LIMIT
    ensures ReadLine(Head(cfg, prev, data) + "\n" + rest, MAX_HEADER_LINE) == Line(Head(cfg, prev, data), rest)
    ensures ParseHeader(Head(cfg, prev, data)) == Header(|data|, SigFor(cfg, prev, data))
  {
    hide ParseHeader, FormatHeader, SigFor, ReadLine;
    ChunkShaped(cfg, prev, data);
    var sig := SigFor(cfg, prev, data);
    HeaderRoundTrip(|data|, sig);
    HeaderFits(|data|, sig);
    ReadOwnLine(Head(cfg, prev, data), rest, MAX_HEADER_LINE);
  }

  lemma SkipBlank(cfg: Config, prev: string, fin: Err)
    requires !cfg.signedTrailer
    ensures SkipTrailers(Closing(cfg, prev, [], []), fin, MAX_TRAILER_LINES) == Section([], "", "")
  {
    hide ReadLine;
    ReadBlank("", MAX_TRAILER_LINE);
    assert "\r\n" + "" == "\r\n";
  }

  lemma FinishEncoded(cfg: Config, d: State, trailers: seq<Trailer>, fin: Err)
    requires cfg.Valid() && ShapedSigner(cfg) && PlainTrailers(trailers)
    requires cfg.signer.Some? && !cfg.signedTrailer ==> trailers == []
    requires |d.decoded| == cfg.expected
    requires cfg.signer.None? || cfg.signedTrailer ==> ChecksumsHold(cfg, d.decoded, trailers)
    requires d.input == Closing(cfg, d.prev, trailers, trailers)
    ensures var b := FinishBody(cfg, d, fin); b.Began? && b.after == d.(prev := b.after.prev, input := "", done := true)
  {
    hide Normalize, ReadSection, TrailerSignature, ReadLine, ChecksumsHold, ChecksumErr, SkipTrailers, Closing, ShapedSigner,
         SignatureShaped, TrimSpace, PlainTrailer;
    if cfg.signer.Some? && !cfg.signedTrailer {
      SkipBlank(cfg, d.prev, fin);
    } else {
      ReadClosing(cfg, d.prev, trailers, trailers, fin, MAX_TRAILER_LINES, []);
      assert [] + trailers == trailers;
      ChecksumsPass(cfg, d.decoded, trailers);
      if cfg.signedTrailer {
        TrailerShaped(cfg, d.prev, trailers);
        ShapedIsTrimmed(TrailerSignature(cfg.signer.value, d.prev, trailers));
        ShapedIsSome(TrailerSignature(cfg.signer.value, d.prev, trailers));
      }
    }
  }

  lemma LastEncoded(cfg: Config, d: State, trailers: seq<Trailer>, fin: Err)
    requires cfg.Valid() && ShapedSigner(cfg) && PlainTrailers(trailers) && !d.done && d.remaining == 0
    requires cfg.signer.Some? && !cfg.signedTrailer ==> trailers == []
    requires |d.decoded| == cfg.expected
    requires cfg.signer.None? || cfg.signedTrailer ==> ChecksumsHold(cfg, d.decoded, trailers)
    requires d.input == Encode(cfg, d.prev, [], trailers)
    ensures var b := ReadChunk(cfg, d, fin); b.Began? && b.after == d.(prev := b.after.prev, input := "", done := true)
  {
    var rest := Closing(cfg, NextSig(cfg, d.prev, ""), trailers, trailers);
    ReadHead(cfg, d.prev, "", rest);
    hide ReadLine, ParseHeader, Head, Closing, FinishBody, Normalize, ChunkSignature, ChecksumsHold;
    ChunkShaped(cfg, d.prev, "");
    var d1 := d.(input := rest, prev := NextSig(cfg, d.prev, ""));
    FinishEncoded(cfg, d1, trailers, fin);
    if cfg.signer.Some? {
      ShapedIsTrimmed(ChunkSignature(cfg.signer.value, d.prev, ""));
    }
  }

  lemma NextEncoded(cfg: Config, d: State, data: string, rest: string, fin: Err)
    requires cfg.Valid() && ShapedSigner(cfg) && !d.done && d.remaining == 0
    requires 0 < |data| < INT64_LIMIT && (cfg.signer.Some? ==> |data| <= MAX_SIGNED_CHUNK)
    requires |d.decoded| + |data| <= cfg.expected
    requires d.input == Head(cfg, d.prev, data) + "\n" + (data + ("\r\n" + rest))
    ensures ReadChunk(cfg, d, fin) ==
            Began(if cfg.signer.Some?
                  then d.(input := rest, prev := NextSig(cfg, d.prev, data), decoded := d.decoded + data, buffered := data)
                  else d.(input := data + ("\r\n" + rest), remaining := |data|, needCRLF := true))
  {
    ReadHead(cfg, d.prev, data, data + ("\r\n" + rest));
    hide ReadLine, ParseHeader, Head, Normalize, ChunkSignature, SignedChunk, ShapedSigner, LastChunk, SigFor;
    if cfg.signer.Some? {
      SignedEncoded(cfg, d.(input := data + ("\r\n" + rest)), data, rest, fin);
    }
  }

  lemma ShapedIsSome(sig: string)
    requires SignatureShaped(sig)
    ensures sig != ""
  {}

  lemma EatEncoded(rest: string, fin: Err)
    ensures EatCrlf("\r\n" + rest, fin) == Section([], "", rest)
  {
    assert ("\r\n" + rest)[2..] == rest;
  }

  lemma ChecksumsPass(cfg: Config, payload: string, trailers: seq<Trailer>)
    requires ChecksumsHold(cfg, payload, trailers)
    ensures ChecksumErr(cfg.checksums, cfg.digest, payload, trailers) == None
  {
    hide Names, AllMatch;
  }

  lemma SignedEncoded(cfg: Config, d: State, data: string, rest: string, fin: Err)
    requires cfg.signer.Some? && ShapedSigner(cfg)
    requires d.input == data + ("\r\n" + rest)
    ensures SignedChunk(cfg, d, |data|, SigFor(cfg, d.prev, data), fin) ==
            Began(d.(input := rest, prev := NextSig(cfg, d.prev, data), decoded := d.decoded + data, buffered := data))
  {
    hide Normalize, ChunkSignature, EatCrlf, SignatureShaped, TrimSpace, ShapedSigner;
    var sig := ChunkSignature(cfg.signer.value, d.prev, data);
    ChunkShaped(cfg, d.prev, data);
    ShapedIsTrimmed(sig);
    ShapedIsSome(sig);
    assert d.input[..|data|] == data && d.input[|data|..] == "\r\n" + rest;
    EatEncoded(rest, fin);
  }

  lemma EatOwnCrlf(cfg: Config, d: State, rest: string, fin: Err)
    requires cfg.Valid() && d.needCRLF && d.input == "\r\n" + rest
    ensures BeginChunk(cfg, d, fin) == ReadChunk(cfg, d.(input := rest, needCRLF := false), fin)
  {
    hide ReadChunk;
    assert d.input[2..] == rest;
  }

  /** What is left to decode once everything before a chunk boundary is handed out. */
  ghost predicate AtBoundary(cfg: Config, d: State, chunks: seq<string>, trailers: seq<Trailer>)
    requires cfg.Valid()
  {
    && !d.done && d.remaining == 0 && d.buffered == ""
    && (d.needCRLF ==> cfg.signer.None?)
    && d.input == (if d.needCRLF then "\r\n" else "") + Encode(cfg, d.prev, chunks, trailers)
  }

  lemma {:induction false} DecodeFrom(cfg: Config, d: State, chunks: seq<string>, trailers: seq<Trailer>, fin: Err)
    requires cfg.Valid() && ShapedSigner(cfg) && PlainTrailers(trailers) && Sendable(cfg, chunks)
    requires AtBoundary(cfg, d, chunks, trailers)
    requires cfg.signer.Some? && !cfg.signedTrailer ==> trailers == []
    requires |d.decoded + Join(chunks)| == cfg.expected
    requires cfg.signer.None? || cfg.signedTrailer ==> ChecksumsHold(cfg, d.decoded + Join(chunks), trailers)
    ensures TakeRest(cfg, d, fin) == Outcome(Join(chunks), Eof, true)
    decreases |chunks|
  {
    hide ReadChunk, BeginChunk, Head, ChecksumsHold, Closing;
    var d0 := d.(input := Encode(cfg, d.prev, chunks, trailers), needCRLF := false);
    if d.needCRLF {
      EatOwnCrlf(cfg, d, d0.input, fin);
    } else {
      assert "" + d0.input == d0.input;
      BeginIsRead(cfg, d, fin);
    }
    assert BeginChunk(cfg, d, fin) == ReadChunk(cfg, d0, fin);
    if chunks == [] {
      assert d.decoded + Join(chunks) == d.decoded;
      LastEncoded(cfg, d0, trailers, fin);
    } else {
      DecodeChunk(cfg, d, d0, chunks, trailers, fin);
    }
  }

  lemma {:induction false} DecodeChunk(cfg: Config, d: State, d0: State, chunks: seq<string>, trailers: seq<Trailer>, fin: Err)
    requires cfg.Valid() && ShapedSigner(cfg) && PlainTrailers(trailers) && Sendable(cfg, chunks) && chunks != []
    requires !d.done && d.remaining == 0 && d.buffered == "" && BeginChunk(cfg, d, fin) == ReadChunk(cfg, d0, fin)
    requires d0 == d.(input := Encode(cfg, d.prev, chunks, trailers), needCRLF := false)
    requires cfg.signer.Some? && !cfg.signedTrailer ==> trailers == []
    requires |d.decoded + Join(chunks)| == cfg.expected
    requires cfg.signer.None? || cfg.signedTrailer ==> ChecksumsHold(cfg, d.decoded + Join(chunks), trailers)
    ensures TakeRest(cfg, d, fin) == Outcome(Join(chunks), Eof, true)
    decreases |chunks|, 0
  {
    hide ReadChunk, BeginChunk, Head, ChecksumsHold, Closing;
    var data := chunks[0];
    var rest := Encode(cfg, NextSig(cfg, d.prev, data), chunks[1..], trailers);
    assert Sendable(cfg, chunks[1..]);
    NextEncoded(cfg, d0, data, rest, fin);
    var a := ReadChunk(cfg, d0, fin).after;
    assert TakeRest(cfg, d, fin) == TakeRest(cfg, a, fin);
    var e := State(NextSig(cfg, d.prev, data), d.decoded + data, "", 0, cfg.signer.None?, false,
                   (if cfg.signer.None? then "\r\n" else "") + rest);
    assert e.decoded + Join(chunks[1..]) == d.decoded + Join(chunks);
    DecodeFrom(cfg, e, chunks[1..], trailers, fin);
    if cfg.signer.Some? {
      TakeBuffered(cfg, a, fin);
      assert "" + rest == rest;
      assert a.(buffered := "") == e;
    } else {
      var text := data + ("\r\n" + rest);
      assert text[..|data|] == data && text[|data|..] == "\r\n" + rest;
      assert TakeRest(cfg, a, fin) == Prepend(data, TakeRest(cfg, e, fin));
    }
  }

  /** Decoding the encoding of any list of chunks within the limits gives their concatenation and
      a verified end. Signatures start from `prev`; the trailers carry the checksums of the payload. */
  lemma RoundTrip(cfg: Config, prev: string, chunks: seq<string>, trailers: seq<Trailer>, fin: Err)
    requires cfg.Valid() && ShapedSigner(cfg) && PlainTrailers(trailers) && Sendable(cfg, chunks)
    requires cfg.signer.Some? && !cfg.signedTrailer ==> trailers == []
    requires |Join(chunks)| == cfg.expected
    requires cfg.signer.None? || cfg.signedTrailer ==> ChecksumsHold(cfg, Join(chunks), trailers)
    ensures Decode(cfg, prev, Encode(cfg, prev, chunks, trailers), fin) == Outcome(Join(chunks), Eof, true)
  {
    hide Encode, ChecksumsHold, Join;
    var d := Start(prev, Encode(cfg, prev, chunks, trailers));
    assert d.decoded + Join(chunks) == Join(chunks);
    assert "" + d.input == d.input;
    DecodeFrom(cfg, d, chunks, trailers, fin);
  }
}
