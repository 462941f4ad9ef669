/** Whole request bodies, read to the end through the guard with buffers of any size. */
module ValidatedBody {
  import opened Text
  import opened ChunkSpec
  import opened ChunkSafety
  import opened ChunkRoundTrip
  import opened ChunkEnd
  import opened ByteSource
  import opened AwsChunked
  import opened PayloadHash
  import opened TrailerGuard

  /** Reads until an error, with a fresh buffer of arbitrary size each time. */
  method ReadAll(g: TrailerGuardReader) returns (out: string, e: Err)
    requires g.Valid() && g.out == ""
    modifies g, g.up.Repr()
    ensures out == Released(g.total) && e == g.total.err
  {
    hide Upstream.Future, Upstream.Valid, Upstream.Stalls, TrailerGuardReader.Holds, Released;
    out := "";
    var last: Option<Err> := None;
    while last.None?
      invariant g.Valid() && out == g.out && fresh(g.up.Repr() - old(g.up.Repr()))
      invariant last.Some? ==> g.err == last && !g.haveCarry
      decreases last.None?, |g.total.out| - |out|
    {
      var size :| size > 0;
      var p := new char[size];
      var n;
      n, last := g.Read(p);
      out := out + p[..n];
      g.Progress();
    }
    e := last.value;
    g.Progress();
  }

  /** A chunked body gives what its stream decodes to, however the source splits it, except that
      without a clean end the last byte is withheld. */
  method ReadChunkedBody(cfg: Config, prev: string, input: string, stalls: nat, fail: Err)
    returns (out: string, e: Err)
    requires cfg.Valid()
    ensures out == Released(Decode(cfg, prev, input, fail)) && e == Decode(cfg, prev, input, fail).err
  {
    hide TakeRest;
    var br := new ByteStream(input, stalls, fail);
    var reader := new AwsChunkedReader(br, cfg, prev);
    var g := new TrailerGuardReader(Chunked(reader));
    out, e := ReadAll(g);
  }

  /** A hashed body is complete exactly when its source ended cleanly and its digest is the
      declared one; otherwise it is one byte short. */
  method ReadHashedBody(body: string, stalls: nat, fail: Err, sha256: string -> string, expected: string)
    returns (out: string, e: Err)
    ensures out == (if fail.Eof? && sha256(body) == expected then body else ButLast(body))
    ensures e == if fail.Eof? && sha256(body) != expected then PayloadHashMismatch else fail
  {
    var feed := new Feed(body, stalls, fail);
    var reader := new HashReader(feed, sha256, expected);
    assert "" + body == body;
    var g := new TrailerGuardReader(Hashed(reader));
    out, e := ReadAll(g);
  }

  /** The encoding of any list of chunks is read back whole through every layer. */
  method ReadEncodedBody(cfg: Config, prev: string, chunks: seq<string>, trailers: seq<Trailer>, stalls: nat, fail: Err)
    returns (out: string, e: Err)
    requires cfg.Valid() && ShapedSigner(cfg) && PlainTrailers(trailers) && Sendable(cfg, chunks)
    requires cfg.signer.Some? && !cfg.signedTrailer ==> trailers == []
    requires |Join(chunks)| == cfg.expected
    requires cfg.signer.None? || cfg.signedTrailer ==> ChecksumsHold(cfg, Join(chunks), trailers)
    ensures out == Join(chunks) && e == Eof
  {
    hide Decode, Encode, ChecksumsHold, Join, ShapedSigner, PlainTrailers, Sendable;
    RoundTrip(cfg, prev, chunks, trailers, fail);
    out, e := ReadChunkedBody(cfg, prev, Encode(cfg, prev, chunks, trailers), stalls, fail);
  }

  /** A body released whole was verified to its end, unless the source itself ended cleanly inside
      the framing; and then, in signed modes, its bytes still are those of verified chunks. */
  lemma ReleasedWholeIsVerified(cfg: Config, prev: string, input: string, fail: Err)
    requires cfg.Valid()
    requires var r := Decode(cfg, prev, input, fail); r.out != "" && Released(r) == r.out
    ensures Decode(cfg, prev, input, fail).done <==> !(fail.Eof? && CutInFraming(cfg, Start(prev, input)))
    ensures cfg.signer.Some? ==>
              var chunks := Accepted(cfg, Start(prev, input), fail);
              Chain(cfg.signer.value, prev, chunks) && Data(chunks) == Decode(cfg, prev, input, fail).out
  {
    var d := Start(prev, input);
    UnverifiedEofIffCut(cfg, d, fail);
    DoneMeansEof(cfg, d, fail);
    if cfg.signer.Some? { OutputIsVerified(cfg, d, fail); }
    hide TakeRest, CutInFraming, Accepted, Chain, Data;
  }

  lemma {:induction false} DoneMeansEof(cfg: Config, d: State, fin: Err)
    requires cfg.Valid()
    ensures TakeRest(cfg, d, fin).done ==> TakeRest(cfg, d, fin).err == Eof
    decreases |d.input|, if d.remaining > 0 then 1 else 0, |d.buffered|
  {
    hide BeginChunk;
    if d.buffered != "" {
      DoneMeansEof(cfg, d.(buffered := ""), fin);
    } else if d.remaining > |d.input| {
    } else if d.remaining > 0 {
      DoneMeansEof(cfg, d.(input := d.input[d.remaining..], remaining := 0, decoded := d.decoded + d.input[..d.remaining]), fin);
    } else if !d.done && BeginChunk(cfg, d, fin).Began? {
      DoneMeansEof(cfg, BeginChunk(cfg, d, fin).after, fin);
    }
  }

  datatype Mode = SignedPayload | SignedPayloadTrailer | UnsignedPayloadTrailer | OtherMode(name: string)

  /** The reader that DecodeBodyForS3Write sets up for a mode, or None where it refuses the request.
      Without trailers no checksum is read, and without signatures no signer is used. */
  function ConfigFor(mode: Mode, signer: Option<Signer>, checksums: seq<string>, digest: (string, string) -> string,
                     decodedLen: int): (r: Option<Config>)
    ensures r.Some? ==> r.value.Valid() && r.value.expected == decodedLen
    ensures r.Some? ==> (r.value.signer.None? <==> mode.UnsignedPayloadTrailer?)
    ensures r.None? <==> mode.OtherMode? || decodedLen < 0 || (!mode.UnsignedPayloadTrailer? && signer.None?)
  {
    if decodedLen < 0 then None
    else
      match mode
      case SignedPayload => if signer.None? then None else Some(Config(signer, false, [], digest, decodedLen))
      case SignedPayloadTrailer => if signer.None? then None else Some(Config(signer, true, checksums, digest, decodedLen))
      case UnsignedPayloadTrailer => Some(Config(None, false, checksums, digest, decodedLen))
      case OtherMode(_) => None
  }

  /** A body declared empty has no byte to withhold, so it is read to its end before it is accepted:
      exactly when its end was verified or its source ended cleanly inside the framing. */
  method AcceptEmptyBody(cfg: Config, prev: string, input: string, stalls: nat, fail: Err) returns (ok: bool)
    requires cfg.Valid() && cfg.expected == 0
    ensures ok <==> Decode(cfg, prev, input, fail).done || (fail.Eof? && CutInFraming(cfg, Start(prev, input)))
  {
    hide TakeRest, CutInFraming;
    var out, e := ReadChunkedBody(cfg, prev, input, stalls, fail);
    UnverifiedEofIffCut(cfg, Start(prev, input), fail);
    DoneMeansEof(cfg, Start(prev, input), fail);
    ok := e.Eof?;
  }
}
