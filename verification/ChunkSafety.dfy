/** What the aws-chunked decoder guarantees for every stream. */
module ChunkSafety {
  import opened Text
  import opened ChunkText
  import opened ChunkSpec

  // ------------------------------------------------------------------ the signature chain

  datatype Signed = Signed(sig: string, data: string)

  /** Each signature covers its own chunk and the signature before it. */
  predicate Chain(sg: Signer, prev: string, chunks: seq<Signed>)
    decreases |chunks|
  {
    chunks == [] ||
    (chunks[0].sig == ChunkSignature(sg, prev, chunks[0].data) && Chain(sg, chunks[0].sig, chunks[1..]))
  }

  function Data(chunks: seq<Signed>): (r: string) {
    if chunks == [] then "" else chunks[0].data + Data(chunks[1..])
  }

  function LastSig(prev: string, chunks: seq<Signed>): (r: string)
    decreases |chunks|
  {
    if chunks == [] then prev else LastSig(chunks[0].sig, chunks[1..])
  }

  /** The chunks a signed body yields from state `d` on, with the signatures that vouched for them. */
  ghost function Accepted(cfg: Config, d: State, fin: Err): (r: seq<Signed>)
    requires cfg.Valid()
    decreases |d.input|
  {
    if d.done then []
    else
      var b := BeginChunk(cfg, d, fin);
      if b.Failed? || b.after.done then []
      else [Signed(b.after.prev, b.after.buffered)] + Accepted(cfg, b.after.(buffered := ""), fin)
  }

  predicate IsSuffix(t: string, s: string) {
    |t| <= |s| && s[|s| - |t|..] == t
  }

  lemma SuffixTrans(a: string, b: string, c: string)
    requires IsSuffix(a, b) && IsSuffix(b, c)
    ensures IsSuffix(a, c)
  {
    assert c[|c| - |a|..] == c[|c| - |b|..][|b| - |a|..];
  }

  /** Finishing a body changes nothing that was decoded, and only a verified end finishes it. */
  lemma FinishKeeps(cfg: Config, d: State, fin: Err)
    requires cfg.Valid() && FinishBody(cfg, d, fin).Began?
    ensures var a := FinishBody(cfg, d, fin).after;
            a.done && a.decoded == d.decoded && a.buffered == d.buffered && a.remaining == d.remaining
  {
    hide SkipTrailers, FinishTrailers;
    if FinishTrailers(cfg, d, fin).Began? { SectionKeeps(cfg, d, fin); }
  }

  lemma SectionKeeps(cfg: Config, d: State, fin: Err)
    requires cfg.Valid() && FinishTrailers(cfg, d, fin).Began?
    ensures var a := FinishTrailers(cfg, d, fin).after;
            a.done && a.decoded == d.decoded && a.buffered == d.buffered && a.remaining == d.remaining
  {
    hide Normalize, ReadSection, ChecksumErr, TrailerSignature;
  }

  lemma LastKeeps(cfg: Config, d: State, sig: string, fin: Err)
    requires cfg.Valid() && LastChunk(cfg, d, sig, fin).Began?
    ensures var a := LastChunk(cfg, d, sig, fin).after;
            a.done && a.decoded == d.decoded && a.buffered == d.buffered && a.remaining == d.remaining
  {
    if cfg.signer.None? {
      FinishKeeps(cfg, d, fin);
    } else {
      FinishKeeps(cfg, d.(prev := Normalize(sig).value), fin);
    }
    hide FinishBody, Normalize, ChunkSignature;
  }

  lemma SignedKeeps(cfg: Config, d: State, n: nat, sig: string, fin: Err)
    requires cfg.signer.Some? && SignedChunk(cfg, d, n, sig, fin).Began?
    ensures var a := SignedChunk(cfg, d, n, sig, fin).after;
            && a.decoded == d.decoded + a.buffered
            && a.prev == ChunkSignature(cfg.signer.value, d.prev, a.buffered)
            && a.done == d.done && a.needCRLF == d.needCRLF && a.remaining == d.remaining
            && IsSuffix(a.input, d.input)
  {
    hide Normalize, ChunkSignature;
    assert d.input[n..][2..] == d.input[n + 2..];
  }

  /** What a chunk that begins does to a state that has no CRLF outstanding. */
  lemma BeginKeeps(cfg: Config, d: State, fin: Err)
    requires cfg.Valid() && d.remaining == 0 && !d.done && ReadChunk(cfg, d, fin).Began?
    ensures var a := ReadChunk(cfg, d, fin).after;
            if a.done then a.decoded == d.decoded && a.buffered == d.buffered && a.remaining == 0
            else
              && IsSuffix(a.input, d.input)
              && (cfg.signer.Some? ==>
                    && a.decoded == d.decoded + a.buffered && a.remaining == 0 && a.needCRLF == d.needCRLF
                    && a.prev == ChunkSignature(cfg.signer.value, d.prev, a.buffered))
              && (cfg.signer.None? ==>
                    a.remaining >= 0 && a == d.(remaining := a.remaining, needCRLF := true, input := a.input))
  {
    hide LastChunk, SignedChunk, ParseHeader, ChunkSignature;
    var l := ReadLine(d.input, MAX_HEADER_LINE);
    var d1 := d.(input := l.rest);
    assert IsSuffix(l.rest, d.input);
    var h := ParseHeader(l.text);
    if h.size == 0 {
      LastKeeps(cfg, d1, h.sig, fin);
    } else if cfg.signer.Some? {
      SignedKeeps(cfg, d1, h.size, h.sig, fin);
      SuffixTrans(SignedChunk(cfg, d1, h.size, h.sig, fin).after.input, d1.input, d.input);
    }
  }

  /** In signed modes everything handed out, for any stream and up to any error, is the
      concatenation of chunks that verified along the chain from the given signature. */
  lemma {:induction false} OutputIsVerified(cfg: Config, d: State, fin: Err)
    requires cfg.Valid() && cfg.signer.Some? && !d.needCRLF && d.remaining == 0 && d.buffered == ""
    ensures Chain(cfg.signer.value, d.prev, Accepted(cfg, d, fin))
    ensures TakeRest(cfg, d, fin).out == Data(Accepted(cfg, d, fin))
    decreases |d.input|
  {
    hide BeginChunk, ReadChunk, ChunkSignature;
    BeginIsRead(cfg, d, fin);
    if !d.done && BeginChunk(cfg, d, fin).Began? {
      BeginKeeps(cfg, d, fin);
      var a := BeginChunk(cfg, d, fin).after;
      if a.done {
        assert TakeRest(cfg, a, fin) == Outcome("", Eof, true);
      } else {
        OutputIsVerified(cfg, a.(buffered := ""), fin);
        TakeBuffered(cfg, a, fin);
      }
    }
  }

  lemma BeginIsRead(cfg: Config, d: State, fin: Err)
    requires cfg.Valid() && !d.needCRLF
    ensures BeginChunk(cfg, d, fin) == ReadChunk(cfg, d, fin)
  {
    hide ReadChunk;
  }

  lemma TakeBuffered(cfg: Config, d: State, fin: Err)
    requires cfg.Valid()
    ensures TakeRest(cfg, d, fin) == Prepend(d.buffered, TakeRest(cfg, d.(buffered := ""), fin))
  {
    if d.buffered == "" {
      assert d == d.(buffered := "");
      assert "" + TakeRest(cfg, d, fin).out == TakeRest(cfg, d, fin).out;
    }
  }

  // ------------------------------------------------------------------- what `done` certifies

  predicate ChecksumsHold(cfg: Config, payload: string, trailers: seq<Trailer>) {
    forall i :: 0 <= i < |cfg.checksums| ==>
      && Names(trailers, cfg.checksums[i])
      && AllMatch(trailers, cfg.checksums[i], cfg.digest(cfg.checksums[i], payload))
  }

  /** `text` opens with a zero-length header that ends a body with this payload: the declared
      length is met, the header's signature continues the chain from `prev`, the trailing
      checksums match the payload and the trailer signature continues from the header's. */
  ghost predicate Ends(cfg: Config, payload: string, prev: string, text: string, fin: Err)
    requires cfg.Valid()
  {
    var l := ReadLine(text, MAX_HEADER_LINE);
    && l.Line?
    && var h := ParseHeader(l.text);
    && h.Header? && h.size == 0
    && |payload| == cfg.expected
    && (cfg.signer.Some? ==> Normalize(h.sig) == Some(ChunkSignature(cfg.signer.value, prev, "")))
    && (cfg.signer.None? || cfg.signedTrailer ==>
          var r := ReadSection(cfg.signedTrailer, l.rest, fin, MAX_TRAILER_LINES, [], "");
          && r.Section? && ChecksumsHold(cfg, payload, r.trailers)
          && (cfg.signedTrailer ==>
                Normalize(r.sig) ==
                Some(TrailerSignature(cfg.signer.value, ChunkSignature(cfg.signer.value, prev, ""), r.trailers))))
  }

  lemma FinishIsVerified(cfg: Config, d: State, fin: Err)
    requires cfg.Valid() && FinishBody(cfg, d, fin).Began?
    ensures |d.decoded| == cfg.expected
    ensures cfg.signer.None? || cfg.signedTrailer ==>
              var r := ReadSection(cfg.signedTrailer, d.input, fin, MAX_TRAILER_LINES, [], "");
              && r.Section? && ChecksumsHold(cfg, d.decoded, r.trailers)
              && (cfg.signedTrailer ==> Normalize(r.sig) == Some(TrailerSignature(cfg.signer.value, d.prev, r.trailers)))
  {
    hide Normalize, ReadSection, SkipTrailers, ChecksumErr, TrailerSignature, Names, AllMatch;
  }

  lemma LastIsVerified(cfg: Config, d: State, fin: Err)
    requires cfg.Valid() && d.remaining == 0 && !d.done
    requires var b := ReadChunk(cfg, d, fin); b.Began? && b.after.done
    ensures Ends(cfg, d.decoded, d.prev, d.input, fin)
  {
    hide LastChunk, SignedChunk, ParseHeader, ChunkSignature, ChecksumsHold, ReadSection, TrailerSignature, Normalize;
    var l := ReadLine(d.input, MAX_HEADER_LINE);
    var d1 := d.(input := l.rest);
    var h := ParseHeader(l.text);
    if h.size == 0 {
      LastSigned(cfg, d1, h.sig, fin);
    } else if cfg.signer.Some? {
      SignedKeeps(cfg, d1, h.size, h.sig, fin);
    }
  }

  lemma LastSigned(cfg: Config, d: State, sig: string, fin: Err)
    requires cfg.Valid() && LastChunk(cfg, d, sig, fin).Began?
    ensures |d.decoded| == cfg.expected
    ensures cfg.signer.Some? ==> Normalize(sig) == Some(ChunkSignature(cfg.signer.value, d.prev, ""))
    ensures cfg.signer.None? || cfg.signedTrailer ==>
              var r := ReadSection(cfg.signedTrailer, d.input, fin, MAX_TRAILER_LINES, [], "");
              && r.Section? && ChecksumsHold(cfg, d.decoded, r.trailers)
              && (cfg.signedTrailer ==>
                    Normalize(r.sig) == Some(TrailerSignature(cfg.signer.value, ChunkSignature(cfg.signer.value, d.prev, ""), r.trailers)))
  {
    if cfg.signer.None? {
      FinishIsVerified(cfg, d, fin);
    } else {
      FinishIsVerified(cfg, d.(prev := Normalize(sig).value), fin);
    }
    hide FinishBody, Normalize, ChunkSignature, ChecksumsHold, ReadSection, TrailerSignature;
  }

  /** The position of the terminator that a finished reading stopped at. */
  lemma {:induction false} DoneFrom(cfg: Config, d: State, fin: Err) returns (k: nat)
    requires cfg.Valid() && !d.done && TakeRest(cfg, d, fin).done
    requires cfg.signer.Some? ==> !d.needCRLF && d.remaining == 0
    requires d.remaining >= 0
    requires d.buffered == ""
    ensures k <= |d.input|
    ensures Ends(cfg, d.decoded + TakeRest(cfg, d, fin).out,
                 if cfg.signer.Some? then LastSig(d.prev, Accepted(cfg, d, fin)) else "", d.input[k..], fin)
    decreases |d.input|, d.remaining + 3
  {
    hide Ends, ReadChunk;
    if d.remaining > 0 {
      var n := d.remaining;
      var data := d.input[..n];
      var d1 := d.(input := d.input[n..], remaining := 0, decoded := d.decoded + data);
      var j := DoneFrom(cfg, d1, fin);
      k := n + j;
      assert d.input[k..] == d1.input[j..];
      assert d.decoded + TakeRest(cfg, d, fin).out == d1.decoded + TakeRest(cfg, d1, fin).out;
    } else {
      var c := if d.needCRLF then 2 else 0;
      var d0 := if d.needCRLF then d.(input := d.input[2..], needCRLF := false) else d;
      assert BeginChunk(cfg, d, fin) == ReadChunk(cfg, d0, fin);
      assert d0.input == d.input[c..];
      k := DoneAtChunk(cfg, d, d0, c, fin);
    }
  }

  lemma {:induction false} DoneAtChunk(cfg: Config, d: State, d0: State, c: nat, fin: Err) returns (k: nat)
    requires cfg.Valid() && !d.done && TakeRest(cfg, d, fin).done
    requires cfg.signer.Some? ==> d == d0 && !d.needCRLF
    requires d.remaining == 0 && d.buffered == "" && c <= |d.input|
    requires d0 == d.(input := d.input[c..], needCRLF := false)
    requires BeginChunk(cfg, d, fin) == ReadChunk(cfg, d0, fin)
    ensures k <= |d.input|
    ensures Ends(cfg, d.decoded + TakeRest(cfg, d, fin).out,
                 if cfg.signer.Some? then LastSig(d.prev, Accepted(cfg, d, fin)) else "", d.input[k..], fin)
    decreases |d.input|, 2
  {
    hide ReadChunk, BeginChunk, Ends, ChunkSignature;
    var a := ReadChunk(cfg, d0, fin).after;
    BeginKeeps(cfg, d0, fin);
    if a.done {
      LastIsVerified(cfg, d0, fin);
      k := c;
      assert TakeRest(cfg, d, fin).out == "";
      assert d.decoded + "" == d.decoded;
      PrevIsFree(cfg, d.decoded, d0.prev, "", d.input[k..], fin);
      assert cfg.signer.Some? ==> Accepted(cfg, d, fin) == [];
    } else {
      k := DoneAhead(cfg, d, d0, a, fin);
    }
  }

  lemma {:induction false} DoneAhead(cfg: Config, d: State, d0: State, a: State, fin: Err) returns (k: nat)
    requires cfg.Valid() && !d.done && TakeRest(cfg, d, fin).done
    requires d.remaining == 0 && d.buffered == "" && IsSuffix(d0.input, d.input)
    requires BeginChunk(cfg, d, fin) == Began(a) && !a.done && a.remaining >= 0 && IsSuffix(a.input, d0.input)
    requires cfg.signer.Some? ==> a.decoded == d.decoded + a.buffered && a.remaining == 0 && !a.needCRLF
    requires cfg.signer.None? ==> a.decoded == d.decoded && a.buffered == ""
    ensures k <= |d.input|
    ensures Ends(cfg, d.decoded + TakeRest(cfg, d, fin).out,
                 if cfg.signer.Some? then LastSig(d.prev, Accepted(cfg, d, fin)) else "", d.input[k..], fin)
    decreases |d.input|, 1
  {
    hide ReadChunk, BeginChunk, Ends, ChunkSignature;
    var e := a.(buffered := "");
    assert TakeRest(cfg, d, fin) == TakeRest(cfg, a, fin);
    TakeBuffered(cfg, a, fin);
    var j := DoneFrom(cfg, e, fin);
    k := |d.input| - |a.input| + j;
    SuffixTrans(a.input, d0.input, d.input);
    assert d.input[k..] == a.input[j..];
    assert d.decoded + TakeRest(cfg, d, fin).out == e.decoded + TakeRest(cfg, e, fin).out;
    if cfg.signer.Some? {
      var acc := Accepted(cfg, d, fin);
      assert acc[1..] == Accepted(cfg, e, fin) && acc[0].sig == a.prev;
      assert LastSig(d.prev, acc) == LastSig(a.prev, acc[1..]);
    }
  }

  /** Without signatures the chain position does not matter. */
  lemma PrevIsFree(cfg: Config, payload: string, prev: string, other: string, text: string, fin: Err)
    requires cfg.Valid() && Ends(cfg, payload, prev, text, fin)
    ensures cfg.signer.None? ==> Ends(cfg, payload, other, text, fin)
  {
    hide ReadLine, ParseHeader, ReadSection, ChecksumsHold, Normalize, ChunkSignature, TrailerSignature;
  }

  /** A body is marked done only where the stream holds its verified end: the payload has the
      declared length, every declared checksum is present and right, and in signed modes the final
      chunk signature and any trailer signature continue the chain of the chunks handed out. */
  lemma DoneIsVerified(cfg: Config, prev: string, input: string, fin: Err) returns (k: nat)
    requires cfg.Valid() && Decode(cfg, prev, input, fin).done
    ensures k <= |input|
    ensures Ends(cfg, Decode(cfg, prev, input, fin).out,
                 if cfg.signer.Some? then LastSig(prev, Accepted(cfg, Start(prev, input), fin)) else "",
                 input[k..], fin)
    ensures |Decode(cfg, prev, input, fin).out| == cfg.expected
  {
    k := DoneFrom(cfg, Start(prev, input), fin);
    assert "" + Decode(cfg, prev, input, fin).out == Decode(cfg, prev, input, fin).out;
  }
}
