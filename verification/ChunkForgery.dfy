/** What a stream can be made of that holds no signatures but those a client issued: whatever was
    dropped, reordered, replayed or replaced in it, it yields the client's own chunks in order. */
module ChunkForgery {
  import opened Text
  import opened ChunkText
  import opened ChunkSpec
  import opened ChunkSafety
  import opened ChunkSigning

  // ---------------------------------------------------------------------- what a client issues

  /** The signatures of consecutive chunks, each from the one before it. */
  function Signatures(sg: Signer, prev: string, chunks: seq<string>): (r: seq<string>)
    ensures |r| == |chunks|
    decreases |chunks|
  {
    if chunks == [] then []
    else [ChunkSignature(sg, prev, chunks[0])] + Signatures(sg, ChunkSignature(sg, prev, chunks[0]), chunks[1..])
  }

  /** The signature before chunk `i`. */
  function Before(prev: string, sigs: seq<string>, i: nat): (r: string)
    requires i <= |sigs|
  {
    if i == 0 then prev else sigs[i - 1]
  }

  lemma {:induction false} SignatureAt(sg: Signer, prev: string, chunks: seq<string>, i: nat)
    requires i < |chunks|
    ensures var sigs := Signatures(sg, prev, chunks); sigs[i] == ChunkSignature(sg, Before(prev, sigs, i), chunks[i])
    decreases |chunks|
  {
    hide ChunkSignature;
    if i > 0 { SignatureAt(sg, ChunkSignature(sg, prev, chunks[0]), chunks[1..], i - 1); }
  }

  /** A chunk at its place in a chain. */
  datatype Link = Link(prev: string, data: string)

  function Links(prev: string, sigs: seq<string>, chunks: seq<string>): (r: seq<Link>)
    requires |sigs| == |chunks|
  {
    seq(|chunks|, i requires 0 <= i < |chunks| => Link(Before(prev, sigs, i), chunks[i]))
  }

  ghost predicate NoCollision(sg: Signer, a: seq<Link>, b: seq<Link>) {
    forall i, j :: 0 <= i < |a| && 0 <= j < |b| ==> ChunksApart(sg, a[i].prev, a[i].data, b[j].prev, b[j].data)
  }

  predicate Sized(sigs: seq<string>) { forall i :: 0 <= i < |sigs| ==> |sigs[i]| == 64 }

  /** An upload: the signature of its request, its chunks and the empty one that ends it. */
  ghost predicate Issues(sg: Signer, prev: string, cs: seq<string>) {
    var all := cs + [""]; var sigs := Signatures(sg, prev, all);
    && (forall i :: 0 <= i < |cs| ==> cs[i] != "")
    && |prev| == 64 && Sized(sigs) && prev !in sigs
    && NoCollision(sg, Links(prev, sigs, all), Links(prev, sigs, all))
  }

  /** No two places of a client's chain have the same signature before them. */
  lemma {:induction false} PlacesDiffer(sg: Signer, prev: string, cs: seq<string>, i: nat, j: nat)
    requires Issues(sg, prev, cs) && i < j <= |cs|
    ensures var sigs := Signatures(sg, prev, cs + [""]); Before(prev, sigs, i) != Before(prev, sigs, j)
    decreases i
  {
    hide ChunkSignature, ChunksApart;
    var all := cs + [""];
    var sigs := Signatures(sg, prev, all);
    if i == 0 {
      assert sigs[j - 1] in sigs;
    } else if sigs[i - 1] == sigs[j - 1] {
      SignatureAt(sg, prev, all, i - 1);
      SignatureAt(sg, prev, all, j - 1);
      var ls := Links(prev, sigs, all);
      assert ChunksApart(sg, ls[i - 1].prev, ls[i - 1].data, ls[j - 1].prev, ls[j - 1].data);
      ChunkBinds(sg, ls[i - 1].prev, ls[i - 1].data, ls[j - 1].prev, ls[j - 1].data);
      PlacesDiffer(sg, prev, cs, i - 1, j - 1);
    }
  }

  /** A verified signature that the client issued is for the client's chunk at that place. */
  lemma IssuedInPlace(sg: Signer, prev: string, cs: seq<string>, k: nat, data: string)
    requires Issues(sg, prev, cs) && k <= |cs|
    requires var sigs := Signatures(sg, prev, cs + [""]);
             && ChunkSignature(sg, Before(prev, sigs, k), data) in sigs
             && NoCollision(sg, [Link(Before(prev, sigs, k), data)], Links(prev, sigs, cs + [""]))
    ensures (cs + [""])[k] == data && ChunkSignature(sg, Before(prev, Signatures(sg, prev, cs + [""]), k), data) == Signatures(sg, prev, cs + [""])[k]
  {
    hide ChunkSignature, ChunksApart;
    var all := cs + [""];
    var sigs := Signatures(sg, prev, all);
    var p := Before(prev, sigs, k);
    var j :| 0 <= j < |sigs| && sigs[j] == ChunkSignature(sg, p, data);
    SignatureAt(sg, prev, all, j);
    var mine, ls := [Link(p, data)], Links(prev, sigs, all);
    assert ChunksApart(sg, mine[0].prev, mine[0].data, ls[j].prev, ls[j].data);
    ChunkBinds(sg, p, data, ls[j].prev, ls[j].data);
    if j < k { PlacesDiffer(sg, prev, cs, j, k); } else if k < j { PlacesDiffer(sg, prev, cs, k, j); }
  }

  // ----------------------------------------------------------------------- what a stream yields

  /** The chunks of a verified chain at their places. */
  function PlacesOf(prev: string, chain: seq<Signed>): (r: seq<Link>)
    ensures |r| == |chain|
    decreases |chain|
  {
    if chain == [] then [] else [Link(prev, chain[0].data)] + PlacesOf(chain[0].sig, chain[1..])
  }

  predicate FromClient(sigs: seq<string>, chain: seq<Signed>) { forall i :: 0 <= i < |chain| ==> chain[i].sig in sigs }

  predicate HaveData(chain: seq<Signed>) { forall i :: 0 <= i < |chain| ==> chain[i].data != "" }

  /** A verified chain of issued signatures is the client's chain from there on. */
  lemma {:induction false} ChainFollows(sg: Signer, prev: string, cs: seq<string>, k: nat, chain: seq<Signed>)
    requires Issues(sg, prev, cs) && k <= |cs|
    requires var sigs := Signatures(sg, prev, cs + [""]); var p := Before(prev, sigs, k);
             && Chain(sg, p, chain) && FromClient(sigs, chain) && HaveData(chain)
             && NoCollision(sg, PlacesOf(p, chain), Links(prev, sigs, cs + [""]))
    ensures k + |chain| <= |cs| && Data(chain) == Join(cs[k..k + |chain|])
    ensures var sigs := Signatures(sg, prev, cs + [""]);
            LastSig(Before(prev, sigs, k), chain) == Before(prev, sigs, k + |chain|)
    decreases |chain|
  {
    hide Issues, ChunkSignature, ChunksApart, Signatures, Links;
    var all := cs + [""];
    var sigs := Signatures(sg, prev, all);
    var p := Before(prev, sigs, k);
    if chain != [] {
      var places := PlacesOf(p, chain);
      NoCollisionPart(sg, places, Links(prev, sigs, all));
      assert places[..1] == [Link(p, chain[0].data)] && places[1..] == PlacesOf(chain[0].sig, chain[1..]);
      assert chain[0].sig in sigs && chain[0].data != "";
      IssuedInPlace(sg, prev, cs, k, chain[0].data);
      assert all[k] == cs[k];
      ChainFollows(sg, prev, cs, k + 1, chain[1..]);
      assert cs[k..k + |chain|] == [cs[k]] + cs[k + 1..k + |chain|];
    }
  }

  lemma NoCollisionPart(sg: Signer, a: seq<Link>, b: seq<Link>)
    requires NoCollision(sg, a, b) && a != []
    ensures NoCollision(sg, a[..1], b) && NoCollision(sg, a[1..], b)
  {
    hide ChunksApart;
  }

  /** The signature in the header line that `text` begins with, if it has the form of one. */
  function HeaderSignature(text: string): (r: Option<string>) {
    var l := ReadLine(text, MAX_HEADER_LINE);
    if !l.Line? then None
    else
      var h := ParseHeader(l.text);
      if h.Header? then Normalize(h.sig) else None
  }

  /** Wherever in the stream a chunk header can be read, its signature is one of these. */
  ghost predicate HoldsOnly(input: string, sigs: seq<string>) {
    forall k :: 0 <= k <= |input| && HeaderSignature(input[k..]).Some? ==> HeaderSignature(input[k..]).value in sigs
  }

  lemma HoldsOnlyRest(input: string, rest: string, sigs: seq<string>)
    requires HoldsOnly(input, sigs) && IsSuffix(rest, input)
    ensures HoldsOnly(rest, sigs)
  {
    hide HeaderSignature;
    forall k | 0 <= k <= |rest| && HeaderSignature(rest[k..]).Some? ensures HeaderSignature(rest[k..]).value in sigs {
      var j := |input| - |rest| + k;
      assert input[j..] == rest[k..];
    }
  }

  /** A chunk that begins has data, and its signature stands in the header line. */
  lemma BeginsWithHeader(cfg: Config, d: State, fin: Err)
    requires cfg.Valid() && cfg.signer.Some? && d.remaining == 0 && !d.done
    requires var b := ReadChunk(cfg, d, fin); b.Began? && !b.after.done
    ensures var a := ReadChunk(cfg, d, fin).after; a.buffered != "" && HeaderSignature(d.input) == Some(a.prev)
  {
    hide LastChunk, SignedChunk, ParseHeader, ChunkSignature, Normalize;
    var l := ReadLine(d.input, MAX_HEADER_LINE);
    var d1 := d.(input := l.rest);
    var h := ParseHeader(l.text);
    if h.size == 0 { LastKeeps(cfg, d1, h.sig, fin); } else { SignedHeader(cfg, d1, h.size, h.sig, fin); }
  }

  lemma SignedHeader(cfg: Config, d: State, n: nat, sig: string, fin: Err)
    requires cfg.signer.Some? && n > 0 && SignedChunk(cfg, d, n, sig, fin).Began?
    ensures var a := SignedChunk(cfg, d, n, sig, fin).after; |a.buffered| == n && Normalize(sig) == Some(a.prev)
  {
    hide ChunkSignature, Normalize;
  }

  lemma {:induction false} AcceptedAreHeld(cfg: Config, d: State, fin: Err, sigs: seq<string>)
    requires cfg.Valid() && cfg.signer.Some? && !d.needCRLF && d.remaining == 0 && d.buffered == ""
    requires HoldsOnly(d.input, sigs)
    ensures FromClient(sigs, Accepted(cfg, d, fin))
    decreases |d.input|
  {
    hide BeginChunk, ReadChunk, ChunkSignature, HeaderSignature, HoldsOnly;
    BeginIsRead(cfg, d, fin);
    if !d.done && BeginChunk(cfg, d, fin).Began? {
      BeginKeeps(cfg, d, fin);
      var a := BeginChunk(cfg, d, fin).after;
      if !a.done {
        BeginsWithHeader(cfg, d, fin);
        HeldAtStart(d.input, sigs);
        HoldsOnlyRest(d.input, a.input, sigs);
        AcceptedAreHeld(cfg, a.(buffered := ""), fin, sigs);
      }
    }
  }

  lemma {:induction false} AcceptedHaveData(cfg: Config, d: State, fin: Err)
    requires cfg.Valid() && cfg.signer.Some? && !d.needCRLF && d.remaining == 0 && d.buffered == ""
    ensures HaveData(Accepted(cfg, d, fin))
    decreases |d.input|
  {
    hide BeginChunk, ReadChunk, ChunkSignature, HeaderSignature;
    BeginIsRead(cfg, d, fin);
    if !d.done && BeginChunk(cfg, d, fin).Began? {
      BeginKeeps(cfg, d, fin);
      var a := BeginChunk(cfg, d, fin).after;
      if !a.done {
        BeginsWithHeader(cfg, d, fin);
        AcceptedHaveData(cfg, a.(buffered := ""), fin);
      }
    }
  }

  lemma HeldAtStart(input: string, sigs: seq<string>)
    requires HoldsOnly(input, sigs)
    ensures HeaderSignature(input).Some? ==> HeaderSignature(input).value in sigs
  {
    hide HeaderSignature;
    assert input[0..] == input;
  }

  // ------------------------------------------------------------------------------- the theorem

  /** Every signature that was verified on the way through the stream was issued by the client: those
      of the chunks let through, and that of the end if there is one. */
  ghost predicate Unforged(cfg: Config, prev: string, input: string, fin: Err, sigs: seq<string>)
    requires cfg.Valid() && cfg.signer.Some?
  {
    var chain := Accepted(cfg, Start(prev, input), fin);
    && FromClient(sigs, chain)
    && (Decode(cfg, prev, input, fin).done ==> ChunkSignature(cfg.signer.value, LastSig(prev, chain), "") in sigs)
  }

  /** Hash and HMAC do not collide on the chunks of the client and those let through. */
  ghost predicate Uncollided(cfg: Config, prev: string, input: string, fin: Err, cs: seq<string>)
    requires cfg.Valid() && cfg.signer.Some?
  {
    var sg, all := cfg.signer.value, cs + [""];
    var chain := Accepted(cfg, Start(prev, input), fin);
    NoCollision(sg, PlacesOf(prev, chain) + [Link(LastSig(prev, chain), "")], Links(prev, Signatures(sg, prev, all), all))
  }

  /** If no signature was verified but those that a client issued for its chunks `cs` from this request
      signature, then all that comes out are the first of these chunks, whatever was dropped,
      reordered, replayed or replaced; and a verified body is all of them, ended by the client. */
  lemma OutputIsIssued(cfg: Config, prev: string, input: string, fin: Err, cs: seq<string>) returns (n: nat)
    requires cfg.Valid() && cfg.signer.Some? && Issues(cfg.signer.value, prev, cs)
    requires Unforged(cfg, prev, input, fin, Signatures(cfg.signer.value, prev, cs + [""]))
    requires Uncollided(cfg, prev, input, fin, cs)
    ensures n <= |cs| && Decode(cfg, prev, input, fin).out == Join(cs[..n])
    ensures Decode(cfg, prev, input, fin).done ==>
              && n == |cs|
              && ChunkSignature(cfg.signer.value, LastSig(prev, Accepted(cfg, Start(prev, input), fin)), "") ==
                 Signatures(cfg.signer.value, prev, cs + [""])[n]
  {
    hide Issues, ChunkSignature, Signatures, Links, BeginChunk, NoCollision, ChunksApart;
    var sg, all := cfg.signer.value, cs + [""];
    var sigs := Signatures(sg, prev, all);
    var d := Start(prev, input);
    var chain := Accepted(cfg, d, fin);
    OutputIsVerified(cfg, d, fin);
    AcceptedHaveData(cfg, d, fin);
    NoCollisionSplit(sg, PlacesOf(prev, chain), Link(LastSig(prev, chain), ""), Links(prev, sigs, all));
    hide Accepted, TakeRest;
    ChainFollows(sg, prev, cs, 0, chain);
    n := |chain|;
    assert cs[0..n] == cs[..n];
    if Decode(cfg, prev, input, fin).done {
      IssuedInPlace(sg, prev, cs, n, "");
      EmptyIsLast(sg, prev, cs, n);
    }
  }

  /** In particular if no other chunk signature can be read anywhere in the stream. */
  lemma HeldIsUnforged(cfg: Config, prev: string, input: string, fin: Err, sigs: seq<string>)
    requires cfg.Valid() && cfg.signer.Some? && HoldsOnly(input, sigs)
    ensures Unforged(cfg, prev, input, fin, sigs)
  {
    hide ChunkSignature, HoldsOnly, Accepted, TakeRest;
    var d := Start(prev, input);
    AcceptedAreHeld(cfg, d, fin, sigs);
    if Decode(cfg, prev, input, fin).done {
      var k := DoneIsVerified(cfg, prev, input, fin);
      EndIsHeld(cfg, Decode(cfg, prev, input, fin).out, LastSig(prev, Accepted(cfg, d, fin)), input, k, fin, sigs);
    }
  }

  lemma EmptyIsLast(sg: Signer, prev: string, cs: seq<string>, n: nat)
    requires Issues(sg, prev, cs) && n <= |cs| && (cs + [""])[n] == ""
    ensures n == |cs|
  {
    hide Signatures, NoCollision, Links;
  }

  lemma NoCollisionSplit(sg: Signer, a: seq<Link>, l: Link, b: seq<Link>)
    requires NoCollision(sg, a + [l], b)
    ensures NoCollision(sg, a, b) && NoCollision(sg, [l], b)
  {
    hide ChunksApart;
    var c := a + [l];
    forall i, j | 0 <= i < |a| && 0 <= j < |b| ensures ChunksApart(sg, a[i].prev, a[i].data, b[j].prev, b[j].data) { assert c[i] == a[i]; }
    forall j | 0 <= j < |b| ensures ChunksApart(sg, l.prev, l.data, b[j].prev, b[j].data) { assert c[|a|] == l; }
  }

  lemma EndIsHeld(cfg: Config, payload: string, prev: string, input: string, k: nat, fin: Err, sigs: seq<string>)
    requires cfg.Valid() && cfg.signer.Some? && k <= |input| && Ends(cfg, payload, prev, input[k..], fin) && HoldsOnly(input, sigs)
    ensures ChunkSignature(cfg.signer.value, prev, "") in sigs
  {
    hide ChunkSignature, ReadSection, ChecksumsHold, TrailerSignature, Normalize, ParseHeader, ReadLine;
    assert HeaderSignature(input[k..]) == Some(ChunkSignature(cfg.signer.value, prev, ""));
  }

  /** The signature of a request is none of its chunks': its text begins with another word. */
  lemma RequestIsNoChunk(sg: Signer, request: string, cs: seq<string>)
    requires "AWS4-HMAC-SHA256\n" <= request
    requires var prev := sg.hmac(request); var sigs := Signatures(sg, prev, cs);
             forall i :: 0 <= i < |cs| ==> Apart(sg.hmac, request, ChunkToSign(sg, Before(prev, sigs, i), cs[i]))
    ensures sg.hmac(request) !in Signatures(sg, sg.hmac(request), cs)
  {
    hide Signatures, ChunkToSign;
    var prev := sg.hmac(request);
    var sigs := Signatures(sg, prev, cs);
    forall i | 0 <= i < |sigs| ensures sigs[i] != prev {
      SignatureAt(sg, prev, cs, i);
      OtherWord(sg, request, Before(prev, sigs, i), cs[i]);
    }
  }

  lemma OtherWord(sg: Signer, request: string, p: string, x: string)
    requires "AWS4-HMAC-SHA256\n" <= request
    ensures request != ChunkToSign(sg, p, x)
  {
    ChunkParts(sg, p, x);
    assert request[16] == "AWS4-HMAC-SHA256\n"[16];
    assert ChunkToSign(sg, p, x)[16] == "AWS4-HMAC-SHA256-PAYLOAD\n"[16];
  }

  // --------------------------------------------------------------------------------- trailers

  lemma ParsedIsPlain(line: string)
    requires '\n' !in line && ParseTrailer(DropCr(line)).Field?
    ensures Plain(ParseTrailer(DropCr(line)).field)
  {
    hide TrimSpace, ToLower, DropCr;
    DropCrIsPart(line);
    var l := DropCr(line);
    var colon := IndexOf(l, ':');
    CutIsPlain(l, colon);
    NameIsPlain(l[..colon]);
    TrimIsPart(l[colon + 1..]);
  }

  lemma DropCrIsPart(line: string)
    requires '\n' !in line
    ensures '\n' !in DropCr(line)
  {}

  lemma CutIsPlain(l: string, colon: nat)
    requires '\n' !in l && colon == IndexOf(l, ':') && colon < |l|
    ensures ':' !in l[..colon] && '\n' !in l[..colon] && '\n' !in l[colon + 1..]
  {}

  lemma NameIsPlain(s: string)
    requires ':' !in s && '\n' !in s
    ensures ':' !in ToLower(TrimSpace(s)) && '\n' !in ToLower(TrimSpace(s))
  {
    hide TrimSpace, ToLower;
    TrimIsPart(s);
    LowerKeeps(TrimSpace(s));
  }

  /** What is left of a trimmed text was in it. */
  lemma TrimIsPart(s: string)
    ensures forall c :: c in TrimSpace(s) ==> c in s
  {
    var t := TrimLeft(s);
    forall c | c in TrimRight(t) ensures c in s { assert c in t; }
  }

  lemma LowerKeeps(s: string)
    requires ':' !in s && '\n' !in s
    ensures ':' !in ToLower(s) && '\n' !in ToLower(s)
  {}

  lemma {:induction false} SectionIsPlain(signed: bool, input: string, fin: Err, lines: nat, acc: seq<Trailer>, sig: string)
    requires AllPlain(acc)
    ensures var r := ReadSection(signed, input, fin, lines, acc, sig); r.Section? ==> AllPlain(r.trailers)
    decreases lines
  {
    hide ParseTrailer, Plain, DropCr, DropBlank;
    if lines > 0 {
      var l := ReadLine(input, MAX_TRAILER_LINE);
      if l.Dry? {
        LineHasNoFeed(input, MAX_TRAILER_LINE);
        if ParseTrailer(DropCr(l.partial)).Field? { ParsedIsPlain(l.partial); }
      } else if l.Line? {
        LineHasNoFeed(input, MAX_TRAILER_LINE);
        hide ReadLine;
        var p := ParseTrailer(DropCr(l.text));
        if p.Field? {
          ParsedIsPlain(l.text);
          SectionIsPlain(signed, l.rest, fin, lines - 1, acc + [p.field], sig);
        } else {
          SectionIsPlain(signed, l.rest, fin, lines - 1, acc, sig);
          if p.SignatureLine? { SectionIsPlain(signed, l.rest, fin, lines - 1, acc, p.value); }
        }
      }
    }
  }

  lemma LineHasNoFeed(input: string, max: nat)
    ensures var l := ReadLine(input, max); (l.Line? ==> '\n' !in l.text) && (l.Dry? ==> '\n' !in l.partial)
  {}

  /** The trailers behind the header line at `text`. */
  function SectionBehind(text: string, fin: Err): (r: SectionRead) {
    var l := ReadLine(text, MAX_HEADER_LINE);
    if l.Line? then ReadSection(true, l.rest, fin, MAX_TRAILER_LINES, [], "") else SectionErr(fin, "")
  }

  /** Wherever in the stream trailers can be read, their signature is this one, and they do not collide
      with the trailers it was issued for. */
  ghost predicate HoldsOneTrailer(sg: Signer, input: string, fin: Err, last: string, ts: seq<Trailer>) {
    forall k :: 0 <= k <= |input| && SectionBehind(input[k..], fin).Section? ==>
      var r := SectionBehind(input[k..], fin);
      && (Normalize(r.sig).Some? ==> Normalize(r.sig).value == TrailerSignature(sg, last, ts))
      && TrailersApart(sg, last, r.trailers, last, ts)
  }

  /** In the signed trailer mode the trailers of a verified body are the client's too, name by name and
      value by value, if the only trailer signature in the stream is the one it issued for `ts`. */
  lemma TrailersAreIssued(cfg: Config, prev: string, input: string, fin: Err, cs: seq<string>, ts: seq<Trailer>) returns (k: nat)
    requires cfg.Valid() && cfg.signedTrailer && Issues(cfg.signer.value, prev, cs) && AllPlain(ts)
    requires Unforged(cfg, prev, input, fin, Signatures(cfg.signer.value, prev, cs + [""]))
    requires Uncollided(cfg, prev, input, fin, cs)
    requires HoldsOneTrailer(cfg.signer.value, input, fin, Signatures(cfg.signer.value, prev, cs + [""])[|cs|], ts)
    requires Decode(cfg, prev, input, fin).done
    ensures k <= |input| && SectionBehind(input[k..], fin).Section?
    ensures multiset(SectionBehind(input[k..], fin).trailers) == multiset(ts)
    ensures ChecksumsHold(cfg, Join(cs), SectionBehind(input[k..], fin).trailers)
  {
    hide Issues, ChunkSignature, TrailerSignature, TrailersApart, Unforged, Uncollided, Signatures, Accepted, TakeRest, ChecksumsHold,
         Normalize, SectionBehind;
    var n := OutputIsIssued(cfg, prev, input, fin, cs);
    assert cs[..n] == cs;
    k := DoneIsVerified(cfg, prev, input, fin);
    var last := Signatures(cfg.signer.value, prev, cs + [""])[|cs|];
    EndSection(cfg, Decode(cfg, prev, input, fin).out, LastSig(prev, Accepted(cfg, Start(prev, input), fin)), input[k..], fin);
    BehindIsPlain(input[k..], fin);
    TrailerBinds(cfg.signer.value, last, SectionBehind(input[k..], fin).trailers, last, ts);
  }

  lemma BehindIsPlain(text: string, fin: Err)
    ensures SectionBehind(text, fin).Section? ==> AllPlain(SectionBehind(text, fin).trailers)
  {
    hide ReadSection;
    var l := ReadLine(text, MAX_HEADER_LINE);
    if l.Line? { SectionIsPlain(true, l.rest, fin, MAX_TRAILER_LINES, [], ""); }
  }

  lemma EndSection(cfg: Config, payload: string, prev: string, text: string, fin: Err)
    requires cfg.Valid() && cfg.signedTrailer && Ends(cfg, payload, prev, text, fin)
    ensures var r := SectionBehind(text, fin);
            && r.Section? && ChecksumsHold(cfg, payload, r.trailers)
            && Normalize(r.sig) == Some(TrailerSignature(cfg.signer.value, ChunkSignature(cfg.signer.value, prev, ""), r.trailers))
  {
    hide ChunkSignature, ReadSection, ChecksumsHold, TrailerSignature, Normalize, ParseHeader, ReadLine;
  }
}
