/** What an aws-chunked body means: a decoder over the whole remaining stream, with no buffers and
    no reads. AWS Signature Version 4, "Transferring payload in multiple chunks (chunked upload)". */
module ChunkSpec {
  import opened Text
  import opened ChunkText

  datatype Err =
    | Eof | UnexpectedEof | SourceFailed(code: int)
    | InvalidHeader | MissingChunkSig | InvalidSig | LengthMismatch
    | MissingTrailerSig | InvalidTrailer | ChecksumMismatch | MissingCrlf | PayloadHashMismatch

  /** SHA-256 in hexadecimal and HMAC-SHA256 under the request's signing key, both uninterpreted. */
  datatype Signer = Signer(sha256: string -> string, hmac: string -> string, date: string, scope: string)

  /** `signer` is None in unsigned-trailer mode. `digest` gives the base64 checksum that a trailer
      named `name` must carry for a payload. */
  datatype Config = Config(signer: Option<Signer>, signedTrailer: bool, checksums: seq<string>,
                           digest: (string, string) -> string, expected: int)
  {
    ghost predicate Valid() { signedTrailer ==> signer.Some? }
  }

  datatype Trailer = Trailer(name: string, value: string)

  const TRAILER_SIGNATURE := "x-amz-trailer-signature"

  // ---------------------------------------------------------------------- signatures

  function ChunkToSign(sg: Signer, prev: string, data: string): (text: string) {
    "AWS4-HMAC-SHA256-PAYLOAD\n" + sg.date + "\n" + sg.scope + "\n" + prev + "\n" + sg.sha256("") + "\n" + sg.sha256(data)
  }

  function ChunkSignature(sg: Signer, prev: string, data: string): (sig: string) { sg.hmac(ChunkToSign(sg, prev, data)) }

  function Insert(e: string, sorted: seq<string>): (r: seq<string>) {
    if sorted == [] || !LexLess(sorted[0], e) then [e] + sorted else [sorted[0]] + Insert(e, sorted[1..])
  }

  function Sort(entries: seq<string>): (r: seq<string>) {
    if entries == [] then [] else Insert(entries[0], Sort(entries[1..]))
  }

  function Join(parts: seq<string>): (r: string) {
    if parts == [] then "" else parts[0] + Join(parts[1..])
  }

  function Entries(trailers: seq<Trailer>): (r: seq<string>) {
    if trailers == [] then [] else [trailers[0].name + ":" + trailers[0].value + "\n"] + Entries(trailers[1..])
  }

  function TrailersToSign(sg: Signer, prev: string, trailers: seq<Trailer>): (text: string) {
    "AWS4-HMAC-SHA256-TRAILER\n" + sg.date + "\n" + sg.scope + "\n" + prev + "\n" + sg.sha256(Join(Sort(Entries(trailers))))
  }

  function TrailerSignature(sg: Signer, prev: string, trailers: seq<Trailer>): (sig: string) {
    sg.hmac(TrailersToSign(sg, prev, trailers))
  }

  /** normalizeChunkSignature. */
  function Normalize(sig: string): (r: Option<string>) {
    var s := ToLower(TrimSpace(sig));
    if |s| == 64 && AllHex(s) then Some(s) else None
  }

  // ------------------------------------------------------------------------ trailers

  datatype SectionRead =
    | SectionErr(err: Err, rest: string)
    | Section(trailers: seq<Trailer>, sig: string, rest: string)

  function DropCr(line: string): (r: string) {
    if line != [] && line[|line| - 1] == '\r' then line[..|line| - 1] else line
  }

  /** discardOptionalBlankLine. */
  function DropBlank(input: string): (r: string)
    ensures |r| <= |input|
  {
    if |input| >= 2 && input[0] == '\r' && input[1] == '\n' then input[2..]
    else if |input| >= 1 && input[0] == '\n' then input[1..]
    else input
  }

  datatype TrailerLine = Blank | NoColon | SignatureLine(value: string) | Field(field: Trailer)

  function ParseTrailer(line: string): (r: TrailerLine) {
    var colon := IndexOf(line, ':');
    if line == "" then Blank
    else if colon == |line| then NoColon
    else
      var name := ToLower(TrimSpace(line[..colon]));
      var value := TrimSpace(line[colon + 1..]);
      if name == TRAILER_SIGNATURE then SignatureLine(value) else Field(Trailer(name, value))
  }

  /** readTrailerSection, with `lines` lines still allowed. A source that runs dry ends the
      section after the line it cut off. */
  function ReadSection(signed: bool, input: string, fin: Err, lines: nat, acc: seq<Trailer>, sig: string): (r: SectionRead)
    ensures |r.rest| <= |input|
    decreases lines
  {
    if lines == 0 then SectionErr(InvalidTrailer, input)
    else
      match ReadLine(input, MAX_TRAILER_LINE)
      case TooLong(rest) => SectionErr(InvalidHeader, rest)
      case Dry(partial) =>
        if !fin.Eof? then SectionErr(fin, "")
        else
          (match ParseTrailer(DropCr(partial))
           case Blank => Section(acc, sig, "")
           case NoColon => SectionErr(InvalidTrailer, "")
           case SignatureLine(value) => Section(acc, value, "")
           case Field(field) => Section(acc + [field], sig, ""))
      case Line(text, rest) =>
        match ParseTrailer(DropCr(text))
        case Blank =>
          if signed && sig == "" then ReadSection(signed, rest, fin, lines - 1, acc, sig) else Section(acc, sig, rest)
        case NoColon => SectionErr(InvalidTrailer, rest)
        case SignatureLine(value) =>
          if signed then Section(acc, value, DropBlank(rest)) else ReadSection(signed, rest, fin, lines - 1, acc, value)
        case Field(field) => ReadSection(signed, rest, fin, lines - 1, acc + [field], sig)
  }

  /** consumeTrailers: skip to the blank line that ends a plain signed body. */
  function SkipTrailers(input: string, fin: Err, lines: nat): (r: SectionRead)
    ensures |r.rest| <= |input|
    decreases lines
  {
    if lines == 0 then SectionErr(InvalidTrailer, input)
    else
      match ReadLine(input, MAX_TRAILER_LINE)
      case TooLong(rest) => SectionErr(InvalidHeader, rest)
      case Dry(_) => SectionErr(fin, "")
      case Line(text, rest) =>
        if text == "" || text == "\r" then Section([], "", rest) else SkipTrailers(rest, fin, lines - 1)
  }

  predicate Names(trailers: seq<Trailer>, name: string) {
    exists i :: 0 <= i < |trailers| && trailers[i].name == name
  }

  predicate AllMatch(trailers: seq<Trailer>, name: string, value: string) {
    forall i :: 0 <= i < |trailers| && trailers[i].name == name ==> trailers[i].value == value
  }

  /** verifyTrailingChecksums: the first declared checksum that is wrong or missing decides. */
  function ChecksumErr(checksums: seq<string>, digest: (string, string) -> string, payload: string,
                       trailers: seq<Trailer>): (r: Option<Err>)
    ensures r.None? <==> forall i :: 0 <= i < |checksums| ==>
              Names(trailers, checksums[i]) && AllMatch(trailers, checksums[i], digest(checksums[i], payload))
  {
    if checksums == [] then None
    else if !AllMatch(trailers, checksums[0], digest(checksums[0], payload)) then Some(ChecksumMismatch)
    else if !Names(trailers, checksums[0]) then Some(InvalidTrailer)
    else ChecksumErr(checksums[1..], digest, payload, trailers)
  }

  // -------------------------------------------------------------------------- state

  /** The reader between two reads: the last verified signature, the payload decoded so far,
      the verified bytes not yet handed out, what is left of a streamed chunk, and the stream. */
  datatype State = State(prev: string, decoded: string, buffered: string, remaining: int,
                         needCRLF: bool, done: bool, input: string)

  function Start(prev: string, input: string): (d: State) {
    State(prev, "", "", 0, false, false, input)
  }

  datatype Begun = Failed(err: Err, after: State) | Began(after: State)

  /** consumeCRLF: the rest after it, or how it fails. */
  function EatCrlf(input: string, fin: Err): (r: SectionRead)
    ensures |r.rest| <= |input|
  {
    if |input| < 2 then SectionErr(fin, "")
    else if input[0] == '\r' && input[1] == '\n' then Section([], "", input[2..])
    else SectionErr(MissingCrlf, input[2..])
  }

  /** finishTrailers in the trailer modes. */
  function FinishTrailers(cfg: Config, d: State, fin: Err): (r: Begun)
    requires cfg.Valid()
    ensures |r.after.input| <= |d.input|
  {
    var r := ReadSection(cfg.signedTrailer, d.input, fin, MAX_TRAILER_LINES, [], "");
    if r.SectionErr? then Failed(r.err, d.(input := r.rest))
    else
      var d1 := d.(input := r.rest);
      if cfg.signedTrailer && r.sig == "" then Failed(MissingTrailerSig, d1)
      else if cfg.signedTrailer && Normalize(r.sig) != Some(TrailerSignature(cfg.signer.value, d.prev, r.trailers))
      then Failed(InvalidSig, d1)
      else
        var d2 := if cfg.signedTrailer then d1.(prev := Normalize(r.sig).value) else d1;
        var bad := ChecksumErr(cfg.checksums, cfg.digest, d.decoded, r.trailers);
        if bad.Some? then Failed(bad.value, d2) else Began(d2.(done := true))
  }

  /** The end of the body after its zero-length header, whose own signature has been verified. */
  function FinishBody(cfg: Config, d: State, fin: Err): (r: Begun)
    requires cfg.Valid()
    ensures |r.after.input| <= |d.input|
  {
    if |d.decoded| != cfg.expected then Failed(LengthMismatch, d)
    else if cfg.signer.Some? && !cfg.signedTrailer then
      var r := SkipTrailers(d.input, fin, MAX_TRAILER_LINES);
      if r.SectionErr? then Failed(r.err, d.(input := r.rest)) else Began(d.(input := r.rest, done := true))
    else FinishTrailers(cfg, d, fin)
  }

  /** A zero-length chunk. */
  function LastChunk(cfg: Config, d: State, sig: string, fin: Err): (r: Begun)
    requires cfg.Valid()
    ensures |r.after.input| <= |d.input|
  {
    if cfg.signer.None? then FinishBody(cfg, d, fin)
    else if sig == "" then Failed(MissingChunkSig, d)
    else if Normalize(sig) != Some(ChunkSignature(cfg.signer.value, d.prev, "")) then Failed(InvalidSig, d)
    else FinishBody(cfg, d.(prev := Normalize(sig).value), fin)
  }

  /** A signed chunk of `n` bytes is buffered whole, with its CRLF, before it is verified. */
  function SignedChunk(cfg: Config, d: State, n: nat, sig: string, fin: Err): (r: Begun)
    requires cfg.signer.Some?
    ensures |r.after.input| <= |d.input|
  {
    if sig == "" then Failed(MissingChunkSig, d)
    else if Normalize(sig).None? then Failed(InvalidSig, d)
    else if |d.input| < n then
      Failed(if d.input != "" && fin.Eof? then UnexpectedEof else fin, d.(input := ""))
    else
      var data := d.input[..n];
      var r := EatCrlf(d.input[n..], fin);
      var d1 := d.(input := r.rest);
      if r.SectionErr? then Failed(r.err, d1)
      else if Normalize(sig).value != ChunkSignature(cfg.signer.value, d.prev, data) then Failed(InvalidSig, d1)
      else Began(d1.(prev := Normalize(sig).value, decoded := d.decoded + data, buffered := data))
  }

  /** beginChunk after the header. */
  function StartChunk(cfg: Config, d: State, size: nat, sig: string, fin: Err): (r: Begun)
    requires cfg.Valid()
    ensures |r.after.input| <= |d.input|
  {
    if size == 0 then LastChunk(cfg, d, sig, fin)
    else if cfg.signer.Some? && size > MAX_SIGNED_CHUNK then Failed(InvalidHeader, d)
    else if |d.decoded| > cfg.expected || size > cfg.expected - |d.decoded| then Failed(LengthMismatch, d)
    else if cfg.signer.None? then Began(d.(remaining := size, needCRLF := true))
    else SignedChunk(cfg, d, size, sig, fin)
  }

  /** beginChunk after an outstanding CRLF. */
  function ReadChunk(cfg: Config, d: State, fin: Err): (r: Begun)
    requires cfg.Valid()
    ensures r.Began? ==> |r.after.input| < |d.input|
  {
    match ReadLine(d.input, MAX_HEADER_LINE)
    case TooLong(rest) => Failed(InvalidHeader, d.(input := rest))
    case Dry(_) => Failed(fin, d.(input := ""))
    case Line(text, rest) =>
      var d1 := d.(input := rest);
      var h := ParseHeader(text);
      if h.BadHeader? then Failed(InvalidHeader, d1) else StartChunk(cfg, d1, h.size, h.sig, fin)
  }

  /** beginChunk. A chunk that begins takes at least its header line off the stream. */
  function BeginChunk(cfg: Config, d: State, fin: Err): (r: Begun)
    requires cfg.Valid()
    ensures r.Began? ==> |r.after.input| < |d.input|
  {
    if d.needCRLF then
      var r := EatCrlf(d.input, fin);
      if r.SectionErr? then Failed(r.err, d.(input := r.rest))
      else ReadChunk(cfg, d.(input := r.rest, needCRLF := false), fin)
    else ReadChunk(cfg, d, fin)
  }

  // ------------------------------------------------------------------------- decoding

  /** All that a reader will hand out from here on, and how it ends. */
  datatype Outcome = Outcome(out: string, err: Err, done: bool)

  function Prepend(data: string, o: Outcome): (r: Outcome) {
    o.(out := data + o.out)
  }

  function TakeRest(cfg: Config, d: State, fin: Err): (r: Outcome)
    requires cfg.Valid()
    decreases |d.input|, if d.remaining > 0 then 1 else 0, |d.buffered|
  {
    if d.buffered != "" then Prepend(d.buffered, TakeRest(cfg, d.(buffered := ""), fin))
    else if d.remaining > |d.input| then Outcome(d.input, if fin.Eof? then UnexpectedEof else fin, false)
    else if d.remaining > 0 then
      var data := d.input[..d.remaining];
      Prepend(data, TakeRest(cfg, d.(input := d.input[d.remaining..], remaining := 0, decoded := d.decoded + data), fin))
    else if d.done then Outcome("", Eof, true)
    else
      var b := BeginChunk(cfg, d, fin);
      if b.Failed? then Outcome("", b.err, false)
      else TakeRest(cfg, b.after, fin)
  }

  /** The payload and the result of reading a whole body, whatever the sizes of the reads. */
  function Decode(cfg: Config, prev: string, input: string, fin: Err): (r: Outcome)
    requires cfg.Valid()
  {
    TakeRest(cfg, Start(prev, input), fin)
  }
}
