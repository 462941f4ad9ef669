/** The text layer of the aws-chunked framing: hexadecimal sizes, chunk header lines, bounded
    lines and trailer lines, as internal/sigv4 reads them. */
module ChunkText {
  import opened Text

  const MAX_HEADER_LINE := 4 * 1024
  const MAX_TRAILER_LINE := 16 * 1024
  const MAX_TRAILER_LINES := 32
  const MAX_SIGNED_CHUNK := 16 * 1024 * 1024
  const INT64_LIMIT := 0x8000_0000_0000_0000

  // ---------------------------------------------------------------------- hexadecimal

  predicate IsHex(c: char) {
    '0' <= c <= '9' || 'a' <= c <= 'f' || 'A' <= c <= 'F'
  }

  predicate AllHex(s: string) {
    forall i :: 0 <= i < |s| ==> IsHex(s[i])
  }

  function HexDigit(c: char): (d: nat)
    requires IsHex(c)
    ensures d < 16
  {
    if '0' <= c <= '9' then c as int - '0' as int
    else if 'a' <= c <= 'f' then c as int - 'a' as int + 10
    else c as int - 'A' as int + 10
  }

  function HexChar(d: nat): (c: char)
    requires d < 16
    ensures IsHex(c) && HexDigit(c) == d
  {
    if d < 10 then (d + '0' as int) as char else (d - 10 + 'a' as int) as char
  }

  function HexValue(s: string): (n: nat)
    requires AllHex(s)
  {
    if s == [] then 0 else HexValue(s[..|s| - 1]) * 16 + HexDigit(s[|s| - 1])
  }

  /** strconv.FormatInt(n, 16). */
  function Hex(n: nat): (s: string)
    ensures s != [] && AllHex(s)
  {
    if n < 16 then [HexChar(n)] else Hex(n / 16) + [HexChar(n % 16)]
  }

  lemma {:induction false} HexRoundTrip(n: nat)
    ensures HexValue(Hex(n)) == n
  {
    if n < 16 {
      assert Hex(n)[..0] == [];
    } else {
      HexRoundTrip(n / 16);
      assert Hex(n)[..|Hex(n)| - 1] == Hex(n / 16);
    }
  }

  /** A size that fits an int64 has at most sixteen digits. */
  lemma {:induction false} HexIsShort(n: nat, k: nat)
    requires n < Pow16(k) && k > 0
    ensures |Hex(n)| <= k
    decreases k
  {
    if n >= 16 {
      assert k > 1;
      assert n / 16 < Pow16(k - 1);
      HexIsShort(n / 16, k - 1);
    }
  }

  function Pow16(k: nat): (r: nat)
    ensures r >= 1
  {
    if k == 0 then 1 else 16 * Pow16(k - 1)
  }

  /** strconv.ParseInt(s, 16, 64): an optional sign, then digits, within the int64 range. */
  function ParseInt16(s: string): (r: Option<int>)
    ensures r.Some? ==> -INT64_LIMIT <= r.value < INT64_LIMIT
  {
    var negative := s != [] && s[0] == '-';
    var digits := if s != [] && (s[0] == '-' || s[0] == '+') then s[1..] else s;
    if digits == [] || !AllHex(digits) then None
    else
      var v: int := HexValue(digits);
      if negative then (if v <= INT64_LIMIT then Some(-v) else None)
      else (if v < INT64_LIMIT then Some(v) else None)
  }

  lemma ParseHex(n: nat)
    requires n < INT64_LIMIT
    ensures ParseInt16(Hex(n)) == Some(n)
  {
    HexRoundTrip(n);
    assert IsHex(Hex(n)[0]);
  }

  // --------------------------------------------------------------------- chunk headers

  const SIGNATURE_NAME := "chunk-signature"

  predicate IsCrLf(c: char) { c == '\r' || c == '\n' }

  /** strings.TrimRight(s, "\r\n"). */
  function TrimEol(s: string): (r: string)
    ensures r <= s && (r != [] ==> !IsCrLf(r[|r| - 1]))
  {
    if s != [] && IsCrLf(s[|s| - 1]) then TrimEol(s[..|s| - 1]) else s
  }

  function TrimQuotesLeft(s: string): (r: string)
    ensures |r| <= |s|
  {
    if s != [] && s[0] == '"' then TrimQuotesLeft(s[1..]) else s
  }

  function TrimQuotesRight(s: string): (r: string)
    ensures r <= s
  {
    if s != [] && s[|s| - 1] == '"' then TrimQuotesRight(s[..|s| - 1]) else s
  }

  /** The chunk-signature among the extensions in `rest`, which is "" or begins with ';'. */
  function FindSignature(rest: string): (sig: string)
    decreases |rest|
  {
    if rest == [] then ""
    else
      var body := rest[1..];
      var k := IndexOf(body, ';');
      var ext := TrimSpace(body[..k]);
      var e := IndexOf(ext, '=');
      if e < |ext| && ToLower(TrimSpace(ext[..e])) == SIGNATURE_NAME
      then TrimQuotesRight(TrimQuotesLeft(TrimSpace(ext[e + 1..])))
      else FindSignature(body[k..])
  }

  datatype Header = BadHeader | Header(size: nat, sig: string)

  /** parseAWSChunkHeader. */
  function ParseHeader(line: string): (h: Header)
    ensures h.Header? ==> h.size < INT64_LIMIT
  {
    hide ParseInt16, TrimEol, TrimSpace, FindSignature;
    var text := TrimEol(line);
    var k := IndexOf(text, ';');
    var size := TrimSpace(text[..k]);
    if text == "" || size == "" then BadHeader
    else
      var n := ParseInt16(size);
      if n.None? || n.value < 0 then BadHeader else Header(n.value, FindSignature(text[k..]))
  }

  /** The header of a chunk as clients write it; `sig` is "" in unsigned mode. */
  function FormatHeader(size: nat, sig: string): (line: string) {
    if sig == "" then Hex(size) else Hex(size) + ([';'] + (SIGNATURE_NAME + ['='] + sig))
  }

  predicate IsLowerHex(c: char) { '0' <= c <= '9' || 'a' <= c <= 'f' }

  /** The form of a chunk signature: sixty-four lower-case hexadecimal digits. */
  predicate SignatureShaped(sig: string) {
    |sig| == 64 && forall i :: 0 <= i < |sig| ==> IsLowerHex(sig[i])
  }

  lemma TrimEolKeeps(s: string)
    requires s != [] && !IsCrLf(s[|s| - 1])
    ensures TrimEol(s + "\r") == s
  {
    assert (s + "\r")[..|s|] == s;
    assert (s + "\r")[|s|] == '\r';
  }

  lemma HexHasNoSemicolon(s: string)
    requires AllHex(s)
    ensures ';' !in s && '=' !in s && (s != [] ==> !IsSpace(s[0]) && !IsSpace(s[|s| - 1]) && !IsCrLf(s[|s| - 1]))
  {}

  lemma ShapedIsPlain(sig: string)
    requires SignatureShaped(sig)
    ensures AllHex(sig) && ToLower(sig) == sig
    ensures sig[0] != '"' && sig[|sig| - 1] != '"'
  {}

  /** One name=value extension without separators or outer space is found whole. */
  lemma FindExtension(name: string, sig: string)
    requires ToLower(name) == SIGNATURE_NAME && name != [] && sig != [] && AllHex(sig)
    requires ';' !in name && '=' !in name && !IsSpace(name[0]) && !IsSpace(name[|name| - 1])
    ensures FindSignature([';'] + (name + ['='] + sig)) == sig
  {
    hide TrimSpace, IndexOf, ToLower;
    HexHasNoSemicolon(sig);
    var body := name + ['='] + sig;
    assert ([';'] + body)[1..] == body;
    assert IndexOf(body, ';') == |body| by { assert ';' !in body; }
    assert body[..|body|] == body;
    assert body[|body| - 1] == sig[|sig| - 1];
    TrimSpaceKeeps(body);
    IndexOfAfter(name, '=', sig);
    assert body[..|name|] == name && body[|name| + 1..] == sig;
    TrimSpaceKeeps(name);
    TrimSpaceKeeps(sig);
    assert sig[0] != '"' && sig[|sig| - 1] != '"';
  }

  lemma LowerName()
    ensures var name := SIGNATURE_NAME;
            && ToLower(name) == name && |name| == 15 && ';' !in name && '=' !in name && '\n' !in name
            && !IsSpace(name[0]) && !IsSpace(name[|name| - 1])
  {
    var name := SIGNATURE_NAME;
    assert forall i :: 0 <= i < |name| ==> LowerChar(name[i]) == name[i];
  }

  /** A size, and an extension part that is empty or starts with ';', are taken apart again. */
  lemma ParseParts(size: nat, ext: string)
    requires size < INT64_LIMIT && (ext != "" ==> ext[0] == ';' && !IsCrLf(ext[|ext| - 1]))
    ensures ParseHeader(Hex(size) + ext + "\r") == Header(size, FindSignature(ext))
  {
    hide FindSignature, ParseInt16, TrimSpace, TrimEol, IndexOf, ParseHeader;
    var h := Hex(size);
    HexHasNoSemicolon(h);
    TrimEolKeeps(h + ext);
    TrimSpaceKeeps(h);
    ParseHex(size);
    if ext == "" {
      assert h + ext == h && IndexOf(h, ';') == |h|;
    } else {
      assert h + ext == h + [';'] + ext[1..];
      IndexOfAfter(h, ';', ext[1..]);
    }
    HeaderOfParts(h, ext, size);
  }

  lemma HeaderOfParts(h: string, ext: string, size: nat)
    requires h != "" && TrimEol(h + ext + "\r") == h + ext && IndexOf(h + ext, ';') == |h|
    requires TrimSpace(h) == h && ParseInt16(h) == Some(size) && size < INT64_LIMIT
    ensures ParseHeader(h + ext + "\r") == Header(size, FindSignature(ext))
  {
    hide FindSignature, ParseInt16, TrimSpace, TrimEol, IndexOf;
    var line := h + ext;
    assert line[..|h|] == h && line[|h|..] == ext;
  }

  /** Parsing undoes formatting, with or without a signature. */
  lemma HeaderRoundTrip(size: nat, sig: string)
    requires size < INT64_LIMIT && (sig == "" || SignatureShaped(sig))
    ensures ParseHeader(FormatHeader(size, sig) + "\r") == Header(size, sig)
  {
    if sig == "" {
      ParseParts(size, "");
      assert Hex(size) + "" == Hex(size);
    } else {
      var ext := [';'] + (SIGNATURE_NAME + ['='] + sig);
      ShapedIsPlain(sig);
      HexHasNoSemicolon(sig);
      LowerName();
      FindExtension(SIGNATURE_NAME, sig);
      hide FindSignature, ParseHeader, Hex;
      assert ext[|ext| - 1] == sig[|sig| - 1];
      ParseParts(size, ext);
    }
  }

  /** Header lines of clients are far below the bound and hold no line feed. */
  lemma HeaderFits(size: nat, sig: string)
    requires size < INT64_LIMIT && (sig == "" || SignatureShaped(sig))
    ensures |FormatHeader(size, sig)| + 1 <= MAX_HEADER_LINE
    ensures '\n' !in FormatHeader(size, sig) + "\r"
  {
    Pow16Sixteen();
    HexIsShort(size, 16);
    LowerName();
    hide Hex;
    assert AllHex(Hex(size));
  }

  lemma Pow16Sixteen()
    ensures Pow16(16) == 0x1_0000_0000_0000_0000
  {
    assert Pow16(4) == 0x1_0000;
    assert Pow16(8) == 0x1_0000_0000;
    assert Pow16(12) == 0x1_0000_0000_0000;
  }

  // --------------------------------------------------------------------- bounded lines

  /** readLineBounded: a line without its '\n', an over-long line, or a source that ran dry. */
  datatype LineRead =
    | Line(text: string, rest: string)
    | TooLong(rest: string)
    | Dry(partial: string)

  function ReadLine(input: string, max: nat): (r: LineRead)
    ensures r.Line? ==> |r.rest| < |input| && |r.text| <= max
    ensures r.TooLong? ==> |r.rest| < |input|
  {
    var i := IndexOf(input, '\n');
    if i < |input| && i <= max then Line(input[..i], input[i + 1..])
    else if |input| > max then TooLong(input[max + 1..])
    else Dry(input)
  }

  lemma ReadOwnLine(line: string, rest: string, max: nat)
    requires '\n' !in line && |line| <= max
    ensures ReadLine(line + "\n" + rest, max) == Line(line, rest)
  {
    IndexOfAfter(line, '\n', rest);
    var input := line + ['\n'] + rest;
    assert input == line + "\n" + rest;
    assert input[..|line|] == line && input[|line| + 1..] == rest;
  }
}
