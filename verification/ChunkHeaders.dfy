/** The forms that a chunk header, a signature and a trailer line may take on the wire. */
module ChunkHeaders {
  import opened Text
  import opened ChunkText
  import opened ChunkSpec

  // ---------------------------------------------------------------------------------- sizes

  function LowerHex(c: char): (r: char)
    requires IsHex(c)
  {
    if 'A' <= c <= 'F' then (c as int + 32) as char else c
  }

  /** Upper-case digits count as their lower-case ones. */
  lemma DigitCase(c: char)
    requires IsHex(c)
    ensures IsHex(LowerHex(c)) && HexDigit(LowerHex(c)) == HexDigit(c) && HexChar(HexDigit(c)) == LowerHex(c)
  {}

  function Zeros(k: nat): (s: string)
    ensures |s| == k && AllHex(s)
  {
    seq(k, _ => '0')
  }

  /** The text in lower case. */
  function Lowered(s: string): (r: string)
    requires AllHex(s)
  {
    seq(|s|, i requires 0 <= i < |s| => LowerHex(s[i]))
  }

  /** Hexadecimal digits are the number that prints as they do, in lower case and without leading zeros. */
  lemma {:induction false} DigitsAreHex(s: string) returns (k: nat)
    requires AllHex(s) && s != ""
    ensures HexValue(s) > 0 ==> Lowered(s) == Zeros(k) + Hex(HexValue(s))
    ensures HexValue(s) == 0 ==> Lowered(s) == Zeros(k)
  {
    var less, c := s[..|s| - 1], s[|s| - 1];
    DigitCase(c);
    var d, v := HexDigit(c), HexValue(less);
    assert HexValue(s) == v * 16 + d;
    assert Lowered(s) == Lowered(less) + [LowerHex(c)];
    if less == "" {
      k := if d == 0 then 1 else 0;
      assert v == 0;
    } else {
      k := DigitsAreHex(less);
      if v == 0 && d == 0 { k := k + 1; }
      if v > 0 { assert (v * 16 + d) / 16 == v && (v * 16 + d) % 16 == d; }
    }
  }

  /** What strconv.ParseInt reads as `n`: a sign or none, and hexadecimal digits of its absolute value. */
  predicate ReadsAs(s: string, negative: bool, digits: string) {
    && digits != "" && AllHex(digits)
    && (if negative then s == "-" + digits else s == digits || s == "+" + digits)
  }

  function Signed(negative: bool, n: int): (r: int) { if negative then -n else n }

  lemma SizesRead(s: string, n: int)
    ensures ParseInt16(s) == Some(n) <==>
            exists negative: bool, digits: string ::
              && ReadsAs(s, negative, digits) && n == Signed(negative, HexValue(digits))
              && -INT64_LIMIT <= n < INT64_LIMIT
  {
    if ParseInt16(s) == Some(n) {
      var negative := s[0] == '-';
      var digits := if s[0] == '-' || s[0] == '+' then s[1..] else s;
      assert ReadsAs(s, negative, digits);
    }
    forall negative: bool, digits: string | ReadsAs(s, negative, digits)
      ensures digits != "" && AllHex(digits)
              && digits == (if s[0] == '-' || s[0] == '+' then s[1..] else s) && (negative <==> s[0] == '-')
    {
      assert IsHex(digits[0]);
      assert ("-" + digits)[1..] == digits && ("+" + digits)[1..] == digits;
    }
  }

  // ----------------------------------------------------------------------------- signatures

  /** A signature counts in either case and with space around it. */
  lemma NormalizeAround(l: string, digits: string, r: string)
    requires Spaces(l) && Spaces(r) && |digits| == 64 && AllHex(digits)
    ensures Normalize(l + digits + r) == Some(Lowered(digits)) && SignatureShaped(Lowered(digits))
  {
    hide TrimSpace, Spaces, AllHex, ToLower, Lowered, SignatureShaped;
    HexIsTrimmed(digits);
    TrimAround(l, digits, r);
    LoweredIsShaped(digits);
  }

  lemma LoweredIsShaped(digits: string)
    requires |digits| == 64 && AllHex(digits)
    ensures ToLower(digits) == Lowered(digits) && SignatureShaped(Lowered(digits)) && |Lowered(digits)| == 64 && AllHex(Lowered(digits))
  {
    forall i | 0 <= i < 64 ensures ToLower(digits)[i] == Lowered(digits)[i] && IsLowerHex(Lowered(digits)[i]) && IsHex(Lowered(digits)[i]) {
      assert IsHex(digits[i]);
    }
    hide IsHex, IsLowerHex;
  }

  lemma HexIsTrimmed(s: string)
    requires AllHex(s)
    ensures Trimmed(s)
  {
    if s != [] { assert IsHex(s[0]) && IsHex(s[|s| - 1]); }
  }

  /** And nothing else is one. */
  lemma NormalizedIsDigits(text: string) returns (l: string, digits: string, r: string)
    requires Normalize(text).Some?
    ensures text == l + digits + r && Spaces(l) && Spaces(r) && |digits| == 64 && AllHex(digits)
    ensures Normalize(text) == Some(Lowered(digits))
  {
    l, r := TrimSplits(text);
    digits := TrimSpace(text);
    hide TrimSpace;
    forall i | 0 <= i < 64 ensures IsHex(digits[i]) { assert IsHex(ToLower(digits)[i]) && ToLower(digits)[i] == LowerChar(digits[i]); }
    forall i | 0 <= i < 64 ensures ToLower(digits)[i] == Lowered(digits)[i] {}
    assert ToLower(digits) == Lowered(digits);
  }

  // ----------------------------------------------------------------------------- extensions

  predicate Quotes(s: string) { forall i :: 0 <= i < |s| ==> s[i] == '"' }

  lemma {:induction false} QuotesLeft(q: string, s: string)
    requires Quotes(q) && (s != "" ==> s[0] != '"')
    ensures TrimQuotesLeft(q + s) == s
  {
    if q == [] {
      assert q + s == s;
    } else {
      assert (q + s)[1..] == q[1..] + s;
      QuotesLeft(q[1..], s);
    }
  }

  lemma {:induction false} QuotesRight(s: string, q: string)
    requires Quotes(q) && (s != "" ==> s[|s| - 1] != '"')
    ensures TrimQuotesRight(s + q) == s
    decreases |q|
  {
    if q == [] {
      assert s + q == s;
    } else {
      var t := s + q;
      assert t[..|t| - 1] == s + q[..|q| - 1] && t[|t| - 1] == q[|q| - 1];
      QuotesRight(s, q[..|q| - 1]);
    }
  }

  /** A signature extension as it may be written: the name in any case, space around name and value,
      the value in quotes or not. */
  datatype Spelling = Spelling(l: string, name: string, m: string, n: string, q: string, sig: string, p: string, r: string)
  {
    function Name(): (s: string) { l + name + m }
    function Value(): (s: string) { n + (q + sig + p) + r }
    function Text(): (s: string) { Name() + ['='] + Value() }

    predicate Valid() {
      && Spaces(l) && Spaces(m) && Spaces(n) && Spaces(r) && Quotes(q) && Quotes(p)
      && ToLower(name) == SIGNATURE_NAME && SignatureShaped(sig)
    }
  }

  lemma NameIsPlain(name: string)
    requires ToLower(name) == SIGNATURE_NAME
    ensures Trimmed(name) && ';' !in name && '=' !in name && name != ""
  {
    LowerName();
    forall i | 0 <= i < |name| ensures !IsSpace(name[i]) && name[i] != ';' && name[i] != '=' {
      assert ToLower(name)[i] == LowerChar(name[i]) && SIGNATURE_NAME[i] == ToLower(name)[i];
    }
  }

  lemma {:induction false} NoneOf(s: string, t: string, c: char)
    requires c !in s && c !in t
    ensures c !in s + t
  {}

  lemma SpacesArePlain(s: string)
    requires Spaces(s)
    ensures ';' !in s && '=' !in s && ':' !in s
  {}

  lemma ValueIsPlain(x: Spelling)
    requires x.Valid()
    ensures ';' !in x.q + x.sig + x.p && Trimmed(x.q + x.sig + x.p) && x.q + x.sig + x.p != ""
    ensures TrimQuotesRight(TrimQuotesLeft(x.q + x.sig + x.p)) == x.sig
  {
    ShapedIsPlain(x.sig);
    HexHasNoSemicolon(x.sig);
    var v := x.q + x.sig + x.p;
    assert v[0] == (if x.q == "" then x.sig[0] else x.q[0]);
    assert v[|v| - 1] == (if x.p == "" then x.sig[|x.sig| - 1] else x.p[|x.p| - 1]);
    assert IsHex(x.sig[0]) && IsHex(x.sig[|x.sig| - 1]);
    QuotesLeft(x.q, x.sig + x.p);
    assert x.q + (x.sig + x.p) == v;
    QuotesRight(x.sig, x.p);
  }

  lemma TextIsPlain(x: Spelling)
    requires x.Valid()
    ensures ';' !in x.Text()
  {
    hide IsSpace, SignatureShaped, ToLower;
    NameIsPlain(x.name);
    ValueIsPlain(x);
    SpacesArePlain(x.l);
    SpacesArePlain(x.m);
    SpacesArePlain(x.n);
    SpacesArePlain(x.r);
    hide Spaces, Quotes;
  }

  /** The parts of a spelled extension, trimmed. */
  lemma SpellingTrims(x: Spelling)
    requires x.Valid()
    ensures var ext := TrimSpace(x.Text()); var e := |x.name + x.m|;
            && IndexOf(ext, '=') == e < |ext| && TrimSpace(ext[..e]) == x.name && TrimSpace(ext[e + 1..]) == x.q + x.sig + x.p
  {
    hide IsSpace, SignatureShaped, ToLower, TrimSpace;
    NameIsPlain(x.name);
    ValueIsPlain(x);
    SpacesArePlain(x.m);
    var v := x.q + x.sig + x.p;
    var core := x.name + x.m + ['='] + (x.n + v);
    assert x.Text() == x.l + core + x.r;
    assert core[0] == x.name[0] && core[|core| - 1] == v[|v| - 1];
    TrimAround(x.l, core, x.r);
    IndexOfAfter(x.name + x.m, '=', x.n + v);
    assert core[..|x.name + x.m|] == "" + x.name + x.m && core[|x.name + x.m| + 1..] == x.n + v + "";
    TrimAround("", x.name, x.m);
    TrimAround(x.n, v, "");
  }

  /** However it is spelled, the signature is found. */
  lemma SignatureIsFound(x: Spelling, rest: string)
    requires x.Valid() && (rest != "" ==> rest[0] == ';')
    ensures FindSignature([';'] + x.Text() + rest) == x.sig
  {
    hide TrimSpace, IndexOf, TrimQuotesLeft, TrimQuotesRight, Spelling.Text, FindSignature;
    TextIsPlain(x);
    SpellingTrims(x);
    ValueIsPlain(x);
    FindsFirst(x.Text(), rest);
  }

  lemma FindsFirst(text: string, rest: string)
    requires ';' !in text && (rest != "" ==> rest[0] == ';')
    requires var ext := TrimSpace(text); var e := IndexOf(ext, '='); e < |ext| && ToLower(TrimSpace(ext[..e])) == SIGNATURE_NAME
    ensures var ext := TrimSpace(text);
            FindSignature([';'] + text + rest) == TrimQuotesRight(TrimQuotesLeft(TrimSpace(ext[IndexOf(ext, '=') + 1..])))
  {
    hide TrimSpace, IndexOf, TrimQuotesLeft, TrimQuotesRight, ToLower;
    CutBody(text, rest);
    FirstCut(text, rest);
    var all := [';'] + text + rest;
    assert all != [];
  }

  lemma CutBody(text: string, rest: string)
    ensures var all, body := [';'] + text + rest, text + rest;
            all[1..] == body && body[..|text|] == text && body[|text|..] == rest
  {}

  lemma FirstCut(text: string, rest: string)
    requires ';' !in text && (rest != "" ==> rest[0] == ';')
    ensures IndexOf(text + rest, ';') == |text|
  {
    hide IndexOf;
    var body := text + rest;
    var i := IndexOf(body, ';');
    forall j | 0 <= j < |text| ensures body[j] != ';' { assert body[j] == text[j] && text[j] in text; }
    if rest != "" { assert body[|text|] == ';'; }
  }

  /** Extensions of another name are passed over. */
  lemma OtherIsSkipped(name: string, value: string, rest: string)
    requires ';' !in name && ';' !in value && '=' !in name && Trimmed(name) && Trimmed(value) && name != "" && value != ""
    requires ToLower(name) != SIGNATURE_NAME && (rest != "" ==> rest[0] == ';')
    ensures FindSignature([';'] + (name + ['='] + value) + rest) == FindSignature(rest)
  {
    hide IsSpace, TrimSpace, IndexOf, ToLower;
    var text := name + ['='] + value;
    NoneOf(name, ['='], ';');
    NoneOf(name + ['='], value, ';');
    CutBody(text, rest);
    FirstCut(text, rest);
    assert text[0] == name[0] && text[|text| - 1] == value[|value| - 1];
    TrimSpaceKeeps(text);
    IndexOfAfter(name, '=', value);
    assert text[..|name|] == name;
    TrimSpaceKeeps(name);
  }

  /** A header line: a size with space around it, extensions, and any ends of lines behind them. */
  lemma HeaderForms(l: string, digits: string, r: string, ext: string, eol: string)
    requires Spaces(l) && Spaces(r) && AllHex(digits) && digits != "" && HexValue(digits) < INT64_LIMIT
    requires if ext == "" then r == "" else ext[0] == ';' && !IsCrLf(ext[|ext| - 1])
    requires forall i :: 0 <= i < |eol| ==> IsCrLf(eol[i])
    ensures ParseHeader(l + digits + r + ext + eol) == Header(HexValue(digits), FindSignature(ext))
  {
    hide FindSignature, ParseInt16, TrimSpace, TrimEol, IndexOf, IsSpace, HexValue;
    var head := l + digits + r;
    var text := head + ext;
    HexIsTrimmed(digits);
    HexHasNoSemicolon(digits);
    SpacesArePlain(l);
    SpacesArePlain(r);
    assert IsHex(digits[|digits| - 1]) && (ext == "" ==> text[|text| - 1] == digits[|digits| - 1]);
    EolTrims(text, eol);
    assert ';' !in head;
    FirstCut(head, ext);
    assert text[..|head|] == head && text[|head|..] == ext;
    TrimAround(l, digits, r);
    ParsesDigits(digits);
  }

  lemma ParsesDigits(digits: string)
    requires AllHex(digits) && digits != "" && HexValue(digits) < INT64_LIMIT
    ensures ParseInt16(digits) == Some(HexValue(digits))
  {
    hide HexValue;
    assert IsHex(digits[0]);
  }

  lemma {:induction false} EolTrims(s: string, eol: string)
    requires s != "" && !IsCrLf(s[|s| - 1]) && forall i :: 0 <= i < |eol| ==> IsCrLf(eol[i])
    ensures TrimEol(s + eol) == s
    decreases |eol|
  {
    if eol == "" {
      assert s + eol == s;
    } else {
      var t := s + eol;
      assert t[..|t| - 1] == s + eol[..|eol| - 1] && t[|t| - 1] == eol[|eol| - 1];
      EolTrims(s, eol[..|eol| - 1]);
    }
  }

  // ------------------------------------------------------------------------------- trailers

  /** A trailer's name counts in any case, name and value without the space around them. */
  lemma TrailerForms(l: string, name: string, m: string, n: string, value: string, r: string)
    requires Spaces(l) && Spaces(m) && Spaces(n) && Spaces(r) && Trimmed(name) && Trimmed(value) && ':' !in name
    ensures ParseTrailer(l + name + m + [':'] + (n + value + r)) ==
            if ToLower(name) == "x-amz-trailer-signature" then SignatureLine(value) else Field(Trailer(ToLower(name), value))
  {
    SpacesArePlain(l);
    SpacesArePlain(m);
    hide IsSpace, TrimSpace, ToLower;
    var head, tail := l + name + m, n + value + r;
    var line := head + [':'] + tail;
    assert ':' !in head;
    IndexOfAfter(head, ':', tail);
    assert line[..|head|] == head && line[|head| + 1..] == tail;
    TrimAround(l, name, m);
    TrimAround(n, value, r);
  }
}
