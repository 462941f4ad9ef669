/** Lifecycle dates: what is printed, and when it reads back. */
module LifecycleDates {
  import opened Text

  /** An instant in UTC, by its calendar fields. */
  datatype Civil = Civil(year: int, month: int, day: int, hour: int, minute: int, second: int, nanos: int)

  predicate Leap(y: int) { y % 4 == 0 && (y % 100 != 0 || y % 400 == 0) }

  function DaysIn(y: int, m: int): (d: int) {
    if m == 2 then (if Leap(y) then 29 else 28) else if m in {4, 6, 9, 11} then 30 else 31
  }

  predicate IsCivil(c: Civil) {
    && 1 <= c.month <= 12 && 1 <= c.day <= DaysIn(c.year, c.month)
    && 0 <= c.hour < 24 && 0 <= c.minute < 60 && 0 <= c.second < 60 && 0 <= c.nanos < 1_000_000_000
  }

  const MILLI := 1_000_000

  function ToMillis(c: Civil): (r: Civil) { c.(nanos := c.nanos / MILLI * MILLI) }

  // ------------------------------------------------------------------------------- digits

  predicate IsDigit(ch: char) { '0' <= ch <= '9' }

  function Digit(d: int): (ch: char)
    requires 0 <= d < 10
    ensures IsDigit(ch) && Value(ch) == d
  {
    (d + '0' as int) as char
  }

  function Value(ch: char): (d: int)
    requires IsDigit(ch)
  {
    ch as int - '0' as int
  }

  /** A year outside four digits takes more characters, or a sign. */
  function Decimal(n: nat): (s: string)
    ensures s != "" && IsDigit(s[0]) && (forall i :: 0 <= i < |s| ==> IsDigit(s[i]))
  {
    if n < 10 then [Digit(n)] else Decimal(n / 10) + [Digit(n % 10)]
  }

  // ------------------------------------------------------------------------- text and back

  /** The layout 2006-01-02T15:04:05.000Z after the year. */
  function AfterYear(c: Civil): (s: string)
    requires IsCivil(c)
    ensures |s| == 20
  {
    var ms := c.nanos / MILLI;
    ['-', Digit(c.month / 10), Digit(c.month % 10), '-', Digit(c.day / 10), Digit(c.day % 10),
     'T', Digit(c.hour / 10), Digit(c.hour % 10), ':', Digit(c.minute / 10), Digit(c.minute % 10),
     ':', Digit(c.second / 10), Digit(c.second % 10), '.', Digit(ms / 100), Digit(ms / 10 % 10), Digit(ms % 10), 'Z']
  }

  function YearText(y: int): (s: string)
    ensures |s| == 4 && IsDigit(s[0]) <==> 0 <= y < 10000
  {
    if 0 <= y < 10000 then [Digit(y / 1000), Digit(y / 100 % 10), Digit(y / 10 % 10), Digit(y % 10)]
    else if y < 0 then WideNegative(-y); "-" + Padded(-y)
    else Wide(y); Decimal(y)
  }

  /** A negative year is padded to four digits after its sign. */
  function Padded(n: nat): (s: string)
    ensures |s| >= 4
  {
    var d := Decimal(n);
    if |d| >= 4 then d else seq(4 - |d|, i => '0') + d
  }

  lemma WideNegative(n: nat)
    ensures |"-" + Padded(n)| >= 5
  {}

  lemma Wide(y: nat)
    requires y >= 10000
    ensures |Decimal(y)| >= 5
  {
    assert |Decimal(y / 1000)| >= 2 by { assert y / 1000 >= 10; }
    assert y / 10 / 10 / 10 == y / 1000;
    assert |Decimal(y / 10 / 10)| == |Decimal(y / 10 / 10 / 10)| + 1;
    assert |Decimal(y / 10)| == |Decimal(y / 10 / 10)| + 1;
  }

  /** formatLifecycleDate. */
  function Format(c: Civil): (s: string)
    requires IsCivil(c)
  {
    YearText(c.year) + AfterYear(c)
  }

  predicate RestShape(s: string) {
    && |s| == 20
    && s[0] == '-' && s[3] == '-' && s[6] == 'T' && s[9] == ':' && s[12] == ':' && s[15] == '.' && s[19] == 'Z'
    && IsDigit(s[1]) && IsDigit(s[2]) && IsDigit(s[4]) && IsDigit(s[5]) && IsDigit(s[7]) && IsDigit(s[8])
    && IsDigit(s[10]) && IsDigit(s[11]) && IsDigit(s[13]) && IsDigit(s[14]) && IsDigit(s[16]) && IsDigit(s[17]) && IsDigit(s[18])
  }

  predicate YearShape(s: string) {
    |s| == 4 && IsDigit(s[0]) && IsDigit(s[1]) && IsDigit(s[2]) && IsDigit(s[3])
  }

  function Pair(a: char, b: char): (n: int)
    requires IsDigit(a) && IsDigit(b)
  {
    Value(a) * 10 + Value(b)
  }

  /** The instant that a text of that layout names, if its fields are in range. */
  function ReadCanonical(s: string): (r: Option<Civil>) {
    if |s| != 24 || !YearShape(s[..4]) || !RestShape(s[4..]) then None
    else
      var y, t := s[..4], s[4..];
      var c := Civil(Pair(y[0], y[1]) * 100 + Pair(y[2], y[3]), Pair(t[1], t[2]), Pair(t[4], t[5]), Pair(t[7], t[8]),
                     Pair(t[10], t[11]), Pair(t[13], t[14]), (Pair(t[16], t[17]) * 10 + Value(t[18])) * MILLI);
      if IsCivil(c) then Some(c) else None
  }

  lemma YearReads(y: int)
    requires 0 <= y < 10000
    ensures var s := YearText(y); YearShape(s) && Pair(s[0], s[1]) * 100 + Pair(s[2], s[3]) == y
  {
    Halves(y);
    var s := YearText(y);
    assert Pair(s[0], s[1]) == y / 1000 * 10 + y / 100 % 10;
    assert Pair(s[2], s[3]) == y / 10 % 10 * 10 + y % 10;
  }

  lemma Halves(y: int)
    requires 0 <= y < 10000
    ensures y / 1000 * 10 + y / 100 % 10 == y / 100 && y / 10 % 10 * 10 + y % 10 == y % 100
    ensures y / 100 * 100 + y % 100 == y
  {}

  lemma RestReads(c: Civil)
    requires IsCivil(c)
    ensures var t := AfterYear(c);
            && RestShape(t) && Pair(t[1], t[2]) == c.month && Pair(t[4], t[5]) == c.day && Pair(t[7], t[8]) == c.hour
            && Pair(t[10], t[11]) == c.minute && Pair(t[13], t[14]) == c.second
            && Pair(t[16], t[17]) * 10 + Value(t[18]) == c.nanos / MILLI
  {
    RestIsShaped(c);
    TwoDigits(c.month);
    TwoDigits(c.day);
    TwoDigits(c.hour);
    TwoDigits(c.minute);
    TwoDigits(c.second);
    ThreeDigits(c.nanos / MILLI);
    hide RestShape, Pair, Value, Digit;
  }

  lemma RestIsShaped(c: Civil)
    requires IsCivil(c)
    ensures RestShape(AfterYear(c))
  {
    hide Digit;
  }

  lemma TwoDigits(n: int)
    requires 0 <= n < 100
    ensures Pair(Digit(n / 10), Digit(n % 10)) == n
  {}

  lemma ThreeDigits(n: int)
    requires 0 <= n < 1000
    ensures Pair(Digit(n / 100), Digit(n / 10 % 10)) * 10 + Value(Digit(n % 10)) == n
  {
    assert n / 100 * 10 + n / 10 % 10 == n / 10;
  }

  /** A date of a four-digit year reads back, cut to milliseconds. */
  lemma FormatReadsBack(c: Civil)
    requires IsCivil(c) && 0 <= c.year < 10000
    ensures ReadCanonical(Format(c)) == Some(ToMillis(c))
  {
    hide YearText, AfterYear, YearShape, RestShape, Pair;
    YearReads(c.year);
    RestReads(c);
    var s := Format(c);
    assert s[..4] == YearText(c.year) && s[4..] == AfterYear(c);
    assert IsCivil(ToMillis(c));
  }

  /** The printed date has no space at its ends. */
  lemma FormatIsTrimmed(c: Civil)
    requires IsCivil(c)
    ensures Format(c) != "" && TrimSpace(Format(c)) == Format(c)
  {
    hide TrimSpace;
    var s := Format(c);
    assert s[|s| - 1] == AfterYear(c)[19] == 'Z';
    assert s[0] == YearText(c.year)[0];
    TrimSpaceKeeps(s);
  }

  // --------------------------------------------------------------------------- the time package

  /** What is needed of time.Parse over the accepted layouts: its results are dates, a text in the
      printed layout means what it says, and no text whose year has another width is accepted. */
  ghost predicate Lawful(parse: string -> Option<Civil>) {
    && (forall s :: parse(s).Some? ==> IsCivil(parse(s).value))
    && (forall s :: ReadCanonical(s).Some? ==> parse(s) == ReadCanonical(s))
    && (forall c: Civil :: IsCivil(c) && !(0 <= c.year < 10000) ==> parse(Format(c)) == None)
  }

  /** A parser of that one layout is such a parser. */
  lemma StrictIsLawful()
    ensures Lawful(ReadCanonical)
  {
    forall c: Civil | IsCivil(c) && !(0 <= c.year < 10000) ensures ReadCanonical(Format(c)) == None {
      WideYear(c.year);
    }
  }

  lemma WideYear(y: int)
    requires !(0 <= y < 10000)
    ensures |YearText(y)| >= 5
  {
    if y < 0 { WideNegative(-y); } else { Wide(y); }
  }

  /** parseLifecycleDate. */
  function ParseDate(parse: string -> Option<Civil>, raw: string): (r: Option<Civil>) {
    var s := TrimSpace(raw);
    if s == "" then None else parse(s)
  }

  /** Space around a date does not count, and only space is no date. */
  lemma DateIsTrimmed(parse: string -> Option<Civil>, l: string, s: string, r: string)
    requires Spaces(l) && Spaces(r) && Trimmed(s)
    ensures ParseDate(parse, l + s + r) == if s == "" then None else parse(s)
  {
    TrimAround(l, s, r);
    hide TrimSpace;
  }

  /** Printing and parsing again succeeds exactly for years that print with four digits. */
  lemma DateRoundTrip(parse: string -> Option<Civil>, c: Civil)
    requires Lawful(parse) && IsCivil(c)
    ensures ParseDate(parse, Format(c)) == if 0 <= c.year < 10000 then Some(ToMillis(c)) else None
  {
    hide TrimSpace, Format, ReadCanonical;
    FormatIsTrimmed(c);
    if 0 <= c.year < 10000 { FormatReadsBack(c); }
  }
}
