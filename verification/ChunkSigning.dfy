/** What a chunk signature and a trailer signature cover. */
module ChunkSigning {
  import opened Text
  import opened ChunkSpec
  import opened TrailerOrder

  // ------------------------------------------------------------------------- the signed text

  /** Go's strings.Join with a line feed between the fields. */
  function Lines(fields: seq<string>): (text: string) {
    if fields == [] then "" else if |fields| == 1 then fields[0] else fields[0] + "\n" + Lines(fields[1..])
  }

  /** A chunk's signature is the HMAC of six lines, the last the hash of its data, the fourth the
      signature before it. */
  lemma ChunkFields(sg: Signer, prev: string, data: string)
    ensures ChunkSignature(sg, prev, data) ==
            sg.hmac(Lines(["AWS4-HMAC-SHA256-PAYLOAD", sg.date, sg.scope, prev, sg.sha256(""), sg.sha256(data)]))
  {
    var a, b, c, d, e, f := "AWS4-HMAC-SHA256-PAYLOAD", sg.date, sg.scope, prev, sg.sha256(""), sg.sha256(data);
    SixLines(a, b, c, d, e, f);
    assert "AWS4-HMAC-SHA256-PAYLOAD\n" == a + "\n";
  }

  lemma SixLines(a: string, b: string, c: string, d: string, e: string, f: string)
    ensures Lines([a, b, c, d, e, f]) == a + "\n" + b + "\n" + c + "\n" + d + "\n" + e + "\n" + f
  {
    FiveLines(b, c, d, e, f);
    assert [a, b, c, d, e, f][1..] == [b, c, d, e, f];
    var t := b + "\n" + c + "\n" + d + "\n" + e + "\n" + f;
    assert a + "\n" + t == a + "\n" + b + "\n" + c + "\n" + d + "\n" + e + "\n" + f;
  }

  lemma FiveLines(a: string, b: string, c: string, d: string, e: string)
    ensures Lines([a, b, c, d, e]) == a + "\n" + b + "\n" + c + "\n" + d + "\n" + e
  {
    assert [a, b, c, d, e][1..] == [b, c, d, e] && [b, c, d, e][1..] == [c, d, e];
    assert [c, d, e][1..] == [d, e] && [d, e][1..] == [e];
    assert Lines([d, e]) == d + "\n" + e;
    assert Lines([c, d, e]) == c + "\n" + (d + "\n" + e);
    assert Lines([b, c, d, e]) == b + "\n" + (c + "\n" + (d + "\n" + e));
    assert b + "\n" + (c + "\n" + (d + "\n" + e)) == b + "\n" + c + "\n" + d + "\n" + e;
    var t := b + "\n" + c + "\n" + d + "\n" + e;
    assert a + "\n" + t == a + "\n" + b + "\n" + c + "\n" + d + "\n" + e;
  }

  /** A trailer signature is the HMAC of five lines, the last the hash of the sorted entries. */
  lemma TrailerFields(sg: Signer, prev: string, ts: seq<Trailer>)
    ensures TrailerSignature(sg, prev, ts) ==
            sg.hmac(Lines(["AWS4-HMAC-SHA256-TRAILER", sg.date, sg.scope, prev, sg.sha256(Join(Sort(Entries(ts))))]))
  {
    hide Sort, Entries, Join;
    FiveLines("AWS4-HMAC-SHA256-TRAILER", sg.date, sg.scope, prev, sg.sha256(Join(Sort(Entries(ts)))));
    assert "AWS4-HMAC-SHA256-TRAILER\n" == "AWS4-HMAC-SHA256-TRAILER" + "\n";
  }

  // ------------------------------------------------------------------------- what it binds

  /** A function takes two texts to one value only if they are one text. */
  predicate Apart(f: string -> string, x: string, y: string) { f(x) == f(y) ==> x == y }

  /** No collision of the hash or of the HMAC between two chunks and their places in the chain. */
  predicate ChunksApart(sg: Signer, p: string, x: string, q: string, y: string) {
    Apart(sg.sha256, x, y) && Apart(sg.hmac, ChunkToSign(sg, p, x), ChunkToSign(sg, q, y))
  }

  /** One signature is for one chunk at one place of the chain. */
  lemma ChunkBinds(sg: Signer, p: string, x: string, q: string, y: string)
    requires |p| == |q| && ChunksApart(sg, p, x, q, y) && ChunkSignature(sg, p, x) == ChunkSignature(sg, q, y)
    ensures p == q && x == y
  {
    var head := "AWS4-HMAC-SHA256-PAYLOAD\n" + sg.date + "\n" + sg.scope + "\n";
    var mid := "\n" + sg.sha256("") + "\n";
    ChunkParts(sg, p, x);
    ChunkParts(sg, q, y);
    hide ChunkToSign;
    SameMiddle(head, p, mid, sg.sha256(x), q, sg.sha256(y));
  }

  lemma ChunkParts(sg: Signer, p: string, x: string)
    ensures ChunkToSign(sg, p, x) ==
            "AWS4-HMAC-SHA256-PAYLOAD\n" + sg.date + "\n" + sg.scope + "\n" + p + ("\n" + sg.sha256("") + "\n") + sg.sha256(x)
  {
    var h := "AWS4-HMAC-SHA256-PAYLOAD\n" + sg.date + "\n" + sg.scope + "\n" + p;
    assert h + "\n" + sg.sha256("") + "\n" == h + ("\n" + sg.sha256("") + "\n");
  }

  lemma SameMiddle(head: string, p: string, mid: string, x: string, q: string, y: string)
    requires |p| == |q| && head + p + mid + x == head + q + mid + y
    ensures p == q && x == y
  {
    var t := head + p + mid + x;
    var n := |head|;
    assert p == t[n..n + |p|] && q == t[n..n + |p|];
    assert x == t[n + |p| + |mid|..] && y == t[n + |p| + |mid|..];
  }

  // ------------------------------------------------------------------------------- trailers

  function EntryOf(t: Trailer): (e: string) { t.name + ":" + t.value + "\n" }

  /** Trailers as the parser of the section gives them. */
  predicate Plain(t: Trailer) { ':' !in t.name && '\n' !in t.name && '\n' !in t.value }

  predicate AllPlain(ts: seq<Trailer>) { forall i :: 0 <= i < |ts| ==> Plain(ts[i]) }

  lemma EntryIsOne(t: Trailer, u: Trailer)
    requires Plain(t) && Plain(u) && EntryOf(t) == EntryOf(u)
    ensures t == u
  {
    var e := EntryOf(t);
    IndexOfAfter(t.name, ':', t.value + "\n");
    IndexOfAfter(u.name, ':', u.value + "\n");
    assert e == t.name + [':'] + (t.value + "\n") && e == u.name + [':'] + (u.value + "\n");
    assert t.name == e[..|t.name|] && u.name == e[..|u.name|];
    assert t.value + "\n" == e[|t.name| + 1..] == u.value + "\n";
    assert t.value == (t.value + "\n")[..|t.value|] && u.value == (u.value + "\n")[..|u.value|];
  }

  /** A line: one line feed, at its end. */
  predicate IsLine(e: string) { e != "" && IndexOf(e, '\n') == |e| - 1 }

  lemma EntryIsLine(t: Trailer)
    requires Plain(t)
    ensures IsLine(EntryOf(t))
  {
    var body := t.name + ":" + t.value;
    assert '\n' !in body;
    IndexOfAfter(body, '\n', "");
    assert EntryOf(t) == body + ['\n'] + "";
  }

  lemma {:induction false} LinesAreOne(a: seq<string>, b: seq<string>)
    requires (forall i :: 0 <= i < |a| ==> IsLine(a[i])) && (forall i :: 0 <= i < |b| ==> IsLine(b[i]))
    requires Join(a) == Join(b)
    ensures a == b
  {
    if a != [] && b != [] {
      FirstLine(a[0], Join(a[1..]));
      FirstLine(b[0], Join(b[1..]));
      var t := Join(a);
      assert a[0] == t[..|a[0]|] && b[0] == t[..|b[0]|];
      assert Join(a[1..]) == t[|a[0]|..] && Join(b[1..]) == t[|b[0]|..];
      LinesAreOne(a[1..], b[1..]);
      assert a == [a[0]] + a[1..] && b == [b[0]] + b[1..];
    }
  }

  lemma FirstLine(e: string, rest: string)
    requires IsLine(e)
    ensures IndexOf(e + rest, '\n') == |e| - 1
  {
    var body := e[..|e| - 1];
    assert e == body + ['\n'];
    assert '\n' !in body;
    IndexOfAfter(body, '\n', rest);
    assert e + rest == body + ['\n'] + rest;
  }

  lemma {:induction false} EntriesAre(ts: seq<Trailer>)
    ensures |Entries(ts)| == |ts| && forall i :: 0 <= i < |ts| ==> Entries(ts)[i] == EntryOf(ts[i])
  {
    if ts != [] { EntriesAre(ts[1..]); }
  }

  lemma WithoutOne<T>(s: seq<T>, i: nat)
    requires i < |s|
    ensures multiset(s) == multiset(s[..i] + s[i + 1..]) + multiset{s[i]}
  {
    assert s == s[..i] + [s[i]] + s[i + 1..];
  }

  lemma EntriesWithout(us: seq<Trailer>, i: nat)
    requires i < |us|
    ensures |Entries(us)| == |us| && Entries(us[..i] + us[i + 1..]) == Entries(us)[..i] + Entries(us)[i + 1..]
  {
    hide Entries, EntryOf;
    var less := us[..i] + us[i + 1..];
    EntriesAre(us);
    EntriesAre(less);
    var a := Entries(us)[..i] + Entries(us)[i + 1..];
    forall j | 0 <= j < |less| ensures Entries(less)[j] == a[j] {
      assert less[j] == if j < i then us[j] else us[j + 1];
    }
  }

  lemma FindEntry(us: seq<Trailer>, e: string) returns (i: nat)
    requires e in multiset(Entries(us))
    ensures i < |us| && i < |Entries(us)| && Entries(us)[i] == e && EntryOf(us[i]) == e
  {
    hide EntryOf;
    EntriesAre(us);
    hide Entries;
    assert e in Entries(us);
    i :| 0 <= i < |us| && Entries(us)[i] == e;
  }

  /** The multiset of entries determines that of the trailers. */
  lemma {:induction false} SameTrailers(ts: seq<Trailer>, us: seq<Trailer>)
    requires AllPlain(ts) && AllPlain(us) && multiset(Entries(ts)) == multiset(Entries(us))
    ensures multiset(ts) == multiset(us)
  {
    hide Entries, EntryOf, Plain;
    EntriesAre(ts);
    EntriesAre(us);
    if ts == [] {
      assert |multiset(Entries(us))| == |Entries(us)|;
    } else {
      assert Entries(ts)[0] in multiset(Entries(ts));
      var i := FindEntry(us, Entries(ts)[0]);
      EntryIsOne(ts[0], us[i]);
      LessOne(ts, 0, us, i);
      WithoutOne(ts, 0);
      WithoutOne(us, i);
      PlainWithout(ts, 0);
      PlainWithout(us, i);
      SameTrailers(ts[..0] + ts[0 + 1..], us[..i] + us[i + 1..]);
    }
  }

  lemma PlainWithout(ts: seq<Trailer>, i: nat)
    requires AllPlain(ts) && i < |ts|
    ensures AllPlain(ts[..i] + ts[i + 1..])
  {
    hide Plain;
  }

  lemma LessOne(ts: seq<Trailer>, j: nat, us: seq<Trailer>, i: nat)
    requires j < |ts| && i < |us| && ts[j] == us[i] && multiset(Entries(ts)) == multiset(Entries(us))
    ensures multiset(Entries(ts[..j] + ts[j + 1..])) == multiset(Entries(us[..i] + us[i + 1..]))
  {
    hide Entries, EntryOf;
    EntriesAre(ts);
    EntriesAre(us);
    EntriesWithout(ts, j);
    EntriesWithout(us, i);
    WithoutOne(Entries(ts), j);
    WithoutOne(Entries(us), i);
    var e := Entries(ts)[j];
    var a, b := multiset(Entries(ts[..j] + ts[j + 1..])), multiset(Entries(us[..i] + us[i + 1..]));
    assert a == a + multiset{e} - multiset{e} && b == b + multiset{e} - multiset{e};
  }

  predicate TrailersApart(sg: Signer, p: string, ts: seq<Trailer>, q: string, us: seq<Trailer>) {
    && Apart(sg.sha256, Join(Sort(Entries(ts))), Join(Sort(Entries(us))))
    && Apart(sg.hmac, TrailersToSign(sg, p, ts), TrailersToSign(sg, q, us))
  }

  /** One trailer signature is for one place of the chain and one set of names and values. */
  lemma TrailerBinds(sg: Signer, p: string, ts: seq<Trailer>, q: string, us: seq<Trailer>)
    requires |p| == |q| && TrailersApart(sg, p, ts, q, us) && TrailerSignature(sg, p, ts) == TrailerSignature(sg, q, us)
    requires AllPlain(ts) && AllPlain(us)
    ensures p == q && multiset(ts) == multiset(us)
  {
    var a, b := Join(Sort(Entries(ts))), Join(Sort(Entries(us)));
    SameTrailerText(sg, p, ts, q, us);
    SortedLines(ts);
    SortedLines(us);
    LinesAreOne(Sort(Entries(ts)), Sort(Entries(us)));
    SortSorts(Entries(ts));
    SortSorts(Entries(us));
    SameTrailers(ts, us);
  }

  lemma SameTrailerText(sg: Signer, p: string, ts: seq<Trailer>, q: string, us: seq<Trailer>)
    requires |p| == |q| && TrailersApart(sg, p, ts, q, us) && TrailerSignature(sg, p, ts) == TrailerSignature(sg, q, us)
    ensures p == q && Join(Sort(Entries(ts))) == Join(Sort(Entries(us)))
  {
    hide Join, Sort, Entries;
    var head := "AWS4-HMAC-SHA256-TRAILER\n" + sg.date + "\n" + sg.scope + "\n";
    SameMiddle(head, p, "\n", sg.sha256(Join(Sort(Entries(ts)))), q, sg.sha256(Join(Sort(Entries(us)))));
  }

  lemma SortedLines(ts: seq<Trailer>)
    requires AllPlain(ts)
    ensures forall i :: 0 <= i < |Sort(Entries(ts))| ==> IsLine(Sort(Entries(ts))[i])
  {
    var s := Sort(Entries(ts));
    EntriesAre(ts);
    SortSorts(Entries(ts));
    forall i | 0 <= i < |s| ensures IsLine(s[i]) {
      assert s[i] in multiset(s);
      assert s[i] in multiset(Entries(ts));
      var j :| 0 <= j < |ts| && Entries(ts)[j] == s[i];
      EntryIsLine(ts[j]);
    }
  }
}
