/** How the trailers are put into order before they are signed. */
module TrailerOrder {
  import opened Text
  import opened ChunkSpec

  predicate Sorted(s: seq<string>) {
    forall i, j :: 0 <= i < j < |s| ==> !LexLess(s[j], s[i])
  }

  lemma {:induction false} LexTotal(a: string, b: string)
    ensures LexLess(a, b) || LexLess(b, a) || a == b
    ensures !(LexLess(a, b) && LexLess(b, a))
  {
    if a != [] && b != [] {
      LexTotal(a[1..], b[1..]);
      if a[0] == b[0] && a[1..] == b[1..] { assert a == [a[0]] + a[1..] == b; }
    }
  }

  lemma {:induction false} LexTrans(a: string, b: string, c: string)
    requires !LexLess(b, a) && !LexLess(c, b)
    ensures !LexLess(c, a)
  {
    if a != [] && b != [] && c != [] && a[0] == b[0] == c[0] { LexTrans(a[1..], b[1..], c[1..]); }
  }

  lemma {:induction false} InsertKeeps(e: string, s: seq<string>)
    requires Sorted(s)
    ensures Sorted(Insert(e, s)) && multiset(Insert(e, s)) == multiset([e] + s)
  {
    var r := Insert(e, s);
    if s == [] {
    } else if !LexLess(s[0], e) {
      forall j | 0 < j < |r| ensures !LexLess(r[j], r[0]) {
        if j > 1 {
          assert r[j] == s[j - 1];
          LexTrans(e, s[0], r[j]);
        }
      }
    } else {
      InsertKeeps(e, s[1..]);
      assert s == [s[0]] + s[1..];
      LexTotal(s[0], e);
      forall j | 0 < j < |r| ensures !LexLess(r[j], r[0]) {
        var x := r[j];
        assert x in multiset(Insert(e, s[1..]));
        assert x in multiset([e] + s[1..]);
        assert x == e || x in s[1..];
      }
    }
  }

  lemma {:induction false} SortSorts(s: seq<string>)
    ensures Sorted(Sort(s)) && multiset(Sort(s)) == multiset(s)
  {
    if s != [] {
      SortSorts(s[1..]);
      InsertKeeps(s[0], Sort(s[1..]));
      assert s == [s[0]] + s[1..];
    }
  }

  lemma {:induction false} SortedIsUnique(s: seq<string>, t: seq<string>)
    requires Sorted(s) && Sorted(t) && multiset(s) == multiset(t)
    ensures s == t
  {
    assert |multiset(s)| == |s| && |multiset(t)| == |t|;
    if s != [] {
      assert s[0] in multiset(t) && t[0] in multiset(s);
      LexTotal(s[0], t[0]);
      assert s[0] == t[0];
      assert s == [s[0]] + s[1..] && t == [t[0]] + t[1..];
      assert multiset(s[1..]) == multiset(s) - multiset{s[0]};
      assert multiset(t[1..]) == multiset(t) - multiset{t[0]};
      SortedIsUnique(s[1..], t[1..]);
    }
  }

  /** Equal entries as a multiset, so the same signature: the order in which the trailers arrive
      does not matter. */
  lemma OrderOfTrailersIsFree(sg: Signer, prev: string, a: seq<Trailer>, b: seq<Trailer>)
    requires multiset(Entries(a)) == multiset(Entries(b))
    ensures TrailerSignature(sg, prev, a) == TrailerSignature(sg, prev, b)
  {
    SortSorts(Entries(a));
    SortSorts(Entries(b));
    SortedIsUnique(Sort(Entries(a)), Sort(Entries(b)));
  }

  /** Whole entries are compared, not names. Where one name extends another, the character after
      the shorter one is compared with the colon; otherwise the names decide. */
  lemma {:induction false} EntryOrder(n: string, v: string, m: string, w: string)
    requires n != m && ':' !in n && ':' !in m
    ensures LexLess(n + ":" + v, m + ":" + w) <==>
            if n < m then ':' < m[|n|] else if m < n then n[|m|] < ':' else LexLess(n, m)
  {
    var a, b := n + ":" + v, m + ":" + w;
    if n != [] && m != [] && n[0] == m[0] {
      assert n == [n[0]] + n[1..] && m == [m[0]] + m[1..];
      assert a[1..] == n[1..] + ":" + v && b[1..] == m[1..] + ":" + w;
      EntryOrder(n[1..], v, m[1..], w);
      assert n < m <==> n[1..] < m[1..];
      assert m < n <==> m[1..] < n[1..];
    } else if n == [] {
      assert a[0] == ':' && b[0] == m[0] && m[0] in m;
    } else if m == [] {
      assert b[0] == ':' && a[0] == n[0] && n[0] in n;
    } else {
      assert a[0] == n[0] && b[0] == m[0];
    }
  }

  /** "x-a-b" is signed before "x-a", although its name comes after. */
  lemma EntriesAreNotSortedByName()
    ensures LexLess("x-a", "x-a-b") && LexLess("x-a-b" + ":" + "1", "x-a" + ":" + "2")
  {
    assert "x-a" <= "x-a-b";
    EntryOrder("x-a-b", "1", "x-a", "2");
    assert LexLess("", "-b");
    assert "x-a"[1..] == "-a" && "x-a-b"[1..] == "-a-b";
    assert "-a"[1..] == "a" && "-a-b"[1..] == "a-b" && "a"[1..] == "" && "a-b"[1..] == "-b";
  }

  // ------------------------------------------------------------------------- name order

  /** The name of an entry: what stands before its first colon. */
  function NameOf(entry: string): (name: string) { entry[..IndexOf(entry, ':')] }

  predicate InNameOrder(entries: seq<string>) {
    forall i, j :: 0 <= i < j < |entries| ==> !LexLess(NameOf(entries[j]), NameOf(entries[i]))
  }

  /** One name extends the other by a character that sorts before the colon. */
  predicate Overtakes(longer: string, shorter: string) {
    shorter < longer && longer[|shorter|] < ':'
  }

  predicate ColonFree(ts: seq<Trailer>) { forall i :: 0 <= i < |ts| ==> ':' !in ts[i].name }

  predicate SomeOvertakes(ts: seq<Trailer>) {
    exists i, j :: 0 <= i < |ts| && 0 <= j < |ts| && Overtakes(ts[i].name, ts[j].name)
  }

  lemma {:induction false} EntryAt(ts: seq<Trailer>, k: nat)
    requires k < |ts|
    ensures |Entries(ts)| == |ts| && Entries(ts)[k] == ts[k].name + ":" + (ts[k].value + "\n")
  {
    if k > 0 {
      EntryAt(ts[1..], k - 1);
    } else if |ts| > 1 {
      EntryAt(ts[1..], 0);
    }
    assert ts[k].name + ":" + ts[k].value + "\n" == ts[k].name + ":" + (ts[k].value + "\n");
  }

  lemma {:induction false} EntriesLength(ts: seq<Trailer>)
    ensures |Entries(ts)| == |ts|
  {
    if ts != [] { EntriesLength(ts[1..]); }
  }

  /** Every sorted entry is the entry of some trailer, whose name it begins with. */
  lemma EntryHasTrailer(ts: seq<Trailer>, i: nat) returns (k: nat)
    requires ColonFree(ts) && i < |Sort(Entries(ts))|
    ensures k < |ts| && Sort(Entries(ts))[i] == ts[k].name + ":" + (ts[k].value + "\n")
    ensures NameOf(Sort(Entries(ts))[i]) == ts[k].name
  {
    hide Sort, Entries, IndexOf;
    var es := Sort(Entries(ts));
    SortSorts(Entries(ts));
    EntriesLength(ts);
    assert es[i] in multiset(es) && es[i] in multiset(Entries(ts));
    k :| 0 <= k < |Entries(ts)| && Entries(ts)[k] == es[i];
    EntryAt(ts, k);
    NameOfEntry(ts[k].name, ts[k].value + "\n");
  }

  lemma TrailerHasEntry(ts: seq<Trailer>, k: nat) returns (i: nat)
    requires k < |ts|
    ensures i < |Sort(Entries(ts))| && Sort(Entries(ts))[i] == ts[k].name + ":" + (ts[k].value + "\n")
  {
    hide Sort, Entries;
    SortSorts(Entries(ts));
    EntryAt(ts, k);
    var e := Entries(ts)[k];
    assert e in multiset(Entries(ts)) && e in multiset(Sort(Entries(ts)));
    i :| 0 <= i < |Sort(Entries(ts))| && Sort(Entries(ts))[i] == e;
  }

  lemma {:induction false} PrefixIsLess(a: string, b: string)
    requires a < b
    ensures LexLess(a, b)
  {
    if a != [] {
      assert a[0] == b[0];
      assert a[1..] < b[1..] by { assert b == [b[0]] + b[1..] && a == [a[0]] + a[1..]; }
      PrefixIsLess(a[1..], b[1..]);
    }
  }

  /** Entries that stand in order have names in order, unless the first name overtakes the second. */
  lemma OrderedNames(n: string, v: string, m: string, w: string)
    requires ':' !in n && ':' !in m && !LexLess(m + ":" + w, n + ":" + v) && !Overtakes(n, m)
    ensures !LexLess(m, n)
  {
    LexTotal(n, m);
    if n != m {
      LexTotal(n + ":" + v, m + ":" + w);
      if n + ":" + v == m + ":" + w { SameEntry(n, v, m, w); }
      EntryOrder(n, v, m, w);
      if n < m { PrefixIsLess(n, m); }
    }
  }

  lemma SameEntry(n: string, v: string, m: string, w: string)
    requires ':' !in n && ':' !in m && n + ":" + v == m + ":" + w
    ensures n == m
  {
    hide IndexOf;
    IndexOfAfter(n, ':', v);
    IndexOfAfter(m, ':', w);
    var e := n + ":" + v;
    assert e == n + [':'] + v && e == m + [':'] + w;
    assert n == e[..|n|] && m == e[..|m|];
  }

  /** The signed trailers are in the order of their names, as the comment says, if and only if no
      name extends another by a character that sorts before the colon. */
  lemma SortedByNameIff(ts: seq<Trailer>)
    requires ColonFree(ts)
    ensures InNameOrder(Sort(Entries(ts))) <==> !SomeOvertakes(ts)
  {
    if SomeOvertakes(ts) { OvertakenIsOutOfOrder(ts); } else { NoneOvertakes(ts); }
  }

  lemma NoneOvertakes(ts: seq<Trailer>)
    requires ColonFree(ts) && !SomeOvertakes(ts)
    ensures InNameOrder(Sort(Entries(ts)))
  {
    hide Sort, Entries, LexLess, NameOf;
    var es := Sort(Entries(ts));
    SortSorts(Entries(ts));
    forall i, j | 0 <= i < j < |es| ensures !LexLess(NameOf(es[j]), NameOf(es[i])) {
      var k := EntryHasTrailer(ts, i);
      var l := EntryHasTrailer(ts, j);
      OrderedNames(ts[k].name, ts[k].value + "\n", ts[l].name, ts[l].value + "\n");
    }
  }

  lemma OvertakenIsOutOfOrder(ts: seq<Trailer>)
    requires ColonFree(ts) && SomeOvertakes(ts)
    ensures !InNameOrder(Sort(Entries(ts)))
  {
    hide Sort, Entries, LexLess, NameOf;
    var es := Sort(Entries(ts));
    SortSorts(Entries(ts));
    var k, l :| 0 <= k < |ts| && 0 <= l < |ts| && Overtakes(ts[k].name, ts[l].name);
    var i := TrailerHasEntry(ts, k);
    var j := TrailerHasEntry(ts, l);
    EntryOrder(ts[k].name, ts[k].value + "\n", ts[l].name, ts[l].value + "\n");
    LexTotal(es[i], es[j]);
    assert i < j;
    NameOfEntry(ts[k].name, ts[k].value + "\n");
    NameOfEntry(ts[l].name, ts[l].value + "\n");
    PrefixIsLess(ts[l].name, ts[k].name);
  }

  lemma NameOfEntry(n: string, v: string)
    requires ':' !in n
    ensures NameOf(n + ":" + v) == n
  {
    IndexOfAfter(n, ':', v);
    assert n + [':'] + v == n + ":" + v && (n + ":" + v)[..|n|] == n;
  }
}
