/** The string operations of Go's `strings` package that the gateway relies on.
    A Go string or byte slice is modelled as a `string`; one byte is one `char`. */
module Text {

  datatype Option<+T> = None | Some(value: T)

  /** Go's unicode.IsSpace on one byte. A byte from 0x80 on is part of a longer encoding; the wider
      spaces that such bytes make up together are not modelled. */
  predicate IsSpace(c: char) {
    var n := c as int;
    9 <= n <= 13 || n == 32
  }

  function TrimLeft(s: string): (r: string)
    ensures |r| <= |s| && r == s[|s| - |r|..]
    ensures r != [] ==> !IsSpace(r[0])
  {
    if s != [] && IsSpace(s[0]) then TrimLeft(s[1..]) else s
  }

  function TrimRight(s: string): (r: string)
    ensures r <= s
    ensures r != [] ==> !IsSpace(r[|r| - 1])
  {
    if s != [] && IsSpace(s[|s| - 1]) then TrimRight(s[..|s| - 1]) else s
  }

  /** Go's strings.TrimSpace. */
  function TrimSpace(s: string): (r: string)
    ensures |r| <= |s|
    ensures r != [] ==> !IsSpace(r[0]) && !IsSpace(r[|r| - 1])
  {
    TrimRight(TrimLeft(s))
  }

  /** A string without space at either end is left alone; so trimming is idempotent. */
  lemma TrimSpaceKeeps(s: string)
    requires s != [] ==> !IsSpace(s[0]) && !IsSpace(s[|s| - 1])
    ensures TrimSpace(s) == s
  {}

  predicate Spaces(s: string) { forall i :: 0 <= i < |s| ==> IsSpace(s[i]) }

  predicate Trimmed(s: string) { s != [] ==> !IsSpace(s[0]) && !IsSpace(s[|s| - 1]) }

  lemma {:induction false} TrimLeftAround(l: string, s: string)
    requires Spaces(l) && (s != [] ==> !IsSpace(s[0]))
    ensures TrimLeft(l + s) == s
  {
    hide IsSpace;
    if l == [] {
      assert l + s == s;
    } else {
      assert (l + s)[1..] == l[1..] + s && (l + s)[0] == l[0];
      TrimLeftAround(l[1..], s);
    }
  }

  lemma {:induction false} TrimRightAround(s: string, r: string)
    requires Spaces(r) && (s != [] ==> !IsSpace(s[|s| - 1]))
    ensures TrimRight(s + r) == s
    decreases |r|
  {
    hide IsSpace;
    if r == [] {
      assert s + r == s;
    } else {
      var t := s + r;
      assert t[..|t| - 1] == s + r[..|r| - 1] && t[|t| - 1] == r[|r| - 1];
      TrimRightAround(s, r[..|r| - 1]);
    }
  }

  /** Trimming takes away the space around a text and nothing else. */
  lemma TrimAround(l: string, s: string, r: string)
    requires Spaces(l) && Spaces(r) && Trimmed(s)
    ensures TrimSpace(l + s + r) == s
  {
    hide IsSpace;
    if s == [] {
      assert l + s + r == (l + r) + [];
      forall i | 0 <= i < |l + r| ensures IsSpace((l + r)[i]) {}
      TrimLeftAround(l + r, []);
      assert TrimRight([]) == [];
    } else {
      assert l + s + r == l + (s + r) && (s + r)[0] == s[0];
      TrimLeftAround(l, s + r);
      TrimRightAround(s, r);
    }
  }

  lemma {:induction false} LeftIsSpace(s: string)
    ensures Spaces(s[..|s| - |TrimLeft(s)|])
  {
    hide IsSpace;
    if s != [] && IsSpace(s[0]) {
      var t := s[1..];
      LeftIsSpace(t);
      var n := |s| - |TrimLeft(s)|;
      forall i | 0 <= i < n ensures IsSpace(s[i]) { if i > 0 { assert t[..n - 1][i - 1] == s[i]; } }
    }
  }

  lemma {:induction false} RightIsSpace(s: string)
    ensures Spaces(s[|TrimRight(s)|..])
  {
    hide IsSpace;
    if s != [] && IsSpace(s[|s| - 1]) {
      var t := s[..|s| - 1];
      RightIsSpace(t);
      var n := |TrimRight(s)|;
      forall i | n <= i < |s| ensures IsSpace(s[i]) { if i < |s| - 1 { assert t[n..][i - n] == s[i]; } }
    }
  }

  /** What was trimmed off was space. */
  lemma TrimSplits(s: string) returns (l: string, r: string)
    ensures s == l + TrimSpace(s) + r && Spaces(l) && Spaces(r)
  {
    hide IsSpace, TrimLeft, TrimRight, Spaces;
    var t := TrimLeft(s);
    LeftIsSpace(s);
    RightIsSpace(t);
    l, r := s[..|s| - |t|], t[|TrimRight(t)|..];
    assert t == TrimRight(t) + r;
    assert s == l + t == l + TrimRight(t) + r;
  }

  function LowerChar(c: char): (r: char) {
    if 'A' <= c <= 'Z' then (c as int + 32) as char else c
  }

  function UpperChar(c: char): (r: char) {
    if 'a' <= c <= 'z' then (c as int - 32) as char else c
  }

  /** strings.ToLower on its ASCII range. */
  function ToLower(s: string): (r: string)
    ensures |r| == |s| && forall i :: 0 <= i < |s| ==> r[i] == LowerChar(s[i])
  {
    seq(|s|, i requires 0 <= i < |s| => LowerChar(s[i]))
  }

  function ToUpper(s: string): (r: string)
    ensures |r| == |s| && forall i :: 0 <= i < |s| ==> r[i] == UpperChar(s[i])
  {
    seq(|s|, i requires 0 <= i < |s| => UpperChar(s[i]))
  }

  /** Position of the first `c` in `s`, or |s| when there is none. */
  function IndexOf(s: string, c: char): (i: nat)
    ensures i <= |s|
    ensures forall j :: 0 <= j < i ==> s[j] != c
    ensures i < |s| ==> s[i] == c
  {
    if s == [] || s[0] == c then 0 else 1 + IndexOf(s[1..], c)
  }

  /** The first `c` of `s` is found just after a prefix that has none. */
  lemma IndexOfAfter(a: string, c: char, b: string)
    requires c !in a
    ensures IndexOf(a + [c] + b, c) == |a|
  {
    assert (a + [c] + b)[|a|] == c;
  }

  /** Dafny's string `<=` is the prefix order; this is Go's byte-wise order. */
  predicate LexLess(a: string, b: string) {
    b != [] && (a == [] || a[0] < b[0] || (a[0] == b[0] && LexLess(a[1..], b[1..])))
  }
}
