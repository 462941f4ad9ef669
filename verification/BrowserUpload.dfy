/** The file part of a browser upload: fixed-size parts out of one reused buffer, then either one
    completion or one abort. */
module BrowserUpload {
  import opened Text
  import opened ChunkSpec
  import opened ByteSource

  const PART_SIZE := 16 * 1024 * 1024
  const MAX_PARTS := 10000
  const MAX_OBJECT_SIZE := PART_SIZE * MAX_PARTS

  datatype Part = Part(number: int, data: string)

  function Contents(parts: seq<Part>): (data: string) {
    if parts == [] then "" else Contents(parts[..|parts| - 1]) + parts[|parts| - 1].data
  }

  lemma ContentsPush(parts: seq<Part>, p: Part)
    ensures Contents(parts + [p]) == Contents(parts) + p.data
  {
    assert (parts + [p])[..|parts|] == parts;
  }

  /** Parts 1..k, none empty, all full but perhaps the last. */
  predicate WellNumbered(parts: seq<Part>) {
    && |parts| <= MAX_PARTS
    && (forall i :: 0 <= i < |parts| ==> parts[i].number == i + 1 && 0 < |parts[i].data| <= PART_SIZE)
    && (forall i :: 0 <= i < |parts| - 1 ==> |parts[i].data| == PART_SIZE)
  }

  predicate AllFull(parts: seq<Part>) {
    forall i :: 0 <= i < |parts| ==> |parts[i].data| == PART_SIZE
  }

  lemma {:induction false} FullContents(parts: seq<Part>)
    requires AllFull(parts)
    ensures |Contents(parts)| == |parts| * PART_SIZE
  {
    if parts != [] { FullContents(parts[..|parts| - 1]); }
  }

  lemma Rounded(k: nat, last: nat)
    requires 0 < last <= PART_SIZE
    ensures (k * PART_SIZE + last + PART_SIZE - 1) / PART_SIZE == k + 1
  {
    var n := k * PART_SIZE + last + PART_SIZE - 1;
    assert n == (k + 1) * PART_SIZE + (last - 1);
  }

  lemma SizeOfAll(parts: seq<Part>)
    requires WellNumbered(parts) && parts != []
    ensures |Contents(parts)| == (|parts| - 1) * PART_SIZE + |parts[|parts| - 1].data|
  {
    var k := |parts| - 1;
    FullContents(parts[..k]);
    hide Contents;
    ContentsPush(parts[..k], parts[k]);
    assert parts == parts[..k] + [parts[k]];
  }

  /** The number of parts is fixed by the size: only the last may be short. */
  lemma PartCount(parts: seq<Part>)
    requires WellNumbered(parts)
    ensures |parts| == (|Contents(parts)| + PART_SIZE - 1) / PART_SIZE
  {
    if parts == [] {
      assert Contents(parts) == "";
    } else {
      hide Contents;
      SizeOfAll(parts);
      Rounded(|parts| - 1, |parts[|parts| - 1].data|);
    }
  }

  /** The upstream store. Every call may fail; what it was asked to do is recorded. */
  class Store {
    var sent: seq<Part>             // parts that were accepted
    var finalized: Option<string>   // the object whose completion or creation was asked for
    var completions: int            // completions that succeeded
    var aborts: int
    var refused: bool               // some call failed

    ghost predicate Untouched()
      reads this
    {
      sent == [] && finalized == None && completions == 0 && aborts == 0 && !refused
    }

    constructor ()
      ensures Untouched()
    {
      sent, finalized, completions, aborts, refused := [], None, 0, 0, false;
    }

    method UploadPart(p: Part) returns (ok: bool)
      modifies `sent, `refused
      ensures sent == if ok then old(sent) + [p] else old(sent)
      ensures refused == (old(refused) || !ok)
    {
      ok := *;
      if ok { sent := sent + [p]; } else { refused := true; }
    }

    method Complete(parts: seq<Part>) returns (ok: bool)
      modifies `finalized, `completions, `refused
      ensures finalized == Some(Contents(parts)) && completions == old(completions) + if ok then 1 else 0
      ensures refused == (old(refused) || !ok)
    {
      finalized, ok := Some(Contents(parts)), *;
      if ok { completions := completions + 1; } else { refused := true; }
    }

    method PutEmpty() returns (ok: bool)
      modifies `finalized, `refused
      ensures finalized == Some("") && refused == (old(refused) || !ok)
    {
      finalized, ok := Some(""), *;
      if !ok { refused := true; }
    }

    method Abort()
      modifies `aborts
      ensures aborts == old(aborts) + 1
    {
      aborts := aborts + 1;
    }
  }

  /** What io.ReadFull reports of a stream that is over. */
  predicate Ends(e: Err) { e.Eof? || e.UnexpectedEof? }

  datatype PartRead = Full | Short | Ended | TooLarge | Broken

  /** readAdminUploadPart: never more than one byte beyond the room that is left. */
  method ReadPart(src: ByteStream, buf: array<char>, received: int) returns (n: nat, r: PartRead)
    requires buf.Length == PART_SIZE && 0 <= received <= MAX_OBJECT_SIZE
    modifies src, buf
    ensures n <= PART_SIZE && n <= |old(src.rest)| && src.rest == old(src.rest)[n..] && buf[..n] == old(src.rest)[..n]
    ensures r.TooLarge? <==> |old(src.rest)| > MAX_OBJECT_SIZE - received && MAX_OBJECT_SIZE - received < PART_SIZE
    ensures r.TooLarge? ==> received + n == MAX_OBJECT_SIZE + 1
    ensures r.Full? <==> |old(src.rest)| >= PART_SIZE && !r.TooLarge?
    ensures r.Full? ==> n == PART_SIZE && received + n <= MAX_OBJECT_SIZE
    ensures !r.TooLarge? && !r.Full? ==> n == |old(src.rest)| < PART_SIZE && received + n <= MAX_OBJECT_SIZE
    ensures r.Broken? ==> !Ends(src.fail)
    ensures r.Ended? ==> n == 0 && Ends(src.fail)
    ensures r.Short? ==> n > 0 && Ends(src.fail)
  {
    var remaining := MAX_OBJECT_SIZE - received;
    var limit := if remaining < buf.Length then remaining + 1 else buf.Length;
    var e;
    n, e := src.ReadFull(buf, limit);
    if n > remaining { return n, TooLarge; }
    if e.None? { return n, Full; }
    if e.value.Eof? { return n, Ended; }
    if !e.value.UnexpectedEof? { return n, Broken; }
    return n, if n == 0 then Ended else Short;
  }

  /** A size that is neither beyond the limit nor beyond what was declared. */
  predicate Fits(size: int, declared: int) { size <= MAX_OBJECT_SIZE && (declared >= 0 ==> size <= declared) }

  /** The loop over the parts: whether all of the stream was sent, in parts that were all accepted. */
  method SendParts(src: ByteStream, declared: int, store: Store) returns (ok: bool, parts: seq<Part>, received: int)
    requires store.Untouched()
    modifies src, store`sent, store`refused
    ensures ok <==> !store.refused && Fits(|old(src.rest)|, declared) && Ends(src.fail)
    ensures WellNumbered(store.sent) && Contents(store.sent) <= old(src.rest) && |Contents(store.sent)| <= MAX_OBJECT_SIZE
    ensures ok ==> parts == store.sent && Contents(parts) == old(src.rest) && received == |old(src.rest)|
  {
    hide Contents;
    var buf := new char[PART_SIZE];
    parts, received := [], 0;
    NoContents(parts);
    while true
      invariant parts == store.sent && received == |Contents(parts)| == |parts| * PART_SIZE <= MAX_OBJECT_SIZE
      invariant AllFull(parts) && WellNumbered(parts) && Contents(parts) + src.rest == old(src.rest)
      invariant !store.refused && (declared >= 0 ==> received <= declared)
      decreases |src.rest|
    {
      ghost var before := src.rest;
      var n, r := ReadPart(src, buf, received);
      match r {
        case Ended =>
          assert Contents(parts) + "" == Contents(parts);
          return true, parts, received;
        case TooLarge => return false, parts, received;
        case Broken => return false, parts, received;
        case Full =>
        case Short =>
      }
      received := received + n;
      if declared >= 0 && received > declared { return false, parts, received; }
      var part := Part(|parts| + 1, buf[..n]);
      var accepted := store.UploadPart(part);
      if !accepted { return false, parts, received; }
      Appended(parts, part, src.rest, before, old(src.rest));
      parts := parts + [part];
      if r.Short? { return true, parts, received; }
    }
  }

  lemma NoContents(parts: seq<Part>)
    requires parts == []
    ensures Contents(parts) == ""
  {}

  lemma Appended(parts: seq<Part>, part: Part, rest: string, before: string, all: string)
    requires Contents(parts) + before == all && part.data + rest == before
    requires AllFull(parts) && WellNumbered(parts) && part.number == |parts| + 1 && 0 < |part.data| <= PART_SIZE
    requires |Contents(parts)| == |parts| * PART_SIZE && |Contents(parts)| + |part.data| <= MAX_OBJECT_SIZE
    ensures Contents(parts + [part]) + rest == all && Contents(parts + [part]) == Contents(parts) + part.data
    ensures WellNumbered(parts + [part])
  {
    ContentsPush(parts, part);
    hide Contents;
    assert Contents(parts) + (part.data + rest) == Contents(parts) + part.data + rest;
  }

  /** A size within the limit that is the declared one, if one was declared. */
  predicate Whole(size: int, declared: int) { size <= MAX_OBJECT_SIZE && (declared >= 0 ==> size == declared) }

  /** After the multipart upload was created, up to the deferred abort. `boundary` tells whether
      the form parser then finds the closing boundary. */
  method Transfer(src: ByteStream, declared: int, boundary: bool, store: Store) returns (completed: bool, success: bool)
    requires store.Untouched()
    modifies src, store
    ensures WellNumbered(store.sent) && Contents(store.sent) <= old(src.rest) && store.aborts == 0
    ensures store.finalized.Some? ==>
              && store.finalized.value == old(src.rest) == Contents(store.sent) && boundary
              && (declared >= 0 ==> |old(src.rest)| == declared) && |old(src.rest)| <= MAX_OBJECT_SIZE
    ensures success <==> !store.refused && Whole(|old(src.rest)|, declared) && Ends(src.fail) && boundary
    ensures completed <==> success && old(src.rest) != ""
    ensures success ==> store.finalized.Some?
    ensures store.completions == if completed then 1 else 0
  {
    var ok, parts, received := SendParts(src, declared, store);
    if !ok { return false, false; }
    if declared >= 0 && received != declared { return false, false; }
    if !boundary { return false, false; }
    if parts == [] {
      NoContents(parts);
      success := store.PutEmpty();
      return false, success;
    }
    NotEmpty(parts);
    ok := store.Complete(parts);
    return ok, ok;
  }

  lemma NotEmpty(parts: seq<Part>)
    requires parts != [] && WellNumbered(parts)
    ensures Contents(parts) != ""
  {
    assert parts == parts[..|parts| - 1] + [parts[|parts| - 1]];
  }

  /** A browser upload. An upload that got an ID is completed or gets one abort, never both. What is
      finalized is the whole stream, sent as parts 1..k with k at most 10000, and only if its size
      is the declared one and the closing boundary was seen. */
  method UploadFile(src: ByteStream, declared: int, boundary: bool, store: Store) returns (created: bool, success: bool)
    requires store.Untouched()
    modifies src, store
    ensures declared > MAX_OBJECT_SIZE ==> !created
    ensures !created ==> store.Untouched() && !success && src.rest == old(src.rest)
    ensures created ==> store.completions + store.aborts == 1 && 0 <= store.completions <= 1
    ensures WellNumbered(store.sent) && Contents(store.sent) <= old(src.rest)
    ensures store.finalized.Some? ==>
              && store.finalized.value == old(src.rest) == Contents(store.sent) && boundary
              && (declared >= 0 ==> |old(src.rest)| == declared) && |old(src.rest)| <= MAX_OBJECT_SIZE
    ensures success <==> created && !store.refused && Whole(|old(src.rest)|, declared) && Ends(src.fail) && boundary
    ensures success ==> store.finalized.Some?
    ensures store.completions == 1 <==> success && old(src.rest) != ""
  {
    created, success := false, false;
    NoContents(store.sent);
    if declared > MAX_OBJECT_SIZE { return; }
    created := *;
    if !created { return; }
    var completed;
    completed, success := Transfer(src, declared, boundary, store);
    if !completed { store.Abort(); }
  }
}
