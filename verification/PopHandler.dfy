/** The record handler of the pop API: what it takes for a Kafka record to count
    as delivered, which object revision is sent, and who may share a consumer group. */
module PopHandler {
  import opened Text

  const GLOBAL_SCOPE := "_all"
  const MAX_GROUP_ID := 249
  const MAX_ETAG := 4096

  // ---------------------------------------------------------------- group ids

  predicate GroupIdChar(c: char) {
    'a' <= c <= 'z' || 'A' <= c <= 'Z' || '0' <= c <= '9' || c == '.' || c == '_' || c == '-'
  }

  predicate ValidComponent(v: string) {
    && 0 < |v| <= MAX_GROUP_ID && v != "." && v != ".."
    && forall i :: 0 <= i < |v| ==> GroupIdChar(v[i])
  }

  function ConsumerGroupId(username: string, requested: string): (r: Option<string>) {
    var user := TrimSpace(username);
    if !ValidComponent(user) || !ValidComponent(requested) then None
    else if |user + ":" + requested| > MAX_GROUP_ID then None
    else Some(user + ":" + requested)
  }

  /** A Kafka group is made exactly of names of letters, digits, dots, dashes and underscores that are not a
      path step, and fits Kafka's limit. */
  lemma GroupIdIff(username: string, requested: string, id: string)
    ensures ConsumerGroupId(username, requested) == Some(id) <==>
            && id == TrimSpace(username) + ":" + requested && |id| <= 249
            && NameParts(TrimSpace(username)) && NameParts(requested)
  {
    hide TrimSpace;
  }

  predicate NameParts(v: string) {
    && v !in {"", ".", ".."}
    && forall i :: 0 <= i < |v| ==> 'a' <= v[i] <= 'z' || 'A' <= v[i] <= 'Z' || '0' <= v[i] <= '9' || v[i] in {'.', '_', '-'}
  }

  /** Two users never share a consumer group, and one user never merges two groups. */
  lemma GroupIdsDoNotCollide(u1: string, g1: string, u2: string, g2: string)
    requires ConsumerGroupId(u1, g1).Some?
    requires ConsumerGroupId(u1, g1) == ConsumerGroupId(u2, g2)
    ensures TrimSpace(u1) == TrimSpace(u2) && g1 == g2
  {
    var a, b := TrimSpace(u1), TrimSpace(u2);
    IndexOfAfter(a, ':', g1);
    IndexOfAfter(b, ':', g2);
    var id := a + ":" + g1;
    assert a + [':'] + g1 == b + [':'] + g2 == id;
    assert a == id[..|a|] && g1 == id[|a| + 1..];
    assert b == id[..|b|] && g2 == id[|b| + 1..];
  }

  // ---------------------------------------------------------------- revisions

  predicate ETagByte(c: char) {
    0x21 <= c as int <= 0x7e && c != '"' && c != ','
  }

  function Unquoted(etag: string): (r: string) {
    if |etag| >= 2 && etag[0] == '"' && etag[|etag| - 1] == '"' then etag[1..|etag| - 1] else etag
  }

  /** popIfMatchETag: the If-Match value that pins one revision, or None. */
  function IfMatchETag(etag: string): (r: Option<string>) {
    var bare := Unquoted(etag);
    if |etag| > MAX_ETAG then None
    else if bare == "" || bare == "*" || "W/" <= bare then None
    else if exists i :: 0 <= i < |bare| && !ETagByte(bare[i]) then None
    else Some("\"" + bare + "\"")
  }

  /** The header value is always one quoted strong tag: never a wildcard, a weak tag or
      a list; a bare and a quoted tag give the same value. */
  lemma IfMatchIsOneStrongTag(etag: string)
    requires IfMatchETag(etag).Some?
    ensures var v := IfMatchETag(etag).value;
            && |v| > 2 && v[0] == '"' && v[|v| - 1] == '"'
            && (forall i :: 1 <= i < |v| - 1 ==> v[i] != '"' && v[i] != ',')
            && Unquoted(v) != "*" && !("W/" <= Unquoted(v))
            && (|v| <= MAX_ETAG ==> IfMatchETag(v) == Some(v))
  {
    var v := IfMatchETag(etag).value;
    assert v[1..|v| - 1] == Unquoted(etag);
  }

  predicate StrongTag(t: string) {
    && t != "" && t != "*" && !("W/" <= t)
    && forall i :: 0 <= i < |t| ==> 0x21 <= t[i] as int <= 0x7e && t[i] != '"' && t[i] != ','
  }

  /** A tag is accepted exactly if it is a strong one of visible characters, bare or in quotes. */
  lemma IfMatchIff(etag: string, t: string)
    ensures IfMatchETag(etag) == Some("\"" + t + "\"") <==>
            |etag| <= 4096 && StrongTag(t) && (etag == t || etag == "\"" + t + "\"")
  {
    var quoted := "\"" + t + "\"";
    assert quoted[1..|quoted| - 1] == t;
    if IfMatchETag(etag) == Some(quoted) {
      var v := "\"" + Unquoted(etag) + "\"";
      assert v[1..|v| - 1] == Unquoted(etag);
      assert Unquoted(etag) == t;
      if etag != t { assert etag == quoted; }
    }
  }

  // ----------------------------------------------------------------- delivery

  datatype Event = Event(bucket: string, key: string, versionId: string, etag: string)

  datatype Payload = Malformed | Decoded(event: Event)

  /** What the upstream GetObject and the client connection do with one delivery.
      `stored` is the stored object, `readable` the bytes the body yields before EOF or a
      read error, `written` the bytes the client connection accepted. */
  datatype Transfer =
    | FetchFails
    | Fetched(contentLength: Option<int>, stored: string, readable: string,
              written: string, copyFails: bool, flushFails: bool)

  /** What net/http and io.Copy promise: a copy without error moved everything up to EOF, a
      declared length is the object's length, and without one only a complete body ends in EOF. */
  predicate Possible(t: Transfer) {
    t.Fetched? ==>
      && t.readable <= t.stored && t.written <= t.readable
      && (!t.copyFails ==> t.written == t.readable)
      && (if t.contentLength.Some? && t.contentLength.value >= 0
          then t.contentLength.value == |t.stored|
          else !t.copyFails ==> t.readable == t.stored)
  }

  datatype Delivery = Delivery(
    topic: string, scope: string, readableBuckets: set<string>,
    recordTopic: string, payload: Payload, transfer: Transfer)

  datatype Failure = BadTopic | BadJson | MissingField | WrongBucket | Forbidden
                   | NoRevision | Upstream | Interrupted

  datatype Handled = Nil | Err(failure: Failure)

  predicate NeedsETag(e: Event) {
    e.versionId == "" || e.versionId == "null"
  }

  function Stream(e: Event, t: Transfer): (r: Handled) {
    if NeedsETag(e) && IfMatchETag(e.etag).None? then Err(NoRevision)
    else if t.FetchFails? then Err(Upstream)
    else if t.copyFails then Err(Interrupted)
    else if t.contentLength.Some? && t.contentLength.value >= 0 && |t.written| != t.contentLength.value
    then Err(Interrupted)
    else if t.flushFails then Err(Interrupted)
    else Nil
  }

  /** The closure handlePopAPI gives to Consume. */
  function Handle(d: Delivery): (r: Handled) {
    if d.recordTopic != d.topic then Err(BadTopic)
    else if d.payload.Malformed? then Err(BadJson)
    else
      var e := d.payload.event.(bucket := TrimSpace(d.payload.event.bucket));
      if e.bucket == "" || e.key == "" then Err(MissingField)
      else if d.scope != GLOBAL_SCOPE && e.bucket != d.scope then Err(WrongBucket)
      else if e.bucket !in d.readableBuckets then Err(Forbidden)
      else Stream(e, d.transfer)
  }

  /** The client holds every byte of the stored object. */
  predicate FullBodyWritten(d: Delivery) {
    d.transfer.Fetched? && d.transfer.written == d.transfer.stored && !d.transfer.flushFails
  }

  /** A nil handler result means that the whole object reached the client, that the reader
      may read its bucket, and that the request named one immutable revision. */
  lemma NilMeansDelivered(d: Delivery)
    requires Possible(d.transfer) && Handle(d).Nil?
    ensures FullBodyWritten(d)
    ensures d.payload.Decoded? && d.recordTopic == d.topic
    ensures TrimSpace(d.payload.event.bucket) in d.readableBuckets
    ensures !NeedsETag(d.payload.event) || IfMatchETag(d.payload.event.etag).Some?
  {
    var t := d.transfer;
    assert t.written == t.readable;
    assert |t.readable| == |t.stored| ==> t.readable == t.stored;
  }

  /** Exactly when a record is acknowledged: it is of the topic, names a bucket the request is for and the
      user may read, pins a revision by version or by tag, and its object reached the client whole. */
  lemma NilIff(d: Delivery)
    requires Possible(d.transfer)
    ensures Handle(d).Nil? <==>
            && d.recordTopic == d.topic && d.payload.Decoded?
            && var e := d.payload.event; var bucket := TrimSpace(e.bucket);
               && bucket != "" && e.key != "" && (d.scope == "_all" || bucket == d.scope) && bucket in d.readableBuckets
               && (e.versionId !in {"", "null"} || IfMatchETag(e.etag).Some?)
               && d.transfer.Fetched? && d.transfer.written == d.transfer.stored && !d.transfer.copyFails && !d.transfer.flushFails
  {
    hide TrimSpace, IfMatchETag;
    var t := d.transfer;
    if t.Fetched? { assert t.written <= t.stored && (|t.written| == |t.stored| ==> t.written == t.stored); }
  }

  /** Without the declared-length check a body cut short by a clean EOF would be acknowledged. */
  lemma ShortBodyIsNotAcknowledged(d: Delivery)
    requires Possible(d.transfer) && d.transfer.Fetched? && !d.transfer.copyFails
    requires d.transfer.written != d.transfer.stored
    ensures Handle(d).Err?
  {
    if Handle(d).Nil? {
      NilMeansDelivered(d);
      assert false;
    }
  }
}
