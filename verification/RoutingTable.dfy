/** Which request is which operation, one line for each operation: its method, its path, the
    parameter that selects it and the text of its headers. */
module RoutingTable {
  import opened Text
  import opened Routing
  import opened RoutingProofs

  // --------------------------------------------------------------------------------- texts

  /** Blank, tab, line feed, vertical tab, form feed or carriage return. */
  predicate White(c: char) { c as int in {32, 9, 10, 11, 12, 13} }

  /** Nothing but white space. */
  predicate Blank(s: string) { forall i :: 0 <= i < |s| ==> White(s[i]) }

  lemma WhiteIsSpace(c: char)
    ensures IsSpace(c) <==> White(c)
  {}

  lemma {:induction false} TrimLeftBlank(s: string)
    ensures TrimLeft(s) == "" <==> Blank(s)
  {
    hide White, IsSpace;
    if s != [] {
      WhiteIsSpace(s[0]);
      TrimLeftBlank(s[1..]);
      BlankTail(s);
    }
  }

  lemma BlankTail(s: string)
    requires s != []
    ensures Blank(s) <==> White(s[0]) && Blank(s[1..])
  {
    hide White;
    var t := s[1..];
    forall i | 1 <= i < |s| ensures s[i] == t[i - 1] {}
    forall i | 0 <= i < |t| ensures t[i] == s[i + 1] {}
  }

  lemma BlankIsTrimmed(s: string)
    ensures TrimSpace(s) == "" <==> Blank(s)
  {
    TrimLeftBlank(s);
    var t := TrimLeft(s);
    if t != "" { RightKeepsFirst(t); }
  }

  lemma {:induction false} RightKeepsFirst(s: string)
    requires s != "" && !IsSpace(s[0])
    ensures TrimRight(s) != ""
  {
    if IsSpace(s[|s| - 1]) { RightKeepsFirst(s[..|s| - 1]); }
  }

  // --------------------------------------------------------------------------------- paths

  /** The path, with or without its first slash, is `rest`. */
  predicate Spells(path: string, rest: string) {
    path == "/" + rest || (path == rest && !("/" <= rest))
  }

  predicate OnBucket(path: string, bucket: string) {
    && '/' !in bucket && (Spells(path, bucket) || Spells(path, bucket + "/"))
    && path != "/" && path != ""
  }

  predicate OnObject(path: string, bucket: string, key: string) {
    '/' !in bucket && key != "" && Spells(path, bucket + "/" + key)
  }

  lemma RestSpells(path: string, rest: string)
    requires path != ""
    ensures Rest(path) == rest <==> Spells(path, rest)
  {
    if path[0] == '/' {
      assert path == "/" + path[1..];
      if path == rest { assert "/" <= rest; }
    } else {
      assert !("/" <= path);
      assert path != "/" + rest;
    }
  }

  lemma Parts(rest: string, bucket: string, key: string)
    requires '/' !in bucket
    ensures BucketOf(rest) == bucket && KeyOf(rest) == Some(key) <==> rest == bucket + "/" + key
    ensures BucketOf(rest) == bucket && KeyOf(rest).None? <==> rest == bucket
  {
    var i := IndexOf(rest, '/');
    if i < |rest| {
      assert rest == rest[..i] + "/" + rest[i + 1..];
    }
    if rest == bucket + "/" + key {
      IndexOfAfter(bucket, '/', key);
      assert rest == bucket + ['/'] + key;
    }
  }

  lemma BucketHasNoSlash(rest: string)
    ensures '/' !in BucketOf(rest)
  {}

  /** The two shapes of a path are what the dispatcher cuts it into. */
  lemma Shapes(path: string, bucket: string, key: string)
    requires path != ""
    ensures var rest := Rest(path);
            && (OnObject(path, bucket, key) <==> rest != "" && BucketOf(rest) == bucket && KeyOf(rest) == Some(key) && key != "")
            && (OnBucket(path, bucket) <==>
                  rest != "" && BucketOf(rest) == bucket && (KeyOf(rest).None? || KeyOf(rest).value == ""))
  {
    var rest := Rest(path);
    BucketHasNoSlash(rest);
    RestSpells(path, bucket);
    RestSpells(path, bucket + "/");
    RestSpells(path, bucket + "/" + key);
    RootIsSlash(path);
    hide Rest, BucketOf, KeyOf, Spells;
    if '/' !in bucket {
      Parts(rest, bucket, key);
      Parts(rest, bucket, "");
      assert bucket + "/" + "" == bucket + "/";
    }
  }

  /** A path of the pop API with one scope and one group, and maybe a slash behind them. */
  predicate PopNames(path: string, scope: string, group: string) {
    && scope != "" && group != "" && '/' !in scope && '/' !in group
    && (path == "/api/pop/" + scope + "/" + group || path == "/api/pop/" + scope + "/" + group + "/")
  }

  lemma PopPathNames(path: string)
    ensures ParsesAsPop(path) <==> exists scope, group :: PopNames(path, scope, group)
  {
    if ParsesAsPop(path) {
      var rest := PopRest(path);
      var i := IndexOf(rest, '/');
      var scope, group := rest[..i], rest[i + 1..];
      assert rest == scope + "/" + group;
      var tail := path[|POP_PREFIX|..];
      assert path == "/api/pop/" + tail && (tail == rest || tail == rest + "/");
      assert PopNames(path, scope, group) by {
        assert "/api/pop/" + (scope + "/" + group) == "/api/pop/" + scope + "/" + group;
        assert "/api/pop/" + (scope + "/" + group + "/") == "/api/pop/" + scope + "/" + group + "/";
      }
    }
    forall scope, group | PopNames(path, scope, group) ensures ParsesAsPop(path) { NamesParse(path, scope, group); }
  }

  lemma NamesParse(path: string, scope: string, group: string)
    requires PopNames(path, scope, group)
    ensures ParsesAsPop(path) && BucketOf(PopRest(path)) == scope
  {
    var rest := scope + "/" + group;
    assert POP_PREFIX <= path;
    var tail := path[|POP_PREFIX|..];
    if path == "/api/pop/" + scope + "/" + group {
      assert tail == rest;
      assert tail[|tail| - 1] == group[|group| - 1] && group[|group| - 1] in group;
    } else {
      assert tail == rest + "/";
      assert (rest + "/")[..|rest|] == rest;
    }
    assert PopRest(path) == rest;
    Parts(rest, scope, group);
  }

  // ---------------------------------------------------------------------------- the numbers

  function Digit(d: nat): (c: char)
    requires d < 10
  {
    (d + 48) as char
  }

  function Decimal(n: nat): (s: string) {
    if n < 10 then [Digit(n)] else Decimal(n / 10) + [Digit(n % 10)]
  }

  function Zeros(k: nat): (s: string) { seq(k, _ => '0') }

  /** A decimal number, with or without a plus and leading zeros, that fits 31 bits and is not zero. */
  ghost predicate PartNumberText(s: string) {
    exists plus: bool, k: nat, n: nat :: 0 < n < 0x8000_0000 && s == Numeral(plus, k, n)
  }

  function Numeral(plus: bool, k: nat, n: nat): (s: string) { (if plus then "+" else "") + (Zeros(k) + Decimal(n)) }

  lemma OneMoreDigit(s: string, d: nat)
    requires Digits(s) && d < 10
    ensures Digits(s + [Digit(d)]) && DecimalValue(s + [Digit(d)]) == DecimalValue(s) * 10 + d
  {
    assert (s + [Digit(d)])[..|s|] == s;
  }

  lemma {:induction false} DecimalReads(k: nat, n: nat)
    ensures var s := Zeros(k) + Decimal(n); Digits(s) && s != "" && DecimalValue(s) == n
    decreases n
  {
    var s := Zeros(k) + Decimal(n);
    if n < 10 {
      ZerosAreNothing(k);
      OneMoreDigit(Zeros(k), n);
      assert s == Zeros(k) + [Digit(n)];
    } else {
      DecimalReads(k, n / 10);
      OneMoreDigit(Zeros(k) + Decimal(n / 10), n % 10);
      assert s == Zeros(k) + Decimal(n / 10) + [Digit(n % 10)];
    }
  }

  lemma {:induction false} ZerosAreNothing(k: nat)
    ensures Digits(Zeros(k)) && DecimalValue(Zeros(k)) == 0
  {
    if k > 0 {
      ZerosAreNothing(k - 1);
      assert Zeros(k)[..k - 1] == Zeros(k - 1);
    }
  }

  lemma {:induction false} DigitsAreDecimal(s: string) returns (k: nat)
    requires Digits(s) && s != ""
    ensures DecimalValue(s) >= 0 && (DecimalValue(s) > 0 ==> s == Zeros(k) + Decimal(DecimalValue(s)))
    ensures DecimalValue(s) == 0 ==> s == Zeros(k)
  {
    var less, d := s[..|s| - 1], s[|s| - 1] as int - 48;
    assert s == less + [Digit(d)];
    if less == "" {
      k := if d == 0 then 1 else 0;
      assert DecimalValue(less) == 0;
    } else {
      k := DigitsAreDecimal(less);
      var v := DecimalValue(less);
      if v == 0 && d == 0 { k := k + 1; }
      if v > 0 { assert (v * 10 + d) / 10 == v && (v * 10 + d) % 10 == d; }
    }
  }

  lemma PartNumbers(s: string)
    ensures PositiveInt32(s) <==> PartNumberText(s)
  {
    hide PositiveInt32, Numeral;
    if PositiveInt32(s) { ReadsNumeral(s); }
    if PartNumberText(s) {
      var plus: bool, k: nat, n: nat :| 0 < n < 0x8000_0000 && s == Numeral(plus, k, n);
      NumeralReads(plus, k, n);
    }
  }

  lemma ReadsNumeral(s: string)
    requires PositiveInt32(s)
    ensures PartNumberText(s)
  {
    var plus := s != "" && s[0] == '+';
    var digits := if plus then s[1..] else s;
    assert Digits(digits) && digits != "";
    hide Decimal, Zeros, DecimalValue;
    var k := DigitsAreDecimal(digits);
    assert s == Numeral(plus, k, DecimalValue(digits));
  }

  lemma NumeralReads(plus: bool, k: nat, n: nat)
    requires 0 < n < 0x8000_0000
    ensures PositiveInt32(Numeral(plus, k, n))
  {
    hide Decimal, Zeros, DecimalValue;
    DecimalReads(k, n);
    var digits := Zeros(k) + Decimal(n);
    if plus {
      assert ("+" + digits)[1..] == digits;
    } else {
      assert "" + digits == digits && '0' <= digits[0];
    }
  }

  // --------------------------------------------------------------------- selecting parameters

  /** The parameters that select a bucket operation, the stronger first. */
  const BUCKET_ORDER: seq<Name> :=
    [LifecycleQ, Versioning, Tagging, Acl, Policy, PolicyStatus, Cors, Website, Replication, Logging, Notification, RequestPayment,
     Accelerate, PublicAccessBlock, DeleteQ, Location, Versions, Uploads]

  /** Those that select an object operation. */
  const OBJECT_ORDER: seq<Name> := [Acl, Tagging, Uploads, Attributes, UploadId]

  /** `order[i]` is the strongest of these that the query has; with `i` the length, it has none. */
  predicate Selects(order: seq<Name>, q: Query, i: nat) {
    && i <= |order| && (i < |order| ==> order[i] in q)
    && forall j :: 0 <= j < i ==> order[j] !in q
  }

  /** Parameter number `i` selects the bucket operation, or for 18 none does. */
  predicate Chosen(q: Query, i: nat) { Selects(BUCKET_ORDER, q, i) }

  /** The bucket operation of a method, by the parameter that selects it. */
  predicate BucketMeans(m: Method, q: Query, op: Op) {
    match op
    case GetBucketLifecycle => m.Get? && Chosen(q, 0)
    case PutBucketLifecycle => m.Put? && Chosen(q, 0)
    case DeleteBucketLifecycle => m.Delete? && Chosen(q, 0)
    case GetBucketVersioning => m.Get? && Chosen(q, 1)
    case PutBucketVersioning => m.Put? && Chosen(q, 1)
    case GetBucketTagging => m.Get? && Chosen(q, 2)
    case PutBucketTagging => m.Put? && Chosen(q, 2)
    case DeleteBucketTagging => m.Delete? && Chosen(q, 2)
    case GetBucketAcl => m.Get? && Chosen(q, 3)
    case PutBucketAcl => m.Put? && Chosen(q, 3)
    case ReadBucketConfig(key) => m.Get? && ConfigSelected(q, key)
    case DeleteObjects => m.Post? && Chosen(q, 14)
    case GetBucketLocation => m.Get? && Chosen(q, 15)
    case ListObjectVersions => m.Get? && Chosen(q, 16)
    case ListMultipartUploads => m.Get? && Chosen(q, 17)
    case CreateBucket => m.Put? && NoNamesBut(q, {XId})
    case DeleteBucket => m.Delete? && NoNamesBut(q, {XId})
    case HeadBucket => m.Head? && Chosen(q, 18)
    case ListObjectsV2 => m.Get? && Chosen(q, 18) && Leading(q, ListType) == "2"
    case ListObjects => m.Get? && Chosen(q, 18) && Leading(q, ListType) == ""
    case _ => false
  }

  /** One of the ten configurations that can only be read. */
  predicate ConfigSelected(q: Query, key: Name) {
    exists i :: 4 <= i < 14 && BUCKET_ORDER[i] == key && Chosen(q, i)
  }

  /** The first value of a parameter, or nothing. */
  function Leading(q: Query, n: Name): (v: string) {
    if n !in q || |q[n]| == 0 then "" else q[n][0]
  }

  /** The object operation of a request; what selects bucket operations only has no place there. */
  ghost predicate ObjectMeans(r: Request, op: Op) {
    var m, q := r.verb, r.query;
    && NoBucketSelector(q)
    && match op
       case GetObjectAcl => m.Get? && Selects(OBJECT_ORDER, q, 0)
       case PutObjectAcl => m.Put? && Selects(OBJECT_ORDER, q, 0)
       case GetObjectTagging => m.Get? && Selects(OBJECT_ORDER, q, 1)
       case PutObjectTagging => m.Put? && Selects(OBJECT_ORDER, q, 1)
       case DeleteObjectTagging => m.Delete? && Selects(OBJECT_ORDER, q, 1)
       case CreateMultipartUpload => m.Post? && Selects(OBJECT_ORDER, q, 2)
       case GetObjectAttributes => m.Get? && Selects(OBJECT_ORDER, q, 3)
       case ListParts => m.Get? && Selects(OBJECT_ORDER, q, 4)
       case UploadPart => m.Put? && Selects(OBJECT_ORDER, q, 4) && PartNumberText(Leading(q, PartNumber)) && Blank(r.copySource)
       case UploadPartCopy => m.Put? && Selects(OBJECT_ORDER, q, 4) && PartNumberText(Leading(q, PartNumber)) && !Blank(r.copySource)
       case CompleteMultipartUpload => m.Post? && Selects(OBJECT_ORDER, q, 4)
       case AbortMultipartUpload => m.Delete? && Selects(OBJECT_ORDER, q, 4)
       case GetObject => m.Get? && Selects(OBJECT_ORDER, q, 5)
       case HeadObject => m.Head? && Selects(OBJECT_ORDER, q, 5)
       case PutObject => m.Put? && NoNamesBut(q, {XId}) && Blank(r.copySource)
       case CopyObject => m.Put? && NoNamesBut(q, {XId}) && !Blank(r.copySource)
       case DeleteObject => m.Delete? && NoNamesBut(q, {XId, VersionId})
       case _ => false
  }

  lemma OnlyOne(order: seq<Name>, q: Query, i: nat)
    requires Selects(order, q, i)
    ensures forall k: nat :: Selects(order, q, k) <==> k == i
  {}

  /** Some parameter is the strongest. */
  lemma {:induction false} Strongest(order: seq<Name>, q: Query, from: nat) returns (i: nat)
    requires from <= |order| && forall j :: 0 <= j < from ==> order[j] !in q
    ensures from <= i <= |order| && Selects(order, q, i)
    decreases |order| - from
  {
    if from < |order| && order[from] !in q { i := Strongest(order, q, from + 1); } else { i := from; }
  }

  lemma ConfigKeyAt(q: Query, i: nat)
    requires Chosen(q, i) && i >= 4
    ensures if i < 14 then FirstConfigKey(q, 0) == i - 4 && CONFIG_KEYS[i - 4] == BUCKET_ORDER[i] else FirstConfigKey(q, 0) == -1
  {
    forall j | 0 <= j < 10 ensures CONFIG_KEYS[j] == BUCKET_ORDER[j + 4] {}
    assert forall j :: 0 <= j < i - 4 && j < 10 ==> CONFIG_KEYS[j] !in q;
    FirstOf(q, 0, if i < 14 then i - 4 else 10);
  }

  lemma {:induction false} FirstOf(q: Query, from: nat, k: nat)
    requires from <= k <= |CONFIG_KEYS| && (k < |CONFIG_KEYS| ==> CONFIG_KEYS[k] in q)
    requires forall j :: from <= j < k ==> CONFIG_KEYS[j] !in q
    ensures FirstConfigKey(q, from) == if k < |CONFIG_KEYS| then k else -1
    decreases k - from
  {
    if from < k { FirstOf(q, from + 1, k); }
  }

  /** What the strongest parameter says of all of them. */
  lemma BucketNames(q: Query, i: nat)
    requires Chosen(q, i)
    ensures (LifecycleQ in q <==> i == 0) && (i > 1 ==> Versioning !in q) && (i == 1 ==> Versioning in q)
    ensures (i > 2 ==> Tagging !in q) && (i == 2 ==> Tagging in q) && (i > 3 ==> Acl !in q) && (i == 3 ==> Acl in q)
    ensures (i > 14 ==> DeleteQ !in q) && (i == 14 ==> DeleteQ in q) && (i > 15 ==> Location !in q) && (i == 15 ==> Location in q)
    ensures (i > 16 ==> Versions !in q) && (i == 16 ==> Versions in q) && (i > 17 ==> Uploads !in q) && (i == 17 ==> Uploads in q)
  {
    assert BUCKET_ORDER[0] == LifecycleQ && BUCKET_ORDER[1] == Versioning && BUCKET_ORDER[2] == Tagging && BUCKET_ORDER[3] == Acl;
    assert BUCKET_ORDER[14] == DeleteQ && BUCKET_ORDER[15] == Location && BUCKET_ORDER[16] == Versions && BUCKET_ORDER[17] == Uploads;
  }

  lemma PlainHasNoSelector(q: Query, i: nat)
    requires Chosen(q, i) && NoNamesBut(q, {XId})
    ensures i == 18
  {}

  /** The dispatcher's chain of tests is the table of bucket operations. */
  lemma BucketTable(m: Method, q: Query, op: Op)
    ensures DispatchBucket(m, q) == Some(op) <==> BucketMeans(m, q, op)
  {
    hide DispatchBucket, BucketMeans;
    var i := Strongest(BUCKET_ORDER, q, 0);
    OnlyOne(BUCKET_ORDER, q, i);
    hide Selects;
    if i < 4 { HighRows(m, q, i, op); } else if i < 14 { ConfigRows(m, q, i, op); }
    else if i < 18 { LowRows(m, q, i, op); } else { PlainRows(m, q, op); }
  }

  ghost predicate Only(q: Query, i: nat) {
    forall k: nat :: Chosen(q, k) <==> k == i
  }

  lemma HighRows(m: Method, q: Query, i: nat, op: Op)
    requires i < 4 && Only(q, i)
    ensures DispatchBucket(m, q) == Some(op) <==> BucketMeans(m, q, op)
  {
    hide Chosen, FirstConfigKey, NoNamesBut, PlainAllowed, ConfigSelected, First, Leading;
    assert Chosen(q, i);
    BucketNames(q, i);
    NoConfig(q, i);
    if NoNamesBut(q, {XId}) { PlainHasNoSelector(q, i); }
  }

  lemma ConfigRows(m: Method, q: Query, i: nat, op: Op)
    requires 4 <= i < 14 && Only(q, i)
    ensures DispatchBucket(m, q) == Some(op) <==> BucketMeans(m, q, op)
  {
    hide Chosen, FirstConfigKey, NoNamesBut, PlainAllowed, ConfigSelected, First, Leading;
    assert Chosen(q, i);
    BucketNames(q, i);
    ConfigKeyAt(q, i);
    ConfigIs(q, i);
    if NoNamesBut(q, {XId}) { PlainHasNoSelector(q, i); }
  }

  lemma LowRows(m: Method, q: Query, i: nat, op: Op)
    requires 14 <= i < 18 && Only(q, i)
    ensures DispatchBucket(m, q) == Some(op) <==> BucketMeans(m, q, op)
  {
    hide Chosen, FirstConfigKey, NoNamesBut, PlainAllowed, ConfigSelected, First, Leading;
    assert Chosen(q, i);
    BucketNames(q, i);
    ConfigKeyAt(q, i);
    NoConfig(q, i);
    if NoNamesBut(q, {XId}) { PlainHasNoSelector(q, i); }
  }

  lemma PlainRows(m: Method, q: Query, op: Op)
    requires Only(q, 18)
    ensures DispatchBucket(m, q) == Some(op) <==> BucketMeans(m, q, op)
  {
    hide Chosen, FirstConfigKey, NoNamesBut, PlainAllowed, ConfigSelected, First, Leading;
    assert Chosen(q, 18);
    BucketNames(q, 18);
    ConfigKeyAt(q, 18);
    NoConfig(q, 18);
    PlainIs(m, q);
    FirstIsLeading(q);
  }

  lemma FirstIsLeading(q: Query)
    ensures First(q, ListType) == Leading(q, ListType)
  {}

  lemma NoConfig(q: Query, i: nat)
    requires Only(q, i) && (i < 4 || i >= 14)
    ensures forall key :: !ConfigSelected(q, key)
  {
    hide Chosen;
  }

  lemma ConfigIs(q: Query, i: nat)
    requires Only(q, i) && 4 <= i < 14
    ensures forall key :: ConfigSelected(q, key) <==> key == BUCKET_ORDER[i]
  {
    hide Chosen;
  }

  lemma PlainIs(m: Method, q: Query)
    ensures m.Put? || m.Delete? ==> (PlainAllowed(m, false, q) <==> NoNamesBut(q, {XId}))
    ensures !m.Put? && !m.Delete? ==> PlainAllowed(m, false, q) && PlainAllowed(m, true, q)
    ensures m.Put? ==> (PlainAllowed(m, true, q) <==> NoNamesBut(q, {XId}))
    ensures m.Delete? ==> (PlainAllowed(m, true, q) <==> NoNamesBut(q, {XId, VersionId}))
  {}

  // ------------------------------------------------------------------------- object operations

  lemma ObjectNames(q: Query, i: nat)
    requires Selects(OBJECT_ORDER, q, i)
    ensures (Acl in q <==> i == 0) && (i > 1 ==> Tagging !in q) && (i == 1 ==> Tagging in q)
    ensures (i > 2 ==> Uploads !in q) && (i == 2 ==> Uploads in q) && (i > 3 ==> Attributes !in q) && (i == 3 ==> Attributes in q)
    ensures (i > 4 ==> UploadId !in q) && (i == 4 ==> UploadId in q)
    ensures forall k: nat :: Selects(OBJECT_ORDER, q, k) <==> k == i
  {
    assert OBJECT_ORDER[0] == Acl && OBJECT_ORDER[1] == Tagging && OBJECT_ORDER[2] == Uploads && OBJECT_ORDER[3] == Attributes
           && OBJECT_ORDER[4] == UploadId;
    OnlyOne(OBJECT_ORDER, q, i);
  }

  predicate NoBucketSelector(q: Query) {
    forall i :: 0 <= i < |BUCKET_ORDER| && BUCKET_ORDER[i] !in {Tagging, Acl, Uploads} ==> BUCKET_ORDER[i] !in q
  }

  lemma BucketOnlyIs(q: Query)
    ensures HasBucketOnly(q) <==> !NoBucketSelector(q)
  {
    if HasBucketOnly(q) {
      var n :| n in q && n in BUCKET_ONLY;
      assert n in BUCKET_ORDER;
    }
    forall i | 0 <= i < |BUCKET_ORDER| && BUCKET_ORDER[i] !in {Tagging, Acl, Uploads} ensures BUCKET_ORDER[i] in BUCKET_ONLY {}
  }

  lemma PlainIsUnselected(q: Query, i: nat)
    requires Selects(OBJECT_ORDER, q, i) && NoNamesBut(q, {XId, VersionId})
    ensures i == 5
  {}

  lemma FewerNames(q: Query)
    ensures NoNamesBut(q, {XId}) ==> NoNamesBut(q, {XId, VersionId})
  {}

  lemma HeaderTexts(r: Request)
    ensures HasCopySource(r) <==> !Blank(r.copySource)
    ensures First(r.query, PartNumber) == Leading(r.query, PartNumber)
    ensures PositiveInt32(First(r.query, PartNumber)) <==> PartNumberText(Leading(r.query, PartNumber))
  {
    hide TrimSpace, PositiveInt32, PartNumberText, Blank;
    BlankIsTrimmed(r.copySource);
    PartNumbers(First(r.query, PartNumber));
  }

  lemma ObjectPlain(m: Method, q: Query, i: nat)
    requires Selects(OBJECT_ORDER, q, i)
    ensures NoNamesBut(q, {XId}) || NoNamesBut(q, {XId, VersionId}) ==> i == 5
  {
    FewerNames(q);
    if NoNamesBut(q, {XId, VersionId}) { PlainIsUnselected(q, i); }
  }

  /** The dispatcher's chain of tests is the table of object operations. */
  lemma ObjectTable(r: Request, op: Op)
    ensures DispatchObject(r) == Some(op) <==> ObjectMeans(r, op)
  {
    hide DispatchObject, ObjectMeans, Selects;
    var i := Strongest(OBJECT_ORDER, r.query, 0);
    if i < 4 { SubresourceRows(r, i, op); } else if i == 4 { UploadRows(r, op); } else { ObjectRows(r, op); }
  }

  lemma SubresourceRows(r: Request, i: nat, op: Op)
    requires Selects(OBJECT_ORDER, r.query, i) && i < 4
    ensures DispatchObject(r) == Some(op) <==> ObjectMeans(r, op)
  {
    hide Selects, HasBucketOnly, NoBucketSelector, NoNamesBut, PlainAllowed, Blank, HasCopySource, PositiveInt32, PartNumberText, First, Leading;
    ObjectNames(r.query, i);
    BucketOnlyIs(r.query);
    ObjectPlain(r.verb, r.query, i);
  }

  lemma UploadRows(r: Request, op: Op)
    requires Selects(OBJECT_ORDER, r.query, 4)
    ensures DispatchObject(r) == Some(op) <==> ObjectMeans(r, op)
  {
    hide Selects, HasBucketOnly, NoBucketSelector, NoNamesBut, PlainAllowed, Blank, HasCopySource, PositiveInt32, PartNumberText, First, Leading;
    ObjectNames(r.query, 4);
    BucketOnlyIs(r.query);
    ObjectPlain(r.verb, r.query, 4);
    HeaderTexts(r);
  }

  lemma ObjectRows(r: Request, op: Op)
    requires Selects(OBJECT_ORDER, r.query, 5)
    ensures DispatchObject(r) == Some(op) <==> ObjectMeans(r, op)
  {
    hide Selects, HasBucketOnly, NoBucketSelector, NoNamesBut, PlainAllowed, Blank, HasCopySource, PositiveInt32, PartNumberText, First, Leading;
    ObjectNames(r.query, 5);
    BucketOnlyIs(r.query);
    PlainIs(r.verb, r.query);
    HeaderTexts(r);
  }

  // ---------------------------------------------------------------------------- the dispatcher

  predicate HealthPath(path: string) { path == "/healthz" || path == "/readyz" }

  predicate PopPath(path: string) { path == "/api/pop" || "/api/pop/" <= path }

  ghost predicate HasObject(path: string) { exists bucket, key :: OnObject(path, bucket, key) }

  predicate Single(values: seq<string>) { |values| == 1 && !Blank(values[0]) }

  /** An aws-chunked payload goes to an object of a named bucket, with the parameters of an upload
      and no copy source. */
  ghost predicate StreamsUpload(r: Request) {
    && r.verb.Put? && Blank(r.copySource) && NoNamesBut(r.query, {XId, UploadId, PartNumber})
    && HasNamedObject(r.path)
  }

  /** The parameters that go with few operations only. */
  ghost predicate QueryFits(r: Request) {
    var q := r.query;
    && (MaxBuckets in q || BucketRegion in q ==> r.verb.Get? && (r.path == "" || r.path == "/"))
    && (UploadId in q ==>
          && HasObject(r.path) && Single(q[UploadId])
          && NoNamesBut(q, {UploadId, PartNumber, PartNumberMarker, MaxParts, XId}))
    && (PartNumber in q ==> HasObject(r.path) && Single(q[PartNumber]) && (UploadId in q || r.verb.Get? || r.verb.Head?))
    && (Attributes in q ==> HasObject(r.path))
  }

  /** What is asked of every S3 request, whatever its operation. */
  ghost predicate Accepted(r: Request) {
    && !HealthPath(r.path) && !PopPath(r.path) && !r.encryption && !r.malformed
    && Known(r.query) && (r.streaming ==> StreamsUpload(r)) && QueryFits(r)
  }

  predicate Known(q: Query) { forall n :: n in q ==> !n.Other? }

  /** The table: the operation of a path, method, parameters and headers. */
  ghost predicate Means(r: Request, op: Op, bucket: string, key: string) {
    || (op == ListBuckets && r.verb.Get? && (r.path == "" || r.path == "/") && bucket == "" && key == "")
    || (OnBucket(r.path, bucket) && key == "" && BucketMeans(r.verb, r.query, op))
    || (OnObject(r.path, bucket, key) && ObjectMeans(r, op))
  }

  lemma ObjectPathIs(path: string)
    ensures ObjectPath(Normal(path)) <==> HasObject(path)
  {
    var p := Normal(path);
    var rest := Rest(p);
    if ObjectPath(p) {
      Shapes(p, BucketOf(rest), KeyOf(rest).value);
      assert path == p;
    }
    forall bucket, key | OnObject(path, bucket, key) ensures ObjectPath(p) {
      assert path != "";
      Shapes(path, bucket, key);
    }
  }

  ghost predicate HasNamedObject(path: string) { exists bucket, key :: OnObject(path, bucket, key) && bucket != "" }

  lemma NamedObjectIs(path: string)
    ensures (var rest := Rest(path); KeyOf(rest).Some? && BucketOf(rest) != "" && KeyOf(rest).value != "") <==> HasNamedObject(path)
  {
    var rest := Rest(path);
    if path != "" {
      hide Spells, Rest, BucketOf, KeyOf, OnObject;
      if KeyOf(rest).Some? && KeyOf(rest).value != "" {
        Shapes(path, BucketOf(rest), KeyOf(rest).value);
        if rest == "" { EmptyHasNoKey(); }
      }
      forall bucket, key | OnObject(path, bucket, key) ensures BucketOf(rest) == bucket && KeyOf(rest) == Some(key) && key != "" {
        Shapes(path, bucket, key);
      }
    }
  }

  lemma EmptyHasNoKey()
    ensures KeyOf("").None?
  {}

  lemma StreamingIs(r: Request)
    ensures StreamingAllowed(r) <==> StreamsUpload(r)
  {
    hide TrimSpace, Blank, Rest, BucketOf, KeyOf, HasNamedObject;
    BlankIsTrimmed(r.copySource);
    NamedObjectIs(r.path);
  }

  lemma SingleIs(values: seq<string>)
    ensures OneValue(values) <==> Single(values)
  {
    hide TrimSpace, Blank;
    if |values| == 1 { BlankIsTrimmed(values[0]); }
  }

  lemma KnownIs(q: Query)
    ensures !HasUnsupported(q) && Other("") !in q <==> Known(q)
  {}

  lemma UploadNamesIs(q: Query)
    ensures UploadNames(q) <==> NoNamesBut(q, {UploadId, PartNumber, PartNumberMarker, MaxParts, XId})
  {}

  lemma QueryIs(r: Request)
    ensures !HasUnsupported(r.query) && ValidQuery(r.verb, Normal(r.path), r.query) <==> Known(r.query) && QueryFits(r)
  {
    hide HasObject, ObjectPath, OneValue, Single, UploadNames, NoNamesBut, HasUnsupported;
    ObjectPathIs(r.path);
    KnownIs(r.query);
    UploadNamesIs(r.query);
    if UploadId in r.query { SingleIs(r.query[UploadId]); }
    if PartNumber in r.query { SingleIs(r.query[PartNumber]); }
  }

  // ------------------------------------------------------------------------------ the theorem

  /** A request is served by an operation on a bucket and key if and only if every request's
      conditions are met and the table says so. */
  lemma ServeTable(r: Request, op: Op, bucket: string, key: string)
    ensures Serve(r) == Handled(op, bucket, key) <==> Accepted(r) && Means(r, op, bucket, key)
  {
    hide DispatchBucket, DispatchObject, BucketMeans, ObjectMeans, StreamingAllowed, StreamsUpload, HasUnsupported, ValidQuery, QueryFits,
         Known, Rest, BucketOf, KeyOf, OnBucket, OnObject, ParsesAsPop;
    StreamingIs(r);
    QueryIs(r);
    PathRow(r, op, bucket, key);
  }

  ghost predicate Dispatched(r: Request, op: Op, bucket: string, key: string) {
    var p := Normal(r.path);
    if p == "/" && r.verb.Get? then op == ListBuckets && bucket == "" && key == ""
    else
      var rest := Rest(p);
      && rest != "" && bucket == BucketOf(rest)
      && if KeyOf(rest).None? || KeyOf(rest).value == "" then key == "" && DispatchBucket(r.verb, r.query) == Some(op)
         else key == KeyOf(rest).value && DispatchObject(r) == Some(op)
  }

  lemma PathRow(r: Request, op: Op, bucket: string, key: string)
    ensures Dispatched(r, op, bucket, key) <==> Means(r, op, bucket, key)
  {
    hide DispatchBucket, DispatchObject, BucketMeans, ObjectMeans, Rest, BucketOf, KeyOf, OnBucket, OnObject;
    BucketTable(r.verb, r.query, op);
    ObjectTable(r, op);
    RootIsSlash(Normal(r.path));
    RootHasNoShape(bucket, key);
    if r.path != "" { Shapes(r.path, bucket, key); }
  }

  lemma RootHasNoShape(bucket: string, key: string)
    ensures !OnBucket("", bucket) && !OnBucket("/", bucket) && !OnObject("", bucket, key) && !OnObject("/", bucket, key)
  {}

  /** The other answers: the two health paths, the pop API whatever its query, and for all the rest
      a refusal exactly where the table has no line. */
  lemma OtherRoutes(r: Request)
    ensures Serve(r).Health? <==> HealthPath(r.path)
    ensures Serve(r).PopApi? <==> !r.encryption && PopPath(r.path)
    ensures Serve(r).PopApi? ==>
              (Serve(r).found <==> (r.verb.Get? || r.verb.Post?) && exists scope, group :: PopNames(r.path, scope, group))
    ensures Serve(r).Refused? <==>
              && !HealthPath(r.path) && !(PopPath(r.path) && !r.encryption)
              && !(Accepted(r) && exists op, bucket, key :: Means(r, op, bucket, key))
  {
    hide DispatchBucket, DispatchObject, StreamingAllowed, HasUnsupported, ValidQuery, Rest, BucketOf, KeyOf, ParsesAsPop, Accepted, Means,
         PopNames;
    PopPathNames(r.path);
    if Serve(r).Handled? {
      ServeTable(r, Serve(r).op, Serve(r).bucket, Serve(r).key);
    }
    forall op, bucket, key | Accepted(r) && Means(r, op, bucket, key) ensures Serve(r) == Handled(op, bucket, key) {
      ServeTable(r, op, bucket, key);
    }
  }

  /** A pop request is logged as PopObject on its scope, or on no bucket for all of them. */
  lemma PopScopeIsLogged(r: Request, scope: string, group: string)
    requires PopNames(r.path, scope, group) && (r.verb.Get? || r.verb.Post?)
    ensures Classify(r) == Audit(PopObject, if scope == "_all" then "" else scope, "")
  {
    NamesParse(r.path, scope, group);
    hide ParsesAsPop, AuditResource, ClassifyBucket, ClassifyObject, ValidQuery, HasUnsupported, BucketOf, KeyOf;
  }

  /** Uploads come without a copy source, copies with one. */
  lemma CopySourceDecides(r: Request)
    requires Serve(r).Handled?
    ensures Serve(r).op.PutObject? || Serve(r).op.UploadPart? ==> Blank(r.copySource)
    ensures Serve(r).op.CopyObject? || Serve(r).op.UploadPartCopy? ==> !Blank(r.copySource)
  {
    hide Serve, Accepted, Blank, Selects, PartNumberText, NoNamesBut, NoBucketSelector, OnObject, OnBucket;
    ServeTable(r, Serve(r).op, Serve(r).bucket, Serve(r).key);
  }
}
