/** Requests, and the two places that decide which S3 operation one is: the dispatcher of ServeHTTP
    and the audit log's classifier. */
module Routing {
  import opened Text

  /** A query parameter's name: one of the supported ones, or any other text. */
  datatype Name =
    | Accelerate | Acl | Attributes | BucketRegion | ContinuationToken | Cors | DeleteQ | Delimiter | EncodingType | FetchOwner
    | KeyMarker | LifecycleQ | ListType | Location | Logging | Marker | MaxBuckets | MaxKeys | MaxParts | MaxUploads
    | Notification | OptionalObjectAttributes | PartNumberMarker | PartNumber | Policy | PolicyStatus | Prefix
    | PublicAccessBlock | Replication | RequestPayment | ResponseCacheControl | ResponseContentDisposition
    | ResponseContentEncoding | ResponseContentLanguage | ResponseContentType | ResponseExpires | StartAfter | Tagging
    | UploadIdMarker | UploadId | Uploads | VersionIdMarker | VersionId | Versioning | Versions | Website | WithUpdatedAt | XId
    | Other(text: string)

  type Query = map<Name, seq<string>>

  datatype Method = Get | Put | Post | Delete | Head | OtherMethod(text: string)

  /** `malformed` tells that the raw query does not parse, `streaming` that the headers announce an
      aws-chunked payload, `encryption` that they ask for server-side encryption. */
  datatype Request = Request(verb: Method, path: string, query: Query, malformed: bool,
                             copySource: string, streaming: bool, encryption: bool)

  datatype Op =
    | ListBuckets
    | PutBucketLifecycle | GetBucketLifecycle | DeleteBucketLifecycle | PutBucketVersioning | GetBucketVersioning
    | PutBucketTagging | GetBucketTagging | DeleteBucketTagging | GetBucketAcl | PutBucketAcl
    | ReadBucketConfig(key: Name) | DeleteObjects | GetBucketLocation | ListObjectVersions | ListMultipartUploads
    | CreateBucket | DeleteBucket | HeadBucket | ListObjectsV2 | ListObjects
    | GetObjectAcl | PutObjectAcl | PutObjectTagging | GetObjectTagging | DeleteObjectTagging
    | CreateMultipartUpload | GetObjectAttributes | ListParts | UploadPart | UploadPartCopy
    | CompleteMultipartUpload | AbortMultipartUpload | GetObject | HeadObject | PutObject | CopyObject | DeleteObject

  // ---------------------------------------------------------------------------- validation

  function First(q: Query, name: Name): (v: string) {
    if name in q && q[name] != [] then q[name][0] else ""
  }

  /** firstUnsupportedSubresource finds something: the least unknown name, unless that is empty. */
  predicate HasUnsupported(q: Query) {
    (exists n :: n in q && n.Other?) && Other("") !in q
  }

  /** Path without its leading slash. */
  function Rest(path: string): (r: string) { if path != "" && path[0] == '/' then path[1..] else path }

  function BucketOf(rest: string): (b: string) { rest[..IndexOf(rest, '/')] }

  /** What follows the first slash, if there is one. */
  function KeyOf(rest: string): (k: Option<string>) {
    var i := IndexOf(rest, '/');
    if i < |rest| then Some(rest[i + 1..]) else None
  }

  predicate ObjectPath(path: string) {
    var k := KeyOf(Rest(path));
    k.Some? && k.value != ""
  }

  predicate OneValue(values: seq<string>) { |values| == 1 && TrimSpace(values[0]) != "" }

  predicate UploadNames(q: Query) {
    forall n :: n in q ==> n in {UploadId, PartNumber, PartNumberMarker, MaxParts, XId}
  }

  /** validateS3OperationQuery returns no error. */
  predicate ValidQuery(verb: Method, path: string, q: Query) {
    && Other("") !in q
    && (MaxBuckets in q || BucketRegion in q ==> verb.Get? && path == "/")
    && (UploadId in q ==> ObjectPath(path) && OneValue(q[UploadId]) && UploadNames(q))
    && (PartNumber in q ==>
          && ObjectPath(path) && OneValue(q[PartNumber])
          && (UploadId in q || verb.Get? || verb.Head?))
    && (Attributes in q ==> ObjectPath(path))
  }

  predicate PlainAllowed(verb: Method, object_: bool, q: Query) {
    (verb.Put? || verb.Delete?) ==>
      forall n :: n in q ==> n.XId? || (object_ && verb.Delete? && n.VersionId?)
  }

  predicate HasCopySource(r: Request) { TrimSpace(r.copySource) != "" }

  /** supportsStreamingPayload. */
  predicate StreamingAllowed(r: Request) {
    var rest := Rest(r.path);
    && r.verb.Put? && !HasCopySource(r)
    && KeyOf(rest).Some? && BucketOf(rest) != "" && KeyOf(rest).value != ""
    && forall n :: n in r.query ==> n in {XId, UploadId, PartNumber}
  }

  const CONFIG_KEYS: seq<Name> :=
    [Policy, PolicyStatus, Cors, Website, Replication, Logging, Notification, RequestPayment, Accelerate, PublicAccessBlock]

  const BUCKET_ONLY: set<Name> :=
    {Accelerate, Cors, DeleteQ, LifecycleQ, Location, Logging, Notification, Policy, PolicyStatus, PublicAccessBlock,
     Replication, RequestPayment, Versioning, Versions, Website}

  /** The first of the keys that the query has, or -1. */
  function FirstConfigKey(q: Query, i: nat): (k: int)
    requires i <= |CONFIG_KEYS|
    ensures -1 <= k < |CONFIG_KEYS|
    decreases |CONFIG_KEYS| - i
  {
    if i == |CONFIG_KEYS| then -1 else if CONFIG_KEYS[i] in q then i else FirstConfigKey(q, i + 1)
  }

  /** strconv.ParseInt(s, 10, 32) gives a positive number. */
  predicate PositiveInt32(s: string) {
    var digits := if s != "" && s[0] == '+' then s[1..] else s;
    && digits != "" && Digits(digits)
    && 0 < DecimalValue(digits) < 0x8000_0000
  }

  predicate Digits(s: string) { forall i :: 0 <= i < |s| ==> '0' <= s[i] <= '9' }

  function DecimalValue(s: string): (n: int) {
    if s == "" then 0 else DecimalValue(s[..|s| - 1]) * 10 + (s[|s| - 1] as int - '0' as int)
  }

  // -------------------------------------------------------------------------- other routes

  const POP_PATH := "/api/pop"
  const POP_PREFIX := "/api/pop/"
  const POP_GLOBAL := "_all"

  /** isPopAPIPath. */
  predicate IsPop(path: string) { path == POP_PATH || POP_PREFIX <= path }

  /** What follows the pop prefix, without one trailing slash. */
  function PopRest(path: string): (rest: string)
    requires POP_PREFIX <= path
  {
    var tail := path[|POP_PREFIX|..];
    if tail != "" && tail[|tail| - 1] == '/' then tail[..|tail| - 1] else tail
  }

  /** parsePopAPIPath succeeds: one scope and one group after the prefix. */
  predicate ParsesAsPop(path: string) {
    POP_PREFIX <= path &&
    var rest := PopRest(path);
    var key := KeyOf(rest);
    BucketOf(rest) != "" && key.Some? && key.value != "" && '/' !in key.value
  }

  predicate PopMethod(m: Method) { m.Get? || m.Post? }

  predicate IsHealth(path: string) { path == "/healthz" || path == "/readyz" }

  function Normal(path: string): (p: string) { if path == "" then "/" else path }

  // ------------------------------------------------------------------------- the dispatcher

  /** `found` tells that the pop handler gets past its own checks of path and method. */
  datatype Route = Health | PopApi(found: bool) | Refused | Handled(op: Op, bucket: string, key: string)

  /** A switch over the methods of one subresource. */
  function ByMethod(m: Method, get: Option<Op>, put: Option<Op>, post: Option<Op>, delete: Option<Op>): (r: Option<Op>) {
    match m case Get => get case Put => put case Post => post case Delete => delete case Head => None case OtherMethod(_) => None
  }

  function DispatchBucket(m: Method, q: Query): (r: Option<Op>) {
    if LifecycleQ in q then ByMethod(m, Some(GetBucketLifecycle), Some(PutBucketLifecycle), None, Some(DeleteBucketLifecycle))
    else if Versioning in q then ByMethod(m, Some(GetBucketVersioning), Some(PutBucketVersioning), None, None)
    else if Tagging in q then ByMethod(m, Some(GetBucketTagging), Some(PutBucketTagging), None, Some(DeleteBucketTagging))
    else if Acl in q then ByMethod(m, Some(GetBucketAcl), Some(PutBucketAcl), None, None)
    else if FirstConfigKey(q, 0) >= 0 then
      ByMethod(m, Some(ReadBucketConfig(CONFIG_KEYS[FirstConfigKey(q, 0)])), None, None, None)
    else if DeleteQ in q then ByMethod(m, None, None, Some(DeleteObjects), None)
    else if Location in q then ByMethod(m, Some(GetBucketLocation), None, None, None)
    else if Versions in q then ByMethod(m, Some(ListObjectVersions), None, None, None)
    else if Uploads in q then ByMethod(m, Some(ListMultipartUploads), None, None, None)
    else if !PlainAllowed(m, false, q) then None
    else if m.Put? then Some(CreateBucket)
    else if m.Delete? then Some(DeleteBucket)
    else if m.Head? then Some(HeadBucket)
    else if m.Get? then
      var lt := First(q, ListType);
      if lt != "" then (if lt != "2" then None else Some(ListObjectsV2)) else Some(ListObjects)
    else None
  }

  predicate HasBucketOnly(q: Query) { exists n :: n in q && n in BUCKET_ONLY }

  function DispatchObject(r: Request): (op: Option<Op>) {
    var m, q := r.verb, r.query;
    if HasBucketOnly(q) then None
    else if Acl in q then ByMethod(m, Some(GetObjectAcl), Some(PutObjectAcl), None, None)
    else if Tagging in q then ByMethod(m, Some(GetObjectTagging), Some(PutObjectTagging), None, Some(DeleteObjectTagging))
    else if Uploads in q then ByMethod(m, None, None, Some(CreateMultipartUpload), None)
    else if Attributes in q then ByMethod(m, Some(GetObjectAttributes), None, None, None)
    else if UploadId in q then
      ByMethod(m, Some(ListParts),
               if !PositiveInt32(First(q, PartNumber)) then None
               else if HasCopySource(r) then Some(UploadPartCopy) else Some(UploadPart),
               Some(CompleteMultipartUpload), Some(AbortMultipartUpload))
    else if !PlainAllowed(m, true, q) then None
    else if m.Head? then Some(HeadObject)
    else ByMethod(m, Some(GetObject), Some(if HasCopySource(r) then CopyObject else PutObject), None, Some(DeleteObject))
  }

  /** ServeHTTP. */
  function Serve(r: Request): (route: Route) {
    var p := Normal(r.path);
    if IsHealth(p) then Health
    else if r.encryption then Refused
    else if IsPop(p) then PopApi(ParsesAsPop(p) && PopMethod(r.verb))
    else if r.malformed || HasUnsupported(r.query) then Refused
    else if r.streaming && !StreamingAllowed(r) then Refused
    else if !ValidQuery(r.verb, p, r.query) then Refused
    else if p == "/" && r.verb.Get? then Handled(ListBuckets, "", "")
    else
      var rest := Rest(p);
      if rest == "" then Refused
      else
        var bucket, key := BucketOf(rest), KeyOf(rest);
        if key.None? || key.value == "" then
          var op := DispatchBucket(r.verb, r.query);
          if op.None? then Refused else Handled(op.value, bucket, "")
        else
          var op := DispatchObject(r);
          if op.None? then Refused else Handled(op.value, bucket, key.value)
  }

  // ------------------------------------------------------------------------- the classifier

  datatype Action = Unknown | Unsupported | PopObject | Of(op: Op)

  datatype Audit = Audit(action: Action, bucket: string, key: string)

  /** bucketConfigReadAction. */
  function ConfigAction(key: Name): (a: Action) {
    match key
    case Policy => Of(ReadBucketConfig(Policy))
    case PolicyStatus => Of(ReadBucketConfig(PolicyStatus))
    case Cors => Of(ReadBucketConfig(Cors))
    case Website => Of(ReadBucketConfig(Website))
    case Replication => Of(ReadBucketConfig(Replication))
    case Logging => Of(ReadBucketConfig(Logging))
    case Notification => Of(ReadBucketConfig(Notification))
    case RequestPayment => Of(ReadBucketConfig(RequestPayment))
    case Accelerate => Of(ReadBucketConfig(Accelerate))
    case PublicAccessBlock => Of(ReadBucketConfig(PublicAccessBlock))
    case _ => Unknown
  }

  function ClassifyBucket(m: Method, q: Query): (a: Action) {
    if LifecycleQ in q then
      (match m case Put => Of(PutBucketLifecycle) case Get => Of(GetBucketLifecycle) case Delete => Of(DeleteBucketLifecycle) case _ => Unsupported)
    else if Versioning in q then
      (match m case Put => Of(PutBucketVersioning) case Get => Of(GetBucketVersioning) case _ => Unsupported)
    else if Tagging in q then
      (match m case Put => Of(PutBucketTagging) case Get => Of(GetBucketTagging) case Delete => Of(DeleteBucketTagging) case _ => Unsupported)
    else if Acl in q then
      (match m case Get => Of(GetBucketAcl) case Put => Of(PutBucketAcl) case _ => Unsupported)
    else if FirstConfigKey(q, 0) >= 0 then
      if m.Get? then ConfigAction(CONFIG_KEYS[FirstConfigKey(q, 0)]) else Unsupported
    else if DeleteQ in q then (if m.Post? then Of(DeleteObjects) else Unsupported)
    else if Location in q then (if m.Get? then Of(GetBucketLocation) else Unsupported)
    else if Versions in q then (if m.Get? then Of(ListObjectVersions) else Unsupported)
    else if Uploads in q then (if m.Get? then Of(ListMultipartUploads) else Unsupported)
    else if !PlainAllowed(m, false, q) then Unsupported
    else
      match m
      case Put => Of(CreateBucket)
      case Delete => Of(DeleteBucket)
      case Head => Of(HeadBucket)
      case Get => if First(q, ListType) != "" then Of(ListObjectsV2) else Of(ListObjects)
      case _ => Unsupported
  }

  function ClassifyObject(r: Request): (a: Action) {
    var m, q := r.verb, r.query;
    if HasBucketOnly(q) then Unsupported
    else if Acl in q then (match m case Get => Of(GetObjectAcl) case Put => Of(PutObjectAcl) case _ => Unsupported)
    else if Tagging in q then
      (match m case Put => Of(PutObjectTagging) case Get => Of(GetObjectTagging) case Delete => Of(DeleteObjectTagging) case _ => Unsupported)
    else if Uploads in q then (if m.Post? then Of(CreateMultipartUpload) else Unsupported)
    else if Attributes in q then (if m.Get? then Of(GetObjectAttributes) else Unsupported)
    else if UploadId in q then
      (match m
       case Get => Of(ListParts)
       case Put => if HasCopySource(r) then Of(UploadPartCopy) else Of(UploadPart)
       case Post => Of(CompleteMultipartUpload)
       case Delete => Of(AbortMultipartUpload)
       case _ => Unsupported)
    else if !PlainAllowed(m, true, q) then Unsupported
    else
      match m
      case Get => Of(GetObject)
      case Head => Of(HeadObject)
      case Put => if HasCopySource(r) then Of(CopyObject) else Of(PutObject)
      case Delete => Of(DeleteObject)
      case _ => Unsupported
  }

  /** s3AuditResource. */
  function AuditResource(path: string): (a: Audit) {
    var rest := Rest(path);
    if rest == "" then Audit(Unknown, "", "")
    else Audit(Unknown, BucketOf(rest), if KeyOf(rest).Some? then KeyOf(rest).value else "")
  }

  /** classifyS3Request. */
  function Classify(r: Request): (a: Audit) {
    var p := Normal(r.path);
    if ParsesAsPop(p) then
      var scope := BucketOf(PopRest(p));
      Audit(if PopMethod(r.verb) then PopObject else Unsupported, if scope == POP_GLOBAL then "" else scope, "")
    else
      var a := AuditResource(p);
      if r.malformed || HasUnsupported(r.query) || !ValidQuery(r.verb, p, r.query) then a.(action := Unsupported)
      else if p == "/" then a.(action := if r.verb.Get? then Of(ListBuckets) else Unsupported)
      else if a.bucket == "" then a
      else if a.key == "" then a.(action := ClassifyBucket(r.verb, r.query))
      else a.(action := ClassifyObject(r))
  }
}
