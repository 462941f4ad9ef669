/** The dispatcher and the classifier agree, and what may reach a mutation. */
module RoutingProofs {
  import opened Text
  import opened Routing

  // ------------------------------------------------------------------------------ agreement

  lemma ConfigKeysAreNamed(k: int)
    requires 0 <= k < |CONFIG_KEYS|
    ensures ConfigAction(CONFIG_KEYS[k]) == Of(ReadBucketConfig(CONFIG_KEYS[k]))
  {}

  lemma BucketAgrees(m: Method, q: Query)
    ensures DispatchBucket(m, q).Some? ==> ClassifyBucket(m, q) == Of(DispatchBucket(m, q).value)
    ensures ClassifyBucket(m, q).Of? && !(m.Get? && First(q, ListType) !in {"", "2"}) ==>
              DispatchBucket(m, q) == Some(ClassifyBucket(m, q).op)
  {
    hide PlainAllowed, First, FirstConfigKey, ConfigAction;
    if FirstConfigKey(q, 0) >= 0 { ConfigKeysAreNamed(FirstConfigKey(q, 0)); }
  }

  lemma ObjectAgrees(r: Request)
    ensures DispatchObject(r).Some? ==> ClassifyObject(r) == Of(DispatchObject(r).value)
    ensures ClassifyObject(r).Of? && (r.verb.Put? && UploadId in r.query ==> PositiveInt32(First(r.query, PartNumber))) ==>
              DispatchObject(r) == Some(ClassifyObject(r).op)
  {
    hide PlainAllowed, First, HasBucketOnly, PositiveInt32, HasCopySource;
  }

  /** A path that parses for the pop API is routed to it. */
  lemma PopRoutesCover(path: string)
    requires ParsesAsPop(path)
    ensures IsPop(path)
  {}

  /** Whenever an S3 handler is reached the classifier names its operation, if and only if the path
      does not begin with two slashes; then it has the same bucket and key, and otherwise it says
      Unknown. */
  lemma ClassifierAgrees(r: Request)
    requires Serve(r).Handled?
    ensures Classify(r).action == Of(Serve(r).op) <==> !("//" <= r.path)
    ensures "//" <= r.path ==> Classify(r).action.Unknown?
    ensures !("//" <= r.path) ==> Classify(r).bucket == Serve(r).bucket && Classify(r).key == Serve(r).key
  {
    hide DispatchBucket, ClassifyBucket, DispatchObject, ClassifyObject, ValidQuery, HasUnsupported, StreamingAllowed, ParsesAsPop,
         IndexOf, IsPop;
    if ParsesAsPop(Normal(r.path)) { PopRoutesCover(Normal(r.path)); }
    BucketAgrees(r.verb, r.query);
    ObjectAgrees(r);
    RootIsSlash(Normal(r.path));
    BucketlessPath(Normal(r.path));
  }

  /** A path names no bucket exactly if it is the root or begins with two slashes. */
  lemma BucketlessPath(p: string)
    requires p != ""
    ensures BucketOf(Rest(p)) == "" <==> p == "/" || "//" <= p
  {
    if |p| >= 2 && p[0] == '/' { assert "//" <= p <==> p[1] == '/'; }
  }

  /** Only the root path has nothing behind its slash; "/" itself is Rest-less. */
  lemma RootIsSlash(p: string)
    requires p != ""
    ensures Rest(p) == "" <==> p == "/"
  {}

  /** "//key" reaches GetObject with an empty bucket, which the classifier does not name. */
  lemma EmptyBucketIsUnnamed(key: string)
    requires key != ""
    ensures var r := PlainGet("//" + key); Serve(r) == Handled(GetObject, "", key) && Classify(r).action.Unknown?
  {
    var p := "//" + key;
    var r := PlainGet(p);
    DoubleSlash(p);
    DoubleSlashParts(key);
    assert DispatchObject(r) == Some(GetObject);
    PlainQueryIsValid(p);
    hide DispatchObject, ValidQuery, HasUnsupported, IsPop, IsHealth, ParsesAsPop, BucketOf, KeyOf, Rest;
  }

  lemma DoubleSlashParts(key: string)
    ensures var rest := Rest("//" + key); rest != "" && BucketOf(rest) == "" && KeyOf(rest) == Some(key)
  {
    assert Rest("//" + key) == "/" + key && ("/" + key)[1..] == key;
  }

  lemma PlainQueryIsValid(p: string)
    ensures ValidQuery(Get, p, map[]) && !HasUnsupported(map[])
  {}

  lemma DoubleSlash(p: string)
    requires "//" <= p
    ensures !IsPop(p) && !IsHealth(p) && !ParsesAsPop(p) && p != "/" && p != ""
  {
    assert p[1] == '/' && POP_PREFIX[1] == 'a' && POP_PATH[1] == 'a' && "/healthz"[1] == 'h' && "/readyz"[1] == 'r';
    hide KeyOf, BucketOf, PopRest;
  }

  /** Outside the health and pop routes, what the classifier names the dispatcher serves, unless one of the checks that the classifier
      does not repeat refuses it: encryption headers, a streaming payload, a list type other than 2,
      a part number that is not a positive 32-bit number. */
  lemma NamedIsServed(r: Request)
    requires !IsHealth(Normal(r.path)) && !IsPop(Normal(r.path))
    requires Classify(r).action.Of? && !r.encryption && (r.streaming ==> StreamingAllowed(r))
    requires !(r.verb.Get? && First(r.query, ListType) !in {"", "2"})
    requires r.verb.Put? && UploadId in r.query ==> PositiveInt32(First(r.query, PartNumber))
    ensures Serve(r) == Handled(Classify(r).action.op, Classify(r).bucket, Classify(r).key)
  {
    hide DispatchBucket, ClassifyBucket, DispatchObject, ClassifyObject, ValidQuery, HasUnsupported, StreamingAllowed, ParsesAsPop, IndexOf,
         First, PositiveInt32, IsPop, IsHealth;
    BucketAgrees(r.verb, r.query);
    ObjectAgrees(r);
    RootIsSlash(Normal(r.path));
  }

  // --------------------------------------------------------------------------- the pop route

  /** The methods that an object operation has, by the parameters that select it. */
  predicate ObjectOperation(m: Method, q: Query) {
    && !HasBucketOnly(q)
    && if Acl in q then m.Get? || m.Put?
       else if Tagging in q then m.Get? || m.Put? || m.Delete?
       else if Uploads in q then m.Post?
       else if Attributes in q then m.Get?
       else if UploadId in q then !m.Head? && !m.OtherMethod?
       else PlainAllowed(m, true, q) && !m.Post? && !m.OtherMethod?
  }

  /** On the pop route the classifier says PopObject exactly where the pop handler accepts path and
      method. It names an S3 operation, which the request does not reach, exactly where the path has
      not one scope and one group and the query would do for an object operation of that method. */
  lemma PopRouteNames(r: Request)
    requires Serve(r).PopApi?
    ensures Classify(r).action.PopObject? <==> Serve(r).found
    ensures Classify(r).action.Of? <==>
              && !ParsesAsPop(Normal(r.path)) && !r.malformed && !HasUnsupported(r.query)
              && ValidQuery(r.verb, Normal(r.path), r.query) && ObjectOperation(r.verb, r.query)
  {
    hide ClassifyBucket, ClassifyObject, ValidQuery, HasUnsupported, IndexOf, ParsesAsPop, PopRest;
    PopPathIsObject(Normal(r.path));
    ObjectIsNamed(r);
  }

  lemma ObjectIsNamed(r: Request)
    ensures ClassifyObject(r).Of? <==> ObjectOperation(r.verb, r.query)
    ensures !ClassifyObject(r).PopObject?
  {
    hide PlainAllowed, HasBucketOnly, HasCopySource;
  }

  /** Read as an S3 path, every pop path is the bucket "api" and some key. */
  lemma PopPathIsObject(p: string)
    requires IsPop(p)
    ensures Rest(p) != "" && BucketOf(Rest(p)) == "api" && KeyOf(Rest(p)).Some? && KeyOf(Rest(p)).value != "" && p != "/"
  {
    var rest := Rest(p);
    assert "/api/pop" <= p;
    assert rest == "api" + ['/'] + rest[4..];
    IndexOfAfter("api", '/', rest[4..]);
  }

  function PlainGet(path: string): (r: Request) { Request(Get, path, map[], false, "", false, false) }

  /** A pop path without a group is answered by the pop handler but logged as GetObject on "api". */
  lemma PopRouteIsMisnamed(scope: string)
    requires '/' !in scope
    ensures var r := PlainGet(POP_PREFIX + scope);
            Serve(r) == PopApi(false) && Classify(r).action == Of(GetObject) && Classify(r).bucket == "api"
  {
    var p := POP_PREFIX + scope;
    var r := PlainGet(p);
    NoGroup(scope);
    PopPathIsObject(p);
    PopIsNotHealth(p);
    assert ClassifyObject(r) == Of(GetObject);
    PlainQueryIsValid(p);
    hide ClassifyObject, ParsesAsPop, ValidQuery, HasUnsupported, IndexOf, IsHealth;
  }

  lemma NoGroup(scope: string)
    requires '/' !in scope
    ensures !ParsesAsPop(POP_PREFIX + scope)
  {
    var p := POP_PREFIX + scope;
    assert p[|POP_PREFIX|..] == scope;
    assert PopRest(p) == scope;
  }

  lemma PopIsNotHealth(p: string)
    requires IsPop(p)
    ensures !IsHealth(p)
  {
    assert p[1] == 'a' && "/healthz"[1] == 'h' && "/readyz"[1] == 'r';
  }

  // ------------------------------------------------------------------------------- mutations

  /** Every parameter of a served request is one the gateway knows, also when an empty name hides
      the other unknown ones from the first check. */
  lemma ServedNamesAreKnown(r: Request, n: Name)
    requires Serve(r).Handled? && n in r.query
    ensures !n.Other?
  {
    hide DispatchBucket, DispatchObject, StreamingAllowed, IndexOf, UploadNames, ObjectPath, OneValue;
  }

  predicate NoNamesBut(q: Query, names: set<Name>) { forall n :: n in q ==> n in names }

  lemma PlainBucket(m: Method, q: Query)
    requires DispatchBucket(m, q).Some? && (DispatchBucket(m, q).value.CreateBucket? || DispatchBucket(m, q).value.DeleteBucket?)
    ensures NoNamesBut(q, {XId})
  {
    hide First, FirstConfigKey;
  }

  lemma PlainObject(r: Request)
    requires DispatchObject(r).Some?
    ensures var op := DispatchObject(r).value;
            && (op.PutObject? || op.CopyObject? ==> NoNamesBut(r.query, {XId}))
            && (op.DeleteObject? ==> NoNamesBut(r.query, {XId, VersionId}))
            && (op.PutObject? ==> !HasCopySource(r)) && (op.CopyObject? ==> HasCopySource(r))
  {
    hide First, HasBucketOnly, PositiveInt32, TrimSpace;
  }

  /** An ordinary mutation is reached only with no parameter but x-id, and versionId for DeleteObject:
      no multipart or subresource request becomes one. */
  lemma MutationsArePlain(r: Request)
    requires Serve(r).Handled?
    ensures var op := Serve(r).op;
            && (op in {PutObject, CopyObject, CreateBucket, DeleteBucket} ==> NoNamesBut(r.query, {XId}))
            && (op.DeleteObject? ==> NoNamesBut(r.query, {XId, VersionId}))
  {
    hide DispatchBucket, DispatchObject, ValidQuery, HasUnsupported, StreamingAllowed, IndexOf, NoNamesBut;
    BucketKinds(r.verb, r.query);
    ObjectKinds(r);
    if DispatchObject(r).Some? { PlainObject(r); }
    var b := DispatchBucket(r.verb, r.query);
    if b.Some? && (b.value.CreateBucket? || b.value.DeleteBucket?) { PlainBucket(r.verb, r.query); }
  }

  predicate ObjectMutation(op: Op) { op.PutObject? || op.CopyObject? || op.DeleteObject? }
  predicate BucketMutation(op: Op) { op.CreateBucket? || op.DeleteBucket? }

  lemma BucketKinds(m: Method, q: Query)
    ensures DispatchBucket(m, q).Some? ==> !ObjectMutation(DispatchBucket(m, q).value)
  {
    hide PlainAllowed, First, FirstConfigKey;
  }

  lemma ObjectKinds(r: Request)
    ensures DispatchObject(r).Some? ==> !BucketMutation(DispatchObject(r).value)
  {
    hide PlainAllowed, First, HasBucketOnly, PositiveInt32, HasCopySource;
  }

  /** A streaming payload reaches PutObject or UploadPart, on a real bucket and key, and nothing else. */
  lemma StreamingReachesUploads(r: Request)
    requires r.streaming && Serve(r).Handled?
    ensures Serve(r).op.PutObject? || Serve(r).op.UploadPart?
    ensures Serve(r).bucket != "" && Serve(r).key != ""
  {
    hide DispatchBucket, DispatchObject, HasUnsupported, IndexOf, UploadNames, ObjectPath, OneValue, ValidQuery;
    StreamingObject(r);
  }

  lemma StreamingObject(r: Request)
    requires StreamingAllowed(r) && DispatchObject(r).Some?
    ensures DispatchObject(r).value.PutObject? || DispatchObject(r).value.UploadPart?
  {
    hide First, PositiveInt32, TrimSpace, IndexOf, PlainAllowed;
    assert Acl !in r.query && Tagging !in r.query && Uploads !in r.query && Attributes !in r.query;
  }
}
