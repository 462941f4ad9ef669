# A verified model of s3gateway

s3gateway is an S3 front end with LDAP authentication and a Kafka-backed "pop" API. Most of it
forwards requests to an S3 SDK. This project models, in Dafny 4.11, the parts whose correctness is
not visible in one function, and proves what they promise over whole runs and for all inputs:

- **Kafka pop** (`Pop*.dfy`): the consumer manager as a state machine with one program counter per
  call, timer, worker and close call, over partition logs, rebalances and a broker that loses and
  delays commits. An acknowledged record was handled in full, every client is closed exactly once,
  no consumer in use is evicted, every answer of Consume is explained by what happened to the call,
  and calls, evictions and shutdowns come to their ends.
- **aws-chunked bodies** (`Chunk*.dfy`, `ByteSource.dfy`, `AwsChunked.dfy`, `PayloadHash.dfy`, `TrailerGuard.dfy`,
  `TrailerOrder.dfy`, `ValidatedBody.dfy`): a decoder on whole streams, AWS Signature Version 4,
  "Transferring payload in multiple chunks (chunked upload)"; the readers as classes over arrays that refine it
  for every buffer size and every splitting of the source; the guard that withholds the last byte; and
  what signatures cover, so that a stream with a client's signatures yields the client's chunks.
- **Authentication limiter** (`Limiter*.dfy`, `LruLists.dfy`, `AuthLimiter.dfy`): token buckets, pools and keyed LRUs
  as values and as classes that refine them; conservation, the rate bounds and the refund bound.
- **Credential cache and lookups** (`CredentialKeys.dfy`, `GroupCache.dfy`, `GroupLookup*.dfy`): the
  cache class and the single-flight protocol over it.
- **Routing** (`Routing*.dfy`): the dispatcher and the audit classifier, two decision procedures, and a
  table of all operations that the dispatcher is proved to follow.
- **Log buffer, watchdog, browser upload, lifecycle codec** (`Splunk*.dfy`, `Watchdog.dfy`,
  `BrowserUpload.dfy`, `Lifecycle*.dfy`).

`Text.dfy` holds the string operations of Go's `strings` package and `Sizes.dfy` facts about finite maps and sets. A byte is modelled as a `char`.
Cryptographic functions, digests, clocks and the time package's parser are parameters; SHA-256 is
taken to be injective on credentials, so a digest is represented by what it was computed from. For the
chunk signatures hash and HMAC are functions with results of 64 digits, which cannot be injective on all
texts; there they are asked not to collide on the texts that occur. Tokens and times are
reals. `dafny verify dfyconfig.toml` checks everything.

## Where the code does not do what it promises

Each of these keeps the code as it is, has a lemma with a concrete input, and an exact condition.

- The guard takes any end of stream for a validated one (internal/sigv4/sigv4.go:850-974), but the chunk
  reader passes on the source's own end of stream when it falls into the framing. A signed body that
  lacks its final chunk is released whole: `ChunkEnd.CleanEndIsNotVerified`. It happens if and only
  if the source ends cleanly inside the framing: `ChunkEnd.UnverifiedEofIffCut`, and for every cut of
  every plain signed body `ChunkEnd.TruncatedIsUnverified` says which, and when its payload is complete.
- Trailers are said to be sorted by name before they are signed (internal/sigv4/sigv4.go:602-605), but whole
  entries are sorted: `TrailerOrder.EntriesAreNotSortedByName`. A list is in the order of its names if and
  only if no name is a proper prefix of another that goes on below ':': `TrailerOrder.SortedByNameIff`.
- Each principal has a rate and a burst of its own (README.md:582-583), but an evicted entry starts again with a
  full burst: `LimiterCrowd.CrowdLiftsTheBound`. The bound holds if and only if no more principals are
  named than the limiter keeps: `LimiterCrowd.RateHoldsIff`; in general it is one burst more for every
  eviction: `LimiterKeys.KeyWindow`.
- A lookup is joined by the hash of the credentials (internal/server/server.go:229-252), and credentials with a NUL
  can share one. Then a caller gets the groups of other credentials: `GroupLookupTheorems.NulNamesMixUp`. It
  happens to a pair in some run if and only if another pair has its hash, `GroupLookupTheorems.MixUpIffShared`,
  which is a matter of where the pair holds a NUL, `GroupLookupTheorems.SharedIffNul`.
- A lifecycle date that leaves the years 0 to 9999 in UTC is accepted but its encoded form is not:
  `LifecycleRoundTrip.LateDateDoesNotReturn`, with the condition in `LifecycleRoundTrip.ConfigTrip`.
- A request for "//key" reaches an object handler with an empty bucket and is logged as unknown:
  `RoutingProofs.EmptyBucketIsUnnamed`. It happens if and only if the path begins with two slashes:
  `RoutingProofs.ClassifierAgrees`.
- The log is said to name the route a request reaches (internal/server/audit.go:222-223), but a request for
  "/api/pop/x" is answered by the pop handler and logged as GetObject on the bucket "api":
  `RoutingProofs.PopRouteIsMisnamed`. Exactly which requests: `RoutingProofs.PopRouteNames`.

## Model

| member | source | states |
|---|---|---|
| PopHandler.GroupIdsDoNotCollide | internal/server/pop.go:72-100 | two pairs of user and group give one Kafka group ID only if user (trimmed) and group are equal |
| PopHandler.GroupIdIff | internal/server/pop.go:72-100 | the Kafka group ID of a user and a group, and exactly which names have one |
| PopHandler.IfMatchIsOneStrongTag | internal/server/pop.go:355-373 | an accepted ETag becomes one quoted strong tag, never a wildcard, a weak tag or a list, and again itself |
| PopHandler.IfMatchIff | internal/server/pop.go:355-373 | a tag is accepted exactly if it is a strong tag of visible characters within 4096 bytes, bare or quoted |
| PopHandler.NilMeansDelivered | internal/server/pop.go:161-217 | a nil handler result means the whole stored object reached a client that may read the bucket, for one pinned revision |
| PopHandler.NilIff | internal/server/pop.go:161-217 | exactly when a record is acknowledged: topic, bucket in scope and readable, pinned revision, whole object written and flushed |
| PopHandler.ShortBodyIsNotAcknowledged | internal/server/pop.go:264-353 | a body that ends early without an error is never acknowledged |
| PopControl.ChooseVictim | internal/kafkapop/manager.go:327-343 | the scan of a full cache finds an unpinned consumer that no unpinned one was used before, or there is none |
| PopTheorems.StepKeeps | internal/kafkapop/manager.go:187-530 | every step of every actor keeps the joint invariant of manager, jobs and broker |
| PopTheorems.RunKeeps | internal/kafkapop/manager.go:187-530 | so does every run |
| PopTheorems.CommittedIsDelivered | internal/kafkapop/manager.go:187-305 | in every reachable state neither the committed offset nor any commit request ever sent passes a record whose handler has not returned nil with the full body written |
| PopTheorems.FreeGatePositions | internal/kafkapop/manager.go:296-305 | while a gate is free on an unforced manager, the local position is at or before the first unhandled record of each owned partition |
| PopTheorems.OneDeliveryPerPartition | internal/kafkapop/manager.go:187-294 | without a forced shutdown a partition is never in the hands of two calls, across clients and rebalances |
| PopTheorems.BlockedMeansWorking | internal/kafkapop/manager.go:187-294 | a client blocks rebalances only while a call works on it, whatever way the call ends |
| PopTheorems.SuccessIsCommitted | internal/kafkapop/manager.go:187-294 | in every reachable state every call that is leaving or has returned with success had a record that was delivered and whose commit was requested and acknowledged to this call |
| PopTheorems.OutcomeIsExplained | internal/kafkapop/manager.go:187-294 | in every run a returned call answered `out` if and only if `out` is the one answer explained by what its poll gave and its checks, handler and commit met; one line for each of the ten answers |
| PopOutcomes.OneExplanation | internal/kafkapop/manager.go:187-294 | no two answers have the same explanation |
| PopTheorems.SuccessIsForPolledRecord | internal/kafkapop/manager.go:187-294 | success is for the very record of the call's clean poll, which its handler accepted, delivered and behind a commit request |
| PopProgress.CleanPollSucceeds | internal/kafkapop/manager.go:187-294 | from every reachable unforced world where a call holds a cleanly polled record and was not interrupted, its own steps with an accepting handler and an acknowledged commit end in success, with that record delivered and committed |
| PopProgress.NextRecordIsPopped | internal/kafkapop/manager.go:187-294 | the same from before the poll, for the next record of any partition its client owns |
| PopProgress.OpenManagerAdmits | internal/kafkapop/manager.go:307-399 | a call whose consumer is cached and free, or fits, comes to its poll by its own steps |
| PopProgress.FullCacheAdmits | internal/kafkapop/manager.go:327-370 | with a full cache it closes the least recently used idle consumer and comes to its poll on a new one |
| PopProgress.LimitIff | internal/kafkapop/manager.go:327-343 | a call is refused for the limit exactly if the open manager has no consumer for it and its full cache holds only consumers that calls are pinned to |
| PopTheorems.OneCallPerConsumer | internal/kafkapop/manager.go:374-399 | at most one call holds a consumer's gate, none beside a closing worker, and users counts the pinned calls |
| PopTheorems.UsersArePinned | internal/kafkapop/manager.go:319-399 | users of every client ever created is the number of calls pinned to it |
| PopTheorems.CacheIsBounded | internal/kafkapop/manager.go:319-362 | the cache never exceeds maxConsumers |
| PopTheorems.PinnedStaysCached | internal/kafkapop/manager.go:401-444 | no eviction, expiry or stale timer callback removes a pinned consumer |
| PopProgress.IdleIsTimed | internal/kafkapop/manager.go:401-444 | in every run an unused cached consumer has a timer, armed or firing, that will close it |
| PopTheorems.ClosersAreCounted | internal/kafkapop/manager.go:401-458 | the wait group equals armed timers plus running callbacks plus evictions under way |
| PopTheorems.ClosersOnlyShrink | internal/kafkapop/manager.go:472-521 | after isClosed the wait group never grows |
| PopTheorems.ClosedExactlyOnce | internal/kafkapop/manager.go:472-530 | when a CloseContext call has returned, every client ever created is closed, by exactly one close |
| PopTheorems.NeverClosedTwice | internal/kafkapop/manager.go:449-458 | at no time has a client been closed twice |
| PopProgress.ShutdownCanFinish | internal/kafkapop/manager.go:472-530 | a leading CloseContext can always go on to its return once the shutdown is forced or no Consume call is in progress, and no eviction is, without a step of any Consume call |
| PopProgress.FollowersReturn | internal/kafkapop/manager.go:478-482 | and then so can every other CloseContext call |
| PopTheorems.NoUseAfterClose | internal/kafkapop/manager.go:187-305 | in unforced runs no poll, commit, rewind or AllowRebalance starts after the client's close began |
| ChunkText.HexRoundTrip | internal/sigv4/sigv4.go:1196-1209 | a size written in hexadecimal reads back |
| ChunkText.HeaderRoundTrip | internal/sigv4/sigv4.go:1196-1227 | a chunk header, with or without a signature, parses back to its size and signature |
| ChunkHeaders.SizesRead | internal/sigv4/sigv4.go:1204-1209 | exactly the texts that read as a size: a sign or none and hexadecimal digits, within 64 bits |
| ChunkHeaders.HeaderForms | internal/sigv4/sigv4.go:1196-1227 | a header reads with space around its size and any line ends behind it |
| ChunkHeaders.SignatureIsFound | internal/sigv4/sigv4.go:1211-1226 | the signature extension is found with its name in any case, space around name and value, and in quotes or not |
| ChunkHeaders.OtherIsSkipped | internal/sigv4/sigv4.go:1211-1226 | extensions of other names are passed over |
| ChunkHeaders.NormalizeAround | internal/sigv4/sigv4.go:571-580 | sixty-four hexadecimal digits in either case and with space around them count as their lower case |
| ChunkHeaders.NormalizedIsDigits | internal/sigv4/sigv4.go:571-580 | and nothing else is a signature |
| ChunkHeaders.TrailerForms | internal/sigv4/sigv4.go:1287-1303 | a trailer's name in any case, name and value without the space around them |
| ChunkText.ReadOwnLine | internal/sigv4/sigv4.go:1179-1194 | a line within the bound is read back with the rest of the stream untouched |
| ChunkSpec.ChecksumErr | internal/sigv4/sigv4.go:1323-1341 | no error if and only if every declared checksum is present and all its values match the payload |
| ChunkSpec.BeginChunk | internal/sigv4/sigv4.go:1097-1174 | a chunk that begins takes something off the stream, so decoding ends |
| ChunkSafety.OutputIsVerified | internal/sigv4/sigv4.go:582-600 | in signed modes all output, up to any error, is the data of chunks whose signatures form one chain from the given one |
| ChunkSafety.DoneIsVerified | internal/sigv4/sigv4.go:1245-1266 | done only where the stream holds a verified end: declared length met, checksums of the payload right, final and trailer signature continuing the chain |
| ChunkSigning.ChunkFields | internal/sigv4/sigv4.go:582-593 | a chunk signature is the HMAC of six lines in this order, with the signature before it and the hash of its data |
| ChunkSigning.ChunkBinds | internal/sigv4/sigv4.go:582-600 | one signature is for one chunk at one place of the chain |
| ChunkSigning.TrailerFields | internal/sigv4/sigv4.go:615-630 | a trailer signature is the HMAC of five lines, the last the hash of the sorted entries |
| ChunkSigning.TrailerBinds | internal/sigv4/sigv4.go:606-635 | one trailer signature is for one place of the chain and one collection of names and values |
| ChunkForgery.OutputIsIssued | internal/sigv4/sigv4.go:582-600 | if no signature was verified but those a client issued for its chunks from this request signature, the output is a prefix of its chunks, whatever was dropped, reordered, replayed or replaced, and a verified body is all of them |
| ChunkForgery.HeldIsUnforged | internal/sigv4/sigv4.go:1097-1174 | that is so if no other chunk signature can be read anywhere in the stream |
| ChunkForgery.TrailersAreIssued | internal/sigv4/sigv4.go:606-635 | the trailers of a verified body are then the client's, name by name and value by value |
| ChunkForgery.RequestIsNoChunk | internal/sigv4/sigv4.go:585-593 | the request's own signature is none of its chunks' |
| ChunkRoundTrip.RoundTrip | internal/sigv4/sigv4.go:1046-1174 | decoding the encoding of any list of chunks gives their concatenation and a verified end, in all three modes |
| ChunkEnd.UnverifiedEofIffCut | internal/sigv4/sigv4.go:1097-1163 | a clean end without a verified one if and only if the source ended cleanly inside the framing |
| ChunkEnd.TruncatedIsUnverified | internal/sigv4/sigv4.go:1229-1242 | a plain signed body cut anywhere is never verified; which error it gives, and that its payload is complete all the same exactly from the end of the last data chunk on |
| ChunkEnd.CleanEndIsNotVerified | internal/sigv4/sigv4.go:1343-1354 | a concrete signed body whose whole payload comes out with a clean end although it was not verified |
| TrailerOrder.SortSorts | internal/sigv4/sigv4.go:615-620 | the canonical entries are sorted and the same multiset |
| TrailerOrder.OrderOfTrailersIsFree | internal/sigv4/sigv4.go:602-635 | the trailer signature does not depend on the order in which the trailers arrive |
| TrailerOrder.EntryOrder | internal/sigv4/sigv4.go:615-620 | when one entry is sorted before another, by their names |
| TrailerOrder.SortedByNameIff | internal/sigv4/sigv4.go:602-620 | for distinct names without a colon the sorted entries are in name order if and only if no name is a proper prefix of another that goes on below ':' |
| TrailerOrder.EntriesAreNotSortedByName | internal/sigv4/sigv4.go:602-605 | two names whose entries are sorted the other way round |
| ByteSource.ByteStream.ReadFull | internal/sigv4/sigv4.go:1155-1160 | io.ReadFull over reads of any length: as much as there is, and its errors |
| ByteSource.ByteStream.ReadLineBounded | internal/sigv4/sigv4.go:1179-1194 | the byte loop reads what ReadLine takes off the stream, with its errors |
| ByteSource.ByteStream.ConsumeCrlf | internal/sigv4/sigv4.go:1229-1242 | refines EatCrlf |
| ByteSource.ByteStream.DiscardOptionalBlankLine | internal/sigv4/sigv4.go:1313-1321 | refines DropBlank |
| AwsChunked.VerifyTrailingChecksums | internal/sigv4/sigv4.go:1323-1341 | the nested loops give the error of ChecksumErr |
| AwsChunked.AwsChunkedReader.constructor | internal/sigv4/sigv4.go:1020-1028 | starts in the decoder's start state with an empty chain |
| AwsChunked.AwsChunkedReader.ReadTrailerSection | internal/sigv4/sigv4.go:1270-1311 | the line loop refines ReadSection, at the end of the stream too |
| AwsChunked.AwsChunkedReader.ConsumeTrailers | internal/sigv4/sigv4.go:1343-1354 | the line loop refines SkipTrailers |
| AwsChunked.AwsChunkedReader.VerifyTrailerSignature | internal/sigv4/sigv4.go:606-635 | accepts exactly the signature that continues the chain over the trailers, and only then extends the chain |
| AwsChunked.AwsChunkedReader.VerifyNormalizedChunk | internal/sigv4/sigv4.go:582-600 | the same for a chunk |
| AwsChunked.AwsChunkedReader.Finish | internal/sigv4/sigv4.go:1245-1266 | refines FinishBody and keeps the chain invariant |
| AwsChunked.AwsChunkedReader.BeginSigned | internal/sigv4/sigv4.go:1146-1173 | refines SignedChunk: the reused buffer's bytes count only once their signature verified |
| AwsChunked.AwsChunkedReader.BeginNext | internal/sigv4/sigv4.go:1097-1174 | refines BeginChunk, and keeps the chain invariant on every error path |
| AwsChunked.AwsChunkedReader.Fetch | internal/sigv4/sigv4.go:1046-1089 | the loop hands out the next bytes of what the stream decodes to, or reports how that ends |
| AwsChunked.AwsChunkedReader.Read | internal/sigv4/sigv4.go:1030-1044 | the same, and all bytes ever handed out plus those waiting are the data of the verified chain, also after errors; the first error that is not the end is kept |
| PayloadHash.HashReader.Read | internal/sigv4/sigv4.go:795-820 | hands the source through and ends cleanly only on the declared digest |
| TrailerGuard.Upstream.Read | internal/sigv4/sigv4.go:859-864 | what each reader behind a guard promises alike |
| TrailerGuard.TrailerGuardReader.constructor | internal/sigv4/sigv4.go:859-864 | nothing is held and nothing was handed out |
| TrailerGuard.TrailerGuardReader.TurnOne | internal/sigv4/sigv4.go:880-920 | the one-byte turn keeps the guard's invariant |
| TrailerGuard.TrailerGuardReader.TurnMany | internal/sigv4/sigv4.go:922-972 | the turn behind a held byte keeps it, for data alone, with an end or with an error |
| TrailerGuard.TrailerGuardReader.Read | internal/sigv4/sigv4.go:866-974 | hands out the next bytes; an error only once nothing is held |
| TrailerGuard.TrailerGuardReader.Progress | internal/sigv4/sigv4.go:850-858 | the output is a prefix of the stream, short of the last byte read until the end; all of it after a clean end; all but the last byte after another error |
| ValidatedBody.ReadAll | internal/sigv4/sigv4.go:866-974 | with buffers of any sizes the guard releases exactly what it may |
| ValidatedBody.ReadChunkedBody | internal/sigv4/sigv4.go:1361-1402 | the stack of readers gives the decoded stream, independent of buffer sizes and short reads, one byte short without a clean end |
| ValidatedBody.ReadEncodedBody | internal/sigv4/sigv4.go:1030-1174 | the encoding of any chunks comes through the whole stack unchanged |
| ValidatedBody.ReadHashedBody | internal/sigv4/sigv4.go:795-843 | a hashed body is complete if and only if its source ended cleanly and its digest matches |
| ValidatedBody.ReleasedWholeIsVerified | internal/sigv4/sigv4.go:850-858 | a body released whole was verified, except if the source ended inside the framing; signed bytes are verified in either case |
| ValidatedBody.ConfigFor | internal/sigv4/sigv4.go:1361-1388 | which requests are refused, and that exactly the unsigned mode goes without signatures |
| ValidatedBody.AcceptEmptyBody | internal/sigv4/sigv4.go:1389-1397 | a body declared empty is accepted if and only if its end was verified or its source ended inside the framing |
| LimiterLimits.LimitsAreKept | internal/authn/limiter.go:298-350 | every limit keeps its own configured value if positive and is one otherwise, the lifetime a minute; the reserve is cut below its totals, all three parts or none |
| LimiterLimits.ProperAreFixed | internal/authn/limiter.go:298-350 | exactly the limits that are all set, with a reserve that is a proper part or absent, are left alone |
| LimiterLimits.NormalizedTwice | internal/authn/limiter.go:298-350 | normalizing gives such limits, so twice is once |
| LimiterSpec.LastIdle | internal/authn/limiter.go:167-175 | the idle entry nearest the back, with no idle one behind it |
| LimiterRuns.StepKeeps | internal/authn/limiter.go:353-461 | every operation keeps the invariant: tallies, bounds, lists, buckets, trust and refunds |
| LimiterTheorems.GrantsAreConserved | internal/authn/limiter.go:378-415 | in every run outstanding grants = slots of both pools = sum over clients = sum over principals, within every maximum; map and list hold the same keys, at most the configured number |
| LimiterTheorems.ListsAreBounded | internal/authn/limiter.go:161-226 | ingress entries hold no slot, and they and the trusted credentials are listed once each, at most the configured number |
| LimiterTheorems.BusyIsNeverEvicted | internal/authn/limiter.go:161-188 | every outstanding grant still has its two busy entries |
| LimiterTheorems.ReserveIsForTrusted | internal/authn/limiter.go:419-461 | a reserved grant is for a credential marked earlier in the run, within its lifetime |
| LimiterTheorems.TrustedGetsReserve | internal/authn/limiter.go:391-398 | a listed credential within its lifetime gets the reserve when the shared pool has nothing to give |
| LimiterTheorems.MarkedIsListed | internal/authn/limiter.go:419-447 | in every run marking lists the credential for its lifetime |
| LimiterTheorems.IngressIsNotRefused | internal/authn/limiter.go:209-226 | a client with fewer unrefunded admissions than the configured burst is never refused, across evictions |
| LimiterTheorems.IngressTokensCoverDebt | internal/authn/limiter.go:353-373 | a client's tokens never fall below its burst less admissions not refunded |
| LimiterTheorems.OwedIsDifference | internal/authn/limiter.go:353-373 | where refunds never exceed admissions, the debt is their difference |
| LimiterTheorems.RestedAttemptIsGranted | internal/authn/limiter.go:378-403 | with nothing in flight an attempt whose client, principal and pool had the time to gain a token is granted, whatever was before |
| LimiterWindow.WindowBound | internal/authn/limiter.go:84-131 | in any stretch of length d, after any history, both pools together grant at most Burst + RatePerSecond * d, of the configured fields |
| LimiterWindow.ReserveBound | internal/authn/limiter.go:84-131 | and the reserve alone at most its own burst and rate |
| LimiterKeys.KeyWindow | internal/authn/limiter.go:84-207 | in any stretch of length d one client or principal gets at most its rate times d and one burst for each entry it has in that time, one more than its evictions |
| LimiterKeys.FewKeysStay | internal/authn/limiter.go:161-188 | a run that names at most maxKeys clients, or principals, evicts none of them |
| LimiterKeys.FewKeysBound | internal/authn/limiter.go:161-207 | so there each keeps to its configured burst and rate times d |
| LimiterCrowd.CrowdLiftsTheBound | internal/authn/limiter.go:161-188 | for every maxKeys a run at one instant that names one principal more and grants two requests of a principal whose burst is one |
| LimiterCrowd.RateHoldsIff | internal/authn/limiter.go:161-207 | every principal keeps to its own rate in all runs over a number of principals if and only if the limiter keeps that many |
| AuthLimiter.ResourcePool.Available | internal/authn/limiter.go:120-126 | refills in place and tells whether there is room and a token |
| AuthLimiter.KeyedLimiter.FindVictim | internal/authn/limiter.go:167-175 | the backward scan finds LastIdle |
| AuthLimiter.KeyedLimiter.Evict | internal/authn/limiter.go:167-182 | the eviction loop ends and does what MakeRoom says |
| AuthLimiter.KeyedLimiter.State | internal/authn/limiter.go:161-188 | refines Touch, and whether an entry was found or made |
| AuthLimiter.KeyedLimiter.Allow | internal/authn/limiter.go:209-217 | refines AllowKey |
| AuthLimiter.KeyedLimiter.Refund | internal/authn/limiter.go:219-226 | refines RefundKey |
| AuthLimiter.Authenticator.constructor | internal/authn/limiter.go:256-296 | the initial state of the runs |
| AuthLimiter.Authenticator.AllowIngress | internal/authn/limiter.go:353-361 | the ingress step of the runs |
| AuthLimiter.Authenticator.RefundIngress | internal/authn/limiter.go:366-373 | the refund step |
| AuthLimiter.Authenticator.IsTrusted | internal/authn/limiter.go:449-461 | trusted if marked and not expired; an expired credential is forgotten |
| AuthLimiter.Authenticator.MarkAuthenticated | internal/authn/limiter.go:419-447 | the mark step, with its eviction loop |
| AuthLimiter.Authenticator.PickPool | internal/authn/limiter.go:391-398 | the shared pool, or the reserve for a trusted credential |
| AuthLimiter.Authenticator.TryAcquireSlot | internal/authn/limiter.go:378-403 | the acquire step: grant and new state are those of the runs |
| AuthLimiter.Authenticator.ReleaseSlot | internal/authn/limiter.go:405-414 | gives back once, a second call changes nothing |
| CredentialKeys.HashesCollideIff | internal/groupcache/cache.go:65-67 | two credential pairs share a hash if and only if they are equal or one's user name holds a NUL where the other's password begins |
| CredentialKeys.PlainNamesDoNotCollide | internal/groupcache/cache.go:65-67 | user names without NUL never collide |
| CredentialKeys.DigestInputInjective | internal/authn/limiter.go:71-82 | length-prefixed parts never collide, whatever they hold |
| CredentialKeys.AttemptsShareKeysIff | internal/authn/limiter.go:59-69 | attempts share limiter keys exactly when address and name agree up to space and case, and for the credential also the password |
| GroupCache.Cache.Get | internal/groupcache/cache.go:91-111 | a hit if and only if an unexpired entry was stored for this user name and password |
| GroupCache.Cache.Rejected | internal/groupcache/cache.go:115-130 | rejected if and only if an unexpired rejection has this hash |
| GroupCache.Cache.EvictExpired | internal/groupcache/cache.go:175-181 | the loop removes exactly the expired entries |
| GroupCache.Cache.Oldest | internal/groupcache/cache.go:183-203 | no entry expires before the chosen one, nor with it and was seen earlier |
| GroupCache.Cache.MakeRoom | internal/groupcache/cache.go:216-220 | the loop ends with room for one, and only the earliest entries went, no more than had to |
| GroupCache.Cache.OldestRejection | internal/groupcache/cache.go:140-154 | no rejection expires before the chosen one |
| GroupCache.Cache.Set | internal/groupcache/cache.go:205-230 | the new entry is in, no more went than had to, the others that stay expire last, a replacement pushes nothing out, and the rejection is gone |
| GroupCache.SetThenGet | internal/groupcache/cache.go:91-111 | after Set the name hits with exactly that password, exactly until it expires, and gives those groups |
| GroupCache.EvictsInOrder | internal/groupcache/cache.go:183-220 | what Set evicts expires before what stays, or with it and was longer unseen; nothing expired stays |
| GroupCache.RejectionsGoInOrder | internal/groupcache/cache.go:140-173 | the same for rejections |
| GroupCache.Cache.Reject | internal/groupcache/cache.go:156-173 | the same for rejections |
| GroupLookupProofs.StepKeeps | internal/server/server.go:194-280 | every step of every caller and lookup keeps the invariant |
| GroupLookupTheorems.OneFetchPerCredential | internal/server/server.go:229-252 | in every run at most one backend fetch per credential pair is in flight |
| GroupLookupTheorems.ResultsAreGenuine | internal/server/server.go:194-280 | a caller's groups, or rejection, are the backend's answer for exactly its pair or an unexpired record of it, unless another pair that arrives in the run shares its hash |
| GroupLookupTheorems.PlainNamesAreGenuine | internal/server/server.go:194-280 | so it is for every caller of a run whose arriving user names hold no NUL |
| GroupLookupTheorems.MixUpIffShared | internal/server/server.go:229-252 | some run gives a caller of a pair a result of other credentials if and only if another pair that a caller can bring has its hash |
| GroupLookupTheorems.SharedIffNul | internal/groupcache/cache.go:69-74 | another pair has its hash if and only if its user name holds a NUL behind the first character or its password one before the last |
| GroupLookupTheorems.NulNamesMixUp | internal/server/server.go:229-252 | a run in which one caller gets the groups fetched for another pair |
| GroupLookupTheorems.NoCallerIsStranded | internal/server/server.go:213-226 | every waiting caller's lookup is in the table under its key, or finished |
| GroupLookupProgress.WaitingIsServed | internal/server/server.go:194-280 | from every reachable state every waiting caller can be served: for any answer of the backend the lookup's own steps lead to its result, cached groups and rejections going before |
| GroupLookupAnswers.WakesWithAnswer | internal/server/server.go:213-280 | a caller wakes with a rejection exactly if its lookup was denied, with the backend's groups exactly if they were granted, with a failure exactly for a refusal or a backend that did not answer |
| GroupLookupAnswers.ResultsAreExplained | internal/server/server.go:194-280 | every result of a run has its reason in it: failures only for empty credentials, a refused attempt or an unavailable backend |
| GroupLookupMemory.DenialIsRemembered | internal/server/server.go:270-276 | from a denial to its expiry, unless groups are set or the record is evicted, no lookup of the hash reaches the backend and whoever looks is rejected |
| GroupLookupMemory.GroupsAreRemembered | internal/server/server.go:277-279 | the same for granted groups and the cache hit |
| GroupLookupTheorems.CacheStaysBounded | internal/groupcache/cache.go:91-230 | both cache maps stay within the configured bound in every run |
| SplunkBuffer.BatchEventCount | internal/splunkhec/handler.go:363-373 | the loop gives the longest batch within 1 MiB, and never an empty one |
| SplunkBuffer.HandlerCore.Enqueue | internal/splunkhec/handler.go:289-301 | an event is appended or counted as dropped, by the exact byte count |
| SplunkBuffer.HandlerCore.TakePending | internal/splunkhec/handler.go:330-339 | hands over all events and the drop count |
| SplunkBuffer.HandlerCore.RestorePending | internal/splunkhec/handler.go:341-361 | unsent events come first, newer ones that fit follow in order, the others are counted |
| SplunkBuffer.HandlerCore.Flush | internal/splunkhec/handler.go:303-328 | what was sent followed by what is pending is what was pending |
| SplunkRuns.StepKeeps | internal/splunkhec/handler.go:289-361 | every step of an interleaving keeps the invariant |
| SplunkRuns.EventsAreConserved | internal/splunkhec/handler.go:289-361 | every event is acknowledged, in flight, pending or dropped, once; the first three in the order of the offers; drops counted once; bytes exact and at most 64 MiB |
| SplunkRuns.NoEventIsForgotten | internal/splunkhec/handler.go:289-361 | each offered place is found in the line or among the dropped |
| SplunkRuns.PayloadsAreKept | internal/splunkhec/handler.go:289-361 | every event, wherever it is, holds what was offered at its place |
| SplunkRuns.OnlyOverflowDrops | internal/splunkhec/handler.go:289-361 | an offer is dropped exactly if the buffer has no room, and a failed send drops only what would not fit beside what is kept |
| SplunkRuns.BatchesAreBounded | internal/splunkhec/handler.go:319-327 | every batch sent is non-empty and within 1 MiB or a single event, and cannot be longer |
| RoutingProofs.ClassifierAgrees | internal/server/audit.go:221-486 | whenever an S3 handler is reached the classifier names its operation, bucket and key, if and only if the path does not begin with two slashes |
| RoutingProofs.EmptyBucketIsUnnamed | internal/server/audit.go:257-259 | "//key" reaches GetObject but is not named, for every key |
| RoutingProofs.NamedIsServed | internal/server/server.go:664-989 | outside the health and pop routes, what the classifier names is served, unless one of four checks of the dispatcher alone refuses it |
| RoutingProofs.PopRouteNames | internal/server/audit.go:221-236 | on the pop route the classifier says PopObject exactly where the handler accepts path and method, and exactly when it names an S3 operation that is not reached |
| RoutingProofs.PopRouteIsMisnamed | internal/server/server.go:700-703 | a pop path without a group is logged as GetObject on "api" |
| RoutingProofs.ServedNamesAreKnown | internal/server/server.go:571-593 | no served request has an unknown parameter, also with an empty name |
| RoutingProofs.MutationsArePlain | internal/server/server.go:624-637 | a plain mutation is reached only with x-id, and versionId for DeleteObject |
| RoutingProofs.StreamingReachesUploads | internal/server/server.go:639-658 | a streaming payload reaches only PutObject or UploadPart, on a real bucket and key |
| RoutingTable.ServeTable | internal/server/server.go:664-989 | a request is served by an operation on a bucket and key if and only if it is accepted and the table says so: for every operation its method, path shape, selecting parameter and header text |
| RoutingTable.OtherRoutes | internal/server/server.go:664-721 | exactly which requests are health checks, pop requests and refusals |
| RoutingTable.CopySourceDecides | internal/server/server.go:941-980 | PutObject and UploadPart only with a blank copy source, CopyObject and UploadPartCopy only with another |
| RoutingTable.PartNumbers | internal/server/server.go:938-944 | a part number is exactly a decimal numeral of 1 to 2147483647, with or without a plus and leading zeros |
| RoutingTable.PopScopeIsLogged | internal/server/audit.go:228-236 | a pop request is logged on its scope, or on no bucket for all of them |
| Watchdog.StepKeeps | internal/server/transfer_limits.go:60-124 | every event keeps one watcher for a live transfer, armed no later than its deadline |
| Watchdog.CallbackDecides | internal/server/transfer_limits.go:81-97 | in every run a callback expires a live transfer if and only if a full idle interval passed since its last progress, and otherwise arms the timer for exactly that time |
| Watchdog.NoEarlyExpiry | internal/server/transfer_limits.go:60-97 | a live transfer has one timer or callback, and none expires before its deadline |
| Watchdog.ExpiryIsFinal | internal/server/transfer_limits.go:73-124 | after expiry no progress, setter, timer or finish changes the limits |
| Watchdog.DrainIsBounded | internal/server/transfer_limits.go:99-124 | in every run, after finish the connection's limits are exactly the time of the expiry, or an idle interval from then or the handler's own deadline if that is earlier, or a kept timeout |
| Watchdog.SettersDecide | internal/server/transfer_limits.go:186-204 | until a transfer expires its deadlines are the last ones the handler set, and until it finishes the connection has exactly these |
| Watchdog.FinishIsFinal | internal/server/transfer_limits.go:81-112 | a finished transfer never expires |
| Watchdog.TransferActivity.constructor | internal/server/transfer_limits.go:28-34 | the first state of the runs |
| Watchdog.TransferActivity.OnProgress | internal/server/transfer_limits.go:73-79 | the progress event of the runs |
| Watchdog.TransferActivity.OnTimer | internal/server/transfer_limits.go:81-97 | the callback event |
| Watchdog.TransferActivity.OnFinish | internal/server/transfer_limits.go:99-117 | the finish event |
| Watchdog.TransferActivity.SetReadDeadline | internal/server/transfer_limits.go:186-194 | the setter event, refused once expired |
| Watchdog.TransferActivity.SetWriteDeadline | internal/server/transfer_limits.go:196-204 | the same for writes |
| Watchdog.WriteSliced | internal/server/transfer_limits.go:144-167 | exactly a prefix arrives, all of it without an error, in slices of at most 32 KiB, with progress at the last slice of which anything arrived |
| BrowserUpload.ReadPart | internal/adminpage/adminpage.go:1496-1509 | never reads more than one byte beyond the room left, and exactly when each of the five outcomes is given |
| BrowserUpload.SendParts | internal/adminpage/adminpage.go:1757-1807 | parts 1..k with k at most 10000, all full but the last, whose contents are what was read; success exactly if the whole stream came, fits and was accepted |
| BrowserUpload.Transfer | internal/adminpage/adminpage.go:1757-1858 | finalizes only the whole stream, of the declared size, after the closing boundary, and succeeds exactly then if no call fails |
| BrowserUpload.UploadFile | internal/adminpage/adminpage.go:1701-1872 | an upload with an ID is completed or gets one abort, never both; an oversized declaration creates none |
| BrowserUpload.PartCount | internal/adminpage/adminpage.go:1757-1807 | the number of parts follows from the size |
| LifecycleDates.FormatReadsBack | internal/server/handlers_lifecycle.go:160-166 | a printed date of a four-digit year names the instant cut to milliseconds |
| LifecycleDates.DateIsTrimmed | internal/server/handlers_lifecycle.go:140-147 | space around a date does not count, and only space is no date |
| LifecycleDates.DateRoundTrip | internal/server/handlers_lifecycle.go:140-166 | printing and parsing succeeds if and only if the year prints with four digits |
| LifecycleDates.StrictIsLawful | internal/server/handlers_lifecycle.go:140-158 | the demands on the parser can be met |
| Lifecycle.DecodeEach | internal/server/handlers_lifecycle.go:252-263 | the decoding loops give all elements decoded, or fail with the first that does not |
| Lifecycle.EncodeEach | internal/server/handlers_lifecycle.go:686-700 | the encoding loops map every element in order |
| Lifecycle.DecodeConfig | internal/server/handlers_lifecycle.go:576-674 | the rule loop gives Decode, with the limits of 1 to 1000 rules |
| Lifecycle.EncodeConfig | internal/server/handlers_lifecycle.go:676-711 | the rule loop gives Encode |
| LifecycleRoundTrip.FilterSame | internal/server/handlers_lifecycle.go:181-370 | a filter that decodes, with its And and tags, decodes to itself |
| LifecycleRoundTrip.RuleTrip | internal/server/handlers_lifecycle.go:181-717 | a decoded rule encodes and decodes again to itself with dates cut, if and only if its dates are in range |
| LifecycleRoundTrip.ConfigTrip | internal/server/handlers_lifecycle.go:576-717 | the same for every configuration that decode accepts; otherwise its encoded form is rejected |
| LifecycleRoundTrip.LegacyPrefix | internal/server/handlers_lifecycle.go:599-616 | a legacy Prefix decodes, and a legacy prefix from upstream encodes, as a Filter with that prefix |
| LifecycleReading.RuleReads | internal/server/handlers_lifecycle.go:181-574 | a rule decodes to exactly what stands in it, part by part, and exactly if every part is good |
| LifecycleReading.ConfigReads | internal/server/handlers_lifecycle.go:576-674 | a configuration is read rule by rule, 1 to 1000 of them |
| LifecycleRoundTrip.LateDateDoesNotReturn | internal/server/handlers_lifecycle.go:140-166 | a date at the end of 9999 west of UTC is accepted but its encoded form is not |

## Left out

- The Kafka manager, the lookups and the log buffer's interleavings are state machines on values: one step is one critical section, channel operation or foreign call. The memory model and the scheduler are not modelled.
- PopTheorems.ClosedExactlyOnce: a client's close call and the release of its wait-group share are one step, and CloseContext stops all idle timers in one step.
- Panics raised inside a pop record handler, and the topic and permission checks before Consume is called.
- PopTheorems.NoUseAfterClose: says nothing about forced shutdowns, where the code closes clients under running calls.
- ByteSource.ByteStream.ReadFull: a source may answer with empty reads only finitely often, since the code would otherwise loop forever.
- ChunkSpec.BeginChunk: its own contract states progress; what a chunk that begins is worth is stated by ChunkSafety.OutputIsVerified and ChunkRoundTrip.RoundTrip.
- Text operations follow Go on ASCII: other letters are left alone by ToLower and ToUpper, and white space beyond ASCII is not trimmed.
- Progress is stated as a run that exists, for the pop manager and the lookups; that the scheduler takes it is not modelled.
- Watchdog.DrainIsBounded: speaks of handlers that set no deadline after they have finished.
- Parsing of SigV4 headers, canonical requests, request time checks, and the choice of checksum algorithms from x-amz-trailer.
- GroupLookupTheorems.ResultsAreGenuine: the limiter's answer to a lookup is arbitrary, and the ingress refunds of callers are not tied to the limiter's runs.
- Floating-point rounding of token counts and clocks that jump: tokens and times are reals, and the rate bound is for times that do not go back.
- The wording of errors and, in the lifecycle codec and the query checks, which of several errors is reported first.
- Routing: query names are a datatype of the supported names and all others, and url.ParseQuery is a flag; authentication and the handlers behind the routes are not modelled.
- Splunk: closing the handler, encoding of events and the HTTP request that sends a batch.
- Watchdog: the limit on concurrent requests, and how net/http reacts to the deadlines.
- BrowserUpload: form fields before the file, metadata policy, notifications and redirects.
- Lifecycle: XML itself, and 32-bit bounds of the day counts, which the XML decoder enforces.
- LifecycleDates.DateRoundTrip: which texts the time package accepts beyond the printed layout is a parameter.
- S3 handlers, LDAP, ACME, TLS, configuration, sessions, credentials' token format and the web interface are outside the model.
