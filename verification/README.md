# Cachegate, modelled and proved in Dafny

Cachegate is a read-through, write-through cache in front of S3 and Azure object stores.
This project models three of its parts and proves what they guarantee.

**1. Single flight, caching and uploads** (`src/inflight.rs`, `src/handler.rs`, `src/metrics.rs`).
`Service.dfy` is a labelled transition system over any number of concurrent requests and keys. A
task runs from one await or lock to the next in one step; between two of its steps any other task
may run, any request may be cancelled, the cache may lose any entry, and other writers may change
the store. All nondeterminism is in the action of a step, so `Act` (what a step does, on the view of
one task) and `Apply` (writing it back) are plain functions. Every theorem is about every run
(`ValidRun`) of that system.

| phase of a task | step function | source |
|---|---|---|
| `Lookup` | `ActLookup` | `src/handler.rs:138-150`, `src/handler.rs:242-256` |
| `Acquiring` | `ActAcquire` | `src/inflight.rs:36-53`, `src/handler.rs:154-166`, `src/handler.rs:770-807` |
| `Fetching`, `Getting`, `Reading`, `Inserting` | `ActFetch`, `ActGet`, `ActRead`, `ActInsert` | `src/handler.rs:498-585` |
| `Completing`, `Releasing` | `ActWrite`, `ActRelease` | `src/inflight.rs:66-75`, `src/inflight.rs:55-63` |
| `Registering`, `Waiting` | `ActRegister`, `ActWake` | `src/inflight.rs:91-96`, `src/handler.rs:169-190` |
| `Relooking` | `ActRelook` | `src/handler.rs:171-177` |
| `Heading` | `ActHead` | `src/handler.rs:264-307` |
| `PutStarting`, `PutOpening` | `ActPutStart`, `ActPutOpen` | `src/handler.rs:354-395` |
| `Streaming`, `Aborting` | `ActStream`, `ActAbort` | `src/handler.rs:397-429` |
| `Finishing`, `Storing` | `ActFinish`, `ActStore` | `src/handler.rs:431-477` |
| any, cancelled; then the spawned release | `ActCancel`, `ReleaseEffect` | `src/inflight.rs:77-89` |

`Flights` states the invariant of the in-flight map, `SingleFlight` what it gives, `Provenance`
where bodies come from, `Ledger` and `Bounds` the counters and the number of store gets, `Drain`
progress, `Independence` the separation of keys, `Requests` what becomes of the body of a PUT,
`Answers` what requests are answered with and why, `Coherence` the cache under overwrites, and
`Witnesses` the runs in which something goes wrong. Keys are
mapped to stored objects by a function `loc` that is not assumed injective.

`Inflight.dfy` models `Inflight`, its entries and its guards as classes with their fields, and
`Uploads.dfy` the buffering loop of PUT as a loop. They share the slot functions (`Slots.dfy`) and
the feeding of one chunk (`Uploads.Feed`) with the transition system.

**2. The Azure connection-string parser** (`src/store/azure.rs`): the mutating loop of the source
(`ConnectionString.ReadValues`, `ConnectionString.ParseConnectionString`), a specification by the last
matching segment, and a printer of every layout the parser accepts (`ConnectionPrinter`). The round
trips spell the field names out and compare them character by character up to ASCII case.

**3. Presigned tokens** (`src/auth.rs`): unpadded base64url (section 5 of RFC 4648, padding omitted
as in section 3.2) down to the bits, and the check of a token. JSON, Ed25519 and the Unicode case
table are parameters about which `Token.Lawful` says what is used.

Where the properties one might hope for are false, the exact condition is proved instead:

- Not every follower is woken. One that registers after its entry was released waits until it is
  cancelled (`SingleFlight.LateFollowersAreNeverWoken`), and that does happen, after a leader that fails
  and after one that succeeds (`Witnesses.FollowerIsStrandedByError`,
  `Witnesses.FollowerIsStrandedBySuccess`). Those that registered in time are woken by the release, and
  when no task can move nobody else is left (`Drain.AtRestIsDrained`).
- The cache does not always follow the store. A run keeps every cached body, and every body on its way
  to the cache, current if and only if each of its steps is clean: a write to an object meets no other
  body of it under way or cached, unless about to be replaced, and no upload is stopped between its
  commit and its insert while an old body is cached (`Coherence.StepCoherent`, `Coherence.RunCoherent`).
  Requests on other objects, and any number of reads of the same one, may run at the same time. A fetch
  that overtakes an upload, and an upload that overtakes another, break it although everything succeeds
  (`Witnesses.FetchOvertakesPut`, `Witnesses.PutOvertakesPut`).
- A successful upload does not always refresh the cache even if nobody disturbs it. If from its arrival
  on nobody else changes its object or its key's cached entry, and it is neither cancelled nor answered
  with an error, it leaves a stale body exactly when the key was cached with other bytes and the body
  exceeds the cap, or the cap is zero, or a chunk came to a full buffer
  (`Coherence.WhenPutLeavesStaleCache`, reached by `Witnesses.OversizedPutLeavesStaleCache`).
- Upload and fetch do not always cache the same bodies. They do when no chunk arrives at a full buffer
  (`Uploads.FeedAllMeaning`), so for non-empty chunks (`Uploads.ChunkingIndependent`); an empty chunk
  after a body of exactly the cap drops it (`Uploads.EmptyChunkDropsFullBody`).

`README.md:201` of the repository says a TTL is enforced on read; no code does that, and the model
follows the code.

## Model

| member | source | states |
|---|---|---|
| Flights.StepKeeps | src/inflight.rs:36-96 | every step of every task, arrival, eviction and external write keeps the in-flight invariant: one leader per entry, the entry mapped exactly as long as its release is owed, its result exactly what that leader wrote, its lists exactly its registered waiters |
| SingleFlight.RunKeeps | src/inflight.rs:36-96 | the invariant holds in every state of every run |
| SingleFlight.LeadersAndMapAgree | src/inflight.rs:36-89 | the map is in bijection with the live guards and pending spawned releases: at most one leader per key, no mapped key without one, nothing left in the map when no obligation is |
| SingleFlight.ReleasedExactlyOnce | src/inflight.rs:55-63 | whenever a release runs the pointer comparison succeeds, the entry was unreleased and its key leaves the map; no entry is released twice, and an entry is unreleased exactly while its leader owes the release |
| SingleFlight.FlightsOfAKeyAreDisjoint | src/inflight.rs:36-63 | the acquire-to-release intervals of one key's entries never overlap |
| SingleFlight.ReleaseWakesTheRegistered | src/inflight.rs:57-61 | a release wakes exactly the followers that had created their `notified()` by then, none of which was woken before, and touches no other entry |
| SingleFlight.WaitersAreLiveWokenOrLate | src/inflight.rs:91-96 | a registered follower that has not been woken and registered in time has its entry in the map with a live release obligation; it is woken exactly if it registered before a release that has run |
| SingleFlight.ReleasedForGood | src/inflight.rs:55-75 | a released entry keeps key, leader and result and stays released for the rest of the run |
| SingleFlight.LateFollowersAreNeverWoken | src/inflight.rs:91-96 | a follower that registers after the release is not woken in any continuation of the run |
| SingleFlight.FollowersAgree | src/inflight.rs:66-96 | the result is written at most once; any two followers of one entry, whenever woken, are told the same: the leader's exact result, or None if it was cancelled before writing; a cancellation between the write and the release still hands the result over |
| Provenance.RunHeld | src/handler.rs:397-463 | in every reachable state every body in the cache, in an entry, in a task or in the store is one the location has held, and every upload in progress keeps a sound prefix |
| Provenance.HeldWasStored | src/handler.rs:431-455 | what is recorded as held was the store's content at some state of the run, or before it |
| Provenance.EveryBodyWasStored | src/handler.rs:404-463 | under overwrites, races, failed commits, cancellations and evictions every cached body and every served body is a value the store held at that key's location, whole; no cached body exceeds the cap |
| Provenance.ServiceRefinesDirectRead | README.md:11 | over write-once objects every body served, by whichever path, is what a direct read of the store gives, then and later |
| Ledger.RunBalances | src/metrics.rs:119-147 | in every reachable state each counter of each method equals the number of tasks that should have been counted by it |
| Ledger.GetLedger | src/handler.rs:137-210 | GET hits plus misses are the lookups of valid paths; with the bad paths they are the counted requests plus those live or cancelled after their lookup |
| Ledger.RequestLedger | src/handler.rs:241-324 | for each method the request total falls short of the answered calls exactly by the early returns, of which GET has none |
| Ledger.GetsAreIssued | src/handler.rs:512-513 | the store gets made are the tasks that are reading, have read or were cancelled while reading |
| Ledger.UpstreamLedger | src/handler.rs:513-554 | successes plus errors of GET are the completed store gets of GETs, those of HEAD the completed gets of prefetches and the store heads, those of PUT the answered uploads; the store gets made are the completed ones and those pending or cancelled while pending |
| Bounds.RunCovers | src/handler.rs:142-190 | between any two states of a run, gets are covered by permits and by followers woken with None, and gets and permits by missed lookups, counting what tasks may still spend |
| Bounds.GetsAreBounded | src/handler.rs:155-190 | over every run the store gets of a key are at most its permits plus its followers woken with None; gets and permits are each at most its missed lookups |
| Bounds.CachedKeysAreNotFetchedAgain | src/handler.rs:142-159 | without eviction or spurious miss the gets and permits of a key after it was inserted are at most one for each task then already past a missed lookup, and its gets over the whole run at most the lookups that missed before |
| Bounds.OnlyEarlierMissesFetch | src/handler.rs:246-297 | under the same conditions every step that fetches or leads such a key is by a task that was already past a missed lookup when the key was inserted, or by the prefetch that such a HEAD spawned |
| Bounds.FollowersNeverFetch | src/handler.rs:166-192 | without cancellation no follower ever fetches, no follower is woken with None, and gets are at most permits |
| Drain.StepDrains | src/handler.rs:154-192 | every step of a task, cancellations and spawned releases included, lowers the measure of remaining phases, owed releases and unread chunks; evictions and external writes leave it |
| Drain.RunsDrain | src/handler.rs:154-192 | once no request arrives the tasks take at most as many further steps as the measure says, however they interleave |
| Drain.CanMove | src/inflight.rs:55-96 | every unfinished task that is not waiting unwoken can take a step other than giving up |
| Drain.AtRestIsDrained | src/inflight.rs:55-96 | no task can move exactly when every task is over or registered after its entry was released; then the in-flight map is empty |
| Independence.Projection | src/cache/mod.rs:40-53 | restricting a run to one key, with other keys' uploads kept as external writes, gives a run of that key alone with the same cache slot, entries, tasks and outcomes |
| Independence.StepsCommute | src/inflight.rs:36-63 | in every reachable state two enabled steps on different keys naming different objects stay enabled after each other and reach the same state in either order |
| Coherence.StepCoherent | src/handler.rs:404-475 | from a state in which every cached body and every body under way is the store's, except where an upload of the key is about to insert, a step leads to such a state if and only if it is clean; for the way to the cache and for the way to the followers |
| Coherence.RunCoherent | src/handler.rs:359-475 | a run, however its requests interleave, is coherent in all its states if and only if it starts with current cached bodies and each of its steps is clean |
| Coherence.CacheMatchesStore | src/handler.rs:455-463 | along a run of clean steps every cached body is the store's current value, except while an upload of its key stands between its commit and its insert |
| Coherence.ExclusionSuffices | src/handler.rs:431-463 | a run is clean, and every cached body current outside the uploads' own windows, if nobody writes to an object while another task is between its get or commit and its insert, a written object is cached at most under the key being replaced, and no upload is stopped in between while its key is cached |
| Coherence.ReadsAreCurrent | src/handler.rs:142-192 | along a run that is clean also for bodies on their way to followers, every body a request is answered with, by hit, as leader, as follower or by fallback, is one its object held between the request's arrival and its answer, except a hit while an upload of the key is about to insert |
| Coherence.PutIsStored | src/handler.rs:431-453 | along a clean run an upload's object holds exactly what the upload received from its commit until after its answer |
| Coherence.ReadYourWrite | src/handler.rs:457-463 | along a clean run a request that arrives after an upload's answer and is answered before the object is written again reads what the upload received, unless another upload of the key is still to insert |
| Coherence.ReadYourBody | src/handler.rs:397-463 | the same in terms of the request body: the answer is the concatenation of the upload's chunks |
| Coherence.UploadLeavesBehind | src/handler.rs:354-475 | an undisturbed upload leaves the cached entry alone until it ends; acknowledged, it leaves its whole body stored, and cached exactly if it was kept, else what was cached before |
| Coherence.WhenPutLeavesStaleCache | src/handler.rs:400-475 | an acknowledged upload that nobody disturbed since its arrival leaves a stale cached body if and only if its key was cached with other bytes and its body is not admitted by the cap or had a chunk at a full buffer |
| Witnesses.FetchOvertakesPut | src/handler.rs:513-571 | from every start in which the store holds one of two admitted bodies a GET and an upload of the other both succeed and leave the old one cached, without cancellation, error, eviction or other writer |
| Witnesses.PutOvertakesPut | src/handler.rs:431-463 | from every start two uploads of different admitted bodies both succeed and leave the first cached and the second stored |
| Witnesses.OversizedPutLeavesStaleCache | src/handler.rs:464-475 | from every start with a cached key, one successful upload above the cap to that key leaves the old body cached |
| Witnesses.FollowerIsStrandedByError | src/handler.rs:154-179 | from every start, for a key with an unknown bucket, a leader is answered with its error and its follower waits for good, at rest |
| Witnesses.FollowerIsStrandedBySuccess | src/handler.rs:154-179 | the same after a leader that succeeds, from every start in which the store holds the object |
| Answers.StepsAreExact | src/handler.rs:113-585 | in every reachable state what a task can do next, and its status afterwards, are given in terms of its path written out, its bucket, the cache, the store, the map and its entry: nothing else is possible and all of that is |
| Answers.WritesAreExact | src/handler.rs:457-463 | a task's step changes the cache only by the insert of a fetched body, with the MIME type of path and bytes, or of an uploaded one, with the type of its request, and the store only by the commit of what was sent; a store get is counted exactly when one is made |
| Answers.RecordsAreExact | src/handler.rs:152-184 | what the bounds count is counted exactly: lookups that missed, permits granted for a free slot, followers woken without a result |
| Answers.FetchCallsTheStore | src/handler.rs:505-513 | a fetch from a configured bucket, by a leader or by a follower woken without a result, can only be given up or call the store |
| Answers.AnswersAreExplained | src/handler.rs:136-213 | over every run each answer goes back to its cause: rejections to the path, hits and second hits to the very entry the cache gave, fetch results to a get that returned that body, with its MIME type, or to the unknown bucket, or to a store call of that task that failed, as not found or as a bad gateway; so do the results of HEADs and PUTs |
| Answers.RejectedExactlyBadPaths | src/handler.rs:138-140 | a GET, HEAD or PUT is rejected only if its path is empty, starts with a slash or contains two dots in a row, and with such a path it never gets past its first phase |
| Answers.UnknownBucketIsNeverWritten | src/handler.rs:359-362 | an upload to a bucket that is not configured never opens one, never commits and is never acknowledged |
| Answers.HeadAnswersTheSize | src/handler.rs:264-306 | a HEAD answered from the store had a good path and a configured bucket, and its size is that of the object the store held in the answering step, which also spawned the prefetch if one was asked for |
| Answers.HeadSizeIsDirectRead | README.md:11 | over write-once objects that size is the length of a direct read, then and later |
| Answers.SharedIsExplained | src/handler.rs:169-179 | what a follower is answered with from its leader is explained by the leader's own fetch |
| Answers.GetIsServed | src/handler.rs:142-192 | a GET with a good path and a configured bucket is answered with a body unless a store call failed, its own or its leader's |
| Answers.GetIsADirectRead | README.md:11 | over write-once objects such a GET is answered exactly as a direct read would be, then and later, unless a store call made for it failed |
| Uploads.FeedAllMeaning | src/handler.rs:397-429 | for every chunking and cap: upstream gets the concatenation, the copy is a prefix within the cap, the total saturates, and the copy survives if and only if the cap is positive, the body fits and no chunk came to a full buffer |
| Uploads.ChunkingIndependent | src/handler.rs:400-426 | for non-empty chunks a body is kept, whole, exactly when the fetch path would cache it, however it was split |
| Uploads.EmptyChunkDropsFullBody | src/handler.rs:417-419 | every non-empty body of exactly the cap, however split, is dropped when an empty chunk follows, although it is the same body, the fetch path admits it and it is kept without that chunk |
| Uploads.ReceiveBody | src/handler.rs:397-429 | the loop succeeds if and only if no read fails; upstream was given exactly the chunks before the first failure; buffer, flag and total are those of the fold, the buffer a prefix within the cap, complete unless given up |
| Requests.RunCarries | src/handler.rs:354-475 | in every state after its arrival an upload stands at some point of its own body: what is unread is the rest of it, what was read has been fed to the upload in order |
| Requests.PutSendsTheWholeBody | src/handler.rs:397-463 | whenever an upload is finished the store has been given the whole request body and nothing else, what goes to the cache is the whole body within the cap, the answered size is its length saturated; a body whose reading fails is never committed, cached or acknowledged |
| Requests.PutCachesWhatFetchWould | src/handler.rs:455-475 | once acknowledged, an upload inserts into the cache if and only if the fetch path would have cached that body and no chunk came to a full buffer; for non-empty chunks, if and only if the fetch path would |
| InflightObjects.InflightGuard.WriteResult | src/inflight.rs:68-71 | stores the result and changes neither list |
| InflightObjects.InflightGuard.Complete | src/inflight.rs:66-75 | the result is stored, exactly this key leaves the map whatever else is in flight, every registered waiter is woken, no obligation remains |
| InflightObjects.InflightGuard.Drop | src/inflight.rs:77-89 | a released guard does nothing; an unreleased one turns its obligation into a spawned release and leaves the map as it is |
| InflightObjects.Inflight.Acquire | src/inflight.rs:36-53 | follower of the current entry exactly when the key is mapped; otherwise leader of a fresh, empty entry under that key; the bijection of map and obligations is kept |
| InflightObjects.Inflight.Release | src/inflight.rs:55-63 | removes the key and wakes its waiters only if the slot holds this very entry, and otherwise changes nothing |
| InflightObjects.Inflight.RunSpawned | src/inflight.rs:85-87 | a spawned release always finds its entry current, removes its key, wakes the registered and keeps the result |
| InflightObjects.CompleteCutShort | src/inflight.rs:66-96 | a complete cancelled between its two halves still frees the key and hands its result to a follower registered by then, whatever other releases are pending |
| Text.LowerIs | src/store/azure.rs:71 | lowercasing gives the one string without ASCII capitals that equals its argument up to ASCII case, character by character |
| Text.TrimPadded | src/store/azure.rs:54-69 | trimming removes any padding around a clean core and nothing of it |
| Text.WhitespaceIs | src/store/azure.rs:54 | what trimming removes are the 25 white space characters of Unicode, listed |
| Text.SplitJoin | src/store/azure.rs:53 | splitting joined pieces that hold no separator gives back the pieces |
| Text.JoinSplit | src/store/azure.rs:53 | for every string, the pieces of a split hold no separator and join to the string |
| ConnectionString.ReadValues | src/store/azure.rs:51-72 | for every input and name, the map of the loop holds the value of the last segment that sets the name |
| ConnectionString.ParseConnectionString | src/store/azure.rs:50-112 | for every input the parser with its mutable map, removals and early errors gives the specified result |
| ConnectionString.LastSegmentWins | src/store/azure.rs:53-72 | a name has a value exactly if some segment sets it, and it is that of the last one; a key without `=` sets the empty value |
| ConnectionString.OrderDoesNotMatter | src/store/azure.rs:53-112 | permuting segments with distinct lowercased keys never changes the result |
| ConnectionPrinter.ReadPrinted | src/store/azure.rs:54-71 | a printed segment, in any padding and with one optional quote pair, reads back as its value and a key without capitals that equals the printed one up to ASCII case; a blank one sets nothing |
| ConnectionPrinter.GivenIsRead | src/store/azure.rs:53-72 | a field printed once, anywhere among other fields and blank segments, is read back |
| ConnectionPrinter.AbsentIsUnset | src/store/azure.rs:53-72 | a field that is not printed is not read |
| ConnectionPrinter.InfoRoundTrip | src/store/azure.rs:74-112 | every description with an account and a key, with or without blob endpoint, protocol and suffix, printed in any order, layout and case of names, reads back: the endpoint is the non-empty blob endpoint, else the account's host under the suffix with the lowercased protocol or https, else none, and plain http is allowed exactly for an http URL or protocol |
| ConnectionPrinter.MissingFields | src/store/azure.rs:74-81 | an absent or empty account is reported missing, and with an account an absent or empty key |
| ConnectionPrinter.EndpointRoundTrip | src/store/azure.rs:83-107 | account, key and blob endpoint are read back, with `allow_http` exactly for a URL that starts with `http://` in any case |
| ConnectionPrinter.ProtocolRoundTrip | src/store/azure.rs:87-112 | account, key, protocol and suffix are read back with the endpoint they stand for, its scheme in lowercase |
| ConnectionPrinter.UsualString | README.md:73 | the literal string `DefaultEndpointsProtocol=https;AccountName=..;AccountKey=..;EndpointSuffix=..` gives account, key and the https endpoint, and does not allow http |
| Base64Url.SymbolsAreTheAlphabet | src/auth.rs:2 | the 64 symbols, in order, are those of table 2 of RFC 4648, written out |
| Base64Url.UnpackPack | src/auth.rs:119-121 | every byte string, of each length modulo three, is unpacked from its own packing |
| Base64Url.PackUnpack | src/auth.rs:119-121 | what can be unpacked is the packing of what it gives |
| Base64Url.DecodesOnlyItsEncoding | src/auth.rs:119-121 | a text decodes to a byte string if and only if it is that string's encoding |
| Base64Url.DecodesWhen | src/auth.rs:141-143 | a text decodes at all exactly if it has only symbols, no lone last one and no stray bits |
| Base64Url.EncodesTheBits | tests/integration.rs:403-404 | the encoding spells out the bits of the bytes, six to a symbol, with only as many zero bits as fill the last symbol, in exactly four thirds of the length rounded up |
| Token.AcceptedIsVouched | src/auth.rs:109-153 | for every token and every request, a token is accepted if and only if it is the dotted text of a payload and a 64-byte signature for which every check holds |
| Token.OneTextPerToken | src/auth.rs:116-143 | different payload and signature bytes never share a dotted text |
| Token.MalformedTokens | src/auth.rs:116-123 | a token without a dot has a malformed signature, and one whose part before the dot is no encoding a malformed payload |
| Token.FirstBrokenClaim | src/auth.rs:125-139 | claims are refused for the first broken one in the order version, expiry, method, bucket, path, and for no other |
| Token.ClaimsAnswerFirst | src/auth.rs:116-152 | whatever stands after the dot, an unparsable payload or a refused claim decides the answer; otherwise the rest is malformed exactly if it is not the encoding of 64 bytes, and else accepted or invalid as these sign the payload |
| Token.BuiltTokenSpeaksForItsClaims | tests/integration.rs:393-406 | for every payload, clock value and request, a token built by the client gets exactly the answer of its claims |
| Token.UpperIgnoresCase | src/auth.rs:131-133 | methods that differ in ASCII case only are the same to the comparison |
| Token.UpperTellsApart | src/auth.rs:131-133 | two methods of ASCII letters are the same to the comparison if and only if they have the same length and the same letters up to case |
| Token.BuiltTokenIsForItsRequest | src/auth.rs:125-139 | for methods of ASCII letters a built token is accepted if and only if its version is 1, it has not expired and bucket, path and, up to case, method are its own; with any other method it is refused as a method mismatch |
| Token.TokenRoundTrip | src/auth.rs:116-152 | every version 1 payload, at every clock value not after its expiry, is split and decoded back to its bytes and accepted for its bucket, path and method in any ASCII case |

## Left out

- The GET, HEAD, PUT, fetch and prefetch handlers are steps over values, not methods of a class: other tasks run at each await, which a method body cannot show. What this does not capture is aliasing between the handlers' shared pointers; the classes of `Inflight.dfy` do that for the in-flight objects.
- Foyer (shards, disk tier, eviction policy, background flushing): the cache is a map from which any key may vanish at any time and whose lookups may miss.
- What is recovered from disk: a run starts with cached entries that are former values of their locations and within the cap now configured.
- object_store clients, part sizes and network: the store is a map; a commit is atomic and may have happened although its caller sees an error or is cancelled; a get and its body stream give one version of the object.
- Responses, headers, tracing, latency histograms, the status label of the request counter, the error-kind label and the Prometheus encoder.
- Insert statistics of the cache (`src/cache/foyer.rs:110-114`).
- MIME guessing and sniffing are one uninterpreted function; content types are not claimed to agree between upload and fetch.
- `cap` is the configured size already converted to `usize`; the conversion itself is not modelled.
- Identifiers of tasks and entries stand for futures and pointers and are assumed fresh.
- Linearizable "not found" answers: a follower may receive an older leader's error.
- Ed25519, JSON and key loading are parameters of `Token`; `verify_bearer`, `parse_bearer_token`, `parse_prefetch` and configuration are one branch each.
- The store builder that consumes the parsed connection string (`src/store/azure.rs:1-48`).
