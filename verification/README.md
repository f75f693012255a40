# Light Stream: verified models

A Dafny 4.11 model of the parts of Light Stream that keep state or transform data under inputs they do
not control, with proofs that each does what its simple specification says. `dafny verify dfyconfig.toml`
checks everything.

**Publishing with certainty** (`Protocol`, `Environment`, `Endpoints`, `RouteLoop`, `RouteRuns`,
`PublishMachine`, `PublishCertainty`, `PublishRuns`, `PublishReceipts`, `PublishLogs`, `PublishOrder`,
`PublishEndings`, `PublishLoop`, `EndToEnd`).
`PublishMachine.Step` is `publish_with` as a step system over events: every request the client hands to the
network, every answer, failure, clock reading, sleep and cancellation is an event, and an event that the
client would not produce in a state, such as a copy to another endpoint, is no step. `PublishLoop` and
`RouteLoop` hold the same code as loops over local variables (`publish_with`, `publish_with_resolved_route`,
`publish_once`, `finish_interrupted_publish`, `receipt_until`, `resolve_route_until`, `retry_sleep`). They
call an object, `Environment.Env`, that may answer anything at any time and logs each call as it is made;
only its own methods write the log. The contracts say that what a method adds to the log is a run of the
step system ending in its result, and `PublishWith` restates the outcome on the log alone
(`PublishEndings.Reliable`), in tables that name no function of the step system. `Verdict` reads off the log
which event decides the result and what the result is, receipt lookups included; a publish is over at that
event and at no earlier one. An interruption is DefiniteNoCommit exactly when every copy in the log was
refused; with receipt resolution AmbiguousCommit is the answer only once the receipt could not be found out.
Every copy and lookup carries the batch field by field and goes by the last route answered. `InOrder` says
what comes right before each event. There are at most ceil(D / 25 ms) copies, and servers are contacted at
most twice that often before any receipt lookup, once more for the first route. `EndToEnd` adds a network
that loses and delays and servers that
commit or refuse, with these assumptions: a copy a server refused is never committed, a success answer names
a committed entry, a repeated request id is answered with the original receipt, and other producers use
other ids. There DefiniteNoCommit is true for good, and AmbiguousCommit is as much as the client could
possibly know.

**The other retry loops** (`RetryMachine`, `RetryRuns`, `RetryEndings`, `RetryLoops`). The checkpoint, retention, replay,
export and fetch loops share their shape and differ in their discipline, so they are one step system with a
parameter, and the loops themselves are proved to be runs of it. Attempts, copies and leaders are read off
the log, and `RetryEndings.Kept` says of a whole call which event ends it and with which report. The checkpoint loop follows the exact discipline; the others never roll their flag back. One
difference is visible only in the code: `replay_mutation_once` raises the flag before it computes the request
timeout (lib.rs:4049-4053), so a replay deadline error can say AmbiguousCommit although nothing was sent.
`ReplayAmbiguousUnsent` says exactly when, `ReplayAmbiguousUnsentHappens` gives the run.

**Cancellation** (`Cancellation`). The flag and its notification with any number of cancellers and
waiters; a notification is an epoch counter, and a ticket taken before `notify_waiters` is woken by it.

**SHA-256 and the export download** (`Bytes`, `Fips180`, `FipsConstants`, `KnownDigest`, `ExportSha256`,
`ExportDownload`). `Fips180` is FIPS 180-4 on whole messages; `FipsConstants` shows that its tables are the
roots of primes the standard defines them to be, and `KnownDigest` follows the digest of "abc", the known
answer in the client's unit tests, through all 64 rounds. `ExportSha256.Hasher` is the client's incremental hasher with its arrays;
its `Valid` says nothing about buffer bytes past `bufferLen`, so stale bytes cannot matter. The length
field is the bit length modulo 2^64, as the code computes it, and `PadIsFips` shows that below 2^61 bytes
this is the padding of section 5.1.1. `ExportDownload` adds the part file and the output, and says exactly
when the output is replaced, and which result each sequence of answers and calls has. One corner: when the rename succeeds and syncing the parent directory fails, the
error is returned although the output already holds the (complete) artifact; `ExportTo` states it as an
equivalence and `FailsAfterReplacing` gives an instance.

**Rolling audits** (`Bits`, `AuditDigest`), **framing** (`FrameSplitter`, `PeerFrames`), **release sums**
(`ReleaseSums`) and **cursor vectors** (`StreamCursors`). Python integers are naturals with bitwise
operations defined bit by bit; the frame splitter is compared with a parse of the whole stream; the
protobuf encoder with a decoder written for the purpose; `parse_sums` with the text it has to read.

## Model

| member | source | states |
|---|---|---|
| PublishCertainty.DispatchExact | crates/light-stream-client/src/lib.rs:1315-1386 | the match on the answer rolls the flag back exactly on NotLeader, StaleRoute and QuorumUnavailable with DefiniteNoCommit, in every branch |
| PublishCertainty.StepExact | crates/light-stream-client/src/lib.rs:1251-1430 | each step keeps: the flag is set exactly when some copy was sent and not refused |
| PublishCertainty.RunExact | crates/light-stream-client/src/lib.rs:1249-1430 | in every run an interruption reports DefiniteNoCommit if and only if no sent copy is left unrefused |
| PublishRuns.RunSameBatch | crates/light-stream-client/src/lib.rs:4184-4197 | every copy a run holds or has sent has the cluster, stream, partition, request id, records and bookmark name of the batch; a lookup asks for its receipt |
| PublishRuns.RunInTurn | crates/light-stream-client/src/lib.rs:1280-1384 | in every run an attempt answered NotLeader with a leader, or refreshed to a route with one, is followed by an attempt to that leader; windows told of no leader try every endpoint once; no seed is lost, nothing repeated; likewise the lookups |
| PublishRuns.RunInBudget | crates/light-stream-client/src/lib.rs:1251-1430 | under one deadline D at most ceil(D / 25 ms) publish attempts, and in the log at most 2 * ceil(D / 25 ms) connections tried and routes asked for together, receipt lookups excluded; resolving the first route costs one more |
| PublishReceipts.LookupNeverDowngrades | crates/light-stream-client/src/lib.rs:3744-3776 | over any events after an interruption with the flag up: the last event is a receipt for that request id, or the error is AmbiguousCommit or a passed-through one, never DefiniteNoCommit |
| PublishReceipts.LookupEnds | crates/light-stream-client/src/lib.rs:3778-3848 | how a whole lookup ends: with the receipt exactly when the last event is that answer, with ReceiptNotFound exactly on a deadline event or a route refresh answered ReceiptNotFound, with any other error exactly on a failure it does not retry |
| PublishReceipts.LookupGivesUp | crates/light-stream-client/src/lib.rs:3778-3848 | of the single events of a lookup, exactly the deadline events and a route refresh answered ReceiptNotFound end it with ReceiptNotFound |
| PublishReceipts.NotFoundLooksAgain | crates/light-stream-client/src/lib.rs:3778-3848 | while every lookup is answered ReceiptNotFound the client looks again once a pause, and only a clock read past the deadline ends the search, with AmbiguousCommit |
| PublishLogs.RunDeliveries | crates/light-stream-client/src/lib.rs:3850-3879 | the copies in the log of a run, with endpoint, request and answer, are exactly its sent attempts |
| PublishEndings.RunIsReliable | crates/light-stream-client/src/lib.rs:1237-1430 | the log of any finished run is reliable: it ends at the first event that decides a result and has that result; DefiniteNoCommit exactly when every copy was refused; with receipt resolution AmbiguousCommit only on a clock read at or past the deadline, a receipt call that ran into it or a route refresh answered ReceiptNotFound, and without it no receipt is asked for; everything sent carries the batch and goes by the last route answered; events in order; at most ceil(D / 25 ms) copies and 2 * ceil(D / 25 ms) contacts, one more with the first route |
| PublishEndings.RunDecided | crates/light-stream-client/src/lib.rs:1251-1430 | in every run, at every point, the publish is over exactly when the log decides a result: each answer, failure, route, clock reading and cancellation, with retries on or off and before or during a lookup, ends it with the stated receipt, error, reason and outcome, or does not end it |
| PublishEndings.RunSearchesLast | crates/light-stream-client/src/lib.rs:3744-3776 | receipts are asked for only after something broke the publish off with a copy left open and receipt resolution on, and no attempt is made after that |
| PublishOrder.RunInOrder | crates/light-stream-client/src/lib.rs:1251-1314 | in every run a connection is tried right after the cancellation flag and the clock were read in time, a copy goes out over the connection just made and in time, an answer follows its copy, a route is asked for on arrival, after a stale one or after a pause, attempts are separated by pauses, and a pause is 25 ms or what is left |
| PublishOrder.RunSendsBatch | crates/light-stream-client/src/lib.rs:4184-4197 | every copy equals the batch in cluster, stream, partition, request id, records and bookmark name, every lookup asks for its receipt, and both go by the group and revision of the last route answered before them, or of the route given |
| PublishLoop.PublishWith | crates/light-stream-client/src/lib.rs:1154-1195 | whatever the environment does the call ends; its log is a clock reading and a run from there to its result, and is reliable in the sense of RunIsReliable |
| PublishLoop.PublishWithRouteHint | crates/light-stream-client/src/lib.rs:1211-1235 | the same for a publish whose caller knows the route |
| PublishLoop.PublishWithResolvedRoute | crates/light-stream-client/src/lib.rs:1237-1430 | the loop ends, and what it logs is a run of the step system from the known route to its result |
| PublishLoop.PublishRound | crates/light-stream-client/src/lib.rs:1251-1387 | one turn of the loop, up to its pause or its result, logs exactly its steps |
| PublishLoop.LoopHead | crates/light-stream-client/src/lib.rs:1252-1279 | cancellation, then the deadline, then the next attempt |
| PublishLoop.PublishOnce | crates/light-stream-client/src/lib.rs:3850-3879 | one attempt raced against cancellation: connect, time, raise the flag, send one copy to that endpoint, await; nothing else is sent |
| PublishLoop.Decide | crates/light-stream-client/src/lib.rs:1315-1386 | the branch taken, the flag, the endpoints and the index agree with the step system for every answer |
| PublishLoop.RefreshPublish | crates/light-stream-client/src/lib.rs:1363-1384 | a stale route is refreshed inside the run; only the two route fields of the request change |
| PublishLoop.FinishInterruptedPublish | crates/light-stream-client/src/lib.rs:3744-3776 | an interruption ends in a receipt, an interruption error or a passed-through lookup error, as the logged lookups say |
| PublishLoop.ReceiptUntil | crates/light-stream-client/src/lib.rs:3778-3848 | the lookup loop ends, and what it logs is a run of the lookup ending in its answer |
| RouteLoop.ResolveRouteUntil | crates/light-stream-client/src/lib.rs:1074-1148 | the route loop ends, and what it logs is a run of the route resolution ending in its answer |
| RouteRuns.RouteEndings | crates/light-stream-client/src/lib.rs:1074-1148 | a route resolution ends resolved exactly on an answer with a route, unresolved exactly on a failure it does not ask about again or a clock read at or past the deadline, each with its error, and abandoned exactly on cancellation |
| RouteRuns.RouteInTurn | crates/light-stream-client/src/lib.rs:1081-1142 | whom it asks: the first seed; the leader just named; the same server after NotLeader without one; the next endpoint of the list after a failed connection or request |
| RouteLoop.RetrySleep | crates/light-stream-client/src/lib.rs:4514-4522 | a pause of 25 ms or to the deadline, checked before and after; resting means that 25 ms have passed and the deadline has not |
| EndToEnd.HistoryKeeps | crates/light-stream-client/src/lib.rs:1237-1430 | in every reachable world what the client believes of each copy agrees with what the servers did with it |
| EndToEnd.DefiniteMeansNever | crates/light-stream-client/src/lib.rs:4531-4545 | after Interrupted with DefiniteNoCommit the batch is in no later log, however late the network delivers |
| EndToEnd.RetriesCommitOnce | scripts/verify.py:4030-4052 | any number of retries adds the batch at most once with its records, and a returned receipt is that entry's |
| EndToEnd.AmbiguousCouldBeEither | crates/light-stream-client/src/lib.rs:4531-4545 | every run reporting AmbiguousCommit is compatible with a history after which the batch is in no log and with one after which it is in every log, whatever happens later |
| Endpoints.AddHint | crates/light-stream-client/src/lib.rs:4624-4633 | the in-place edit leaves the hint first and the rest of the list as it was without it, and resets the index |
| Endpoints.HintMembers | crates/light-stream-client/src/lib.rs:4624-4633 | a hint loses nothing, adds only itself and repeats nothing |
| Endpoints.HintOrder | crates/light-stream-client/src/lib.rs:4624-4633 | the endpoints other than the hint keep their order |
| Endpoints.WindowCovers | crates/light-stream-client/src/lib.rs:1464-1465 | list-length consecutive attempts told of no leader walk the list once, from where they start |
| Endpoints.InTurnIsOrderly | crates/light-stream-client/src/lib.rs:1458-1513 | any history of attempts that take the endpoint the history selects: no duplicates, every seed, seed order of what was never a leader, a leader next, windows covered |
| Endpoints.ConnectWithSecurity | crates/light-stream-client/src/lib.rs:608-637 | the seed list is the endpoint, then every other seed once in order of first appearance; or the first unusable endpoint is named, in the order of the checks |
| RetryRuns.RunTruthful | crates/light-stream-client/src/lib.rs:4547-4561 | in every run a deadline error says DefiniteNoCommit exactly when: checkpoint, every copy sent was refused; retention and export, none was sent; replay, no attempt connected |
| RetryRuns.ExactImpliesConservative | crates/light-stream-client/src/lib.rs:2834-2891 | on any common history, in which copies are sent only after connecting, the exact flag implies the conservative ones, and those imply replay's |
| RetryRuns.RunSentConnected | crates/light-stream-client/src/lib.rs:3882-3891 | in the history of every run a copy is sent only after connecting |
| RetryRuns.RefusalTellsApart | crates/light-stream-client/src/lib.rs:2464-2486 | the same log with one refused copy ends in DefiniteNoCommit for the checkpoint loop and AmbiguousCommit for an export mutation |
| RetryRuns.RunInTurn | crates/light-stream-client/src/lib.rs:1458-1513 | in every run of the five loops the attempts in the log take the endpoints in order, with the leaders named by the answers and the refreshed routes |
| RetryRuns.RunSendsOnly | crates/light-stream-client/src/lib.rs:1787-1809 | every copy a run sends is the same request, with the group and revision of the last route answered before it, or of the route given |
| RetryRuns.RunInBudget | crates/light-stream-client/src/lib.rs:1819-1888 | with D to its deadline a run of any of the five loops makes at most ceil(D / 25 ms) attempts, however long its route refreshes take |
| RetryEndings.RunConcludes | crates/light-stream-client/src/lib.rs:1838-1888 | in every run of the five loops, at every point, the call is over exactly when its last event ends it, with the report that event says; no earlier event would have ended it |
| RetryEndings.ReportMeans | crates/light-stream-client/src/lib.rs:1780-1889 | a call reports success exactly when its last event is an answer that says so, and passes an error through exactly when the last event fails with it for good or is a clock reading after a failed route request or an unusable leader |
| RetryEndings.RunInOrder | crates/light-stream-client/src/lib.rs:3882-3891 | a copy goes out over the connection just made and in time, an answer follows its copy, retention and replay read the clock in time before they connect, and no pause is longer than 25 ms |
| RetryEndings.RunRefreshes | crates/light-stream-client/src/lib.rs:1863-1881 | a route refresh has the deadline of the loop for checkpoints, and for the others one counted from the clock reading after the stale answer |
| RetryRuns.ReplayAmbiguousUnsent | crates/light-stream-client/src/lib.rs:4042-4064 | a replay run reports AmbiguousCommit with nothing sent exactly when its last attempt was the first to connect and then read a clock past the deadline |
| RetryRuns.ReplayAmbiguousUnsentHappens | crates/light-stream-client/src/lib.rs:4049-4053 | such a run exists under any deadline |
| RetryLoops.Once | crates/light-stream-client/src/lib.rs:3882-3891 | one attempt: connect, time, raise the flag, send one copy to that endpoint, await |
| RetryLoops.ReplayOnce | crates/light-stream-client/src/lib.rs:4042-4064 | one replay attempt: the flag goes up once connected; a deadline passed by then fails the attempt unsent |
| RetryLoops.Decide | crates/light-stream-client/src/lib.rs:1838-1883 | the branch taken, the flag, the endpoints and the index agree with the step system for every answer and loop |
| RetryLoops.RefreshCall | crates/light-stream-client/src/lib.rs:1863-1881 | a stale route is refreshed inside the run, under the shared deadline or a new one; only the two route fields change |
| RetryLoops.KeepTrying | crates/light-stream-client/src/lib.rs:2110-2166 | whatever the environment does the loop ends, and what it logs is a run of the step system ending in its report |
| RetryLoops.Execute | crates/light-stream-client/src/lib.rs:1780-1889 | a whole call, route resolution included, is such a log, and its log shows the event that ended it and what it reported, the certainty of a deadline error, what every copy asked for and by which route, the order of events and endpoints, and at most ceil(D / 25 ms) attempts |
| Cancellation.NoLostWakeup | crates/light-stream-client/src/lib.rs:148-165 | in no interleaving has a cancel completed while a waiter is parked on an unfired notification; none returns uncancelled |
| Cancellation.WaitersReturn | crates/light-stream-client/src/lib.rs:156-165 | after a cancel completes every waiter returns within three of its own steps and is never blocked |
| Fips180.PadIsFips | crates/light-stream-client/src/lib.rs:295-308 | below 2^61 bytes the padding is that of section 5.1.1 of FIPS 180-4 |
| FipsConstants.RoundConstants | crates/light-stream-client/src/lib.rs:244-255 | section 4.2.2: for each t the entry K[t] is the first 32 bits of the fractional part of the cube root of the prime with t primes below it |
| FipsConstants.InitialHashValue | crates/light-stream-client/src/lib.rs:259-262 | section 5.3.3: the initial hash value is that of the square roots of the first eight primes |
| FipsConstants.Chooses | crates/light-stream-client/src/lib.rs:337-337 | Ch selects between its second and third argument, bit by bit |
| FipsConstants.Majority | crates/light-stream-client/src/lib.rs:344-344 | Maj is the majority, bit by bit |
| FipsConstants.BytesOfWord | crates/light-stream-client/src/lib.rs:312-320 | a word is the number of its four bytes, most significant first, and gives them back |
| KnownDigest.KnownAnswer | crates/light-stream-client/src/lib.rs:4761-4773 | the SHA-256 of "abc" is the digest the unit test expects |
| ExportSha256.FillSchedule | crates/light-stream-client/src/lib.rs:317-333 | the in-place 64-entry schedule is the recursive message schedule of section 6.2.2 |
| ExportSha256.RunRounds | crates/light-stream-client/src/lib.rs:334-354 | the eight rotating variables compute the 64 rounds of section 6.2.2 |
| ExportSha256.Hasher.CompressBlock | crates/light-stream-client/src/lib.rs:317-358 | one block takes the state to the next intermediate hash value |
| ExportSha256.Hasher.constructor | crates/light-stream-client/src/lib.rs:257-267 | a new hasher stands for the empty message |
| ExportSha256.Hasher.Update | crates/light-stream-client/src/lib.rs:269-293 | an update appends its input to the message the hasher stands for |
| ExportSha256.Hasher.Finalize | crates/light-stream-client/src/lib.rs:295-315 | finalize returns the SHA-256 of that message, with one padding block or two |
| ExportSha256.HashPieces | crates/light-stream-client/src/lib.rs:2555-2581 | every way of cutting a message into updates gives the SHA-256 of the whole message |
| ExportDownload.Download | crates/light-stream-client/src/lib.rs:2555-2582 | the part file holds the gap-free concatenation of chunks with one identity; where and why the loop stops |
| ExportDownload.OutcomeMeans | crates/light-stream-client/src/lib.rs:2555-2597 | for every sequence of answers, both ways: when an export is refused for identity, offset or integrity, is still downloading, or fails |
| ExportDownload.ExportTo | crates/light-stream-client/src/lib.rs:2535-2597 | the output is replaced, by the complete artifact, exactly when answers complete it and every call up to the rename succeeds; success exactly when the parent syncs too; each refusal exactly when its fault is in the answers reached, IntegrityFailed exactly on a complete download of wrong length or digest, the part file removed; Failed exactly when a call, a download or a write failed |
| ExportDownload.FailsAfterReplacing | crates/light-stream-client/src/lib.rs:2592-2596 | one chunk and a failing parent sync give an error after the output was replaced |
| ExportDownload.HonestServerCompletes | crates/light-stream-client/src/lib.rs:2557-2581 | honest answers, however many, complete the artifact within its length in chunks, or are too few and have brought a proper prefix |
| ExportDownload.ExportFromHonestServer | crates/light-stream-client/src/lib.rs:2535-2597 | against such a server nothing is refused, and if every call succeeds the output is the artifact |
| AuditDigest.BitRotate | poc/scripts/run.py:375-377 | on 64-bit values rotate_left rotates: each bit comes from amount places below, modulo 64 |
| AuditDigest.RotateAdds | poc/scripts/run.py:375-377 | rotations compose additively |
| AuditDigest.RotateXor | poc/scripts/run.py:375-377 | rotation distributes over xor |
| AuditDigest.DigestFits | poc/scripts/run.py:415-425 | every digest stays below 2^64 |
| AuditDigest.DigestBits | poc/scripts/run.py:415-424 | one more batch adds to the counts, and each bit of the digest is the parity of the bit seven places below, of the checksum, of the sequence times 0x9e3779b97f4a7c15, and of the shard |
| AuditDigest.DigestTellsApart | poc/scripts/run.py:415-424 | batch sequences that differ in the shard or the checksum of one batch have different digests |
| AuditDigest.CombineIsOnePass | poc/scripts/run.py:380-389 | combining the audits of two ranges equals one fold over both, exactly when the ranges are adjacent |
| AuditDigest.CombineAssociates | poc/scripts/run.py:380-389 | combine is associative, its errors included |
| AuditDigest.Generate | poc/scripts/run.py:392-404 | the word-by-word loop yields the payload whose byte i is byte i % 8 of generator word i / 8, cut to length |
| AuditDigest.NextStateBits | poc/scripts/run.py:399-401 | a generator step is xorshifts right by 12, left by 25 within 64 bits and right by 27, bit by bit |
| AuditDigest.GeneratorWords | poc/scripts/run.py:396-403 | seed and words are the stated sums and products modulo 2^64, and words are little-endian |
| AuditDigest.ExtendedByIsAudit | poc/scripts/run.py:414-425 | an audit extended by n generated batches is the audit of all the batches, with consecutive sequences and the checksums of their payloads |
| AuditDigest.CheckAcknowledgedPrefix | poc/scripts/run.py:407-427 | accepts exactly a well-formed nonempty acknowledged audit extended by some number of generated batches |
| FrameSplitter.HandleConnection | scripts/verify.py:674-704 | however the stream is cut into reads, the forwarded bytes and the drop flag are those of the whole stream |
| FrameSplitter.FrameReadBack | scripts/verify.py:689-698 | a frame built from type, flags, reserved bit, 31-bit identifier and payload has that length and that identifier, whatever follows |
| FrameSplitter.FrameIsBuilt | scripts/verify.py:689-698 | every complete frame is built that way |
| FrameSplitter.SplitMeans | scripts/verify.py:689-702 | complete frames with identifier zero are all forwarded; the flag is set exactly when another complete frame follows |
| FrameSplitter.EveryStreamSplits | scripts/verify.py:689-702 | every stream is such frames followed by a rest without one |
| PeerFrames.ProtobufVarint | scripts/verify.py:1143-1149 | the loop computes the base-128 encoding |
| PeerFrames.VarintRoundTrip | scripts/verify.py:1143-1149 | decoding inverts the encoding of every number, whatever follows |
| PeerFrames.VarintPrefixFree | scripts/verify.py:1143-1149 | no encoding is a prefix of another |
| PeerFrames.VarintMinimal | scripts/verify.py:1143-1149 | no byte string that decodes to a number is shorter than its encoding |
| PeerFrames.FieldRoundTrip | scripts/verify.py:1152-1161 | a field decodes to its number, kind and value, whatever follows |
| PeerFrames.BuildPeerRequestFrame | scripts/verify.py:1164-1178 | the script's assembly gives the frame, and fails exactly when the length does not fit 32 bits |
| PeerFrames.PeerFrameRoundTrip | scripts/verify.py:1164-1178 | every frame below 2^32 bytes decodes to cluster, group, sender, target and payload |
| ReleaseSums.ParseSums | scripts/package_release.py:429-438 | the line loop computes the parse, failing on the first bad line or a wrong inventory |
| ReleaseSums.LastLineCounts | scripts/package_release.py:429-438 | the digest of a name is the one on the last line that names it |
| ReleaseSums.AcceptedInventory | scripts/package_release.py:436-438 | anything accepted has exactly the packaged files, each with 64 characters |
| ReleaseSums.SumsRoundTrip | scripts/package_release.py:409-412 | parsing the generated text returns exactly the digests it was generated from, for all digests of 64 hex characters |
| StreamCursors.New | crates/light-stream-core/src/bookmark.rs:203-233 | succeeds exactly on a nonempty list of one cluster, the given stream and distinct partitions, kept unchanged; otherwise names the first fault |

## Left out

- The Raft groups, storage, retention, leases and receipts of the server: in `EndToEnd` servers are an environment with the assumptions listed above.
- Channels, TLS, credentials and endpoint URI syntax: connecting succeeds or fails arbitrarily, and `Config.valid` says which endpoints are accepted.
- Error text, and the domain errors the retry loops do not tell apart, which are one constructor.
- `administration_call` and `security_policy_operation`: they do not follow the certainty discipline.
- `create_stream` and endpoint coverage for `resolve_route_until`: on a NotLeader without a hint they stay on the same endpoint.
- Endpoints.InTurnIsOrderly: windows are covered for histories of at most 2^64 attempts, in which the index does not wrap.
- RouteRuns.RouteInTurn: for fewer than 2^64 events, in which the index does not wrap.
- Environment.Env: a route or receipt request, connecting included, is one event, and what a route request asks for is not in it; how soon a client notices a cancellation is not stated beyond the check at the head of the loop.
- RetryLoops.KeepTrying: one method for the checkpoint, retention, replay, export and fetch loops; the content of their requests and of a success is opaque.
- Cancellation: the flag is sequentially consistent; memory ordering is not modelled.
- ExportDownload.ExportTo: begin_export and wait_for_export_available succeed or fail as one call; a run whose answers end is still downloading.
- FrameSplitter.HandleConnection: an error while forwarding to the client ends the connection and is not modelled.
- PeerFrames: numbers are naturals (a negative one makes the script raise) and the cluster name is its UTF-8 bytes.
- AuditDigest: zlib.crc32 is an arbitrary function; audits have the six fields the script reads.
- ReleaseSums: the text is characters, after UTF-8 decoding.
- The command line client, scenario runners, process control, packaging and reports: orchestration.
