# A verified model of the APM Lambda extension

The extension is a buffering proxy between AWS Lambda and APM Server. The agent in the
function posts its data to it, the Lambda platform sends it log events, and it batches both
and posts them on. Its difficulty is in four state machines and in how they compose; this
project models them in Dafny and proves what they keep.

## The parts

**The batch** (`BatchSpec.dfy`, `Batch.dfy`). Class `Batch` has the fields of the original: one
byte buffer, the length of the metadata at its front, a count, an age, and the map of live
invocations. `Valid()` ties them to what they stand for: the buffer is the metadata and then a
newline and an entry for each accepted entry. Every method is one critical section and is
proved to do what `BatchSpec` says of optional metadata, a sequence of entries and a map of invocations.
`BatchSpec.Op` lists the operations; a run is any sequence of them. gjson, sjson and the
decompressors are functions in a `Library` of which nothing is known, except where a lemma
asks for `JsonLaws` (setting a field of a payload that has a transaction id succeeds and
keeps the id) or `FieldLaws` (it sets that field and no other).

Over whole runs, `CurrentInvocation.dfy` says for which invocation agent data is read, and
`Waiting.dfy` what the age of the batch is.

**Proxy transactions** (`ProxyExclusivity.dfy`, `Coverage.dfy`, `LostTransaction.dfy`,
`LosingRun.dfy`, `Shutdown.dfy`, `ProxyDescription.dfy`, `Registration.dfy`). A transaction
that the agent announces and does not finish is replaced by a proxy. Over whole runs: at most one proxy in each lifetime of an invocation,
none once the transaction was seen; and when the shutdown is over, every announced transaction
has been accepted, as itself or as a proxy, with the one exception below. Shutdown empties
the map, in every iteration order, if and only if each invocation has been registered and metadata is there for each proxy that is due.
What a proxy tells is the status and the time from the registration to the runtimeDone event, or
to the deadline.

**Shipping** (`Shipping.dfy`, `Forwarding.dfy`, `Client.dfy`, `Headroom.dfy`). The poster counts,
takes a snapshot, posts and resets, and anything may happen in between. `Shipping` proves
conservation in every interleaving. Class `Client` has the queues, the status, the forwarder and
the two-phase flush; `Forwarding` says what the batch takes in of the items that are forwarded.
The posts of a `Client` are, by its `Valid()`, a run of the status machine of `Transport`, and its
reconnection count is one less than the failures since the last 202.

**The transport status** (`Transport.dfy`, `RunLoop.dfy`). Any number of posters and the goroutines that end
grace periods, interleaved at the points where the code takes and releases its mutex. `RunLoop.dfy`
composes this with the loop of `Run`: who posts when, and what the wait group is for.

**Log events** (`Json.dfy`, `LogModel.dfy`, `LogRecords.dfy`, `LogStream.dfy`). The printers of
`logsapi/model` append to a writer; what they append parses back to the record they were
given. Class `LogsClient` consumes the event stream and attributes each function log.
The string and number writers are a `Codec`, asked only to be `Lawful`: strings end
themselves, numbers end at a delimiter, both read back. If it also writes no newline, every
record is a single line, as an entry of the batch has to be. `LogOverlap.dfy` is about two
consumers of the stream at a time.

**The invocation loop** (`EventLoop.dfy`, `FlushSignal.dfy`, `App.dfy`). `processEvent` with the
forwarder and the log consumer, on bounded queues; the channel that a flush request closes and
each invocation replaces; and the shutdown sequence, on the classes.

What is nondeterministic in the original is left open here: what the server answers, when a
grace period ends, which ready case a `select` takes, in which order a map is iterated
(`Iteration.dfy`), what the clock says, and what arrives meanwhile.

## What the code does otherwise than it may seem

- `AddAgentData` looks at a line before it adds it. If there is no metadata and the first line
  is empty, the first entry is refused but has by then been looked at; if it is the current
  invocation's transaction, that is lost: it is not added, and no proxy is made for it any more.
  `LostExactlyWhen` gives the exact condition for one request. Over whole runs,
  `CoveredExactlyWhen`: a transaction is covered if and only if this never happens to it, or
  another request brings the agent's line for it all the same. `LossHappens` is a run in which it
  does happen.
- A comment in `ForwardApmData` (apmproxy/apmserver.go:70-71) expects metadata to be available after
  the first agent payload. The lambda queue is opened all the same if that payload was refused;
  `LambdaDataAfterAgentData` says exactly when the first record is then accepted.
- In its Healthy branch `UpdateStatus` can return with the mutex held
  (apmproxy/apmserver.go:275-278). `LockSafeExactlyWhen`: no interleaving does that if and only if
  there is at most one poster. `SafeExactlyWithWaitGroup`: in the loop of app/run.go there is never
  more than one at a time if and only if the loop waits at its wait group, which it does.
- The loop does not wait for its log consumer (app/run.go:204-224), so that `FlushData` can start
  while that still handles an event. `AttributionSafeExactlyWhen` says for which events function
  logs are attributed rightly all the same.
- An invocation that only the agent has announced has an empty request id
  (accumulator/batch.go:161-167), on which `OnShutdown` stops with an error. `ShutdownDrains`
  has this as its condition; `AllRegisteredAtShutdown` derives it from the order of events.
- Entries accepted while a payload is in flight are dropped by the reset that follows
  (apmproxy/apmserver.go:376-377). `NothingElseIsLost` shows that only these are.
- When finalisations have filled the batch, the first item that is forwarded is refused and
  dropped, and the batch is shipped; the following items are taken in. The contracts of the
  flush and of the forwarder say so.
- A cancelled forwarder may keep choosing newly arrived agent data over its cancellation;
  `ArrivalsPostponeTheEnd` shows why `NoStuckInvocation` needs a bound on arrivals.

## Model

| member | source | states |
|---|---|---|
| ByteStrings.Cut | accumulator/batch.go:201-209 | cutting at the first newline: nothing is lost, and no newline stays in the first part |
| ByteStrings.LinesOfEncode | accumulator/batch.go:345-364 | splitting a buffer on newlines gives back its head and, in order, its newline-free entries |
| ByteStrings.EncodeInjective | accumulator/batch.go:345-364 | two buffers with the same bytes hold the same head and entries |
| Invocations.Milliseconds | accumulator/invocation.go:77-78 | a duration in milliseconds is truncated toward zero, for negative durations too |
| Invocations.ProxyKeepsTransaction | accumulator/invocation.go:66-89 | a proxy that is due is always made, is not empty, and carries the registered transaction id |
| Invocations.ProxyContents | accumulator/invocation.go:70-88 | a proxy has the status as its result, the time from the invocation to the end as its duration, and is a failure unless the status is "success" |
| BatchSpec.FirstKeyIs | accumulator/batch.go:366-387 | the first key is the text between the first quote, of either kind, and the next one of its kind; if and only if |
| BatchSpec.RegistrationIs | accumulator/batch.go:132-151 | a registration body is accepted if and only if it decodes to a transaction with an id, alone or after a line that has "metadata" as its first key; what is stored are these two parts |
| BatchSpec.ShutdownStops | accumulator/batch.go:264-279 | an error ends the loop: what comes later in the iteration order has no effect |
| BatchSpec.Threshold | accumulator/batch.go:304-309 | the threshold is nine tenths of the maximum size, truncated toward zero; below it for every positive maximum |
| BatchSpec.AddDataKeeps | accumulator/batch.go:345-364 | adding data keeps the batch well-formed, and only appends |
| BatchSpec.FinalizeKeeps | accumulator/batch.go:328-343 | so does finalising an invocation; it leaves the metadata alone |
| BatchSpec.ShutdownKeeps | accumulator/batch.go:264-279 | so does a shutdown, also one that stops with an error half-way |
| BatchSpec.AgentInitKeeps | accumulator/batch.go:132-170 | so does an agent's registration; metadata is written at most once |
| BatchSpec.AcceptBodyKeeps | accumulator/batch.go:199-224 | so does an agent request; its entries are newline-free |
| BatchSpec.StepKeeps | accumulator/batch.go:104-364 | every operation keeps the batch well-formed; all but a reset only append and none overwrites metadata; a reset drops the entries and nothing else |
| BatchSpec.RunKeeps | accumulator/batch.go:104-364 | in every reachable state: no entries without metadata, an age exactly if there are entries, no empty entry; metadata once known never changes |
| BatchSpec.PayloadRoundTrip | accumulator/batch.go:319-326 | splitting a payload on newlines gives the metadata and then the entries in order |
| BatchSpec.BodyRoundTrip | accumulator/batch.go:199-222 | reading a body is the inverse of laying one out: head and non-empty lines come back, in order |
| BatchSpec.AgentDataAllOrNothing | accumulator/batch.go:172-224 | on any error no entry is added; on success exactly the non-empty lines after the first; it succeeds if and only if the body is read and there is metadata for its entries |
| Batches.Batch.constructor | accumulator/batch.go:87-95 | a new batch is valid and empty |
| Batches.Batch.Count | accumulator/batch.go:292-297 | the counter is the number of entries in the buffer |
| Batches.Batch.RegisterInvocation | accumulator/batch.go:104-124 | merges into what the agent may have announced before, and makes the invocation current; what that means is CurrentInvocation.ReadForLatest |
| Batches.Batch.OnAgentInit | accumulator/batch.go:132-170 | every error leaves the batch as it was; otherwise metadata is written unless known, and the transaction is announced for the invocation, which becomes current |
| Batches.Batch.WriteMetadata | accumulator/batch.go:155-160 | metadata goes to the front of an empty buffer, which then is its encoding |
| Batches.Batch.AddAgentData | accumulator/batch.go:177-224 | the checks in their order; then metadata, observed flag and entries become those of the whole body, taken as its lines |
| Batches.Batch.ReadAgentData | accumulator/batch.go:178-197 | the reasons to refuse a request, in their order, or its decoded body |
| Batches.Batch.AddBodyLines | accumulator/batch.go:208-223 | the loop adds all lines of the text, or stops at the first that is refused |
| Batches.Batch.AddAgentLine | accumulator/batch.go:208-218 | a line is looked at first and added then, so that a refused line has been observed |
| Batches.Batch.OnLambdaLogRuntimeDone | accumulator/batch.go:226-233 | finalises the invocation at the time of the event |
| Batches.Batch.OnPlatformStart | accumulator/batch.go:235-237 | remembers the request id, and changes nothing else |
| Batches.Batch.OnPlatformReport | accumulator/batch.go:243-258 | forgets this invocation only, and returns what was registered for it; an unknown one is an error |
| Batches.Batch.OnShutdown | accumulator/batch.go:260-279 | for some iteration order of the map, does what the specification does for that order, error included |
| Batches.Batch.ShutdownInvocation | accumulator/batch.go:267-277 | one turn of that loop; the deadline stands in for the end time |
| Batches.Batch.AddLambdaData | accumulator/batch.go:281-290 | refused when full, else added |
| Batches.Batch.ShouldShip | accumulator/batch.go:299-309 | due if and only if the threshold is reached or the first entry is too old |
| Batches.Batch.Reset | accumulator/batch.go:311-317 | truncation stays inside the buffer and leaves exactly the metadata; invocations stay |
| Batches.Batch.ToAPMData | accumulator/batch.go:319-326 | the payload is the encoding of metadata and entries, not compressed yet |
| Batches.Batch.FinalizeInvocation | accumulator/batch.go:328-343 | the invocation becomes final only once its proxy, if due, is in the batch; what the proxy says is ProxyDescription.FinalizeDescribes |
| Batches.Batch.AddData | accumulator/batch.go:345-364 | the empty entry is ignored, an entry without metadata refused, another appended |
| Batches.Batch.AppendEntry | accumulator/batch.go:352-363 | one more entry, counted; the age is set by the first and kept by the others |
| Batches.IndexByte | accumulator/batch.go:376-379 | the first occurrence, or -1 if and only if there is none |
| Batches.FindEventType | accumulator/batch.go:366-387 | the scanning loop computes the type by the first key of the body |
| CurrentInvocation.StepCurrent | accumulator/batch.go:104-170 | a registration, and an agent init that is accepted, makes its invocation current and puts it in the map; nothing else changes which is current |
| CurrentInvocation.CurrentIsLatest | accumulator/batch.go:104-170 | in every run an invocation is current if and only if it is that of the last registration or accepted agent init, or was current before any |
| CurrentInvocation.ReadForLatest | accumulator/batch.go:177-197 | in every run, from the registration of an invocation until it is reported or shut down or another is registered, an agent request is read for it if and only if it decodes and there is room |
| CurrentInvocation.RegisteredIsRead | accumulator/batch.go:123 | right after a registration every plain body is read, whoever was current before |
| CurrentInvocation.AnnouncedMetadataServes | accumulator/batch.go:155-160 | after an agent init the next record is accepted if and only if metadata was known or has been announced |
| CurrentInvocation.EncodingIsTransparent | accumulator/batch.go:181-184 | a body that is gzip or deflate has the same outcome as what it decodes to, and one that does not decode changes nothing |
| CurrentInvocation.InitEncodingIsTransparent | accumulator/batch.go:132-136 | likewise for a registration body |
| Waiting.StepAge | accumulator/batch.go:345-364 | no operation but a reset changes the age of a batch that holds entries; the first entry sets it |
| Waiting.AgeIsOldest | accumulator/batch.go:358-361 | in every run the age is the time at which the oldest of the pending entries came |
| Waiting.DueExactlyWhen | accumulator/batch.go:299-309 | after every run the batch is due if and only if it has reached the threshold or its oldest entry has waited for longer than the maximum age |
| ShutdownDrain.OnlyDrainableLeave | accumulator/batch.go:264-279 | in any order, an invocation leaves the map only if it was registered and its proxy could be added; until then it is untouched |
| ShutdownDrain.AllLeaveInTurn | accumulator/batch.go:264-279 | if all can leave, each leaves when visited, with its proxy if due |
| ShutdownDrain.ShutdownDrains | accumulator/batch.go:264-279 | for every order: no error and an empty map if and only if all are registered and metadata is there for each proxy due; then exactly one proxy per invocation needing one, and no other entry |
| ShutdownDrain.ShutdownOrderIrrelevant | accumulator/batch.go:264-279 | two iteration orders add the same multiset of proxies |
| ProxyExclusivity.ObservedExactlyWhen | accumulator/batch.go:208-218 | the observed flag of the current invocation, and no other, goes up if and only if a proxy was due and a line looked at has "transaction" as its first quoted key and the registered id |
| ProxyExclusivity.FinalizeProxies | accumulator/batch.go:328-343 | at most one proxy, only for this invocation and only if due; an error changes no invocation |
| ProxyExclusivity.ShutdownProxies | accumulator/batch.go:264-279 | at most one proxy per invocation, which then has left the map |
| ProxyExclusivity.AgentDataProtocol | accumulator/batch.go:208-222 | an agent request adds no proxy and lowers no flag |
| ProxyExclusivity.StepProtocol | accumulator/batch.go:104-364 | what every operation does to one invocation: at most one proxy, none if final or observed, flags only raised, final once it has a proxy |
| ProxyExclusivity.AtMostOneProxy | accumulator/invocation.go:54-69 | over every run in one lifetime of an invocation: at most one proxy, none if its transaction is seen at any point, flags monotone |
| ProxyExclusivity.FailedFinalizeRetryable | accumulator/batch.go:328-343 | finalising fails if and only if a proxy is due and metadata is missing; then nothing has changed, so that it can be retried; otherwise the due proxy is added |
| ProxyDescription.FinalizeDescribes | accumulator/batch.go:328-343 | whatever finalising an invocation adds is one proxy for it, with its transaction, this status, the time from its registration to this end, and failure unless the status is "success" |
| ProxyDescription.DoneIsDescribed | accumulator/batch.go:226-232 | a runtimeDone for which a proxy is due and metadata is there adds one, up to the time of that event |
| ProxyDescription.ShutdownDescribes | accumulator/batch.go:264-279 | every proxy of a shutdown, in any order, also one that stops with an error, lasts up to the deadline and has the given status |
| ProxyDescription.NoneAfterDone | accumulator/invocation.go:54-69 | after a runtimeDone without error there is no proxy in the rest of the lifetime, over every run |
| Coverage.OwedAfter | accumulator/batch.go:153-169 | the announcement leaves the transaction owed |
| Coverage.OwedStep | accumulator/batch.go:177-364 | whatever comes before the shutdown adds the agent's line or a proxy for the invocation, or leaves the transaction owed and is not its runtimeDone; unless it loses it |
| Coverage.SafeUntilShutdown | accumulator/batch.go:177-279 | at every point until the shutdown a transaction that is not lost is covered, or owed with its runtimeDone still to come |
| Coverage.UnregisteredIsNew | accumulator/batch.go:161-167 | an invocation with an empty request id was announced and has not been registered so far |
| Coverage.AllRegisteredAtShutdown | app/run.go:97-126 | with events in order, all invocations in the map can leave it at the shutdown |
| Coverage.EveryTransactionCovered | app/run.go:97-126 | after every well-ordered run that ends with the shutdown the map is empty, and for every announced transaction that no agent request loses the agent's own line, or a proxy for its invocation with its id, has been accepted |
| Registration.StepKeepsRegistration | accumulator/batch.go:104-364 | no operation but a new registration changes function, deadline or time of an invocation that stays in the map |
| Registration.ReportOfRegistered | accumulator/batch.go:243-258 | in every run in which an id is registered once, and until its report, function, deadline and time are those registered |
| Registration.ProxyOfRegistered | accumulator/batch.go:226-232 | so, over every run, a proxy added by its runtimeDone has the status of the event, and lasts from the registered time to the time of the event |
| Registration.ShutdownProxyOfRegistered | accumulator/batch.go:264-279 | and one added by the shutdown lasts from the registered time to the registered deadline |
| LostTransaction.LostExactlyWhen | accumulator/batch.go:199-222 | a request makes an owed transaction no longer owed without adding anything if and only if it has no metadata and its first entry is that transaction |
| LostTransaction.LostForGood | accumulator/batch.go:208-222 | a transaction lost so gets no proxy in this lifetime of its invocation |
| LostTransaction.NoneOnceLost | accumulator/batch.go:208-343 | in a whole run, a transaction that is lost at any point has had no proxy before and gets none after, in this lifetime or another |
| LostTransaction.SendsExactlyWhen | accumulator/batch.go:199-222 | an operation adds a line of the agent that reports the transaction if and only if it is an agent request that is read, with metadata, and has such a line |
| LostTransaction.ReportedExactlyWhen | accumulator/batch.go:177-224 | so, over every run, such a line has been accepted if and only if such a request was sent |
| LostTransaction.CoveredExactlyWhen | app/run.go:97-126 | after every well-ordered run, an announced transaction is covered if and only if no agent request loses it, or an agent request with the agent's own line for it is read while there is metadata |
| LosingRun.LossHappens | accumulator/batch.go:199-222 | a run in which everything comes in the expected order, metadata included, and an announced transaction is lost all the same |
| LostTransaction.EmptyFirstLineLoses | accumulator/batch.go:199-222 | an empty first line before the transaction, sent before any metadata, is such a request |
| Shipping.NextConserves | apmproxy/apmserver.go:372-378 | each step of the poster or of another goroutine keeps the accounts |
| Shipping.NothingElseIsLost | apmproxy/apmserver.go:352-378 | in every interleaving: the accepted entries are, in order, those of each payload followed by those accepted while it was in flight, and then the pending ones; all payloads share the metadata and none is without an entry |
| Shipping.EveryPayloadReadsBack | accumulator/batch.go:311-364 | in every interleaving each payload splits into the metadata and its entries in order |
| Shipping.AtomicShippingLosesNothing | apmproxy/apmserver.go:372-378 | if no operation falls between snapshot and reset, payloads and pending entries are exactly the accepted entries |
| Shipping.RoundShips | apmproxy/apmserver.go:372-378 | a round that nothing comes between posts the metadata with all entries, if there are any, and resets the batch |
| Shipping.LateIsLost | apmproxy/apmserver.go:376-377 | what an operation adds in that window is accepted, but neither shipped nor kept |
| Transport.Verdict | apmproxy/apmserver.go:179-222 | for each status exactly the answers that call for it; none calls for Started |
| Transport.GracePeriodBounds | apmproxy/apmserver.go:316-328 | in [0,5) s at first, then within a tenth of the square of the count, capped at 6; never above 39.6 s |
| Transport.GraceGrowsExactlyWhen | apmproxy/apmserver.go:316-328 | the next grace period is longer for all jitters if and only if the count is from 1 to 5 |
| Transport.JitterSpreads | apmproxy/apmserver.go:316-328 | different random numbers give different grace periods, at every count |
| Transport.JitterCovers | apmproxy/apmserver.go:316-328 | every period in the range of a count is drawn by some random number |
| Transport.NextSafe | apmproxy/apmserver.go:263-314 | every step by a poster that is alone inside PostToApmServer, and every step of a grace goroutine, keeps the link safe |
| Transport.OnePosterIsSafe | apmproxy/apmserver.go:132-314 | in every interleaving with one poster: mutex never left held, one grace goroutine exactly while failing, no request while failing, the status the last one written, the count one less than the failures since healthy |
| Transport.GraceReplacesOnlyFailing | apmproxy/apmserver.go:299-310 | the end of a grace period never overwrites Healthy, RateLimited or ClientFailing |
| Transport.UpdateIsCompareAndCommit | apmproxy/apmserver.go:263-314 | what UpdateStatus computes is what its comparison and its write do in the status machine, log included |
| Transport.CallDoes | apmproxy/apmserver.go:132-223 | a lone call, step by step in the machine, makes one request unless the link is failing, and makes of the link what the answer calls for |
| Transport.TwoPostersCanLock | apmproxy/apmserver.go:273-282 | two posters have an interleaving that leaves the mutex held |
| Transport.LockSafeExactlyWhen | apmproxy/apmserver.go:263-314 | no interleaving leaves the mutex held if and only if there is at most one poster |
| RunLoop.NextKeepsTurns | app/run.go:82-141 | each step of the loop, of a forwarder or of the link keeps the turns: a forwarder runs only in its invocation or while it is waited for, and only who may post is posting |
| RunLoop.LoopIsSafe | app/run.go:82-141 | in every run, with any number of invocations, at most one of the loop and its forwarders is inside PostToApmServer, and the link is safe: the mutex is never left held |
| RunLoop.LoopComesRound | app/run.go:82-141 | from wherever the loop waits for events there is a turn in which a forwarder posts, and then the flush, and each has its effect on the link |
| RunLoop.ShutdownEnds | app/run.go:97-141 | at shutdown the loop flushes whatever the strategy, closes, flushes again and ends |
| RunLoop.FlushesExactlyWhen | app/run.go:127-139 | between invocations the loop flushes if and only if the strategy asks for it |
| RunLoop.RaceInLoop | app/run.go:88-96 | without the wait group there is a run that leaves the mutex held |
| RunLoop.SafeExactlyWithWaitGroup | app/run.go:88-96 | no run leaves the mutex held if and only if the loop waits at the wait group |
| Transport.FailuresInARow | apmproxy/apmserver.go:290-297 | from one failure to the next without success between them the count goes up by one |
| Transport.BackoffGrows | apmproxy/apmserver.go:290-328 | in every run, from the second failure in a row to the seventh, each grace period is longer than the one before, whatever the jitters |
| Forwarding.ForwardTakesBody | apmproxy/apmserver.go:352-360 | forwarding an agent payload takes in its lines and observes its transaction, unless the batch is full; afterwards it is not full |
| Forwarding.ForwardTakesRecord | apmproxy/apmserver.go:362-370 | likewise for a log record |
| Forwarding.LambdaDataAfterAgentData | apmproxy/apmserver.go:66-79 | the first record after the first agent payload is accepted if and only if there was metadata before or the payload was read and has a first line |
| Forwarding.TakingAddsNoProxy | apmproxy/apmserver.go:352-370 | forwarding any items only appends, adds no proxy and keeps the set of invocations |
| Forwarding.BroughtIsObserved | accumulator/batch.go:208-218 | a payload that is not refused and reports the owed transaction has it observed, whatever is forwarded before and after it |
| Forwarding.FlushObserves | apmproxy/apmserver.go:91-97 | so a flush of the whole queues observes every owed transaction that is reported in the queue of agent data |
| Forwarding.ReplaysCall | apmproxy/apmserver.go:132-314 | one more request extends the posts of a client as a run of the status machine, and keeps the reconnection count one less than the failures since the last 202 |
| Forwarding.DrainedIsExact | apmproxy/apmserver.go:56-80 | a forwarder with nothing more to take has, without arrivals, taken all agent data, and all records if and only if some agent payload holds something |
| Clients.Client.constructor | apmproxy/client.go:74-116 | a new client is valid: started, with no reconnection and no timer |
| Clients.Client.EndGrace | apmproxy/apmserver.go:299-310 | the end of a grace period takes Failing to Started; without one it changes nothing |
| Clients.Client.UpdateStatus | apmproxy/apmserver.go:263-314 | writes what the two steps of UpdateStatus in the status machine write (Transport.UpdateIsCompareAndCommit) |
| Clients.Client.PostToApmServer | apmproxy/apmserver.go:132-223 | the data given is posted unless failing or no request could be built, which is an input; the link becomes what the answer calls for; the posts remain a run of the status machine; an error if and only if there was no answer |
| Clients.Client.Request | apmproxy/apmserver.go:167-222 | one request, at a status that is not failing, always has an outcome, and this decides the status |
| Clients.Client.SendBatch | apmproxy/apmserver.go:372-378 | one call of PostToApmServer, with exactly the metadata and all entries, and the batch is reset even if it fails; an empty batch is left alone |
| Forwarding.CarriedNext | apmproxy/apmserver.go:372-378 | a call with the metadata and some entries keeps the account of what the posted payloads carry |
| Forwarding.PostsReadBack | apmproxy/apmserver.go:132-165 | the payloads ever posted, read back as lines, all begin with the same metadata, and what follows it in each, one after the other, are the shipped entries |
| Clients.Client.ShipIfDue | apmproxy/apmserver.go:356-359 | afterwards there are fewer entries than the threshold, or none, and none is older than the maximum age; a batch for which that is so is left alone |
| Clients.Client.ForwardAgentData | apmproxy/apmserver.go:352-360 | the data is added or dropped, and a batch that is due is shipped either way |
| Clients.Client.ForwardLambdaData | apmproxy/apmserver.go:362-370 | likewise for a log record |
| Clients.Client.ForwardNextAgentData | apmproxy/apmserver.go:92-97 | the first payload leaves its queue and is what the batch takes in; a full batch takes in nothing and is shipped |
| Clients.Client.ForwardNextLambdaData | apmproxy/apmserver.go:109-112 | the first record leaves its queue, likewise |
| Clients.Client.Arrive | apmproxy/receiver.go:139-153 | handlers only append to the queues, at most so many items |
| Clients.Client.FlushNextAgentData | apmproxy/apmserver.go:92-97 | one receive takes the next payload of the queue as it was when the flush began |
| Clients.Client.FlushAgentData | apmproxy/apmserver.go:91-97 | as many receives as the queue was long, none of which blocks: exactly the payloads that were queued are taken, whatever arrives |
| Clients.Client.FlushLambdaData | apmproxy/apmserver.go:105-124 | records are taken until the queue is empty, or the context ends; without arrivals exactly those that were queued |
| Clients.Client.FlushAPMData | apmproxy/apmserver.go:83-125 | terminates; what it has taken off the queues, in order, is what the batch has taken in, where a batch that starts full refuses just the first item; unless skipped or interrupted only metadata is left, and the payloads given to PostToApmServer carry, in order, all entries ever accepted; without arrivals it has taken all agent payloads and then all records, and both queues end empty |
| Clients.Client.FlushQueues | apmproxy/apmserver.go:90-124 | the two loops and the last batch, for a client that is not failing |
| Clients.Client.ReceiveAgentData | apmproxy/apmserver.go:61-68 | one payload is taken off its queue and taken in; one that holds nothing is skipped |
| Forwarding.AccountedNext | apmproxy/apmserver.go:352-370 | one more item taken keeps the account of what has been taken and taken in |
| Forwarding.ForwardedNext | apmproxy/apmserver.go:56-80 | and of what the forwarder has done: the gate for records, and that no post but the last has failed |
| Clients.Client.ForwardApmData | apmproxy/apmserver.go:47-81 | each queue is taken in order, exactly the payloads that hold nothing are skipped, no record before a payload that holds something, and what was taken is what the batch takes in; it stops with an error at the first post that fails; unless it fails or is cancelled it goes on until all agent data is taken, and all records once a payload held something; without arrivals that is exactly what was queued; a failing client forwards nothing |
| Clients.Client.ForwardNext | apmproxy/apmserver.go:61-78 | one turn takes one item off the queue that was chosen; only a payload that holds something opens the gate |
| Headroom.FillLevel | apmproxy/apmserver.go:352-370 | in every run the fill level is below the threshold plus what was added since the last forward |
| Headroom.NoForwardRefused | apmproxy/apmserver.go:352-378 | no forward is refused as full in a run with at most maxSize - max(1, threshold) entries added between consecutive forwards |
| Headroom.OverfillRefuses | accumulator/batch.go:281-309 | with one entry more there is such a run: records up to the threshold, then invocations whose agents announce a transaction and do not report it; the next record is refused |
| Headroom.RoomIsExact | accumulator/batch.go:281-309 | for a maximum age that is not negative, all runs with at most so many entries between forwards are without refusal if and only if these are at most maxSize - max(1, threshold) |
| FlushSignals.Channel.Close | apmproxy/receiver.go:164-168 | only an open channel is closed, which every call has to prove |
| FlushSignals.FlushSignal.constructor | apmproxy/client.go:93 | the first channel is open |
| FlushSignals.FlushSignal.HandleFlushRequest | apmproxy/receiver.go:155-172 | the current channel is closed afterwards, and is not closed twice |
| FlushSignals.FlushSignal.ResetFlush | apmproxy/apmserver.go:335-342 | a new open channel; those handed out before keep their state |
| FlushSignals.FlushSignal.WaitForFlush | apmproxy/apmserver.go:344-350 | the channel is closed if and only if a flush request was handled while it was current, also one before the call |
| FlushSignals.RequestsAre | apmproxy/receiver.go:155-172 | the numbers of resets at which requests are counted are exactly those at which one came |
| Json.ParsePrint | logsapi/model/model_json.go:26-157 | the text of every tree parses back to it, whatever delimiter follows |
| Json.ParsePrintMembers | logsapi/model/model_json.go:58-83 | likewise for members with their commas, up to the closing brace |
| Json.PrintIsOneLine | logsapi/model/model_json.go:26-157 | if the library writes no newline, the text of a tree is a single line |
| LogModel.MarshalLogContainer | logsapi/model/model_json.go:26-37 | appends the text of the container's tree |
| LogModel.MarshalLogLine | logsapi/model/model_json.go:39-56 | appends the text of the line's tree, without faas if there is none |
| LogModel.MarshalFAAS | logsapi/model/model_json.go:58-83 | commas are right whichever of the optional fields are there |
| LogModel.MarshalMetricsContainer | logsapi/model/model_json.go:85-96 | appends the text of the container's tree, for some order of the samples |
| LogModel.MarshalMetrics | logsapi/model/model_json.go:98-133 | likewise for the metrics |
| LogModel.MarshalSamples | logsapi/model/model_json.go:111-130 | the map loop writes every sample once, in some order, with commas between them |
| LogModel.MarshalExtendedFAAS | logsapi/model/model_json.go:135-149 | appends the text of its tree, without the empty fields |
| LogModel.MarshalMetric | logsapi/model/model_json.go:151-157 | appends an object with the value |
| LogModel.SamplesReadBack | logsapi/model/model_json.go:111-130 | the samples read back as the same map whatever order they were written in |
| LogModel.Micros | logsapi/model/model.go:39 | whole microseconds, truncated toward zero |
| LogModel.SampleAt | logsapi/model/model_json.go:111-130 | each sample stands at its own name, and nothing at any other |
| LogModel.LogRoundTrip | logsapi/model/model_json.go:26-83 | the text of a log record is well-formed and reads back as the record, its time to the microsecond |
| LogModel.MetricsRoundTrip | logsapi/model/model_json.go:85-157 | so does the text of a metrics record, for every order of its samples |
| LogRecords.TimeoutMs | logsapi/metrics.go:66-70 | the least whole number of seconds that is not below the time to the deadline |
| LogRecords.TimeoutIsConfigured | logsapi/metrics.go:66-70 | the reported timeout is the configured one if and only if the event came less than a second after the start, and not before it |
| LogRecords.UnixMilli | logsapi/metrics.go:70 | whole milliseconds, rounded down |
| LogRecords.LogRecordSays | logsapi/functionlogs.go:33-43 | the text of the record has the request id at log.faas.execution, the function at log.faas.id, and message and time |
| LogRecords.ReportRecordSays | logsapi/metrics.go:36-70 | that of a report has each of the six metrics at its name, and its time, request, function and cold start |
| LogRecords.ProcessFunctionLog | logsapi/functionlogs.go:28-51 | the bytes, parsed, have the request id as execution, the function as id, the message and the time, each at its key; they read back as the record; they are one line |
| LogRecords.ProcessPlatformReport | logsapi/metrics.go:36-78 | adding the samples one by one gives bytes that, parsed, have each of the six metrics at its name, with the timeout of the registered deadline and time; they read back as the record, with no other sample; they are one line |
| LogStream.LogsClient.constructor | logsapi/event.go:61-79 | nothing consumed, nothing attributed |
| LogStream.LogsClient.React | logsapi/event.go:115-175 | what an event does outside the consumer: what the batch is told, which record is made and where it goes, and that the queue of agent data and all that was accepted stay |
| LogStream.LogsClient.HandleEvent | logsapi/event.go:107-176 | the whole effect of an event; a function log is recorded for the function of this call and the latest platform.start, the report of a known invocation with what was registered for that id; exits if and only if no event is to be expected |
| LogStream.LogsClient.Notify | logsapi/event.go:115-173 | a start, a runtimeDone or a report is passed on to the batch, which appends at most the proxy; a function log or the report of a known invocation makes a record |
| LogStream.LogsClient.Forward | app/run.go:216-222 | a record goes to the end of the queue, or into the batch, which then is shipped if due; nothing else changes |
| LogStream.ConsumedNext | logsapi/event.go:70-73 | one more event keeps the account of the stream and of all that it has done; it ends the stream if and only if it is the last to be expected |
| LogStream.NotifiedDescribes | logsapi/event.go:118-125 | a runtimeDone event for which a proxy is due makes one with the status and the time of the event |
| LogStream.HandledTakes | logsapi/event.go:107-176 | an event whose record goes straight to the batch adds this record, with metadata and room, and besides at most a proxy |
| LogStream.FlushedRecordsAccepted | logsapi/event.go:81-105 | with metadata, and room for the proxies of the invocations that end among the events, all records of a flush are accepted, in order |
| LogStream.LogsClient.Consume | logsapi/event.go:61-105 | the loop of both: it ends exactly with the first event that is the last to be expected, unless cancelled or out of events, with the account of all that the events have done |
| LogStream.LogsClient.ProcessLogs | logsapi/event.go:56-79 | uncancelled, consumes exactly through the first runtimeDone of the request, or at shutdown through the first report after which no invocation is left; the batch is what these events make of it, one after the other; the records are queued in order and the agent data stays; each function log ever consumed carries the id of the latest platform.start before it and the function of its call |
| LogStream.LogsClient.FlushData | logsapi/event.go:81-105 | the same for what is buffered, with the records going into the batch in order, and ends when that is used up; both queues stay |
| LogOverlap.HarmlessIsRight | logsapi/event.go:107-176 | with two consumers at a time, events that are all of the invocation of each log are attributed rightly in every interleaving |
| LogOverlap.NotHarmlessGoesWrong | app/run.go:204-224 | for any other events there is an interleaving that attributes a log wrongly |
| LogOverlap.AttributionSafeExactlyWhen | app/run.go:97-106 | two overlapping consumers attribute every function log rightly in all interleavings if and only if all starts are for the invocation of each log and, unless that was current in the beginning, not just one of them comes before it |
| EventLoop.StepsAreBounded | app/run.go:144-255 | in every run from every state the extension's own steps are bounded by a weight of the state and the number of arrivals |
| EventLoop.AlwaysAStep | app/run.go:246-254 | some step of the extension is enabled if and only if not all three parts have ended |
| EventLoop.NoStuckInvocation | app/run.go:144-255 | with finitely many arrivals the steps are bounded and can stop only with all parts ended and the wait group at zero |
| EventLoop.StateTells | app/run.go:190-255 | in every run: the forwarder has stopped if and only if a post failed or it was cancelled; it takes records only after agent data; before the end the log consumer is done if and only if it has read its last event and got rid of the record |
| EventLoop.EndsEarlyExactlyWhen | app/run.go:238-255 | an invocation can end before its deadline if and only if the agent has signalled that it has flushed, or the log consumer is done |
| EventLoop.OnlyTheDeadlineHelps | app/run.go:216-223 | with the lambda queue full and no agent data, the deadline is the one step enabled |
| EventLoop.JammedIsReachable | app/run.go:206-223 | that state is reached from empty queues, when an invocation logs enough and no agent data comes |
| EventLoop.ArrivalsPostponeTheEnd | apmproxy/apmserver.go:56-80 | without a bound on arrivals a cancelled forwarder can go on receiving and forwarding agent data for any number of steps |
| App.CloseInvocations | app/run.go:108-124 | leaves no invocation behind if and only if all can leave; then it has added exactly one proxy for each invocation that needed one and nothing else; in any case only proxies that were due are added |
| App.CloseAndFlush | app/run.go:58-125 | the last two stages: the invocations are closed, and what that adds is flushed unless failing or interrupted |
| App.LastFlush | app/run.go:58-64 | unless failing or interrupted, the payloads posted carry all entries ever accepted; no proxy is added |
| App.Drain | app/run.go:97-107 | the batch is what the buffered events and then the queues, untouched by the events, make of it; uninterrupted, the buffered logs are used up or no invocation is live; without arrivals all that was queued is taken in |
| App.ConsumeBuffered | app/run.go:97-101 | the buffered events make of the batch what they are to make of it; the queues stay |
| App.ShutDown | app/run.go:58-126 | the whole sequence, stage by stage: buffered events, queues, closing, last flush; all that had been accepted stays accepted; the map ends empty exactly if all invocations can leave, and then each proxy due has been added once; if the last flush runs, the payloads posted carry, in order, everything ever accepted |
| App.QueuedTransactionNeedsNoProxy | app/run.go:103-107 | if the agent's own transaction for the current invocation is still queued when the first flush takes in all that is queued, no proxy for that invocation is made from then on |
| App.AcceptedStaysAccepted | app/run.go:58-126 | at no stage does an accepted entry get lost from what has been accepted |

## Left out

- HTTP servers and clients, TLS, headers, the reverse proxy, the Lambda Extensions API and the subscription to the Logs API: only an answer, an arriving body and an arriving event are modelled.
- gzip, zlib, gjson and sjson: functions of which only the stated laws are known.
- The string and number writers of fastjson: a `Codec`; that it is `Lawful` is a hypothesis.
- Configuration, environment, secrets, logging and error texts: errors are distinguished by kind.
- Clocks: `now`, the time of an event and the end of a grace period are arbitrary. The 200 ms margin of the deadline is part of the deadline step, which may come at any moment.
- Rounding of floating-point numbers: the threshold is 9/10 of the maximum in integers, jitter is a real number, and grace periods are seconds before their truncation to nanoseconds. Metric values are binary fractions; int32, int64 and float32 widths do not wrap around or round.
- Aliasing: invocations are values in the map instead of references, and a payload is a copy of the buffer instead of a slice of it.
- The nil batch, for which the client has two checks: every client here has a batch.
- platformStartRequestID is read and written by the original without its mutex; here each access is one atomic step.
- A client without a logs client (a failed subscription): the log consumer is always there in `EventLoop`.
- The queues of `Client` and `LogsClient` have no capacity, so that enqueueing neither drops nor blocks there; dropping is an arrival that does not happen, and blocking is modelled in `EventLoop`.
- The forwarder, the log consumer and the flush run one after the other on the classes; their interleavings are those of `Shipping`, `Transport`, `RunLoop`, `EventLoop` and `LogOverlap`, each for its own part of the state.
- The loop around `processEvent` and the choice between the flushing strategies are in `RunLoop` only, for who posts when.
- The early return for a shutdown without live invocations, which skips steps of the model.
- Error returns of the buffer and of the JSON writer, which never fail in the original.
- Coverage.EveryTransactionCovered: supposes the order of events that the Lambda environment keeps, and metadata before any finalisation; a second agent init or a report before its runtimeDone are outside its hypotheses.
- Headroom.RoomIsExact: supposes a maximum age that is not negative, since otherwise every forward ships at once, and a registration body that brings metadata, since otherwise no proxy is ever added.
