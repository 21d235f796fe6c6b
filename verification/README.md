# Protocol core of the Fountain client

A model of the socket-free core of the Fountain device client, with proofs. It covers

- the request dispatcher: priority queue with coalescing, token bucket, in-flight cap,
  deadlines, correlation by message id, failing everything on disconnect;
- the controller session: the four-state handshake, message ids and sequence numbers, signing
  over canonical JSON, anti-replay;
- the datapoint poller: a grid schedule that skips instead of catching up, in-flight
  suppression, chunks, keepalive, and how long a client can be silent;
- log pagination, the datapoint cache with its subscriptions, key decoding, and the client's
  connect and reconnect.

`dafny verify dfyconfig.toml` checks everything.

## How it is laid out

Each stateful part exists twice. A module of functions (`DispatcherState`, `DispatcherOps` and
`DispatcherReplies`, `Link`, `SessionState`, `PollerState`, `CacheState`, `ClientState`) says
what each operation does to a value that also carries a history: what was submitted, sent,
called, ingested, handed in. A class (`RequestDispatcher`, `Outlet`, `ControllerSession`,
`DatapointPoller`, `DatapointManager`, `Connector`) updates its fields in place with the loops
of the source, and every method is proved to do to the object's `View()` what the function does
to the value. The promises are proved about the functions, for every run: `SessionRuns.Run`,
`PollerTheorems.Run`, `CacheTheorems.Run` and `ClientTheorems.Run` carry an invariant through
every sequence of events, and the `...Theorems` modules, `PollerRequests`, `Silence` and
`SilenceStart` say what it means. `ClientTick` puts session and poller together, `ReadFrames`
holds the catalog's guard and measures frames, `SessionFaults` says on which frames reading a
member throws, and the `...Examples` modules hold runs that reach what is reported below.

Handlers are finite trees: a handler that is called submits its follow-ups from within the
callback, to any depth. `Ready` and `Follows` in `DispatcherOps` are sealed under a trivial
quantifier so that proofs which only pass them on stay small.

## What was found

- A first signed frame that is not an `ota_check` is verified, establishes the session and is
  then dropped: `handle_proof` has used up its sequence number when `dispatch_running` checks it
  again. The comment at src/protocol/session.cpp:373-377 expects it to be processed. See
  `SessionTheorems.FirstFrameDropped` and `SessionExamples.FirstHeartbeatIsDropped`.
- `value(key, default)` throws when the member has another type than the default, and nothing
  catches it on the way to `io.run()` (src/client.cpp:118-121). A frame `{"type": 5}` therefore
  ends the IO thread in AwaitHello and in Running, before any verification; so does the reply to
  a command whose `status` is a number, or a log batch whose `boot_id` is a text.
  `SessionFaults.Throws` says on which frames this happens in each state, the handlers that the
  client's services give to their requests included; `SessionObject.ControllerSession.OnText` is
  proved to throw on exactly those. See `SessionFaults.TypeFiveThrows`,
  `SessionFaults.BadStatusThrows`, `SessionFaults.BadBatchThrows` and
  `SessionExamples.CommandStatusThrows`.
- Coalescing compares keys only (src/protocol/dispatcher.cpp:59-64). A request that joins one of
  another type gets that one's reply as a success, although `accepts_response` forbids it for its
  own type. This cannot happen exactly when requests that may share a non-empty key agree in what
  answers them. See `SessionExamples.CorrelatedIffKeysAgree` and `SessionExamples.CommandTakesReport`.
- `read_all` compares `*last + 1` with `next_seq` in 32 bits. When the ring's last number is
  the largest word, `next_seq` is 0, the loop stops after the first batch, and the result is
  complete exactly if that batch has room for all there is. See `Logs.ReadAll` and
  `Logs.WrappedLoses`.
- `field_string` asks `is_number_integer()` first, which unsigned numbers also satisfy, so they
  go through `int64_t`; the unsigned branch at src/protocol/auth.cpp:46-48 is never reached.
- A raster that is rebuilt while polls are open asks for their names again. See
  `PollerTheorems.RebuildStacks` and `PollerExamples.ReconnectStacks`.
- `every(0ms, ...)` is accepted, and the first tick divides by zero (src/datapoints/poller.cpp:241).
  A tick does so exactly if a periodic entry has the interval zero: `PollerTheorems.CanTickIff`,
  `PollerExamples.ZeroIntervalDivides`. A negative interval is accepted too, and its entry is due
  at every tick: `PollerRequests.GridIsConserved`.
- The typed `every()` does not ask the catalog for the name (include/fountainer/datapoints/poller.hpp:55-59),
  but `async_read` does, and refuses the whole chunk (src/datapoints/manager.cpp:153-160). While a
  refused poll is due at every tick, no keepalive is asked for, and a client with nothing else to
  send is silent past every limit: `SilenceExamples.UnknownIsMute`. A tick in such a silence sends
  something exactly under the condition of `ClientTick.SilentTickTransmitsIff`; names from the
  catalog are enough for the bound of `Silence.SilenceIsBounded`.
- An attempt to reconnect that ends in `validate()` or at the TLS context leaves the client in
  Reconnecting with no timer until its user steps in. See `ClientTheorems.StallsIff` and
  `ClientTheorems.StalledUntilAsked`, and `ClientExamples.StallIsReached`. A first connect that
  ends at the TLS context leaves the configuration locked: `ClientTheorems.LockedWhileDisconnectedIff`
  and `ClientExamples.JamIsReached`. `ClientState::Closing` is never entered.

## Model

| member | source | states |
|---|---|---|
| `CanonicalWriter.CanonicalSerialize` | src/protocol/canonical.cpp:72-139 | The writer, which appends to one shared buffer and keeps a first-element flag, produces the canonical text of every JSON value |
| `CanonicalWriter.EscapeJsonString` | src/protocol/canonical.cpp:19-46 | The loop over the characters escapes each one as section 7 of RFC 8259 demands and leaves the others |
| `CanonicalParser.ParseCanonical` | src/protocol/canonical.cpp:72-139 | A parser recovers every well-formed value from its canonical text followed by any rest that cannot extend a number, and leaves that rest; integers, unsigned numbers and integral floats come back as one |
| `CanonicalParser.CanonicalIsInjective` | src/protocol/canonical.cpp:72-139 | Two well-formed values have the same canonical text exactly if they agree up to those three number types |
| `CanonicalParser.CanonicalIsPrefixFree` | src/protocol/canonical.cpp:72-139 | Canonical texts with a rest behind them split in one way only |
| `KeyDecoding.DecodeHexKey` | src/security.cpp:29-59 | The streaming nibble decoder returns the decoding of the text with its white space stripped |
| `KeyDecoding.LoadHmacKey` | src/protocol/auth.cpp:165-187 | The strip-then-decode loader returns the same decoding on every text, so the two accept the same texts and give the same bytes |
| `KeyDecoding.DecodeInvertsEncode` | src/security.cpp:29-59 | A text decodes to a key exactly if, stripped and in lower case, it is the hex encoding of that key of 32 bytes |
| `Auth.VerifyAcceptsSigned` | src/protocol/auth.cpp:125-157 | verify accepts what sign made of any message, signed before or not, and reads back its sequence number |
| `Auth.MacInputIgnoresAuth` | src/protocol/auth.cpp:54-112 | The signed text does not depend on the auth member |
| `Auth.MacInputBinds` | src/protocol/auth.cpp:34-112 | Equal signed texts come from equal lists of 13 fields and, unless the hash collides on the two bodies, from equal canonical bodies, when no field contains 0x1F |
| `AuthMethods.BuildCanonicalBody` | src/protocol/auth.cpp:54-66 | The loop keeps exactly the members outside the envelope |
| `AuthMethods.HashBody` | src/protocol/auth.cpp:68-82 | Body, canonical text, hash and hex digits in this order |
| `AuthMethods.BuildMacInput` | src/protocol/auth.cpp:84-112 | The loop joins the 13 fields with 0x1F |
| `AuthMethods.Envelope.Sign` | src/protocol/auth.cpp:125-131 | The message in place becomes the signed message |
| `AuthMethods.AntiReplay.Check` | include/fountainer/protocol/auth.hpp:62-77 | A number is accepted exactly if it is above the last one accepted, and then becomes the last |
| `OutletObject.Outlet.EncodeAndSend` | src/protocol/session.cpp:162-198 | Id, signature, frame limit and transport in the source's order, with the error of each step and what each step has used up by then |
| `OutletObject.Outlet.SendMessage` | src/protocol/session.cpp:149-160 | A message without an id, signed if its type demands it, no frame limit |
| `OutletObject.Outlet.Authenticate` | src/protocol/session.cpp:149-180 | Control messages take the next sequence number even when they are not sent afterwards |
| `Link.EncodeAndSendSigns` | src/protocol/session.cpp:162-198 | Whatever encode_and_send puts on the wire as control verifies under the session's context, with a number above all earlier ones |
| `Link.SendMessageSigns` | src/protocol/session.cpp:149-160 | The same for send_message |
| `Dispatcher.RequestDispatcher.Submit` | src/protocol/dispatcher.cpp:51-83 | Joins the first waiting request with the key, raising its priority and deadline, or queues a new one and ticks |
| `Dispatcher.RequestDispatcher.Refill` | src/protocol/dispatcher.cpp:85-97 | The bucket gains the rate times the time passed, up to its size; the first call only sets the clock |
| `Dispatcher.RequestDispatcher.EraseExpiredQueue` | src/protocol/dispatcher.cpp:154-165 | The erase loop reports and removes exactly the entries with a passed deadline, in order |
| `Dispatcher.RequestDispatcher.EraseExpiredPending` | src/protocol/dispatcher.cpp:167-180 | The same for open requests |
| `Dispatcher.RequestDispatcher.MinElement` | src/protocol/dispatcher.cpp:115-122 | Position of the first least entry by priority, then sequence |
| `Dispatcher.RequestDispatcher.Drain` | src/protocol/dispatcher.cpp:99-149 | Sends in strict priority while tokens and the in-flight cap allow it; handlers of failed sends may submit again, nested drains do nothing |
| `Dispatcher.RequestDispatcher.Tick` | src/protocol/dispatcher.cpp:151-183 | Refill, both expiry loops, then drain |
| `Dispatcher.RequestDispatcher.OnMessage` | src/protocol/dispatcher.cpp:185-226 | A reply leaves pending before its handlers run; a type that is not allowed fails them; other messages change nothing |
| `Dispatcher.RequestDispatcher.FailAll` | src/protocol/dispatcher.cpp:228-243 | Everything is taken out first, then every handler is failed; what the handlers submit stays |
| `Dispatcher.RequestDispatcher.Complete` | src/protocol/dispatcher.cpp:39-49 | Each handler is called once, in order, and may submit again from within the call |
| `DispatcherInvariants.RefillKeepsInv` | src/protocol/dispatcher.cpp:85-97 | Refilling keeps the rate bound, and with it all other promises |
| `DispatcherInvariants.ExpireQueueKeepsInv` | src/protocol/dispatcher.cpp:154-165 | Expiry of the queue keeps every promise and leaves nothing overdue |
| `DispatcherInvariants.ExpirePendingKeepsInv` | src/protocol/dispatcher.cpp:167-180 | Expiry of open requests likewise |
| `DispatcherSteps.TakenSentKeepsInv` | src/protocol/dispatcher.cpp:127-147 | Sending keeps every promise: the id is new, the entry conserved, the order and the rate kept, the deadline unchanged |
| `DispatcherSteps.TakenReplyKeepsInv` | src/protocol/dispatcher.cpp:201-225 | So does taking a reply |
| `DispatcherSteps.JoinedKeepsInv` | src/protocol/dispatcher.cpp:57-72 | So does joining a waiting request; its deadline becomes the latest of the joined ones |
| `DispatcherOps.Submit` | src/protocol/dispatcher.cpp:51-83 | Keeps every promise and makes progress: frames go out at this time only, by strict priority, and the work left is bounded by what was added |
| `DispatcherOps.Tick` | src/protocol/dispatcher.cpp:151-183 | The same, and afterwards nothing waiting or open is overdue, entries sent in this tick included |
| `DispatcherOps.DrainLoop` | src/protocol/dispatcher.cpp:110-148 | Terminates with handlers that submit again, because every turn uses up part of the finite work of the handler trees |
| `DispatcherReplies.OnMessage` | src/protocol/dispatcher.cpp:185-226 | Consumed exactly if the message names a request; unknown ids change nothing |
| `DispatcherReplies.FailAll` | src/protocol/dispatcher.cpp:228-243 | Keeps every promise when the session has left Running |
| `DispatcherTheorems.ExactlyOnce` | src/protocol/dispatcher.cpp:39-243 | No submission is called more often than it was made, and exactly as often once nothing is left |
| `DispatcherTheorems.DrainTransmits` | src/protocol/dispatcher.cpp:99-149 | With nothing open and a token, a drain transmits, or every waiting request has failed and the token is still there |
| `DispatcherTheorems.DeviceNeverBelow` | include/fountainer/protocol/dispatcher.hpp:64-70 | A device bucket that refills at least as fast as the budget never falls below its capacity minus the burst |
| `DispatcherTheorems.DefaultBudgetLeavesTwelve` | README.md:234-235 | The firmware's bucket of 20 tokens at 5 per second keeps 12 under the default budget |
| `SessionObject.ControllerSession.OnTransportOpen` | src/protocol/session.cpp:104-116 | Fresh nonce, counters and deadline, and sending blocked |
| `SessionObject.ControllerSession.OnTransportClosed` | src/protocol/session.cpp:118-122 | Closed first, then every handler is failed |
| `SessionObject.ControllerSession.Abort` | src/protocol/session.cpp:124-134 | At most once per connection |
| `SessionObject.ControllerSession.Tick` | src/protocol/session.cpp:205-215 | Gives up a handshake past its deadline, otherwise ticks the dispatcher |
| `SessionObject.ControllerSession.OnText` | src/protocol/session.cpp:217-239 | Garbage is fatal outside Running and dropped in it; messages go to the handler of the state; an exception leaves it on exactly the frames of Throws, those that a reply handler of the services throws on included |
| `SessionObject.ControllerSession.ResolveKid` | src/protocol/session.cpp:281-301 | The loop finds the first key id that resolves, and otherwise the last failure |
| `SessionObject.ControllerSession.HandleHello` | src/protocol/session.cpp:241-345 | The branches of the hello, the order of its checks and the error each ends in, and the hellos whose members throw |
| `SessionObject.ControllerSession.HandleProof` | src/protocol/session.cpp:347-379 | Verify, then anti-replay, then Running; ota_check is answered before, other types are dispatched after; and the frames that throw on the way |
| `SessionObject.ControllerSession.Judge` | src/protocol/auth.cpp:133-157 | verify reads key id, number and MAC in this order; it throws exactly on a signature whose key id is no text, or whose MAC is none once key id and number are in order |
| `SessionObject.ControllerSession.DispatchRunning` | src/protocol/session.cpp:403-497 | Signed frames that fail verification or replay are dropped; the dispatcher sees a message before the callbacks; a type that is no text throws before anything is verified, other members only in a frame that is not dropped, and in a reply what the handlers of its request read |
| `SessionObject.ControllerSession.ReadReply` | src/commands.cpp:47-63 | The handlers of the services throw on exactly the replies of ReplyThrows: a status that is no text, an ok that is no flag, a batch that cannot be read |
| `SessionFaults.TypeFiveThrows` | src/protocol/session.cpp:241-243 | The input: {"type": 5} throws in AwaitHello and in Running, and in no other state |
| `SessionFaults.BadStatusThrows` | src/commands.cpp:54 | The input: the reply to an open command whose status is 5 |
| `SessionFaults.BadBatchThrows` | src/logs.cpp:12-37 | The input: the reply to an open log_read whose boot_id is a text |
| `SessionExamples.CommandStatusThrows` | src/commands.cpp:54 | A run that ends with such a command open |
| `SessionFaults.WellTypedNeverThrows` | src/protocol/session.cpp:217-497 | A frame whose members have the types that the session and the handlers of the services read them as throws in no state |
| `SessionFaults.SignedIsReadable` | src/protocol/auth.cpp:125-157 | What sign made never makes verify throw |
| `SessionRuns.Run` | src/protocol/session.cpp:63-497 | Every reachable state is good: handshake, anti-replay, signed stream and all promises of the dispatcher hold together |
| `SessionRuns.HelloKeepsGood` | src/protocol/session.cpp:241-345 | Whatever the hello says, the state stays good; past it the key in use is the one the offered id resolves to |
| `SessionRuns.ProofKeepsGood` | src/protocol/session.cpp:347-379 | Running is entered only with a frame verified under this connection's key and nonces |
| `SessionRuns.DispatchKeepsGood` | src/protocol/session.cpp:403-497 | Messages in Running keep the state good |
| `SessionTheorems.RunIsSafe` | src/protocol/session.cpp:85-134 | Sending is enabled exactly in Running; on_ready at most once, on_ready or on_failed but not both, on_ready only after an accepted hello and a verified proof; requests are open in Running only |
| `SessionTheorems.HandshakeEnds` | src/protocol/session.cpp:205-215 | After a tick at or past the handshake deadline the session is running or closed |
| `SessionTheorems.TickLeavesNothingOverdue` | src/protocol/dispatcher.cpp:151-183 | In every state, after a tick that reaches the dispatcher nothing waiting or open is overdue |
| `SessionTheorems.NoEarlyTimeout` | src/protocol/dispatcher.cpp:54-79 | No handler is told of a timeout before its own submit time plus timeout |
| `SessionTheorems.DeadlineIsTheLatest` | src/protocol/dispatcher.cpp:57-72 | The deadline of a waiting request is the latest of its joined submissions' |
| `SessionTheorems.OpenDeadlineIsTheLatest` | src/protocol/dispatcher.cpp:137-147 | Sending leaves that deadline as it was |
| `SessionTheorems.RunConserves` | src/protocol/dispatcher.cpp:51-251 | At every moment each submission is waiting, open or called, in one place only, and the metrics add up |
| `SessionTheorems.LossLeavesNothing` | src/protocol/session.cpp:118-122 | After a loss every submission made before it has been called, nothing is open, and only newer requests wait |
| `SessionTheorems.LateReplyIsInert` | src/protocol/dispatcher.cpp:185-226 | Once a frame of the connection is no longer open, whether its reply was taken or it timed out, no message that names it calls a handler or changes the dispatcher |
| `SessionTheorems.TimedOutIsRetired` | src/protocol/dispatcher.cpp:167-180 | A tick at or past the deadline of an open request takes its id out of use for the rest of the connection |
| `SessionTheorems.AnsweredOnce` | src/protocol/dispatcher.cpp:201-225 | A reply that is taken does the same |
| `SessionTheorems.SuccessIsAnswered` | src/protocol/dispatcher.cpp:197-225 | A handler succeeds only with the answer to a frame that carried its submission, of a type that the frame's request allows |
| `SessionTheorems.RightKindIfKeysAgree` | src/protocol/dispatcher.cpp:57-72 | In a run whose requests with a common key agree in what answers them, a success has a type that the submission's own request allows |
| `SessionExamples.CorrelatedIffKeysAgree` | src/protocol/dispatcher.cpp:57-72 | Over all runs: every success has a type that the submission's own request allows, if and only if the requests that may share a key agree in what answers them |
| `SessionExamples.CommandTakesReport` | src/protocol/dispatcher.cpp:59-64 | The input: a command joins a waiting dp_read and succeeds with its dp_report |
| `SessionExamples.WrongKindIsReached` | src/protocol/dispatcher.cpp:59-64 | Any two requests that share a key and disagree lead to such a success |
| `SessionTheorems.SafetyFirst` | src/protocol/dispatcher.cpp:57-148 | While a safety-control request waits, submitted so or raised by coalescing, nothing of lower priority is sent |
| `SessionTheorems.EqualPriorityInOrder` | src/protocol/dispatcher.cpp:114-126 | Requests of one priority that nothing joined leave in the order of submission |
| `SessionTheorems.RunIsMetered` | src/protocol/dispatcher.cpp:85-149 | Requests sent between two moments number at most the burst plus the rate times the time; open ones never exceed the cap; the device's bucket keeps 12 |
| `SessionTheorems.PeerAcceptsEveryFrame` | src/protocol/session.cpp:149-198 | A peer with the context that runs verify and then the replay check accepts every control frame since the accepted hello, frames that burned a number in between included |
| `SessionTheorems.ReplayIsInert` | src/protocol/session.cpp:409-423 | A signed frame with a number not above an accepted one changes nothing but a warning |
| `SessionTheorems.InboundRises` | include/fountainer/protocol/auth.hpp:62-77 | The sequence numbers accepted on one connection rise strictly |
| `SessionTheorems.FirstFrameDropped` | src/protocol/session.cpp:347-379 | A first signed frame that is not an ota_check establishes the session and is then dropped as a replay of itself, and only such a frame is |
| `SessionExamples.FirstHeartbeatIsDropped` | src/protocol/session.cpp:371-378 | The run: hello, then a signed heartbeat; the session is ready and the only notice is a warning |
| `PollerObject.DatapointPoller.Tick` | src/datapoints/poller.cpp:209-307 | Rebuild if needed, one pass over the entries, then the polls in chunks or one keepalive, for all intervals; it divides by zero exactly unless CanTick |
| `PollerObject.DatapointPoller.ResetRaster` | src/datapoints/poller.cpp:50-59 | The loop moves every entry's grid to now and forgets what was in flight |
| `PollerObject.DatapointPoller.CollectDue` | src/datapoints/poller.cpp:219-247 | The pass collects the due names in order and adds every skip and missed cycle to the statistics; it stops at the first entry that is due with an interval of zero |
| `PollerObject.DatapointPoller.RequestChunks` | src/datapoints/poller.cpp:274-306 | The chunk loop asks for the due names, a hundred at a time |
| `PollerObject.DatapointPoller.OnCompleted` | src/datapoints/poller.cpp:292-304 | A completion clears in_flight for its names and no other |
| `PollerObject.DatapointPoller.NextDeadline` | src/datapoints/poller.cpp:196-207 | The earliest deadline of the entries still to be polled |
| `PollerObject.DatapointPoller.StartDefaults` | src/datapoints/poller.cpp:124-157 | One entry for each catalog name by its poll class, then a rebuild |
| `PollerTheorems.Run` | src/datapoints/poller.cpp:43-307 | Every reachable poller is good, whatever is configured, negative intervals included, and whatever is ticked and completed in whatever order, up to a tick that divides by zero |
| `PollerTheorems.CanTickIff` | src/datapoints/poller.cpp:234-242 | In every reachable poller that runs, a tick gets through exactly if no periodic entry has the interval zero |
| `PollerExamples.ZeroIntervalDivides` | src/datapoints/poller.cpp:240-241 | The input: every(0ms, name), start(), and the first tick divides by zero |
| `PollerRequests.IssuedIsAsked` | src/datapoints/poller.cpp:219-306 | What an entry's ledger counts as issued are the polls of its name among the requests of the ticks since the rebuild |
| `PollerRequests.GridIsConserved` | src/datapoints/poller.cpp:219-247 | Since the rebuild every step along the grid is a poll that a tick asked for, one skipped or a cycle missed; the next deadline is the least grid point after the last tick, and lies ahead exactly if the interval is positive |
| `PollerRequests.StatisticsAreSums` | src/datapoints/poller.cpp:229-243 | The statistics are the sums of the entries' ledgers |
| `PollerRequests.NoStacking` | src/datapoints/poller.cpp:219-306 | From a rebuild with nothing outstanding to the next, no name is in two open polls; the ticks have asked for a once-entry once |
| `PollerTheorems.RebuildStacks` | src/datapoints/poller.cpp:50-59 | A rebuilding tick asks for every entry once more: a name stays in at most one open poll exactly if it was in none |
| `PollerExamples.ReconnectStacks` | src/datapoints/poller.cpp:184-188 | The run: a reconnect while a poll is open, and two polls of the name are open |
| `PollerTheorems.ChunksPartition` | src/datapoints/poller.cpp:274-277 | Chunks are non-empty, hold at most 100 names and concatenate to the due names |
| `PollerTheorems.ChunksCount` | src/datapoints/poller.cpp:274-277 | Each due name is in exactly one chunk |
| `PollerTheorems.DeadlineIsExact` | src/datapoints/poller.cpp:196-207 | While the raster stands, a tick touches an entry exactly if it comes at or after next_deadline, and polls nothing before it |
| `PollerTheorems.TickRequests` | src/datapoints/poller.cpp:249-272 | A tick in a silence as long as the keepalive interval asks for something |
| `ReadFrames.AsyncRead` | src/datapoints/manager.cpp:140-166 | A read is submitted exactly if it names something and all its names are in the catalog; otherwise it fails at once |
| `ClientTick.SilentTickTransmitsIff` | src/client.cpp:350-362 | For all clients with the generated catalog: a tick that finds a silence as long as the keepalive interval transmits, exactly if the session's part of it does or the transport takes one of the reads of the tick that async_read submits |
| `ClientTick.ReadsTransmitIff` | src/protocol/dispatcher.cpp:51-149 | Reads submitted to an idle dispatcher transmit exactly if the transport takes one of them |
| `SilenceExamples.CutTick` | src/datapoints/poller.cpp:249-306 | The input: however long the silence, a tick whose only due name is outside the catalog sends nothing, and the name is due again by the next |
| `SilenceExamples.UnknownIsMute` | include/fountainer/datapoints/poller.hpp:55-59 | The run: a handshake, every(50ms, "Foo") and ticks every 100 ms; no number of them sends a frame, with the keepalive on |
| `Silence.SilentTickTransmits` | src/client.cpp:350-362 | With all its entries in the catalog, such a tick transmits when the transport takes the next frame, whatever waits, is open or fails |
| `Silence.SilenceIsBounded` | README.md:236-238 | While running, frames are never keepalive plus d or more apart when everything polled is in the catalog, every event comes within d of the last tick, timeouts are below the keepalive interval, the budget gains a token in it, and the transport takes the frame that is to break a silence |
| `Silence.DefaultsStayBelowTheLimit` | README.md:236-238 | The default budget and keepalive meet the conditions and stay under the device's 300 s for any d up to 60 s |
| `Silence.PlainEnvIsAble` | src/protocol/session.cpp:162-198 | A client whose frames are as long as their text and whose transport takes them meets all the conditions |
| `ReadFrames.ReadFits` | src/datapoints/poller.cpp:16-20 | A read of at most a hundred names of up to 25 plain characters, the longest of the catalog, fits the frame limit of 4096 |
| `ReadFrames.ReadGoesOutIff` | src/protocol/session.cpp:162-198 | Such a read is sent exactly if the transport takes the next frame |
| `SilenceStart.RunningStartsCalm` | src/protocol/session.cpp:104-116 | Every run enters Running in a state that the bound can start from, if the handshake deadline is at most the keepalive interval |
| `SilenceStart.SilenceIsBoundedFromTheStart` | README.md:236-238 | The bound from the step that enters Running, for every run of the session and every configuration of the poller from the catalog before it |
| `Logs.ReadAll` | src/logs.cpp:119-151 | Succeeds exactly if no page fails twice; then the result is every matching record once and in order, however the device cuts its batches and whichever pages time out once, exactly if the ring's next number has not wrapped to 0 or the first batch that arrives has room for them |
| `Logs.ReadPage` | src/logs.cpp:130-138 | One retry after a timeout, none after another error |
| `Logs.RestAfter` | src/logs.cpp:142-148 | Asking again after any record of the answer gives exactly the rest |
| `Logs.WrappedLoses` | src/logs.cpp:144-147 | An input on which a record is lost |
| `Logs.BuildBatch` | src/logs.cpp:12-37 | The parsing loop skips what is not an object, takes every number among the args as int64, reduces the other numbers to their widths, and throws exactly on the messages of BatchThrows |
| `Logs.BatchRoundTrip` | src/logs.cpp:12-37 | A batch encoded by a device is read back as it was, without an exception |
| `CacheObject.DatapointManager.UpdateCache` | src/datapoints/manager.cpp:83-124 | Every value goes into the cache, and the callbacks due are collected in the order of names and subscriptions |
| `CacheObject.DatapointManager.IngestReport` | src/datapoints/manager.cpp:494-502 | Decode, update, then call what was collected |
| `CacheObject.DatapointManager.DecodeObject` | src/datapoints/manager.cpp:19-39 | Names that are unknown or undecodable are left out |
| `CacheObject.DatapointManager.SubscribeRaw` | src/datapoints/manager.cpp:467-482 | A new token, appended to the subscriptions |
| `CacheObject.DatapointManager.Unsubscribe` | src/datapoints/manager.cpp:475-481 | Removes the slots of the token |
| `CacheObject.DatapointManager.MarkAllStale` | src/datapoints/manager.cpp:504-511 | Good becomes stale, nothing else changes |
| `CacheObject.DatapointManager.CachedRaw` | src/datapoints/manager.cpp:331-339 | The entry of a name that has a value |
| `CacheTheorems.CacheIsTheFold` | src/datapoints/manager.cpp:83-124 | The cache holds the last value ingested for each name, Good exactly if it came since the last marking |
| `CacheTheorems.SubscribersSeeTheChanges` | src/datapoints/manager.cpp:103-121 | A registered subscriber was told of exactly the changes in what was ingested since it subscribed; marking plays no part |
| `CacheTheorems.ChangesFormAChain` | src/datapoints/manager.cpp:93-112 | For one name the changes are the values with consecutive repeats removed, each with the one before as its old value |
| `CacheTheorems.ChangesEndAtLast` | src/datapoints/manager.cpp:93-112 | The last change carries the last value ingested |
| `ClientObject.Connector.BeginConnect` | src/client.cpp:202-262 | Answered at once when ready, otherwise enlisted; one attempt at a time |
| `ClientObject.Connector.OnOpened` | src/client.cpp:264-282 | A failed dial is a lost connection, a good one starts the handshake |
| `ClientObject.Connector.OnReady` | src/client.cpp:313-324 | The backoff is reset and every waiting completion called |
| `ClientObject.Connector.HandleConnectionLost` | src/client.cpp:381-428 | Cancelled, failed for good, or reconnecting after the delay of its cause |
| `ClientObject.Connector.CompleteConnect` | src/client.cpp:430-434 | The list is emptied before the completions are called |
| `ClientObject.Connector.RequestDisconnect` | src/client.cpp:449-471 | Waits for the connection to close, or releases at once when there is none |
| `ClientTheorems.Run` | src/client.cpp:202-471 | Every reachable client accounts for its completions and waiters |
| `ClientTheorems.CompletedAtMostOnce` | src/client.cpp:202-434 | A completion is called at most once for each time it was handed in, and exactly so once no attempt is in progress; the pending list is empty outside an attempt; those who wait for a disconnect are released once the connection is gone |
| `ClientTheorems.BackoffOverRuns` | src/client.cpp:401-415 | The backoff is min(max, initial * 2^(k-1)), k being the events since the last Ready that lost the connection, not to authentication, and led to a reconnect; a timer waits for it and at most a quarter more, or for the authentication delay |
| `ClientTheorems.ReconnectsIff` | src/client.cpp:381-399 | In every run a loss leads to a reconnect exactly if the session was ready before, reconnecting is enabled and the user has not disconnected |
| `ClientTheorems.StallsIff` | src/client.cpp:228-251 | In every run the client comes to be in Reconnecting with no timer and no handler on its way exactly by an attempt out of Reconnecting that ends in validate() or at the TLS context |
| `ClientTheorems.StalledUntilAsked` | src/client.cpp:202-471 | Over every continuation it stays stalled until a disconnect, or a connect that gets to dial; nothing else can happen to it |
| `ClientExamples.StallIsReached` | src/client.cpp:422-428 | The run: connect, ready, the loss of the connection, and an attempt of the timer that ends in validate() |
| `ClientTheorems.LockedWhileDisconnectedIff` | src/client.cpp:231-251 | In every run a disconnected client has its configuration locked exactly if an attempt out of Disconnected ended at the TLS context and nothing has come since but attempts that did not get to dial |
| `ClientExamples.JamIsReached` | src/client.cpp:231-251 | The run: a first connect that ends at the TLS context |

## Left out

- Exactly-once across sessions: `begin_connect` replaces the session (src/client.cpp:246) together with what still waits in it; the statements are about the life of one session object.
- Handlers that submit again from the expiry loops of `tick` (src/protocol/dispatcher.cpp:154-180): those loops hold iterators across the call. The product posts every submit (src/client.cpp:140-152). Timeouts therefore run no follow-ups in the model.
- Follow-ups are submitted at the clock reading of the callback; the source reads the clock again for each.
- `Silence.SilenceIsBounded`: the reads of one tick reach the session together, at the second clock reading of the tick; other work posted between the tick and its reads is ordered before or after them. The catalog is a parameter; of its 107 generated names the statements use that they have at most 25 plain characters and that System_Uptime is one of them.
- The transport, TLS, DNS and threads: the transport is a sequence of events, frames arrive only while it is open, and the n-th hand-over succeeds or not by a parameter.
- HMAC, SHA-256, nonces, the credential provider, the OTA policy, the wall clock and the length of an encoded frame are parameters.
- Floating point: token amounts are reals; a JSON float that is not integral is an opaque token with its digits (`canonical_number`, src/protocol/canonical.cpp:48-68, is not modelled).
- `SessionRuns.Run`: goes on past a frame that throws in the source, reading the default; there the process ends.
- Exceptions that a user's own callback throws, and `build_message`'s for an unknown type: `Outlet.SendMessage` requires a known one.
- `Logs.BuildBatch`: the integral part of a float is a parameter.
- The peer of `SessionTheorems.PeerAcceptsEveryFrame` verifies the JSON value as it was sent; dump and parse of the transport text are not modelled.
- Counters are unbounded: no wrap-around of 64-bit metrics, ids and sequence numbers.
- Null handlers, `set_budget` and `set_default_timeout` while requests wait.
- `PollerTheorems.Run`: ends at a tick that divides by zero. The missed cycles of a negative interval count below zero, where the source adds them to a 64-bit counter that wraps.
- `PollerRequests.NoStacking`: only for rasters rebuilt with nothing outstanding, because `reset_raster` forgets what is in flight.
- `Logs.ReadAll`: the ring does not change between pages; sequence number 0 is never after `since_sequence`, as in the source.
- Subscribers that change the manager from within a callback.
- Staging, commit, write sets, cross-field constraints, what the catalog says of a name, the codec, commands, maintenance, logging, the event bus, configuration files and the command line: table lookups and local checks.
