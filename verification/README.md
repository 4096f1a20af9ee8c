# Gateway verification

A Dafny model of the gateway system: the C++ data plane (`cpp-gateway`), its
frame and HTTP codecs, and the parts of the Go control plane
(`go-control-plane`) it depends on. `dafny verify dfyconfig.toml` checks
everything.

## What is modelled

**The data plane** (`Server.dfy`, `ServerSteps.dfy`) is a labelled transition
system. One Reactor thread owns all connections. Normal workers and AUTH workers
reach it through three bounded queues, a set of rejected keys and an eventfd. A
step is what one thread does between two points where another thread can see or
change shared state: in particular a queue push and the `in_flight_work`
increment after it are two steps, and so are a worker's push and its
notification. Any interleaving of any steps is a run. The environment chooses
descriptors (reused at will), chunks, partial writes, socket and epoll errors,
clock readings, handler answers, configurations, stop requests and whether the
shutdown deadline has passed.

`ServerInvariant.dfy` states one inductive invariant in six parts; the files
`Server*Proof.dfy` prove each part for every step, and `ServerRuns.dfy` joins
them: `ServerRuns.StepKeeps`, `ServerRuns.Always`. `ServerTheorems.dfy`,
`ServerHistory.dfy`, `ServerOutcomes.dfy`, `ServerInput.dfy`, `ServerRates.dfy`
and `ServerDrain.dfy` draw the conclusions about runs. `ServerLife.dfy` says
exactly when a connection begins and ends and what each step makes of it,
`ServerRouting.dfy` where frames, pushes and the Reactor go, both in terms of
fields and steps; `ServerWitness.dfy` builds the run that fills a client's
connection limit.

Some fields of the model are history: what a connection was asked, answered, owed
and sent, serial numbers, lost responses, the owners of cancellation flags, and
the book of admitted and served work. A serial is taken from the book, but no step
depends on any of it: states that differ only in history allow the same steps and
stay that way (`ServerErasure.HistoryIsInert`). What was asked, answered, sent,
admitted and served only grows (`ServerHistory.RunEvolves`).

**Objects that the source updates in place** are classes proved against the
values used by the transition system: `Queues.BlockQueue`,
`RateLimit.RateLimiter`, `Connections.Connection` (output buffer, compaction, the
write loop), `HttpParser.HttpResponseParser`, `ControlPlane.MemoryStore`. Loops
of the source are loops: `FrameCodec.DecodeBuffer`, the header cursor, the
Content-Length digits, the receive loop, the write loop.

**The codecs** are the length-prefixed frames (`FrameCodec.dfy`) and the
incremental HTTP response parser (`HttpHead.dfy`, `HttpParser.dfy`,
`HttpRoundTrip.dfy`), which follows the Content-Length framing of section 6.3 of
RFC 9112 and section 8.6 of RFC 9110.

**The control plane** is the versioned configuration across stores, delayed
reads and several gateways (`ConfigRuns.dfy`), and the limit on authentication
failures under concurrent handlers (`AuthFailureRuns.dfy`).

## Findings

Places where a natural reading of the code is not exactly what holds. Each has a
lemma at a failing input or a run that shows it, and its exact condition for all
inputs.

- A body longer than its Content-Length is not always refused. One stream with one
  byte too many is accepted under one chunking and refused under another
  (`HttpRoundTrip.OneByteTooMany`). The parser returns the declared body if and
  only if some read ended exactly at its last byte
  (`HttpParser.OverlongOutcome`). Everything else about the cuts is irrelevant
  (`HttpParser.ChunkOutcome`).
- The Content-Length `9999999x` is reported as too large, not as malformed
  (`HttpRoundTrip.NinesThenLetter`). A value is refused outright if and only if it
  is blank or its first non-digit comes while the number is still within the limit
  (`HttpHead.ContentLengthRefused`, `HttpRoundTrip.TooLargeBeforeMalformed`).
- A one-second interval admits at most 2L - 1 requests of a client whose window is
  kept, not 2L, and some run reaches 2L - 1 (`RateLimit.LessThanTwiceTheLimit`,
  `RateLimit.TwiceTheLimitMinusOneIsReached`).
- That bound fails for a client whose window is lost in that second, which happens
  exactly when its last connection closes: one loss is enough
  (`RateLimit.OneLossExceedsIt`, `ServerRates.LossIsLastClose`). With m losses the
  bound is (m + 2)L - 1, L being the largest limit in force, and it is reached for
  every L and m (`RateLimit.RateBound`, `RateLimit.RateBoundIsReached`,
  `ServerRates.RateIsBounded`).
- The failure limit can be exceeded by up to K - 1 with K concurrent handlers,
  and for every K some run does (`AuthFailureRuns.OvershootBound`,
  `AuthFailureRuns.OvershootIsReached`).
- When the store's 64-bit version wraps it becomes negative, and some run takes it
  there (`ConfigRuns.WrapIsReached`). Since If-Match must be positive, no update
  succeeds after that, and gateways stay on what was committed before
  (`ConfigRuns.WrappedStoreIsStuck`, `ConfigRuns.Agreement`). So no version is ever
  used twice, without any bound on the number of updates
  (`ConfigRuns.VersionsAreUnique`).
- The branches of `parseHeaders` for an empty header line and for a line that
  ends past the header section cannot be taken (`HttpHead.NoEmptyLine`,
  `HttpHead.NextLine`). Nor can the AUTH branch of the dispatcher
  (`ServerOutcomes.DispatcherSeesNoAuth`), the report of a completion without
  admitted work (`ServerTheorems.CompletionsWereAdmitted`), or the second size
  check of `decodeAndEnqueue` (`ServerInput.NoOversizedRequest`).

## Model

| member | source | states |
|---|---|---|
| `ServerRuns.StepKeeps` | cpp-gateway/src/net/TcpServer.cpp:275-1419 | every step of every thread, in any state that satisfies it, keeps the whole invariant: work conservation, per-connection accounting, authentication, limits, wakeups, order |
| `ServerRuns.Always` | cpp-gateway/src/net/TcpServer.cpp:205-273 | the invariant holds in every state of every run from start-up, under every interleaving |
| `ServerTheorems.InFlightConserved` | cpp-gateway/src/net/TcpServer.cpp:1210-1265 | until the deadline fires, `in_flight_work` of a live connection is the number of its items in the three queues, in workers' hands and lost to a full response queue (one less only between a push and its increment); a lost response has its key still on the way to the Reactor |
| `ServerTheorems.CompletionsWereAdmitted` | cpp-gateway/src/net/TcpServer.cpp:1022-1036 | a worker response applied to a live connection always finds `in_flight_work` positive |
| `ServerTheorems.EachRequestOnce` | cpp-gateway/src/net/TcpServer.cpp:1112-1271 | for every request id, the number of times it was decoded equals the number of responses applied for it plus what is in flight plus what the Reactor is handling |
| `ServerTheorems.DrainedConnectionsAreDone` | cpp-gateway/src/net/TcpServer.cpp:1306-1312 | a connection closed by the drain test answered every decoded request exactly once and handed every encoded byte to the socket |
| `ServerLife.FinishedWasWanted` | cpp-gateway/src/net/TcpServer.cpp:1306-1312 | every connection closed by the drain test was closing, at end of file or closed while the gateway drained, and had nothing in flight and nothing unsent |
| `ServerLife.ClosedExactly` | cpp-gateway/src/net/TcpServer.cpp:816-912 | in every run a step closes a connection if and only if it is one of the listed causes, in terms of fields and steps: end of input with nothing left to do, the last byte sent to a connection on its way out, a failed registration, a socket error, a lost answer, the final sweep, an illegal frame or length, an answer beyond the output limit |
| `ServerLife.OpenIsLeftAlone` | cpp-gateway/src/net/TcpServer.cpp:884-894 | while the gateway runs, a connection that is neither closing nor at end of file is closed only for one of the reasons listed; sending it all it waits for never closes it |
| `ServerLife.ChangedExactly` | cpp-gateway/src/net/TcpServer.cpp:1005-1110 | in every run, a step that leaves a connection open adds to its answers, flags, identity and sent bytes exactly what the step brings, and nothing otherwise |
| `ServerLife.OpenedExactly` | cpp-gateway/src/net/TcpServer.cpp:720-760 | in every run a generation begins if and only if its descriptor is accepted and registered, under the next number, and begins with every field blank and registered for reading |
| `ServerTheorems.OutputStream` | cpp-gateway/src/net/TcpServer.cpp:1073-1095 | bytes sent followed by bytes waiting are the concatenated encodings of the applied responses; what waits is within the limit of the last append |
| `ServerTheorems.PeerSeesAPrefix` | cpp-gateway/src/net/TcpServer.cpp:854-912 | a peer decoding what it was sent, at any moment, sees no error and a prefix of the applied responses |
| `ServerTheorems.InterestAgrees` | cpp-gateway/src/net/TcpServer.cpp:1291-1304 | outside `beginDraining`, the registered epoll interest of every live connection is what its state calls for |
| `ServerLife.InterestExactly` | cpp-gateway/src/net/TcpServer.cpp:1291-1304 | outside `beginDraining`, a connection is registered for reading exactly while the gateway runs and it is neither closing nor at end of file, and for writing exactly while bytes wait |
| `ServerTheorems.NoZombies` | cpp-gateway/src/net/TcpServer.cpp:816-852 | no live connection that is closing or at end of file is without both work in flight and unsent output |
| `ServerTheorems.NoLostWakeup` | cpp-gateway/src/net/TcpServer.cpp:914-1003 | if the Reactor sleeps with the eventfd at zero, then for every response and rejected key that waits, the worker that published that item has yet to notify, and so has the thread behind a stop request |
| `ServerTheorems.DrainedMeansIdle` | cpp-gateway/src/net/TcpServer.cpp:650-682 | once producers are gone and all queues and the rejected set are empty, every live connection has no work in flight |
| `ServerTheorems.DrainWaitsOnlyForOutput` | cpp-gateway/src/net/TcpServer.cpp:523-543 | a draining Reactor that sleeps after the last worker left, with nothing to wake it, waits only for unsent output, which every remaining connection has and is registered for |
| `ServerTheorems.NoStoppedRefusal` | cpp-gateway/src/net/TcpServer.cpp:364-371 | before the deadline, no worker response is refused because the response queue is stopped |
| `ServerTheorems.AdmissionIsOpen` | cpp-gateway/src/net/TcpServer.cpp:1207-1265 | the Reactor never meets a stopped queue while it admits work |
| `ServerTheorems.GracefulEnd` | cpp-gateway/src/net/TcpServer.cpp:525-531 | a server that stops before its deadline leaves no connection, no queued item and no working worker |
| `ServerRouting.HaltedIsEmpty` | cpp-gateway/src/net/TcpServer.cpp:532-541 | however the gateway stops, deadline included, every queue is stopped and empty afterwards |
| `ServerRouting.DrainPasses` | cpp-gateway/src/net/TcpServer.cpp:650-666 | the guards of the drain test pass if and only if no producer, queued item or rejected key is left and all three queues are stopped |
| `ServerRouting.ModeExactly` | cpp-gateway/src/net/TcpServer.cpp:456-544 | the gateway drains and stops at the listed steps and at no other |
| `ServerRouting.StopIsHeeded` | cpp-gateway/src/net/TcpServer.cpp:462-466 | a requested stop is the next thing the Reactor does at the head of its loop |
| `ServerRouting.TurnsInOrder` | cpp-gateway/src/net/TcpServer.cpp:456-544 | in every run the Reactor goes around its loop in order and skips neither drain; no other thread moves it; every accepted descriptor spends one generation number |
| `ServerHistory.RunEvolves` | cpp-gateway/src/net/TcpServer.cpp:720-760 | over any stretch of a run every connection is a later record of the same generation or a generation not handed out before |
| `ServerHistory.DeadStayDead` | cpp-gateway/src/net/TcpServer.cpp:743-755 | the key of a closed connection is never live again, whatever descriptor is reused |
| `ServerHistory.IdentityIsForLife` | cpp-gateway/src/net/TcpServer.cpp:1042-1061 | while a generation lives, its identity once authenticated never changes, what it asked, was answered and was sent only grows, and closing and end of file are final |
| `ServerHistory.RefusedIsClosing` | cpp-gateway/src/net/TcpServer.cpp:1037-1095 | a connection that was answered AUTH_RESP and is not authenticated is closing |
| `ServerErasure.HistoryIsInert` | cpp-gateway/src/net/TcpServer.cpp:275-1419 | states that differ only in the history the model adds allow the same steps and stay that way, so the history influences nothing |
| `ServerInput.InputStream` | cpp-gateway/src/net/TcpServer.cpp:762-814 | in every run, under any reconfiguration of the frame limit, the requests decoded on a connection are exactly the frames of the bytes received on that generation; only a connection about to be closed for a rejected length has a prefix of them |
| `ServerInput.InputUnderOneLimit` | cpp-gateway/src/net/TcpServer.cpp:1126-1131 | if all reads on the connection were made under one limit, decoding by that limit tells the requests in every case |
| `ServerInput.RequestsArrive` | cpp-gateway/src/net/TcpServer.cpp:1112-1142 | a peer that sends encoded requests has a prefix of them decoded under any reconfiguration, and all of them once all bytes are in, if they fit the limits in force when they were read |
| `ServerInput.NoOversizedRequest` | cpp-gateway/src/net/TcpServer.cpp:1147-1152 | a decoded request never exceeds the limit its decode was given, so the second size check never fires |
| `ServerRouting.EndOfFileDropsTail` | cpp-gateway/src/net/TcpServer.cpp:1126-1143 | at end of file no partial frame is kept, unless a rejected length dooms the connection |
| `ServerRouting.FrameIsRouted` | cpp-gateway/src/net/TcpServer.cpp:1145-1202 | in every run a legal frame becomes exactly one thing: an AUTH task with a fresh flag, a request, or an ERROR_RESP with its version and request id, by authentication, type and the number of requests the rate window has admitted |
| `ServerRouting.RequestIsAdmitted` | cpp-gateway/src/net/TcpServer.cpp:1238-1265 | in every run a sorted request is queued last and owed to its connection if there is room, and is otherwise answered ERROR_RESP |
| `ServerRouting.AuthIsAdmitted` | cpp-gateway/src/net/TcpServer.cpp:1210-1237 | in every run a sorted AUTH task is queued last and owed if there is room, and is otherwise answered with a closing AUTH_RESP |
| `ServerRouting.AnswerIsPushed` | cpp-gateway/src/net/TcpServer.cpp:914-975 | in every run a worker's answer is queued last if the queue is open and has room; otherwise it is lost and its key is on the way |
| `ServerRouting.ConfigExactly` | cpp-gateway/src/net/TcpServer.cpp:1329-1362 | the limits in force change only when a configuration is applied, and become that configuration |
| `ServerRates.RateIsBounded` | cpp-gateway/src/net/TcpServer.cpp:1187-1201 | over runs of the whole gateway with limits that change at will, a second in which a client's window is lost m times admits at most (m + 2)L - 1 of its requests, L being the largest limit in force |
| `ServerRates.AdmittedByTheCalls` | cpp-gateway/src/net/TcpServer.cpp:1187-1201 | in every run a request is queued if and only if the window made by all earlier calls and losses of that client admits it |
| `ServerRates.AdmittedByTheCount` | cpp-gateway/src/net/TcpServer.cpp:1187-1201 | in every run with a clock that does not run backwards, a request is queued if and only if the window it falls into, counted from the list of calls and losses, has admitted fewer than the limit |
| `ServerRates.LossIsLastClose` | cpp-gateway/src/net/TcpServer.cpp:1415-1419 | a window is lost only when a step takes away the client's last authenticated connection |
| `ServerRates.SnapshotWasCurrent` | cpp-gateway/src/net/TcpServer.cpp:1119-1120 | one decode works with the configuration of one moment |
| `ServerOutcomes.OnlyItsGeneration` | cpp-gateway/src/net/TcpServer.cpp:987-1019 | in every run, applying a response or closing a rejected key changes no connection of another generation |
| `ServerOutcomes.StaleIsInert` | cpp-gateway/src/net/TcpServer.cpp:987-1019 | once a generation is gone, its late responses and its rejected key change no connection, window or cancellation flag at any later step, whatever descriptor was reused |
| `ServerOutcomes.CancelledMeansGone` | cpp-gateway/src/net/TcpServer.cpp:307-317 | an AUTH item in a worker's hands is cancelled if and only if its connection is gone, so a dropped item never belongs to a live connection |
| `ServerOutcomes.OneAuthAtATime` | cpp-gateway/src/net/TcpServer.cpp:1153-1173 | an unauthenticated connection has exactly one AUTH item on the way while `auth_pending` is set, none otherwise, and nothing else in flight |
| `ServerOutcomes.NoSecondAuth` | cpp-gateway/src/net/TcpServer.cpp:1037-1061 | an authenticated connection has no AUTH item anywhere, so it authenticates once |
| `ServerOutcomes.AdmittedWhenAuthenticated` | cpp-gateway/src/net/TcpServer.cpp:1174-1201 | a request reaches the request queue only from a live authenticated connection and is never AUTH |
| `ServerOutcomes.DispatcherSeesNoAuth` | cpp-gateway/src/business/Dispatcher.cpp:8-28 | a dispatched request is never AUTH and its generation has authenticated |
| `ServerOutcomes.ConnectionCap` | cpp-gateway/src/net/TcpServer.cpp:1042-1061 | a client's authenticated connections never exceed a limit that was in force at some point of the run so far |
| `ServerLife.AuthOutcome` | cpp-gateway/src/net/TcpServer.cpp:1042-1061 | in every run, an answer that names a client authenticates its connection as that client if and only if fewer than the limit of other descriptors are; if not, the connection is closing and was answered AUTH_RESP |
| `ServerWitness.LimitIsReached` | cpp-gateway/src/net/TcpServer.cpp:1042-1061 | for every limit some run has one client holding exactly that many authenticated connections |
| `ServerOutcomes.WindowsNeverLeak` | cpp-gateway/src/net/TcpServer.cpp:1397-1419 | every rate-limit window belongs to a client with a live authenticated connection |
| `ServerOutcomes.SingleWorkerOrder` | cpp-gateway/src/net/TcpServer.cpp:275-305 | with one normal worker, normal responses are applied in the order in which their requests were admitted |
| `ServerOutcomes.ReactorNeverStuck` | cpp-gateway/src/net/TcpServer.cpp:456-544 | in every reachable state the Reactor has an enabled step until it is done |
| `ServerOutcomes.WorkersNeverStuck` | cpp-gateway/src/net/TcpServer.cpp:275-371 | a worker is held up only in `pop`, on an open and empty queue |
| `ServerDrain.DrainIsBounded` | cpp-gateway/src/net/TcpServer.cpp:546-577 | from any moment of a drain on, the workers take at most as many steps as there was work left, whatever the environment does |
| `ServerDrain.ProducersFinish` | cpp-gateway/src/net/TcpServer.cpp:364-371 | after that many steps every worker is gone, the producer count is zero, the response queue is stopped and both work queues are empty |
| `ServerDrain.ProducersNeverStuck` | cpp-gateway/src/net/TcpServer.cpp:275-371 | until then some worker has an enabled step, once both work queues are stopped |
| `ServerDrain.SweepHalts` | cpp-gateway/src/net/TcpServer.cpp:668-681 | once the guards of `drainComplete` have passed and no connection has output left, the sweep closes them all and the gateway halts |
| `ServerConnProof.ConnStepKeepsConns` | cpp-gateway/src/net/TcpServer.cpp:816-1110 | accepting, closing, writing, applying and sweeping keep every connection's stream, accounting, AUTH tracking and interest |
| `ServerDecodeProof.DecodeStepKeepsConns` | cpp-gateway/src/net/TcpServer.cpp:1112-1271 | so does every turn of the loops of `decodeAndEnqueue` |
| `ServerWorkProof.WorkKeepsWork` | cpp-gateway/src/net/TcpServer.cpp:275-371 | no worker step creates, loses or duplicates work of a live connection |
| `ServerAuthProof.ConnStepKeepsAuth` | cpp-gateway/src/net/TcpServer.cpp:1397-1415 | closing a connection raises exactly its own cancellation flag, through fd reuse |
| `ServerLimitProof.ConnStepKeepsLimits` | cpp-gateway/src/net/TcpServer.cpp:1364-1376 | the connection cap and the window map survive closes, applies and fd reuse |
| `ServerCrewProof.WorkKeepsCrew` | cpp-gateway/src/net/TcpServer.cpp:364-371 | the producer count, the order of stopping and the pending wakeups survive every worker step |
| `ServerOrderProof.WorkKeepsOrder` | cpp-gateway/include/concurrent/BlockQueue.hpp:25-92 | requests keep their place from admission to response through both queues and the one worker |
| `Connections.Connection.Append` | cpp-gateway/src/net/TcpServer.cpp:1067-1095 | the output half of `applyResponse`: refused exactly when silent or over the limit and then unchanged, else the transition system's append after compaction |
| `Connections.Connection.Flush` | cpp-gateway/src/net/TcpServer.cpp:854-912 | the write loop takes exactly what the kernel's answers call for and ends as they call for; its effect is that many sends of the transition system |
| `Connections.WroteIs` | cpp-gateway/src/net/TcpServer.cpp:854-912 | from the answers alone: the loop sends all that is offered until it is done, blocks at the first refusal and fails at the first error, with the exact number of bytes taken in each case |
| `Connections.EmptiedExactly` | cpp-gateway/src/net/TcpServer.cpp:884-898 | everything goes out if and only if answers that keep the loop going offer enough |
| `Connections.SentAllStream` | cpp-gateway/src/net/TcpServer.cpp:868-882 | however the bytes are taken, sent plus unsent is the same stream |
| `Connections.Connection.Settle` | cpp-gateway/src/net/TcpServer.cpp:1021-1061 | the completion and AUTH bookkeeping of `applyResponse`, updated in place, is the transition system's |
| `Connections.CountAuthenticated` | cpp-gateway/src/net/TcpServer.cpp:1364-1376 | the walk over the map counts the client's authenticated connections but the excluded one |
| `FrameCodec.DecodeBuffer` | cpp-gateway/src/protocol/ProtocolCodec.cpp:38-95 | the decode loop with its read index emits the frames, keeps the tail and returns the verdict of the recursive meaning; a bad length leaves the buffer alone |
| `FrameCodec.ChunkIndependence` | cpp-gateway/src/net/TcpServer.cpp:773-794 | append-and-decode over any chunking gives the frames, verdict and tail of one decode of the whole |
| `FrameCodec.DecodeSplit` | cpp-gateway/src/protocol/ProtocolCodec.cpp:38-95 | decoding two pieces in turn is decoding their concatenation, for any cut |
| `FrameCodec.RoundTrip` | cpp-gateway/src/protocol/ProtocolCodec.cpp:12-36 | decoding concatenated encodings returns every frame with nothing left over |
| `FrameCodec.WireLayout` | cpp-gateway/src/protocol/ProtocolCodec.cpp:12-36 | the bytes of an encoded frame: length by place values, version, type, request id by place values, payload |
| `FrameCodec.FirstFrame` | cpp-gateway/src/protocol/ProtocolCodec.cpp:58-88 | what the decoder makes of any buffer, from its bytes: the length by place values, its legality, what is awaited, and each field of the first frame |
| `FrameCodec.PrefixDecodes` | cpp-gateway/src/protocol/ProtocolCodec.cpp:12-95 | any prefix of an encoded stream decodes without error to a prefix of its frames |
| `FrameCodec.TailBound` | cpp-gateway/src/protocol/ProtocolCodec.cpp:63-94 | after an accepted decode the retained tail is shorter than one frame of the limit, and empty if and only if the verdict is OK |
| `FrameCodec.LimitOnlyRejects` | cpp-gateway/src/protocol/ProtocolCodec.cpp:63-67 | a smaller limit only stops a decode earlier: what it accepts, the hard limit decodes the same |
| `Queues.BlockQueue.Push` | cpp-gateway/include/concurrent/BlockQueue.hpp:46-65 | a push below capacity on an open queue is accepted and appended; on a full or stopped queue it is refused as such and changes nothing |
| `Queues.BlockQueue.Pop` | cpp-gateway/include/concurrent/BlockQueue.hpp:67-92 | the oldest item is taken; accepted items are always taken, then queued, then discarded ones, in order |
| `Queues.BlockQueue.Abort` | cpp-gateway/include/concurrent/BlockQueue.hpp:101-110 | an abort discards exactly what was queued and counts it |
| `RateLimit.RateLimiter.Allow` | cpp-gateway/src/net/TcpServer.cpp:1378-1395 | one request is admitted and counted as the fixed-window function says |
| `RateLimit.RefusedExactly` | cpp-gateway/src/net/TcpServer.cpp:1378-1395 | from the list of calls alone: a call is refused if and only if the window it falls into has already admitted its limit; a window is opened by the first call at or after the end of the previous one |
| `RateLimit.NextWindowAdmits` | cpp-gateway/src/net/TcpServer.cpp:1384-1388 | a call a second or more after the opening call of the window is admitted if its limit is positive |
| `RateLimit.RefusedCanBeRemoved` | cpp-gateway/src/net/TcpServer.cpp:1389-1394 | taking a refused call out of the list changes no later verdict |
| `RateLimit.RetryIsAdmitted` | cpp-gateway/src/net/TcpServer.cpp:1378-1395 | under limit 1, of requests at 1 ns, 0.6 s and 1.2 s only the second is refused |
| `RateLimit.RateBound` | cpp-gateway/src/net/TcpServer.cpp:1378-1395 | for any calls, each under its own positive limit of at most L, and any losses of the window, a second with m losses admits at most (m + 2)L - 1 |
| `RateLimit.LessThanTwiceTheLimit` | cpp-gateway/src/net/TcpServer.cpp:1378-1395 | with a positive non-decreasing clock, a second in which the window is kept admits at most 2L - 1 requests |
| `RateLimit.RateBoundIsReached` | cpp-gateway/src/net/TcpServer.cpp:1378-1395 | for every L and every m some calls and losses reach (m + 2)L - 1 |
| `RateLimit.TwiceTheLimitMinusOneIsReached` | cpp-gateway/src/net/TcpServer.cpp:1378-1395 | without a loss 2L - 1 is reached |
| `RateLimit.OneLossExceedsIt` | cpp-gateway/src/net/TcpServer.cpp:1415-1419 | with one loss more than 2L - 1 are admitted |
| `HttpHead.ParseContentLength` | cpp-gateway/src/control/HttpResponseParser.cpp:37-62 | the digit loop computes the capped numeral or refuses, without overflow at any step |
| `HttpHead.TrimText` | cpp-gateway/src/control/HttpResponseParser.cpp:11-25 | the two cursors compute the trimmed text |
| `HttpHead.TrimIs` | cpp-gateway/src/control/HttpResponseParser.cpp:11-25 | trimming takes all blanks, and only blanks, off both ends |
| `HttpHead.ContentLengthOfDigits` | cpp-gateway/src/control/HttpResponseParser.cpp:37-62 | for all-digit text the value is min(decimal value, 1 MiB + 1) |
| `HttpHead.ContentLengthRefused` | cpp-gateway/src/control/HttpResponseParser.cpp:45-57 | exactly which texts are refused as malformed |
| `HttpHead.LinesJoin` | cpp-gateway/src/control/HttpResponseParser.cpp:154-208 | splitting the header section into lines loses nothing and leaves no line end inside a line |
| `HttpHead.CursorFindsLines` | cpp-gateway/src/control/HttpResponseParser.cpp:155-169 | the cursor's lines are the lines of the header section |
| `HttpHead.NextLine` | cpp-gateway/src/control/HttpResponseParser.cpp:156-167 | the next line end is found within the header section, and it is the section's end or leaves room for another line |
| `HttpHead.NoEmptyLine` | cpp-gateway/src/control/HttpResponseParser.cpp:163-167 | after a line end inside the header section the next line is never empty |
| `HttpHead.FieldsAccept` | cpp-gateway/src/control/HttpResponseParser.cpp:170-225 | header fields are accepted if and only if all are well-formed and harmless and there is exactly one Content-Length, within the limit, whose value is the one returned |
| `HttpHead.FieldByName` | cpp-gateway/src/control/HttpResponseParser.cpp:169-206 | what a header line means, by the letters of its name in any case: Content-Length, Transfer-Encoding, refused (Upgrade, Content-Encoding) or without effect |
| `HttpHead.BrokenExactly` | cpp-gateway/src/control/HttpResponseParser.cpp:169-177 | a line is malformed exactly if it has no colon or starts with one |
| `HttpHead.StatusTextIsSane` | cpp-gateway/src/control/HttpResponseParser.cpp:137-152 | every HTTP/1.0 or 1.1 status line with a code from 100 to 599 and any reason is accepted, with that code |
| `HttpHead.SaneIsStatusText` | cpp-gateway/src/control/HttpResponseParser.cpp:137-152 | and no other line is |
| `HttpHead.FirstOffenceDecides` | cpp-gateway/src/control/HttpResponseParser.cpp:156-208 | the first offending field decides the error |
| `HttpHead.NoOffenceDecides` | cpp-gateway/src/control/HttpResponseParser.cpp:210-225 | without an offending field the error or the accepted length follows from which fields are there |
| `HttpHead.ErrorExactly` | cpp-gateway/src/control/HttpResponseParser.cpp:156-225 | for each error, exactly which header field lists are rejected with it |
| `HttpHead.BodyTooLargeExactly` | cpp-gateway/src/control/HttpResponseParser.cpp:185-196 | BodyTooLarge if and only if some field is a Content-Length over the limit and all before it carry neither a length nor an offence |
| `HttpHead.TooLongByNumeral` | cpp-gateway/src/control/HttpResponseParser.cpp:45-62 | for an all-digit value, over the limit means that its decimal value exceeds 1 MiB |
| `HttpParser.HttpResponseParser.Consume` | cpp-gateway/src/control/HttpResponseParser.cpp:70-103 | consuming a chunk, with cached header facts, is judging the whole stream so far |
| `HttpParser.HttpResponseParser.ParseHeaders` | cpp-gateway/src/control/HttpResponseParser.cpp:128-226 | the in-place header parse gives the verdict, error and status of the line-by-line meaning |
| `HttpParser.HttpResponseParser.FinishBodyIfComplete` | cpp-gateway/src/control/HttpResponseParser.cpp:228-248 | the body is complete, short or too long exactly by Content-Length |
| `HttpParser.HttpResponseParser.FinishOnEof` | cpp-gateway/src/control/HttpResponseParser.cpp:113-121 | end of file turns an unfinished response into the right error and keeps a finished one |
| `HttpParser.HttpResponseParser.FinishOnTransportError` | cpp-gateway/src/control/HttpResponseParser.cpp:105-111 | a transport error does so with its own error and the status known so far |
| `HttpParser.ShapeStable` | cpp-gateway/src/control/HttpResponseParser.cpp:78-100 | a header section once judged is judged the same however much follows |
| `HttpParser.ChunkOutcome` | cpp-gateway/src/control/HttpResponseParser.cpp:70-257 | the outcome of every chunking of every byte stream, as a function of the stream and of whether a read ended at the end of the declared body |
| `HttpParser.ChunkIndependence` | cpp-gateway/src/control/HttpResponseParser.cpp:70-121 | unless the body is overlong, the result, end of file included, is the same for every chunking |
| `HttpParser.OverlongOutcome` | cpp-gateway/src/control/HttpResponseParser.cpp:228-248 | an overlong body yields the declared body if and only if a read ended at its last byte, else a malformed response |
| `HttpParser.UnfinishedIsSmall` | cpp-gateway/src/control/HttpResponseParser.cpp:78-102 | an unfinished parser holds the whole stream so far and fewer than 16 KiB + 1 MiB bytes |
| `HttpParser.ReceiveResponse` | cpp-gateway/src/control/ControlPlaneClient.cpp:189-207 | the receive loop ends against every peer, within a bounded number of reads, with the result of the events it saw |
| `HttpRoundTrip.ResponseIsRead` | cpp-gateway/src/control/HttpResponseParser.cpp:70-257 | every well-formed response is read back with its status and body under every chunking; any status line the parser calls sane, any harmless header fields in any order, one Content-Length spelled in any way |
| `HttpRoundTrip.AnyFieldsAreRead` | cpp-gateway/src/control/HttpResponseParser.cpp:70-257 | a response of any status and reason, with any fields of other names in any order and one Content-Length in any case and spacing, is read back under every chunking, as a success exactly for 2xx |
| `HttpRoundTrip.LengthBySpelling` | cpp-gateway/src/control/HttpResponseParser.cpp:37-62 | a Content-Length within the limit is read from exactly the values that spell it in digits between spaces and tabs |
| `HttpRoundTrip.HeaderTooLargeExactly` | cpp-gateway/src/control/HttpResponseParser.cpp:78-93 | HeaderTooLarge if and only if more than 16 KiB came and no empty line ends within the first 16 KiB |
| `HttpRoundTrip.OnlyResponsesAreRead` | cpp-gateway/src/control/HttpResponseParser.cpp:70-257 | the converse: whatever is read as a complete response began with a well-formed one of that status and body |
| `HttpRoundTrip.RenderedIsRead` | cpp-gateway/src/control/HttpResponseParser.cpp:70-257 | every status and every body within the limit has a response, and it is read back |
| `HttpRoundTrip.HeadErrorIsReported` | cpp-gateway/src/control/HttpResponseParser.cpp:128-226 | a refused header section is reported with its error and status, whatever follows it and however it is cut |
| `HttpRoundTrip.FieldErrorIsReported` | cpp-gateway/src/control/HttpResponseParser.cpp:170-224 | the errors that only header fields can cause are reported if and only if the fields call for them |
| `HttpRoundTrip.TooLargeIsReported` | cpp-gateway/src/control/HttpResponseParser.cpp:185-196 | BodyTooLarge is reported if and only if the first Content-Length is over the limit and no offence precedes it |
| `HttpRoundTrip.OneByteTooMany` | cpp-gateway/src/control/HttpResponseParser.cpp:228-248 | one stream with one byte too many is complete under one chunking and malformed under another |
| `HttpRoundTrip.TooLargeBeforeMalformed` | cpp-gateway/src/control/HttpResponseParser.cpp:45-62 | digits followed by other text are too large if the digits pass the limit and refused otherwise |
| `HttpRoundTrip.NinesThenLetter` | cpp-gateway/src/control/HttpResponseParser.cpp:45-62 | `9999999x` is too large, `x` is refused |
| `HttpRoundTrip.TruncationIsNoticed` | cpp-gateway/src/control/HttpResponseParser.cpp:113-121 | any well-formed response cut short anywhere is reported as premature end or as malformed, depending on whether its header section arrived, and never shows its body; a transport error there reports itself with the status known so far |
| `ControlPlane.MemoryStore.UpdateConfig` | go-control-plane/internal/app/memory_store.go:138-154 | compare and swap on the version: the next version with every field of the update, or a conflict and no change |
| `ControlPlane.MemoryStore.AuthFailureLimited` | go-control-plane/internal/app/memory_store.go:46-58 | the verdict, and the removal of an expired counter |
| `ControlPlane.MemoryStore.RecordAuthFailure` | go-control-plane/internal/app/memory_store.go:60-71 | one more failure, in the current window or a new one |
| `ControlPlane.HandleAuthCheck` | go-control-plane/internal/app/handlers.go:73-117 | the check, verify, record or clear sequence with its two clock readings: good credentials are admitted if and only if the arguments are in bounds and no current counter is at the limit; each refusal is tied to its reason; other clients are untouched; what is left in the store |
| `ControlPlane.FailuresThenLimited` | go-control-plane/internal/app/handlers.go:82-111 | a client that keeps failing within one window, at any times and for any reasons, is told the reason of each failure limit - 1 times and is rate limited from then on; the count stops at the limit and the window ends when its first failure says |
| `ConfigRuns.ValidUpdateIsSound` | go-control-plane/internal/app/config.go:36-52 | every update the control plane validates passes the gateway's range checks |
| `ConfigRuns.StepKeeps` | go-control-plane/internal/app/handlers.go:248-277 | writers, reads, deliveries and losses keep log, reads and snapshots consistent |
| `ConfigRuns.Agreement` | cpp-gateway/src/net/TcpServer.cpp:1329-1362 | every gateway's snapshot is the configuration committed under its version and passes the gateway's checks |
| `ConfigRuns.SameVersionSameConfig` | cpp-gateway/src/control/RuntimeConfig.cpp:68-76 | two gateways reporting the same version, at any times, run on the same configuration |
| `ConfigRuns.VersionsNeverDecrease` | cpp-gateway/src/control/RuntimeConfig.cpp:68-76 | a gateway's version never decreases |
| `ConfigRuns.OneWriterPerVersion` | go-control-plane/internal/app/memory_store.go:138-154 | of all updates that name the same version at most one ever succeeds |
| `ConfigRuns.WinnerIsLogged` | go-control-plane/internal/app/memory_store.go:138-154 | a successful update stands in the log for good, field by field, on top of the configuration it named, under its writer's name |
| `ConfigRuns.WriteDecides` | go-control-plane/internal/app/handlers.go:248-277 | in every run an update is taken if and only if it names the current version and every field is in the range spelled out; the new configuration has each field of the update |
| `ConfigRuns.DeliveryDecides` | cpp-gateway/src/control/RuntimeConfig.cpp:32-76 | in every run a gateway takes what it is handed if and only if it is newer: the range checks refuse nothing the store sends |
| `ConfigRuns.VersionsAreUnique` | go-control-plane/internal/app/memory_store.go:144-145 | no two committed configurations have the same version, across the wrap of the counter too |
| `ConfigRuns.CatchUp` | cpp-gateway/src/control/RuntimeConfig.cpp:32-76 | a gateway handed the current configuration adopts it, until the version wraps |
| `ConfigRuns.WrappedStoreIsStuck` | go-control-plane/internal/app/token_security.go:50-57 | after the version wraps the store never changes again |
| `ConfigRuns.WrapIsReached` | go-control-plane/internal/app/memory_store.go:144-145 | some run takes the version past the largest 64-bit value |
| `ConfigRuns.OneFrameAlwaysFits` | go-control-plane/internal/app/config.go:45-46 | under any configuration a gateway can run on, one legal answer always fits an empty output buffer |
| `AuthFailureRuns.StepKeeps` | go-control-plane/internal/app/handlers.go:82-116 | counted failures plus failures still to be counted stay within limit - 1 + K over every interleaving |
| `AuthFailureRuns.OvershootBound` | go-control-plane/internal/app/handlers.go:82-116 | with K concurrent handlers no stored count exceeds limit + K - 1 |
| `AuthFailureRuns.OvershootIsReached` | go-control-plane/internal/app/handlers.go:82-116 | for every policy and every K some run reaches that count |
| `AuthFailureRuns.PassesExactly` | go-control-plane/internal/app/memory_store.go:46-58 | in every run a handler passes the check unless its client has a counter that is current and at the limit |
| `AuthFailureRuns.WindowHolds` | go-control-plane/internal/app/memory_store.go:60-71 | over a run, later failures never move the end of a window that has not passed and is not cleared, and only add to its count |
| `AuthFailureRuns.LockoutEnds` | go-control-plane/internal/app/memory_store.go:46-71 | every expiry time is at most one window away, and every stored counter is positive |

## Left out

- The Reactor's handlers on the server object: modelled as functions on states, so aliasing between a `Connection &` and the map is not captured; the per-connection updates, the queues and the limiter are also proved as objects.
- `finishShutdown` and thread joining: what happens after the loop has ended.
- Sockets, epoll, eventfd, signals and `SocketDeadline`: any chunk, any partial write, any descriptor, any error, any time.
- The EINTR loops of `ReactorNotifier`: `notify` and `consume` are single steps on the counter.
- Payloads of the handlers, statistics, logging and the readiness file: a handler is any function that copies key, version and request id into one response.
- JSON: configurations and requests are typed records; only the range checks are kept.
- `strings.ToUpper` is a parameter: any function on strings.
- The Redis store: its behaviour lives in scripts outside the program.
- Token digests, token administration, bearer comparison, routing and middleware.
- Debug-only hooks, environment variables, memory-allocation failure, and wrap-around of the 64-bit connection id.
- Which limit a client's connections are held to after a decrease: `ServerOutcomes.ConnectionCap` speaks of a limit that was in force, because lowering the limit closes no connection.
- Termination of a graceful drain: the workers finish in bounded work and only unsent output can delay the rest, but nothing says that peers ever read or that threads are scheduled.
- A restart of the control plane: it resets the memory store to version 1, and then `ConfigRuns.SameVersionSameConfig` no longer holds across the restart; the configuration theorems are about one life of the store.
