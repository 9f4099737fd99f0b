# A model of Tangleveil

Tangleveil relays live WebSocket streams. One task per source keeps a connection to an upstream
and publishes every message into two bounded broadcast channels, the source's own and the
multiplex channel; clients read those channels at their own pace through filters; a supervisor
reconciles the running tasks with a configuration that can be reloaded at any time.

The Dafny modules model that system and prove what it keeps over whole runs:

- **Envelope.** `Bytes`, `Utf8` and `Base64` are the encodings (RFC 3629 section 4, RFC 4648
  section 4), and `TextDecoder` the browser's UTF-8 decode algorithm (WHATWG Encoding Standard);
  `Multiplex` is the CSR1 envelope with its writer, its three parsers, the decoder printed in
  the project's README, the JSON projection and the frame whose caches fill lazily.
- **Filters.** `Dedup` is the two-generation cache with its timing; `Handlers` is the loop that
  serves one client, proved to compute a pipeline of separate stages frame by frame; `Stages` says
  which frames of a block get through that pipeline.
- **Relay.** `Relay` is one machine in which publishers, subscriptions, receives, ring overwrites
  and the status logger interleave at every store and send. `Sequencing`, `Totals` and `Delivery`
  hold for every run of it, and `EndToEnd` puts them together: what a
  client is sent, told from what was published. `Publishing` is `publish_frame` as an undisturbed
  call, and ties that call to the machine's steps.
- **Supervision.** `Config` is validation; `State` the shared runtime object; `Supervisor` the
  reconciliation, with runtimes and tasks as heap objects so that keeping one can be stated.
- **Upstream.** `Upstream` is the task's loop; `Sessions` what it publishes, and `Backoff` when it waits,
  for how long and in which mode, told from the script of its surroundings and the waits before.
- **Edges.** `Telemetry`, `Metrics` and `Proxy`.

Surroundings that the program does not control come as arguments: times (natural numbers that
do not decrease where it matters), outcomes of sends and connection attempts, loaded settings,
cancellation, the policy found at each look, and the order of interleaved steps. Loops over
such surroundings take a script of them and are proved against a function of the script. Bytes
stand for Rust strings; `Utf8.Str` is those that are well-formed.

The JSON library is a value of type `Multiplex.Library`: three arbitrary functions, for the text
of a JSON value, for the fields the filters look at, and for rendering a projection. A compiled jq
program is an arbitrary partial function. The URL library's verdict on a proxy is the arbitrary
predicate `proxyOk`.

## Where the code and its documentation differ

- `src/dedup.rs:14` says that an entry survives "at most `2 * window`", and README.md:227-231 that the
  cache holds only the last one to two windows. Rotation happens only inside `admit`, and an
  idle gap of any length is one rotation: `Dedup.IdleCacheStillSuppresses` gives the trace,
  `Dedup.ReadmittedIff` the exact condition for a key to be admitted again, and
  `Dedup.SuppressionIsBounded` the bound that does hold.
- The decoder at README.md:166-192 calls `new TextDecoder().decode(..)` on the source and on the payload
  of a text message, which drops a leading U+FEFF and replaces ill-formed bytes. A text message
  of U+FEFF and the letter A, which the relay publishes unchanged, is read as the letter alone
  (`Multiplex.MarkIsLost`); `Multiplex.DocumentedRoundTrip` gives the exact condition. The framing
  itself loses nothing (`Multiplex.StrictRoundTrip`), and the JSON form is not affected.
- A rejected reload is not without effect: the admin token and the dedup policy are stored before
  validation (`src/sources.rs:257-270`). `Supervisor.SourceSupervisor.ReloadFromDisk` states what
  changes and what does not. `Handlers.DedupWindow` therefore makes no assumption on the policy.
- README.md:130 reserves `base64` for binary or non-UTF-8 frames. The decoder also chooses it for
  text of a kind other than 1; no such frame is ever published.
- In degraded mode the reconnect delay still doubles when it equals `offline_delay`
  (`src/upstream.rs:129`), but at most once: `Backoff.DegradedGrowsOnce`.

## Model

| member | source | states |
|---|---|---|
| Bytes.GetPut | src/multiplex.rs:264-267 | reading a big-endian integer back gives what was written, reduced to the width of the field |
| Bytes.PutGet | src/multiplex.rs:216-219 | writing an integer just read gives back its bytes |
| Bytes.PutUintAt | src/multiplex.rs:264-267 | byte i of a written integer counts multiples of 256 to the number of bytes after it: the order is big-endian |
| Utf8.ValidIffEncoded | src/multiplex.rs:227-230 | `from_utf8` accepts exactly the encodings of sequences of Unicode scalar values |
| Base64.EncodeDecode | src/multiplex.rs:238 | decoding undoes the standard encoding, for all byte strings |
| Base64.DecodeEncode | src/multiplex.rs:238 | every text that decodes is the encoding of what it decodes to |
| Base64.EncodedChar | src/multiplex.rs:238 | each character is that of the standard alphabet for its six bits of its three bytes, or padding where there are no more bits |
| Multiplex.EncodeMultiplexFrame | src/multiplex.rs:251-271 | the buffer, filled piece by piece, is the envelope of its arguments, with both lengths truncated to their fields |
| Multiplex.EnvelopeLayout | src/multiplex.rs:258-269 | where each field lies, byte by byte: magic, kind, source length, sequence, timestamp and payload length, all big-endian, then source and payload |
| TextDecoder.DecodesToItselfIff | README.md:169 | text decoding leaves bytes alone if and only if they are well-formed and do not start with U+FEFF |
| TextDecoder.TextLosesItsMark | README.md:169 | of well-formed text it drops a leading U+FEFF and nothing else |
| TextDecoder.MalformedIsMaximal | README.md:169 | one replacement character stands for as many ill-formed bytes as could still have begun a character, but at least one |
| Multiplex.StrictRoundTrip | README.md:175-188 | the framing gives back all five fields, byte by byte and before any text decoding, if and only if both lengths fit their fields, and the envelope is rejected otherwise |
| Multiplex.StrictReencodes | README.md:175-188 | any frame whose framing is accepted is the envelope of the fields cut out of it, byte for byte |
| Multiplex.MagicAsText | README.md:171-173 | comparing the decoded first four bytes with the magic comes to comparing the bytes |
| Multiplex.DocumentedRoundTrip | README.md:166-192 | the documented decoder gives back all five fields if and only if both lengths fit and neither source nor text payload is ill-formed or starts with U+FEFF; it accepts the envelope if and only if both lengths fit |
| Multiplex.DocumentedReencodes | README.md:166-192 | the fields it returns for a frame make up that frame again if and only if no text field of the frame is ill-formed or starts with U+FEFF |
| Multiplex.EncodeFrameIsInjective | src/multiplex.rs:251-271 | no other fields have the envelope of fields that fit |
| Multiplex.PublishedIsShown | README.md:187-191 | of a published message it drops a leading U+FEFF of the source and of a text payload, and nothing else |
| Multiplex.MarkIsLost | README.md:189 | a published text message of which it loses the first character |
| Multiplex.PrefixRejected | src/multiplex.rs:210-225 | every strict prefix of an envelope is rejected by the decoders and by the payload parser |
| Multiplex.ProjectionRoundTrip | README.md:132-146 | the reader of the JSON form recovers every field and the exact payload (for an embedded JSON value, its text), and exactly when each of the three encodings is used |
| Multiplex.ParsersAgree | src/multiplex.rs:94-120 | a frame the full decoder accepts has the same source and, for kind 1 only, the same payload in the partial parsers; and if both partial parsers accept, so does the decoder |
| Multiplex.LenientIsStrictOnAPrefix | src/multiplex.rs:210-249 | the relay's decoder accepts a frame exactly when some prefix is a whole envelope with a UTF-8 source, and it reads nothing beyond that prefix |
| Multiplex.PayloadOfEncoded | src/multiplex.rs:107-120 | the payload parser finds the payload of every envelope of kind 1 and of no other |
| Multiplex.PublishedProjection | src/multiplex.rs:230-239 | every published message decodes, under its source, and as Base64 exactly when it came as binary |
| Multiplex.MetaOfPublished | src/multiplex.rs:127-177 | of a published text the content hash is the `hash` found in it unless empty, and the payload type its type name with exactly the bytes a to z raised; a binary message, and a text without `data`, has neither |
| Multiplex.MultiplexFrame.constructor | src/multiplex.rs:40-46 | a new frame has empty caches |
| Multiplex.MultiplexFrame.Json | src/multiplex.rs:84-91 | whoever asks first or later gets the projection of the envelope, computed once in all |
| Multiplex.MultiplexFrame.Meta | src/multiplex.rs:60-79 | whoever asks first or later gets the filter fields of the envelope, parsed once in all; `MetaOfPublished` says what they are |
| Dedup.DedupCache.constructor | src/dedup.rs:25-32 | a new cache holds nothing |
| Dedup.DedupCache.Admit | src/dedup.rs:36-52 | the swap, clear and insert in place are one step of the specified cache, and the result says whether the key was in neither set |
| Dedup.SetsAreGenerations | src/dedup.rs:17-52 | after every run the two sets are disjoint and are exactly the keys admitted in the current and in the preceding generation |
| Dedup.SuppressedIffRecent | src/dedup.rs:47-51 | a call is suppressed if and only if its key was admitted in the same or the preceding generation |
| Dedup.AdmissionsAreSparse | src/dedup.rs:36-52 | any k + 1 admissions of a key span strictly more than 2k - 1 windows |
| Dedup.SurvivesAWindow | src/dedup.rs:11-14 | a key is suppressed for at least one window after its admission |
| Dedup.SuppressionIsBounded | src/dedup.rs:38-49 | with calls at most `gap` apart, a suppressed key was admitted less than two windows and one gap ago |
| Dedup.IdleCacheStillSuppresses | src/dedup.rs:14 | for any idle time, however long, a trace in which the key is still suppressed after it |
| Dedup.ReadmittedIff | src/dedup.rs:38-51 | a key is admitted again if and only if some call in between came at least a window after the last rotation before its admission and at least a window ago |
| Dedup.PrefixStable | src/dedup.rs:36-52 | what a cache did is not changed by later calls |
| Config.ValidateSettings | src/config.rs:207-260 | accepts exactly the settings that meet every condition, and each error names a violation that is there |
| Handlers.DedupWindow | src/handlers.rs:104-115 | the window is within one second and the policy's maximum under any policy, and is the requested one, or the nearest allowed to it, or without a request and under a valid policy of whole seconds the configured one |
| Handlers.SourceFilter | src/handlers.rs:199-218 | no filter without a request, the requested ids if all are known, and otherwise exactly the unknown ones as the error |
| Handlers.ServeMultiplexClient | src/handlers.rs:249-353 | over any sequence of wake-ups the loop leaves socket, cache and status as the specified session does, and leaves every shared frame's caches right |
| Handlers.ServeEvent | src/handlers.rs:258-351 | one turn of the loop, with its filters in the code's order, is one act of the session |
| Handlers.Forward | src/handlers.rs:291-327 | a frame past the filters is sent as the jq outputs, the envelope or the projection, in order and up to the first failed send |
| Handlers.PipelineSnoc | src/handlers.rs:262-328 | one more frame adds to the output of the four stages what the dedup state left by all frames before it lets through |
| Handlers.OnFrameExtendsPipeline | src/handlers.rs:262-328 | the loop's single pass over a frame adds exactly that to the session |
| Handlers.ReplayIsPipeline | src/handlers.rs:249-353 | over every run of the loop the frame messages sent are source filter, then type filter, then dedup, then projection of the frames taken, a prefix of it only after a failed send; Close 1013 comes last and only after a lag |
| Handlers.FramesAreSent | src/handlers.rs:258-328 | a frame taken by a live client adds to what it is sent just what it adds to the output of the stages, as far as the socket takes it, and the session stays live exactly if the socket takes it all |
| Handlers.EventsAreAnswered | src/handlers.rs:325-350 | a ping is answered with its payload, a lag draws Close 1013 with the number of frames missed and cuts the client off, a closed channel and a peer that has gone end the session, and no such event touches the dedup cache |
| Handlers.LagCutsOff | src/handlers.rs:329-336 | a live client that lags is sent Close 1013 last, if the socket takes it, and whatever comes after it is sent and takes nothing more |
| Handlers.SuppressedHasTwin | src/handlers.rs:281-289 | a frame is dropped as a repeat only if an earlier one with the same hash passed all filters of this client and all its messages are in the client's stream |
| Stages.PipelineIsJoined | src/handlers.rs:262-328 | the output of the stages is the messages of the frames that pass the filters and are no repeats, each frame once and in order |
| Stages.FreshIffAdmitted | src/handlers.rs:281-289 | the i-th hashed frame that passes gets through if and only if the cache history of the hashes and times of those before it admits it |
| Stages.TwinGotThrough | src/handlers.rs:281-289 | of every frame dropped as a repeat an earlier one with the same hash has got through |
| Stages.RepeatsAreApart | src/handlers.rs:281-289 | two frames with one hash get through only if they are taken more than a window apart |
| Handlers.ServeRawClient | src/handlers.rs:355-393 | over any sequence of wake-ups the loop leaves socket and status as the specified session does |
| Handlers.RawReplayIsIdentity | src/handlers.rs:355-393 | a source client is sent the frames it took, unchanged and in order, with Close 1013 last and only after a lag |
| Handlers.RawEventsAreAnswered | src/handlers.rs:362-390 | a source client is passed a text as text and a binary as binary, and the other events are answered as for `/ws` |
| Handlers.RawLagCutsOff | src/handlers.rs:369-376 | a live source client that lags is sent Close 1013 last, if the socket takes it, and whatever comes after it is sent and takes nothing more |
| Relay.AlwaysShape | src/upstream.rs:297-321 | in every run, counters agree with what was issued modulo 2^64 and every entry of the log carries its runtime's id and fits the envelope |
| Publishing.PublishFrame | src/upstream.rs:297-321 | one call adds the message to the raw channel, its envelope with the old sequence number to the multiplex channel, one to the counter modulo 2^64, and its count and size to both pairs of totals |
| Publishing.PublishesAddUp | src/upstream.rs:297-321 | after any number of undisturbed calls the k-th new envelope decodes to the k-th message with the k-th number, and both channels and all totals have grown by exactly these messages |
| Publishing.UndisturbedEffectsAreOneCall | src/upstream.rs:304-320 | the machine's seven effects of a publish, with no other step between them, are one such call and make the task idle |
| Sequencing.AlwaysTickets | src/upstream.rs:308-320 | in every run each number issued is held by exactly one publish in flight or is in exactly one entry of the log |
| Sequencing.SequenceNumbersAreExact | src/upstream.rs:308-320 | with no publish in flight the multiplex log holds for each runtime the numbers 0 to n - 1 exactly once, however its tasks overlapped, and the framing yields them |
| Sequencing.SerialPublishesAreOrdered | src/upstream.rs:304-320 | when publishes of a runtime do not overlap, its numbers appear in order and its messages are those of its raw channel in that order, at most one behind |
| Totals.TotalsAreConserved | src/upstream.rs:304-306 | with no publish in flight the global packet and byte totals are the sums over all runtimes ever created |
| Totals.IntervalDeltasTelescope | src/metrics.rs:19-27 | in every interleaving the logger's subtractions do not underflow and its deltas add up to the totals it read |
| Delivery.ClientsSeeABlock | src/handlers.rs:258-352 | in every interleaving a `/ws` client has been sent its pipeline applied to the contiguous block of the multiplex log from its subscription to its cursor; it was disconnected for lag only if the ring had dropped its next frame |
| Delivery.RawClientsSeeABlock | src/handlers.rs:360-392 | in every interleaving a source client has been sent a contiguous block of the source's messages unchanged, and was disconnected only if the ring had dropped the next one |
| Delivery.WakeTakesNext | src/handlers.rs:260-262 | a receive whose frame the ring still holds hands the client that frame |
| Delivery.RawWakeTakesNext | src/handlers.rs:362-364 | the same for source clients |
| Delivery.DroppedFrameEndsSession | src/handlers.rs:329-336 | the next receive of a client whose next frame the ring has dropped ends its session, whatever happens then or later: Close 1013 with the number missed is the last it is sent, and it takes no frame any more |
| Delivery.DroppedFrameEndsRawSession | src/handlers.rs:369-376 | the same for source clients |
| Delivery.BlocksAreStable | src/handlers.rs:329-336 | nothing later rewrites the log or a client's session, and nothing is added to a session that has stopped |
| Delivery.SubscriptionPoint | src/handlers.rs:220-223 | the block starts at the end of the log at the moment of subscription |
| Delivery.EveryPublishedFrameDecodes | src/config.rs:240-250 | every frame in the log of any run decodes, runtimes being such as `ServeReloads` shows a supervisor to have over any run of reloads |
| Delivery.SuppressedWasSent | src/handlers.rs:281-323 | for a client without jq whose sends have not failed, each frame suppressed as a repeat is preceded in its block by one whose published text has the same hash and whose message it was sent |
| EndToEnd.ClientIsServed | src/handlers.rs:258-352 | in every interleaving a client of `/ws`, whatever it asked for, is sent each entry of its block that comes from a source and names a type asked for, once and in order, as the jq outputs of its projection, its envelope or its projection, whose fields are those published; only entries whose hash its dedup cache had admitted before are missing, an earlier copy of each of these is sent, and two copies are more than a window apart |
| EndToEnd.PlainClientMissesNothing | README.md:257-261 | with a source filter or none, no wanted entry of the block is missing and each is one message, from which the documented readers get source, number, time, kind and payload (the binary one but for a leading U+FEFF); and while publishes of a runtime do not overlap, the numbers of its successive messages follow each other without a gap |
| State.SourceRuntime.constructor | src/state.rs:62-76 | a new runtime starts disconnected with sequence number 0 |
| State.SourceRuntime.NextSequence | src/upstream.rs:308 | gives the counter's value and moves it on modulo 2^64 |
| State.SourceRuntime.SetDisabled | src/state.rs:113-116 | marks the runtime disconnected and disabled |
| Upstream.ForwardSource | src/upstream.rs:254-295 | publishes exactly the text and binary messages before the session's end, in order, and fails exactly when the end is an error or an unanswerable ping |
| Upstream.ConnectSource | src/upstream.rs:153-252 | leaves the runtime connected since the given time, disconnected after a failure, and untouched if cancelled before |
| Upstream.RunSourceForever | src/upstream.rs:30-137 | over any script the loop waits and returns as the specified task does, publishes exactly what its sessions receive, and ends every round marked disabled if the source is, and otherwise waiting, degraded exactly if the wait it logged was, with the connection time cleared |
| Sessions.PublishedExactly | src/upstream.rs:254-295 | a session ends at its first close, error, end, cancellation or unanswerable ping; it publishes its texts and binaries before that, each once and in order, and fails exactly at an error or such a ping |
| Sessions.AllPublishedExactly | src/upstream.rs:45-137 | a task publishes what its sessions publish, up to and including the round in which it is cancelled |
| Backoff.RoundLogs | src/upstream.rs:66-123 | under any policies, what a round logs, from the script and the lengths of the waits before: a new connection if there is one, and a wait that begins when attempt and lag are over, that is degraded if and only if it begins at least the threshold after the last drop, or without one the first failure, and that lasts the offline delay then and otherwise the initial delay read at this round's connection, or without one the delay that follows from the last wait |
| Backoff.DropRestartsTheClock | src/upstream.rs:87-117 | the wait in which a connection dropped is degraded if and only if that round's own lag reaches the threshold, however long the source was offline before |
| Backoff.ReturnsIffCancelled | src/upstream.rs:46-127 | the task returns if and only if a cancellation reaches it, at whichever of its four looks |
| Backoff.DelayIsCapped | src/upstream.rs:119-135 | under one policy the delay is min(initial * 2^k, max), k counting the completed waits of the delay's length since the last connection, at the end and at each wait of the outage; so it stays within [initial, max] |
| Backoff.DelayStaysWithin | src/upstream.rs:129-135 | under any changing policies the delay stays at most the largest maximum among them, so the doubling stays below twice that |
| Backoff.FirstWaitAfterDrop | src/upstream.rs:67-70 | after a drop the delay is the initial one read when that connection came about, and so is the first wait unless already degraded |
| Backoff.DegradedIffOffline | src/upstream.rs:105-123 | under one policy a wait of the outage is degraded if and only if it begins at least the threshold after the moment the source went offline, which is the last drop, or without one the first failure |
| Backoff.DegradedUntilConnected | src/upstream.rs:105-117 | under one policy, once degraded a task stays degraded until it has a connection |
| Backoff.WaitsBeforeDegraded | src/upstream.rs:87-123 | the n-th wait of an outage is not degraded only if the ones before it were not, waited min(initial * 2^i, max) each, and total less than the offline threshold |
| Backoff.OfflineIsNoticed | src/upstream.rs:109-123 | n such waits need initial * (n - 1), and before the cap is reached initial * (2^(n-1) - 1), below the threshold |
| Backoff.DegradedGrowsOnce | src/upstream.rs:129-135 | within the degraded part of an outage the delay changes at most once, and only from exactly the offline delay |
| Supervisor.Interleave | src/upstream.rs:46-127 | no steps of tasks, dismissed ones included, make one work under anything but what is configured at that moment, and only a cancelled task's loop returns |
| Supervisor.SourceSupervisor.StopTask | src/sources.rs:163-168 | removes the task, cancelled and aborted, so that every task there ever was stays accounted for |
| Supervisor.SourceSupervisor.SpawnTask | src/sources.rs:175-181 | a fresh running task takes the place of any old one, which is cancelled and aborted; nothing else changes |
| Supervisor.SourceSupervisor.AddSource | src/sources.rs:136-155 | a new source has a fresh runtime with its configuration and the channel capacity in force, and a task if it is enabled, being marked disabled otherwise; nothing else changes |
| Supervisor.SourceSupervisor.RemoveSource | src/sources.rs:157-161 | the source is gone from both maps and its task is cancelled and aborted |
| Supervisor.SourceSupervisor.RemoveUnwanted | src/sources.rs:83-98 | in any order of removal, exactly the unwanted sources and tasks are gone, those tasks cancelled and aborted, and the wanted ones as before |
| Supervisor.SourceSupervisor.Settle | src/sources.rs:111-126 | of the five outcomes the right one: a task stays if and only if its source was enabled, neither url, headers nor proxy differ and the TLS setting has not changed; a disabled source is marked so, and nothing else changes |
| Supervisor.SourceSupervisor.Reconcile | src/sources.rs:100-131 | one round of the loop, with task steps inside it, realizes one desired source and leaves the others as they are |
| Supervisor.SourceSupervisor.ReconcileAll | src/sources.rs:100-131 | for any iteration order all desired sources end up realized, on their old runtimes, keeping exactly the tasks that survive; whatever was not there before is new, and no task is left to itself |
| Supervisor.SourceSupervisor.Apply | src/sources.rs:36-134 | fails exactly for invalid settings, then changing nothing; otherwise the sources are exactly the configured ones with their configurations, old ids keep their runtime object, a task object is kept if and only if its source was and stays enabled with the same url, headers, proxy and TLS setting, every other task there ever was is cancelled and aborted, and disabled sources are marked disabled and disconnected |
| Supervisor.SourceSupervisor.ApplyAgain | src/sources.rs:108-126 | applying settings already in force leaves every runtime and task in place |
| Supervisor.SourceSupervisor.EnabledHaveTasks | src/sources.rs:111-130 | in a valid state exactly the enabled sources have a task, for their own runtime, neither cancelled nor aborted nor returned, whose open connection has the configured url, headers, proxy and TLS setting; disabled sources are marked so; and every other task there ever was is cancelled and aborted |
| Supervisor.SourceSupervisor.Start | src/sources.rs:30-34 | a supervisor started on valid settings is in a valid state with them in force, and all its runtimes may publish |
| Supervisor.SourceSupervisor.ReloadFromDisk | src/sources.rs:213-273 | which fields a failed load, a rejected and an accepted reload change, and that each leaves a valid state |
| Supervisor.SourceSupervisor.ServeReloads | src/reload.rs:27-35 | over any run of good and bad reloads with task steps between them the state stays valid, the last accepted settings are in force, an id configured throughout keeps its runtime object, no task is ever forgotten, and all runtimes keep ids and capacities that the relay can publish under |
| Telemetry.SnapshotsInOrder | src/telemetry.rs:106-154 | in every interleaving of storing, sending, reading, subscribing and ignored lag, the snapshots a client is sent increase, except that the greeting may come once more as the first received |
| Telemetry.GreetingCanRepeat | src/telemetry.rs:106-110 | a run in which it does |
| Telemetry.RetainedSnapshotsArrive | src/telemetry.rs:133-143 | in every interleaving, of the snapshots between a client's subscription and its cursor it was sent every one that the channel still holds |
| Telemetry.ReceivesGetOn | src/telemetry.rs:131-143 | a subscription starts at the end of the channel, and a receive that is delivered gets on to the next snapshot if it is still held and otherwise, with no end to the session, to the oldest of the sixteen held |
| Telemetry.GreetedWithTheLatest | src/telemetry.rs:115-129 | a client that finds a stored snapshot at its first look is sent that one first, and is not subscribed before |
| Metrics.ThroughputMetrics.RecordPacket | src/metrics.rs:14-17 | counts one packet and its bytes |
| Metrics.ThroughputMetrics.IntervalDelta | src/metrics.rs:19-27 | the deltas and the marks they are relative to add up to the counters, which are the new marks |
| Metrics.LogThroughput | src/status.rs:13-24 | each report covers exactly the packets and bytes of its own interval, the first also all counted before |
| Proxy.ReadConnectResponse | src/proxy.rs:137-153 | reads exactly the shortest prefix that ends in CRLF CRLF if that has at most 16384 bytes, and otherwise fails as too long after one byte more or as closed at the end of the stream |
| Proxy.HeadIsPrefixFree | src/proxy.rs:141-153 | what follows the head, being tunnel data, has no influence on where it ends |

## Left out

- Sockets, TLS, HTTP routing, tracing, Prometheus and process metrics, signal installation, files and TOML: only their outcomes appear, as arguments.
- Tokio's broadcast channel: its documented contract (a ring that keeps the last values, a cursor per receiver, `Lagged` with the number missed) is the specification. The model's logs also record values sent while nobody was subscribed, which the channel drops and nobody can observe.
- JSON, serde and jq: arbitrary functions, see above. `serde_json::to_string` is taken to succeed on a projection, and the text of an embedded value is what `RawValue` keeps, without surrounding blanks.
- Splitting and trimming of the comma-separated query parameters, and compiling jq programs: the handshake starts from the parsed lists.
- Wrap-around of the 64-bit packet and byte totals. The sequence counter does wrap around.
- Payloads of 2^32 bytes or more reaching `publish_frame`: the upstream library limits messages far below that.
- Floating-point rates, CPU percentage and the per-source differences of `source_telemetry`.
- URL parsing in `validate_proxy_url`, the CONNECT request, and the check of the status line after the head has been read.
- Abortion of a task in the middle of an await: in `Relay` any task may at any point never move again, and several tasks of one runtime may publish at once; in `Supervisor` a task may go on with its steps after it has been aborted.
- `connected_since_ms` across a restart: an aborted task does not mark its runtime disconnected, so the model claims nothing about the field before the new task's first attempt is over.
- Static page, config paths and listen address in a reload, and the admin endpoints.
- Supervisor.Interleave: the tasks' steps are those that matter to reconciliation (copying the configuration, opening and losing a connection, returning). A task's own stores of a connection state are not among them, so what the contracts say of a disabled source's state is what `apply` stores there. Publishing is in `Relay`, where runtimes are never dropped; no method of `Supervisor` may modify a sequence counter.
- Upstream.RunSourceForever: states the counters and channels for a task that is the only one of its runtime and with no other source publishing meanwhile; interleavings are the subject of `Relay`.
- Fairness: nothing is said on how soon a client or a task takes its next step.
