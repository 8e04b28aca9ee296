# Codex app-server: a verified model

A Dafny model of five parts of the Codex app-server and its clients, with proofs about whole runs:

- **The analytics reducer** folds facts that arrive in any order into tracking events, over seven keyed maps.
  `ReducerModel` is what one fact does, `ReducerRuns`, `ReducerTurns` and `ReducerReviews` are about every run.
  `ReducerStory` tells from the facts alone, without any map, which events they call for, and `ReducerRefinement` proves
  that the reducer emits exactly those. `Reducer` is the object that updates its maps in place.
- **Event forwarding** moves server events to a consumer through a bounded queue, with lossless events, droppable
  events and lag markers. `EventForwarding` makes every point at which the worker can wait a point of its own, and lets
  the consumer receive or go away between any two.
- **The remote client** matches responses to requests over one connection (`RemoteClient`) and joins what arrived during
  the handshake with what comes later into one stream (`RemoteSession`).
- **The daemon** runs lifecycle operations of several processes under one lock, over a settings file, a backend and an
  updater. `DaemonModel` is one step, `DaemonSafety` the invariant, `DaemonResults` the guarantees, `DaemonOutcomes` what
  each operation has brought about when it succeeds, `DaemonAlone` what each comes to on a host of its own,
  `DaemonFailures` the runs that show conditions exact, and `Daemon` the operations as straight-line code on a machine.
- **Compact transformations**: schema canonicalisation as the decision procedure of an equivalence (`JsonCanonical`, on
  the injective printer of `JsonText`), whose result is the one equivalent value in order (`JsonOrder`), the diff scanner as the inverse of a diff printer (`DiffScan`), request batching
  (`Batching`) and the once-per-turn filter (`Dedupe`).

Outcomes of writes, probes, clocks, hashes and of the scheduler are inputs of the model: whatever is proved holds for
all of them. `dafny verify dfyconfig.toml` checks everything.

## What turned out differently from the code's own words

- The diff scanner is said to read unified diffs. A second file without a `diff --git` line has its two header lines
  counted as one added and one deleted line (`DiffScan.PlainPairIsMiscounted`). A path that ends in white space is
  fingerprinted as if it did not (`DiffScan.SpacedPathIsMisread`, `DiffScan.SpacedFileExists`).
  `DiffScan.ScanInvertsPrintIff` says on which printed diffs the scanner is right: those in which no file with headers
  follows a hunk without being announced, and in which every file with an effective added line has a path that hashes
  like its trimmed form.
- An operation of the daemon that ends between saving the settings and stopping the backend leaves the two in
  disagreement (`DaemonFailures.BreakingOffDisagrees`), and `DaemonResults.HarmIsExact` says exactly when.
- A request to have remote control running can succeed without it. It trusts the saved setting about a running backend,
  and a socket that answers about a missing one. `DaemonModel.Startable` is the condition on the host: not bootstrapped,
  settings that do not read, or a backend that runs with remote control or is known to run without it, or no backend and no unmanaged server.
  `DaemonFailures.StartableIsExact` proves it exact.
- A change of the remote-control setting looks at the file, not at the backend. On a host whose file has the setting
  already while the backend runs without it, the change succeeds and the backend stays as it is
  (`DaemonAlone.SettingIsTaken`). `DaemonOutcomes.Achieved` says when an undisturbed change gets the backend right:
  exactly when the backend found did not run with the other setting, or the file agreed with it (`Corrigible`).
- The counter of skipped events saturates. `EventForwarding.LagReportingIsGapExact` says that reporting is exact if and
  only if it never has, and that it cannot have before more than 2^64 - 1 events were pulled;
  `EventForwarding.SaturationIsReached` is a run in which it has.

## Model

| member | source | states |
|---|---|---|
| Reducer.AnalyticsReducer.constructor | codex-rs/analytics/src/reducer.rs:130-139 | a new reducer has seven empty maps |
| Reducer.AnalyticsReducer.Ingest | codex-rs/analytics/src/reducer.rs:377-487 | one fact changes the seven maps and appends events exactly as the model's step says |
| Reducer.AnalyticsReducer.MaybeEmitTurnEvent | codex-rs/analytics/src/reducer.rs:1474-1525 | the turn is reported, then its accepted lines, and forgotten, or left alone, as the model says; which facts make a turn reported is `ReducerRefinement.CompleteTurnsAreReported` |
| Reducer.AnalyticsReducer.IngestTurnResolvedConfig | codex-rs/analytics/src/reducer.rs:599-623 | the configuration reaches the turn, which may then be complete |
| Reducer.AnalyticsReducer.IngestTurnTokenUsage | codex-rs/analytics/src/reducer.rs:625-646 | token usage reaches the turn, which may then be complete |
| Reducer.AnalyticsReducer.IngestRequest | codex-rs/analytics/src/reducer.rs:568-597 | turn starts and steers are remembered under connection and id |
| Reducer.AnalyticsReducer.IngestResponse | codex-rs/analytics/src/reducer.rs:752-821 | threads are opened; a turn start is matched with its request, which is consumed |
| Reducer.AnalyticsReducer.IngestTurnSteerResponse | codex-rs/analytics/src/reducer.rs:1341-1364 | an accepted steer is counted on a live turn and reported once, consuming its request |
| Reducer.AnalyticsReducer.IngestErrorResponse | codex-rs/analytics/src/reducer.rs:1024-1072 | a failed request is consumed; a failed steer is reported as rejected |
| Reducer.AnalyticsReducer.EmitThreadInitialized | codex-rs/analytics/src/reducer.rs:1230-1275 | on a known connection the thread is bound with its metadata and reported; otherwise nothing happens |
| Reducer.AnalyticsReducer.IngestSubAgentThreadStarted | codex-rs/analytics/src/reducer.rs:514-543 | the thread inherits its parent's connection and keeps connection and metadata it already had |
| Reducer.AnalyticsReducer.IngestServerRequest | codex-rs/analytics/src/reducer.rs:823-937 | an approval request stakes a claim under its request id value |
| Reducer.AnalyticsReducer.IngestServerResponse | codex-rs/analytics/src/reducer.rs:939-982 | an answer consumes the claim and decides the review |
| Reducer.AnalyticsReducer.EmitReviewEvent | codex-rs/analytics/src/reducer.rs:1407-1453 | a decided review is noted in its item's summary even when its event is dropped |
| Reducer.AnalyticsReducer.RecordItemReviewSummary | codex-rs/analytics/src/reducer.rs:1455-1472 | counts, last outcome and flags of the summary after one more review |
| Reducer.AnalyticsReducer.CountTool | codex-rs/analytics/src/reducer.rs:352-374 | a tool completion is the turn's tool signal |
| Reducer.AnalyticsReducer.CloseItem | codex-rs/analytics/src/reducer.rs:1107-1147 | the item's start is used up; with a time and a known thread its event states its reviews, which are then forgotten |
| Reducer.AnalyticsReducer.IngestItemCompleted | codex-rs/analytics/src/reducer.rs:1097-1147 | the tool is counted on a live turn, the start consumed, and the tool event states the item's reviews, which are then forgotten |
| Reducer.AnalyticsReducer.IngestNotification | codex-rs/analytics/src/reducer.rs:1074-1228 | each notification moves turn, item and review maps as the model says |
| Reducer.IngestAll | codex-rs/analytics/src/client.rs:62-69 | feeding facts one by one gives the state of the model's run and, as output, exactly the story the facts tell |
| ReducerRuns.EventHasCause | codex-rs/analytics/src/reducer.rs:377-487 | which facts can emit which kind of event |
| ReducerRuns.ContextAlwaysKnown | codex-rs/analytics/src/reducer.rs:489-543 | in every reachable state each thread has metadata and a bound connection is known, also along subagent chains |
| ReducerRuns.ContextDropsOnlyUnboundThreads | codex-rs/analytics/src/reducer.rs:1527-1563 | the context of a thread is missing only because the thread has no connection: the other two drops are dead |
| ReducerRuns.ConnectionsHoldLatest | codex-rs/analytics/src/reducer.rs:489-512 | a connection holds what its latest initialisation said and is never forgotten |
| ReducerRuns.MapsHoldLatest | codex-rs/analytics/src/reducer.rs:568-597 | requests, item starts and claims hold what the latest fact about their key said |
| ReducerRuns.ToolEventsBounded | codex-rs/analytics/src/reducer.rs:1080-1147 | over every run, tool events of an item are at most its starts |
| ReducerRuns.AnswersBounded | codex-rs/analytics/src/reducer.rs:786-817 | over every run, steer events and matched turn starts of a request key together are at most the requests seen |
| ReducerRuns.UserReviewsConsume | codex-rs/analytics/src/reducer.rs:939-1022 | every user review event consumes the claim it reports |
| ReducerRuns.UserReviewsBounded | codex-rs/analytics/src/reducer.rs:823-1022 | over every run, consumed user reviews of a request id, plus a pending one, are at most the approvals asked |
| ReducerRuns.NoResurrection | codex-rs/analytics/src/reducer.rs:1005-1072 | an answered, failed or aborted request yields nothing more until it is asked again |
| ReducerRuns.PrintedIdIsNoKey | codex-rs/app-server-protocol/src/jsonrpc_lite.rs:16-30 | two different request ids print alike |
| ReducerTurns.TurnStep | codex-rs/analytics/src/reducer.rs:377-487 | every fact moves the turn map and emits turn events as the one signal it carries to one turn |
| ReducerTurns.TurnStateIsEpochDigest | codex-rs/analytics/src/reducer.rs:599-646 | in every reachable state a turn is the digest of the signals since it was created, whatever their order: latest values and counts |
| ReducerTurns.ToolCountsAddUp | codex-rs/analytics/src/reducer.rs:352-374 | a turn's total is the sum of its seven kinds and the tracked completions since the turn was created |
| ReducerTurns.ReportStatesTheEpoch | codex-rs/analytics/src/reducer.rs:1474-1525 | a report states the digest of the turn's epoch, which then ends; what completes an epoch, told from the facts, is `ReducerRefinement.CompleteTurnsAreReported` |
| ReducerTurns.AcceptedLinesFollowReports | codex-rs/analytics/src/reducer.rs:2390-2418 | over every run each accepted-lines event directly follows the report of the same turn and counts that report's diff |
| ReducerTurns.ReportsBounded | codex-rs/analytics/src/reducer.rs:1474-1525 | over every run, reports of a turn are at most its matched starts, its configurations and its completions |
| ReducerTurns.PerTurnProjection | codex-rs/analytics/src/reducer.rs:377-487 | a turn's events over any run are those of the run without the facts of other turns |
| ReducerReviews.SummaryStep | codex-rs/analytics/src/reducer.rs:1407-1472 | how every fact moves one item's summary, and that only its completion emits its tool event |
| ReducerReviews.SummaryStatesLiveReviews | codex-rs/analytics/src/reducer.rs:1455-1472 | in every reachable state a summary states exactly the reviews recorded since the item last closed: counts, last outcome, flags |
| ReducerReviews.ToolEventStatesItsItem | codex-rs/analytics/src/reducer.rs:1989-2027 | every tool event reports exactly those reviews, guardian plus user, with the last one's outcome |
| ReducerReviews.ReviewsConserved | codex-rs/analytics/src/reducer.rs:1097-1147 | over every run, reviews recorded equal those reported, plus the live ones, plus those discarded by completions without a final status |
| ReducerRefinement.OutputIsTheStory | codex-rs/analytics/src/reducer.rs:377-487 | over every run the output is, event for event and field for field, the one defined from the facts alone: connections known, threads open, requests unanswered, turns since their last report, items started, reviews decided |
| ReducerRefinement.FactSays | codex-rs/analytics/src/reducer.rs:377-487 | one fact emits exactly the events it calls for after the facts before it, and no others |
| ReducerRefinement.CompleteTurnsAreReported | codex-rs/analytics/src/reducer.rs:1474-1525 | a fact emits one report of a turn, and never two, if and only if it starts, configures, finishes or tells tokens of the turn and since its last report the turn was started on a known connection, configured and finished, and the thread named last is open |
| ReducerRefinement.EpochHistory | codex-rs/analytics/src/reducer.rs:599-646 | a turn is live exactly while it has heard something since its last report, and what it has heard is told from the facts; tools and steers begin nothing |
| ReducerRefinement.ThreadHistory | codex-rs/analytics/src/reducer.rs:514-543 | a thread's connection and metadata are those of its last opening on a known connection, and of its announcement and its parent where it had none |
| ReducerRefinement.RequestHistory | codex-rs/analytics/src/reducer.rs:568-597 | a turn request is remembered exactly from its making to its answer or failure, with its images counted |
| ReducerRefinement.ItemHistory | codex-rs/analytics/src/reducer.rs:1080-1147 | an item's start is remembered exactly until a tracked completion in a live turn |
| ReducerRefinement.ClaimHistory | codex-rs/analytics/src/reducer.rs:823-1022 | a claim is remembered exactly until its request id is answered or aborted, with subject, trigger and flags as the request calls for |
| ReducerRefinement.ReviewHistory | codex-rs/analytics/src/reducer.rs:1407-1472 | an item's summary is that of the reviews the facts have decided for it since it last closed, each with the outcome its answer calls for |
| ReducerRefinement.ToolEventsTellTheLastAnswer | codex-rs/analytics/src/reducer.rs:1989-2027 | a tool event's outcome is the one its item's last answer calls for: approved, approved for the session, denied or aborted by the user or the guardian; unknown without an answer |
| EventForwarding.LagReportingIsGapExact | codex-rs/app-server-client/src/lib.rs:207-273 | over every interleaving, expanding markers into holes gives the input place by place, lossless events never being holes, if and only if the counter never saturated |
| EventForwarding.RequestsAreAccountedFor | codex-rs/app-server-client/src/lib.rs:207-273 | over every interleaving each event the worker takes has one fate: a token refresh is refused; anything else is delivered in its place, dropped in its turn (and rejected if it is a request), still being forwarded, or the one event abandoned when the consumer closed; every rejection is one of these, in the order taken |
| EventForwarding.TakenIsRefusedOrForwarded | codex-rs/app-server-client/src/lib.rs:551-590 | over every run the requests refused as unsupported are, in order, exactly the token-refresh requests taken, and forwarding was begun for exactly the other events taken |
| EventForwarding.SaturationIsReached | codex-rs/app-server-client/src/lib.rs:237-244 | with a full queue and `n` droppable events the counter shows the smaller of `n` and its maximum, the rest goes uncounted, and reporting is then inexact exactly beyond the maximum |
| EventForwarding.RefreshIsNeverForwarded | codex-rs/app-server-client/src/lib.rs:551-571 | token-refresh requests are never forwarded, and a rejection carries the code that its request calls for |
| EventForwarding.DropsOnlyWhenFull | codex-rs/app-server-client/src/lib.rs:207-273 | over every run an event is dropped, or a request rejected for a full queue, only while the consumer is there and the queue is full |
| EventForwarding.RoomMeansDelivery | codex-rs/app-server-client/src/lib.rs:207-273 | an event pulled with two free places is delivered by the worker's next steps, directly behind a marker if events were skipped, and the counter is then zero |
| EventForwarding.NoRoomMeansWaitOrDrop | codex-rs/app-server-client/src/lib.rs:151-273 | with a full queue the seven lossless kinds of notification wait, and any other event is dropped, counted and, if a request, rejected |
| EventForwarding.LastRoomGoesToTheMarker | codex-rs/app-server-client/src/lib.rs:215-244 | with one free place and events skipped the marker takes it, and the event then waits or is dropped as the first of a new gap |
| EventForwarding.EndsWithTheStream | codex-rs/app-server-client/src/lib.rs:502-601 | the worker ends by a shutdown or the end of the runtime's stream, and from nowhere but where it chooses what to do |
| EventForwarding.ShutdownIsNeverStuck | codex-rs/app-server-client/src/lib.rs:763-795 | from every reachable state, once the receiver is dropped, and whatever happens after, the worker is not blocked and can be shut down after one step of its own |
| EventForwarding.OpenConsumerCanBlockShutdown | codex-rs/app-server-client/src/lib.rs:771-775 | without dropping the receiver a full queue holds the worker and shutdown with it |
| EventForwarding.StepKeeps | codex-rs/app-server-client/src/lib.rs:499-601 | every step of worker, consumer and commands keeps the accounting |
| EventForwarding.Worker.constructor | codex-rs/app-server-client/src/lib.rs:491-501 | a capacity of at least one, an open empty queue, nothing skipped |
| EventForwarding.Worker.ForwardInProcessEvent | codex-rs/app-server-client/src/lib.rs:207-273 | from any point of waiting, what marker or event is enqueued, dropped, rejected or abandoned next, as the protocol's step says; when each happens is `EventForwarding.DropsOnlyWhenFull` and `EventForwarding.RoomMeansDelivery` |
| EventForwarding.Worker.TakeEvent | codex-rs/app-server-client/src/lib.rs:551-590 | refuses a token refresh, else begins forwarding with the marker first when events were skipped |
| EventForwarding.Worker.SkipEvent | codex-rs/app-server-client/src/lib.rs:237-244 | counts the event, saturating, and rejects it if it is a request |
| EventForwarding.Worker.Turn | codex-rs/app-server-client/src/lib.rs:502-601 | one turn of the worker or move of its surroundings is one step of the protocol |
| EventForwarding.Worker.Work | codex-rs/app-server-client/src/lib.rs:499-601 | a worker in any surroundings ends where the protocol's run ends, with exact lag reporting unless the counter saturated, every event taken accounted for, and nothing abandoned while the consumer is open |
| RemoteClient.ServeKeeps | codex-rs/app-server-client/src/remote.rs:209-467 | over every run, each command taken has one answer, outstanding requests none, and each answer is the right one: the first reply to its id, a duplicate of an unanswered request, or its own failed write |
| RemoteClient.FirstReplyAnswers | codex-rs/app-server-client/src/remote.rs:312-325 | a request is answered at most once, and unanswered only while no reply to its id has come |
| RemoteClient.DuplicatesNeverReachTheWire | codex-rs/app-server-client/src/remote.rs:220-236 | a request taken is refused if and only if an earlier request with its id is still unanswered, and it is on the wire if and only if it is not refused |
| RemoteClient.StrangersChangeNothing | codex-rs/app-server-client/src/remote.rs:220-325 | a duplicate and a reply to an unknown id leave everything else as it was |
| RemoteClient.ServeStreams | codex-rs/app-server-client/src/remote.rs:213-457 | over every run, the wire holds what the inputs call for in order, the consumer is there until it leaves, and has been sent the decodable events in order, or those before it left |
| RemoteClient.DisconnectedClosesTheStream | codex-rs/app-server-client/src/remote.rs:213-457 | a consumer that stays gets every decodable event and then one `Disconnected`, last, exactly on a remote fault; none on a local shutdown; one that leaves has got exactly the decodable events before |
| RemoteClient.FirstEndingDecides | codex-rs/app-server-client/src/remote.rs:209-457 | a run goes on if and only if no input must end it: a close, an invalid text, a transport error, the end of the stream, a shutdown, the commands' end, a failed write of a request or of an error reply, or a decodable message once the consumer is gone; the first such input fixes how many are taken and how the run ends |
| RemoteClient.TellRemaining | codex-rs/app-server-client/src/remote.rs:459-467 | each remaining waiter is told once, whatever the order |
| RemoteClient.RemoteWorker.SendRequest | codex-rs/app-server-client/src/remote.rs:220-254 | duplicate refused, else registered and written; a failed write answers it and disconnects |
| RemoteClient.RemoteWorker.SettleRequest | codex-rs/app-server-client/src/remote.rs:316-325 | the waiter of that id is answered and removed, if there is one |
| RemoteClient.RemoteWorker.HandleMessage | codex-rs/app-server-client/src/remote.rs:315-390 | replies settle, decodable messages are delivered, unknown requests are answered with an error |
| RemoteClient.RemoteWorker.HandleFrame | codex-rs/app-server-client/src/remote.rs:312-456 | what each frame, close, failure or end of stream does, as the model's step; which of them end a run and how is `RemoteClient.FirstEndingDecides` |
| RemoteClient.RemoteWorker.HandleInput | codex-rs/app-server-client/src/remote.rs:212-457 | one turn of the loop is one step of the model |
| RemoteClient.RemoteWorker.Work | codex-rs/app-server-client/src/remote.rs:206-467 | the worker leaves exactly at the first input that must end it, in the way that input calls for; then every command it took has been answered exactly once, the left-over waiters with the error kind that input calls for |
| RemoteSession.InitializeRemoteConnection | codex-rs/app-server-client/src/remote.rs:804-933 | connects if and only if the first decisive frame accepts and both writes succeed, with the events before it in order; else the error kind that frame calls for; and every unknown request up to there was answered with an error, once and in order |
| RemoteSession.HandleFrame | codex-rs/app-server-client/src/remote.rs:824-911 | what one frame is to the handshake: an event kept, a reply written, the server's word or a failure |
| RemoteSession.StreamIsWireOrder | codex-rs/app-server-client/src/remote.rs:822-933 | handshake events and the worker's events together are the decodable messages of the whole connection in wire order, and then how it ended |
| RemoteSession.ConnectWithStream | codex-rs/app-server-client/src/remote.rs:188-476 | over every handshake and every interleaving of worker inputs and reads, what `next_event` yields a caller that stays is a prefix of the connection's decodable messages in wire order followed by how it ended, and all of it once the stream ends |
| RemoteSession.Converse | codex-rs/app-server-client/src/remote.rs:603-608 | reads and worker interleaved in any way yield the handshake's and the worker's events from the beginning, and all of them at the end of the stream |
| RemoteSession.TakeInput | codex-rs/app-server-client/src/remote.rs:942-952 | what the worker sends reaches the client's channel, and so does its leaving |
| RemoteSession.RemoteAppServerClient.constructor | codex-rs/app-server-client/src/remote.rs:470-476 | a client starts with the handshake's events to read |
| RemoteSession.RemoteAppServerClient.NextEvent | codex-rs/app-server-client/src/remote.rs:603-608 | yields the next event not yet read, handshake events first; ends only when the worker is gone and all was read |
| JsonText.PrintIsInjective | codex-rs/app-server-protocol/src/schema_fixtures.rs:180-193 | well-formed values with the same compact text are equal, so the sort's tie-break separates them |
| JsonCanonical.CanonicalDecidesEquivalence | codex-rs/app-server-protocol/src/schema_fixtures.rs:152-227 | two well-formed values have one canonical form if and only if one becomes the other by reordering object entries and, at any depth, arrays made of scalars and of objects with a string `$ref` or `title` |
| JsonCanonical.CanonicalIdempotent | codex-rs/app-server-protocol/src/schema_fixtures.rs:152-208 | a canonical form is its own canonical form |
| JsonCanonical.CanonicalIsEquivalent | codex-rs/app-server-protocol/src/schema_fixtures.rs:152-208 | a value is equivalent to its canonical form |
| JsonCanonical.CanonicalKeeps | codex-rs/app-server-protocol/src/schema_fixtures.rs:174-182 | canonicalising keeps well-formedness and sort keys |
| JsonCanonical.KeyedIsSortable | codex-rs/app-server-protocol/src/schema_fixtures.rs:210-227 | a value has a sort key if and only if it is a scalar or an object with a string `$ref` or `title` |
| JsonOrder.ComparisonIsTheOrder | codex-rs/app-server-protocol/src/schema_fixtures.rs:183-208 | comparing sort keys and then texts is the order by kinds: booleans, numbers, null, references, strings, titles, and within a kind by what it is about |
| JsonOrder.CanonicalIsOrdered | codex-rs/app-server-protocol/src/schema_fixtures.rs:152-208 | in a canonical form, at every depth, object keys strictly ascend and sortable arrays ascend in that order |
| JsonOrder.CanonicalIsTheOrderedOne | codex-rs/app-server-protocol/src/schema_fixtures.rs:152-227 | the canonical form of a value is the one equivalent value in order |
| Sorting.TextOrder | codex-rs/app-server-protocol/src/schema_fixtures.rs:190-199 | strings are compared as `str` is: a prefix first, else by the first difference |
| JsonCanonical.CanonicalizeJson | codex-rs/app-server-protocol/src/schema_fixtures.rs:152-208 | the procedure with its local vectors computes the canonical form, which `JsonOrder.CanonicalIsTheOrderedOne` characterises without it |
| JsonCanonical.CanonicalizeItems | codex-rs/app-server-protocol/src/schema_fixtures.rs:174 | canonicalises element by element |
| DiffScan.AcceptedLineFingerprintsFromUnifiedDiff | codex-rs/analytics/src/accepted_lines.rs:30-83 | the loop computes the scan of the text's lines |
| DiffScan.ScanOfPrint | codex-rs/analytics/src/accepted_lines.rs:30-83 | the scan of any printed multi-file diff counts its lines, plus one added and one deleted for every unannounced file; with none, its fingerprints are exactly those of the effective added lines under the trimmed paths |
| DiffScan.ScanInvertsPrintIff | codex-rs/analytics/src/accepted_lines.rs:30-83 | scanning inverts printing if and only if no file is unannounced and every file with an effective added line has a path that hashes like its trimmed form |
| DiffScan.ScanInvertsGitPrint | codex-rs/analytics/src/accepted_lines.rs:30-83 | scanning inverts printing on git diffs if and only if no fingerprinted path suffers from trimming, so on all whose paths do not end in white space, also when hunk lines look like headers |
| DiffScan.PlainPairIsMiscounted | codex-rs/analytics/src/accepted_lines.rs:40-58 | any two files of which the second is plain are miscounted by one and one |
| DiffScan.PlainFileExists | codex-rs/analytics/src/accepted_lines.rs:40-58 | there are such files |
| DiffScan.SpacedPathIsMisread | codex-rs/analytics/src/accepted_lines.rs:143-155 | any git diff of a file with an effective added line and a path the hash tells from its trimmed form is fingerprinted wrongly |
| DiffScan.SpacedFileExists | codex-rs/analytics/src/accepted_lines.rs:143-155 | there is such a file for every hash that tells `x` from `x` followed by a space |
| DiffScan.ScanCounts | codex-rs/analytics/src/accepted_lines.rs:30-83 | the counts of a scan do not depend on the hash |
| DiffScan.ScanIgnoresCr | codex-rs/analytics/src/accepted_lines.rs:157-169 | carriage returns at line ends make no difference |
| Batching.TrackEventRequestBatches | codex-rs/analytics/src/client.rs:413-434 | the loop computes the batches |
| Batching.BatchesSend | codex-rs/analytics/src/client.rs:413-434 | batches concatenate to the events in order, none is empty, isolated events are alone |
| Batching.BatchesAreFewest | codex-rs/analytics/src/client.rs:413-434 | no other valid segmentation uses fewer batches |
| Batching.BatchesAreTheOnlyFewest | codex-rs/analytics/src/client.rs:413-434 | and no other uses as few |
| Dedupe.AnalyticsEventsQueue.constructor | codex-rs/analytics/src/client.rs:70-74 | both memories are empty |
| Dedupe.AnalyticsEventsQueue.ShouldEnqueueAppUsed | codex-rs/analytics/src/client.rs:84-100 | reports a use if and only if the specification does, always without a connector; reports made are 4096 times the clears plus the set's size, which is at most 4096 |
| Dedupe.AnalyticsEventsQueue.ShouldEnqueuePluginUsed | codex-rs/analytics/src/client.rs:102-115 | the same for plugins |
| Dedupe.Insert | codex-rs/analytics/src/client.rs:92-99 | a set emptied when full answers for one more use as the specification does, and still holds what it should |
| Dedupe.ReportedBlocksDiffer | codex-rs/analytics/src/client.rs:84-115 | between two clears no key is reported twice |
| Dedupe.EveryUseIsReported | codex-rs/analytics/src/client.rs:84-115 | exactly the keys used are reported, each at most once per 4096 reports begun |
| DaemonResults.MutualExclusion | codex-rs/app-server-daemon/src/lib.rs:700-713 | over every interleaving with failures and crashes, at most one operation is under way |
| DaemonResults.BackendFollowsSettings | codex-rs/app-server-daemon/src/lib.rs:276-403 | over every interleaving in which no operation ends between saving and replacing, a running backend has the saved setting outside that window |
| DaemonResults.HarmIsExact | codex-rs/app-server-daemon/src/lib.rs:554-561 | an operation that ends there leaves settings and backend agreeing if and only if no backend runs any more or a bootstrap asked for the setting it has |
| DaemonResults.RemoteControlIsStarted | codex-rs/app-server-daemon/src/lib.rs:491-508 | over every interleaving: when this request succeeds, no server having come or died since it took the lock, and the host it then found was one on which it can be relied on, a managed backend runs with remote control on and so it is saved |
| DaemonFailures.SuccessWithoutResult | codex-rs/app-server-daemon/src/lib.rs:491-508 | on every other host some undisturbed run of the request succeeds and leaves the backend as it was, without remote control or not running at all |
| DaemonFailures.StartableIsExact | codex-rs/app-server-daemon/src/lib.rs:491-508 | so the condition on the host is exact: it holds if and only if every undisturbed success from that host has its result |
| DaemonFailures.BreakingOffDisagrees | codex-rs/app-server-daemon/src/lib.rs:554-561 | on every consistent host with a running backend some run of a change of settings ends in disagreement |
| DaemonResults.UnmanagedServersAreLeftAlone | codex-rs/app-server-daemon/src/lib.rs:294-305 | while an unmanaged server answers and no managed backend runs, no number of operations in any order changes settings, backend or updater, whatever else happens around them |
| DaemonOutcomes.SuccessAchieves | codex-rs/app-server-daemon/src/lib.rs:276-614 | over every interleaving, an operation that succeeds has done what it is for: stop: no managed backend runs; restart, and a try-restart exactly when due: one new backend was launched, with the saved setting, and runs unless it died; start: a server runs, none launched if one was there; change of setting: saved, and the backend has it wherever the file told it from the backend's; bootstrap: saved, a new backend has it, a new updater runs; and nothing else was touched |
| DaemonOutcomes.AdvanceLeads | codex-rs/app-server-daemon/src/lib.rs:294-614 | every step of every operation keeps what it has done to settings, backend and updater on the way there |
| DaemonAlone.AloneIsTheTable | codex-rs/app-server-daemon/src/lib.rs:276-614 | on a host of its own, with probes that tell the truth and nothing failing, each operation ends with the success or failure and the host of a table of results |
| DaemonAlone.SettingIsTaken | codex-rs/app-server-daemon/src/lib.rs:525-572 | a change to the setting the file has already succeeds and leaves a backend that runs without it |
| DaemonSafety.AdvanceMoves | codex-rs/app-server-daemon/src/lib.rs:294-614 | every step of every operation leads to a point whose facts hold |
| DaemonSafety.StepKeeps | codex-rs/app-server-daemon/src/lib.rs:276-292 | every step of any process, failure, crash or outside change keeps the invariant |
| Daemon.Machine.constructor | codex-rs/app-server-daemon/src/lib.rs:260-274 | no operation is under way, and the log is empty |
| Daemon.Machine.Meanwhile | codex-rs/app-server-daemon/src/lib.rs:700-713 | while one operation holds the lock others may ask, wait or give up and the surroundings change, each a step of the model that leaves the holder where it is |
| Daemon.Machine.Next | codex-rs/app-server-daemon/src/lib.rs:294-330 | an await: the machine is at the model's run before and after, whatever happens during it |
| Daemon.Machine.Look | codex-rs/app-server-daemon/src/lib.rs:616-652 | an await that changes nothing leads the operation where the answer to its question leads |
| Daemon.Machine.StopBackend | codex-rs/app-server-daemon/src/lib.rs:343-345 | stops the backend, as the model does at this point, and if that ends the operation it has achieved what it is for |
| Daemon.Machine.StartBackend | codex-rs/app-server-daemon/src/backend/pid.rs:117-145 | launches a backend with the setting unless one is active |
| Daemon.Machine.SaveSettings | codex-rs/app-server-daemon/src/settings.rs:30-44 | saves the setting, or fails and leaves any file behind |
| Daemon.Machine.SwitchUpdater | codex-rs/app-server-daemon/src/lib.rs:595-599 | stops or starts the updater |
| Daemon.Machine.LoadSettingsFile | codex-rs/app-server-daemon/src/settings.rs:16-29 | a missing file reads as off, an unreadable one ends the operation |
| Daemon.Machine.Start | codex-rs/app-server-daemon/src/lib.rs:294-330 | the straight-line code, whose control cannot see the model's points, ends at the model's run of what happened: a server that answers is kept, a backend that starts is waited for, else one is launched |
| Daemon.Machine.Restart | codex-rs/app-server-daemon/src/lib.rs:332-357 | the same for a restart: an unmanaged server is refused, a backend stopped, one launched; on success a new backend was launched with the saved setting and runs unless it died |
| Daemon.Machine.TryRestartIfRunning | codex-rs/app-server-daemon/src/lib.rs:360-403 | the same for the updater's restart: only a running backend, always or when its version is not the managed one |
| Daemon.Machine.Stop | codex-rs/app-server-daemon/src/lib.rs:405-433 | the same for a stop; on success no managed backend runs |
| Daemon.Machine.SetRemoteControlLocked | codex-rs/app-server-daemon/src/lib.rs:525-572 | the same for a change of the setting: refused with an unmanaged server, saved first, then the backend replaced |
| Daemon.Machine.BootstrapLocked | codex-rs/app-server-daemon/src/lib.rs:574-614 | the same for a bootstrap: checks, saved first, backend replaced, updater renewed |
| Daemon.Machine.EnsureRemoteControlStarted | codex-rs/app-server-daemon/src/lib.rs:491-508 | the same for the request for remote control, made of the others; when it succeeds and could be relied on, remote control runs and is saved |
| Daemon.Machine.AcquireOperationLock | codex-rs/app-server-daemon/src/lib.rs:700-713 | a waiting operation takes the free lock and stands at its beginning |
| Daemon.Machine.Operate | codex-rs/app-server-daemon/src/lib.rs:276-292 | an operation that waited takes the lock, is carried out and gives the lock back, done or failed; done, it has achieved what it is for, from the host found when it took the lock |
| Daemon.Machine.Live | codex-rs/app-server-daemon/src/lib.rs:276-403 | a host through any sequence of requests, turns and changes is at the model's run of its log: never two operations at once, backend and settings agreeing unless an operation was cut short after saving, unmanaged servers left alone |

## Left out

- Skill, app, hook and plugin facts of the reducer: they push an event and touch no map.
- Serialised shapes of events, tool names and per-kind payload counters: fields that are copied through are opaque payloads.
- Widths of the reducer's counters and times beyond the non-negative conversions: they are unbounded numbers here.
- Dropped-event warnings and their texts, in the reducer and elsewhere.
- The hash, the repository lookup and the clock behind accepted-line events: the hash is a parameter, the others are not part of this model.
- Diffs whose names span lines, are quoted or lack the `b/` prefix: the printer writes names as codex-rs/core/src/turn_diff_tracker.rs does, on one line.
- The Unicode alphanumeric classes used to judge whether an added line is effective: they are a parameter. White space is modelled in full.
- The two channels between client and worker that carry commands: a command the worker never takes is not part of a run, and its caller's own error is not modelled.
- Shutdown and connect timeouts of the clients, aborting the worker, TLS, authentication headers, the websocket layer and JSON encoding: a write succeeds or fails, a text is a message or is not.
- The detached tasks that carry out requests for the in-process client, and its other commands.
- The user agent parsed from the initialize response.
- The update loop, its choice of modes and the re-execution of the updater: an updater pass is its call of the restart operation.
- The version operation and the readiness request after remote control was started: they change nothing the model holds.
- The pid file protocol behind starting and stopping a backend: start launches with the given flag unless one is active, stop ends it.
- Polling for the lock and for readiness: a waiting process waits for as long as the interleaving says, or fails.
- The sort of the standard library: any stable sort gives the same result; insertion sort stands for it.
- Reading and writing schema files and the TypeScript export.
