# Paseo protocol and client: a verified model

This project models the stateful core of Paseo's client side and proves what that core is for.

- **Terminal input modes** (`ControlSequences`, `TerminalInputMode`, `TerminalInputModeLaws`,
  `TerminalInputModeSequences`). The tracker reads
  terminal output in arbitrary chunks, recognises control sequences (section 5.4 of ECMA-48) of the kitty keyboard
  protocol and of DEC private modes, keeps an incomplete tail, a flag stack and three mode bits, and prints a preamble
  that recreates them. The class works as the source does: search again from the last match, keep the unfinished
  end. Its reference is a character automaton with no pending text and no second look. Feeding is proved to be one run
  of that automaton, and everything about chunks, nesting and the preamble follows from that.
- **The daemon client** (`DaemonClientModel`, `DaemonClientWaiters`, `DaemonClientLaws`,
  `DaemonClientReconnect`, `DaemonClientLiveness`, `DaemonClientEffects`, `DaemonClientTransitions`, `DaemonClient`,
  `Ledger`). One
  class whose methods take atomic steps: calls of the public methods, transport callbacks, inbound frames and timer
  firings. `Step` is the specification each method is proved against, `Run` plays any list of events in any order, and
  the laws hold after every run.
- **File transfers** (`FileTransfer`), **the provider snapshot codec** (`SnapshotCodec`, `SnapshotCodecLaws`), **syntax
  highlighting** (`Highlighter`), **the terminal stream router** (`TerminalStreamRouter`), **runtime metrics**
  (`RuntimeMetrics`, `RuntimeMetricsLaws`), **branch slugs** (`BranchSlug`), **plugin references**
  (`PluginSourceReference`), **endpoints** (`DaemonEndpoints`) and **store version numbers** (`NativeReleaseVersion`).

`Options` and `Text` hold the option and result types and the string operations of the language runtime. A `char` is one
code unit. `dafny verify dfyconfig.toml` checks the project.

Where the code does not do what a reader may expect, the model follows the code and a lemma says exactly when the
expectation holds:

| expectation | what holds |
|---|---|
| output may be cut anywhere | only where the cut does not separate ESC from its bracket (`SafeCut`) |
| the preamble recreates the state | only for flags below 10^21, which print without an exponent (`PreambleRoundTrip`) |
| a reconnect timer does not touch a live connection | iff no `connect()` opens a transport over an armed timer (`TimerNeverHitsLiveConnection`, `StaleTimerReplacesLiveConnection`) |
| a connection falls after two failed pings of its own | unless a reconnect timer replaces a live connection while a ping is in flight; the ping then fails on the next connection (`PingStaysOnItsConnection`, `TeardownWithinOneConnection`, `StrandedPingTearsDown`) |
| a transfer is delivered or reported | one that is longer than declared is neither (`AnyInterleaving`) |
| a `connect()` that failed can be tried again | not by calling it: its promise stays stored with its callbacks gone, and the next call does nothing (`FailedConnectBlocksConnect`) |
| expanding a compact snapshot gives it back | if models name their entry's provider and keys do not collide (`ExpandCompact`) |
| the two slot maps are inverse | unless a terminal takes over the slot of the empty id (`StepKeepsInverse`, `EmptyIdLosesFrames`) |
| a flush reports exactly the batches in its window | iff no batch of the window was dropped before and none older stands behind one, so while the clock does not run back (`WindowExactlyWhen`, `ClockStepsBack`, `ClockStepsFarBack`) |
| a source with a path can be read back | unless it looks like `user@host` or a bare authority (`ParseAfterFormat`) |
| F-Droid codes differ between releases | a beta shares them with its release (`StoreNumbers`, `BetaSharesFdroidCode`) |

The kitty keyboard protocol gives modes 2 and 3 of `CSI = flags ; mode u` a meaning of their own; the code treats them
as plain assignment, and so does the model. `resolvePingProbe` and `rejectPingProbe` do not touch the liveness counter,
and a ping that a latency measurement started never does, even if a heartbeat joins it.

## Model

The laws come first, then the methods that are proved to follow the model the laws are about.

| member | source | states |
|---|---|---|
| ControlSequences.MatchAtIsGrammar | packages/protocol/src/terminal-input-mode.ts:24-27 | a match of the pattern starts at a position iff the text there begins with the rendering of a well-formed sequence, and then it is that sequence |
| ControlSequences.SearchIsAutomaton | packages/protocol/src/terminal-input-mode.ts:92-108 | the repeated search of the global pattern finds, in order, exactly the sequences a one-pass automaton emits; its matches never overlap and none is skipped |
| TerminalInputModeLaws.PendingIsHeld | packages/protocol/src/terminal-input-mode.ts:110-117 | the kept tail is exactly the unfinished opening the automaton is inside of, or nothing |
| TerminalInputModeLaws.FeedIsAutomaton | packages/protocol/src/terminal-input-mode.ts:80-120 | one call, pending text and rescan included, equals one run of the automaton over the new data alone; the pending text stays an unfinished opening |
| TerminalInputModeLaws.ChunkBoundary | packages/protocol/src/terminal-input-mode.ts:80-120 | feeding a then b equals feeding a+b in flags, modes, stack, pending tail, responses and changed, unless ESC and its bracket are separated |
| TerminalInputModeLaws.BareEscapeLosesSequence | packages/protocol/src/terminal-input-mode.ts:110-117 | for every tracker and every chunk ending in a bare ESC: fed in one piece, `[>1u` behind it saves the flags and sets them to 1; fed as the next chunk it leaves all modes alone |
| TerminalInputModeLaws.SafeCut | packages/protocol/src/terminal-input-mode.ts:80-120 | a cut behind a is harmless for all trackers and continuations iff a does not end in ESC |
| TerminalInputModeLaws.ChunkingDoesNotMatter | packages/protocol/src/terminal-input-mode.ts:80-120 | any list of cleanly cut chunks has the effect of its text in one piece |
| TerminalInputModeLaws.NestedKeepsStack | packages/protocol/src/terminal-input-mode.ts:165-202 | sequences that pop no deeper than they pushed leave the saved values below untouched |
| TerminalInputModeLaws.PushBodyPop | packages/protocol/src/terminal-input-mode.ts:171-188 | a push, any nested body with sets and queries, and the matching pop restore flags and stack |
| TerminalInputModeLaws.PushBodyPopText | packages/protocol/src/terminal-input-mode.ts:80-120 | the same for terminal output fed as text, whatever else the text contains |
| TerminalInputModeLaws.PreambleRoundTrip | packages/protocol/src/terminal-input-mode.ts:148-163 | the preamble of any state, fed to a fresh tracker, is silent, leaves no pending tail and no stack, and gives an equal state iff the flags are below 10^21 |
| TerminalInputModeSequences.ListedReads | packages/protocol/src/terminal-input-mode.ts:30-54 | reading a parameter list gives back the numbers written in it, left-out ones included, and exactly those count as listed modes |
| TerminalInputModeSequences.PrivateModesSwitch | packages/protocol/src/terminal-input-mode.ts:204-227 | text `ESC [ ? params h` or `l`, after anything: each of the three modes is switched on or off iff its number is listed and is else as before; flags, stack and answers are untouched, nothing stays pending, and changed is true iff the state differs |
| TerminalInputModeSequences.PasteOnAndOff | packages/protocol/src/terminal-input-mode.ts:220-224 | bracketed paste switched on and off again leaves the modes as they were iff it was off |
| TerminalInputModeSequences.PushSaves | packages/protocol/src/terminal-input-mode.ts:172-176 | text `ESC [ > params u`: the flags are saved and become the first number, or 1 |
| TerminalInputModeSequences.SetReplaces | packages/protocol/src/terminal-input-mode.ts:177-181 | text `ESC [ = params u`: the flags become the first number, or 0; a second number 0 clears them |
| TerminalInputModeSequences.PopRestores | packages/protocol/src/terminal-input-mode.ts:182-188 | text `ESC [ < params u`: as many saved values are taken off as the first number says, at least one, and the last one taken becomes the flags, or 0 |
| TerminalInputModeSequences.QueryAnswers | packages/protocol/src/terminal-input-mode.ts:189-193 | text `ESC [ ? params u`: nothing changes and one answer carries the flags in full |
| TerminalInputModeSequences.BareIsIgnored | packages/protocol/src/terminal-input-mode.ts:194-196 | text `ESC [ params u` without a prefix does nothing |
| TerminalInputModeSequences.PreambleText | packages/protocol/src/terminal-input-mode.ts:148-163 | below 10^21 the preamble is the text of its sequences and nothing else, empty when nothing is set |
| TerminalInputModeSequences.ExponentDenotes | packages/protocol/src/terminal-input-mode.ts:150-152 | larger flags print as significant digits and an exponent that denote them exactly, as the runtime prints numbers |
| DaemonClientLaws.StepKeepsInv | packages/client/src/daemon-client.ts:1172-1420 | every enabled event keeps the client's invariant: connecting has a transport, disposed has neither transport nor timer, messages wait only while connecting, waiters and sends balance, the failure count reads off the log |
| DaemonClientLaws.WaitersSettleExactlyOnce | packages/client/src/daemon-client.ts:6230-6264 | after every run each waiter is in the set, unsettled, with its timer armed iff it is timed, or out of the set, settled by one call, with no timer |
| DaemonClientLaws.SendsEndExactlyOnce | packages/client/src/daemon-client.ts:1621-1685 | after every run each queued message is waiting, was sent once or was refused once; it waits only while connecting; what was sent went in queue order on the connection it waited for |
| DaemonClientLaws.DisposedIsAbsorbing | packages/client/src/daemon-client.ts:1366-1396 | once disposed, no run brings a transport, a reconnect timer or a connection attempt again |
| DaemonClientLaws.CloseEndsEverything | packages/client/src/daemon-client.ts:1366-1396 | after close no waiter, queued message, ping or transport is left, and no timer of any kind |
| DaemonClientLaws.NewClientIsIdle | packages/client/src/daemon-client.ts:1070-1120 | a new client is idle and wants to reconnect; nothing waits, nothing is armed |
| DaemonClientWaiters.OthersKeepWaiting | packages/client/src/daemon-client.ts:1687-1765 | a response or error with a request id never settles a waiter that holds another one |
| DaemonClientWaiters.InvalidFrameRejectsItsOwn | packages/client/src/daemon-client.ts:6243-6254 | a frame that fails validation rejects the waiters of the request it names and no others |
| DaemonClientWaiters.SettleKeeps | packages/client/src/daemon-client.ts:6230-6264 | settling any selection of waiters keeps the account of waiting and settled ids, timers included |
| DaemonClientWaiters.FlushKeeps | packages/client/src/daemon-client.ts:1654-1672 | flushing keeps the account of waiting, sent and refused messages |
| DaemonClientWaiters.TimeoutSendKeeps | packages/client/src/daemon-client.ts:1634-1641 | a send timeout takes out exactly its own message, and keeps the account and the order |
| DaemonClientEffects.RequestIsAnswered | packages/client/src/daemon-client.ts:1687-1765 | however long a request waits, a message that reaches the waiters ends it iff it is an error with its id, or a response of its type with its id that its selection takes; then it is resolved with that message, once, and its timer is gone |
| DaemonClientEffects.RequestJoins | packages/client/src/daemon-client.ts:1687-1730 | a request makes one waiter with a fresh number that accepts its answers and nothing else, timed as asked, unless the transport refuses the request, which rejects it at once |
| DaemonClientEffects.WaitersFollow | packages/client/src/daemon-client.ts:6230-6264 | for every event: exactly the waiters that accept the message delivered are resolved with it, or exactly those the event rejects are rejected, each once, oldest first, timers cleared; all others stay as they are |
| DaemonClientEffects.LosesClears | packages/client/src/daemon-client.ts:6052-6075 | every event that loses the connection rejects all waiters and queued messages and drops the ping |
| DaemonClientTransitions.SendsFollow | packages/client/src/daemon-client.ts:1621-1685 | for every event: only a request while connecting queues a message; only server info sends, all in order, each sent iff the transport takes it and refused otherwise; losing the connection refuses all, a timeout its own |
| DaemonClientTransitions.StatusFollows | packages/client/src/daemon-client.ts:1193-1346 | for every event: which events start connecting and on which transport, that only server info while connecting comes up, on that transport, which events go down, and that no other moves status or transport |
| DaemonClientTransitions.LostTransport | packages/client/src/daemon-client.ts:5756-5783 | a transport is forgotten iff it was torn down and not when its end was only reported; a torn down one takes the heartbeat and both of its timers along |
| DaemonClientTransitions.TransportTimers | packages/client/src/daemon-client.ts:1256-1333 | for every event that tears nothing down: what ends the connect timeout, what starts and ends the grace period, what schedules and ends the heartbeat |
| DaemonClientTransitions.ReconnectFollows | packages/client/src/daemon-client.ts:6044-6119 | for every event: when reconnecting is wanted and enabled; a lost connection arms the timer iff both hold; which events clear it |
| DaemonClientTransitions.PingsFollow | packages/client/src/daemon-client.ts:1959-2041 | for every event: one ping at a time, answered by a pong, failed by its timer or a refused send, dropped with the connection; failures count as the heartbeat says and only a valid frame forgives them |
| DaemonClientTransitions.PromiseFollows | packages/client/src/daemon-client.ts:1348-1374 | for every event: which call makes a connect promise, and which events end it and its callbacks |
| DaemonClientTransitions.FailedConnectBlocksConnect | packages/client/src/daemon-client.ts:1172-1191 | connect() does nothing iff the client is disposed, connected or has a promise stored; after one that failed at once there is one |
| DaemonClientTransitions.AskedAndAnswered | packages/client/src/daemon-client.ts:1172-1277 | from any client that is down: connect, open with a hello, request, server info and answer end connected on the transport opened, with the request sent on it once and resolved with the answer |
| DaemonClientReconnect.TimerStaysIdle | packages/client/src/daemon-client.ts:1172-1205 | an armed reconnect timer goes on implying "disconnected" across a step iff the step is not a connect() that opens a transport over an armed timer |
| DaemonClientReconnect.StaleTimerReplacesLiveConnection | packages/client/src/daemon-client.ts:1172-1205 | the run of six events after which an old timer replaces a live connection and leaves its waiter behind |
| DaemonClientReconnect.DelaySchedule | packages/client/src/daemon-client.ts:6106-6119 | after every run the delays armed since the last server info start at the base, each doubles the one before, cut at the maximum, which is base times 2^k, and they never decrease |
| DaemonClientReconnect.TimerNeverHitsLiveConnection | packages/client/src/daemon-client.ts:1172-1205 | all through a run an armed timer means "disconnected", so that none fires on a live connection, iff no connect() of the run opens a transport over an armed timer |
| DaemonClientReconnect.DelaysAdvanceOrRestart | packages/client/src/daemon-client.ts:6165-6187 | each step clears or keeps the timer, or arms the next delay of the schedule; the only way up is server info while connecting, and then the schedule starts again, the timer is as it was, the failure count is zero and no message waits |
| DaemonClientReconnect.TimersFollowSchedule | packages/client/src/daemon-client.ts:6106-6119 | over every run, from one event to the next the timer is cleared, kept, or armed with the base times 2^k cut at the maximum, k being the number of delays armed since the client last came up |
| DaemonClientLiveness.LivenessTeardowns | packages/client/src/daemon-client.ts:1959-2041 | after every run the failure count is below 2, and a liveness teardown stands exactly where two heartbeat pings have failed with no valid frame between them |
| DaemonClientLiveness.PingStaysOnItsConnection | packages/client/src/daemon-client.ts:5756-5767 | a step leaves a ping in flight on the connection that is up iff it is not a reconnect timer that replaces a live connection under it; that step leaves the ping, its timer armed, behind |
| DaemonClientLiveness.PingsStayOnTheirConnections | packages/client/src/daemon-client.ts:5756-5767 | all through a run a ping in flight is on the connection that is up iff no event of the run strands one |
| DaemonClientLiveness.TeardownWithinOneConnection | packages/client/src/daemon-client.ts:6150-6163 | if no reconnect timer of the run strands a ping, the two failures behind a teardown belong to one connection |
| DaemonClientLiveness.StrandedPingTearsDown | packages/client/src/daemon-client.ts:1959-2013 | the run of ten events in which a connection that is up falls after one failed ping of its own |
| FileTransfer.RunIsLocal | packages/client/src/daemon-client.ts:5935-6009 | what any run leaves for one request id is what the steps about that id alone leave |
| FileTransfer.AnyInterleaving | packages/client/src/daemon-client.ts:5935-6009 | however it is interleaved, a transfer ends delivered, refused for its budget, or stuck when longer than declared |
| FileTransfer.ArrivesAsSent | packages/client/src/daemon-client.ts:5967-5995 | the delivered bytes are those sent iff the transfer is within budget and the declared size is its length |
| FileTransfer.RoundTrip | packages/client/src/daemon-client.ts:4577-4631 | reassembly inverts the upload loop for every content, chunk size and interleaving, with one success reply |
| FileTransfer.RunKeeps | packages/client/src/daemon-client.ts:5958-5965 | after every run only reads under way have transfers, and a transfer over its budget holds no chunk |
| FileTransfer.LateFramesAreIgnored | packages/client/src/daemon-client.ts:4477-4480 | once a read is over, frames still arriving for it leave no trace |
| FileTransfer.RefusedForItsBudget | packages/client/src/daemon-client.ts:5966-5984 | a transfer is refused as too large iff a budget other than zero was set and the declared size exceeds it |
| FileTransfer.ReadsComeAndGo | packages/client/src/daemon-client.ts:4447-4481 | a read that ends leaves nothing but, if it failed, a file that had arrived for it; starting and ending touch no other read |
| SnapshotCodecLaws.ExpandCompact | packages/protocol/src/provider-snapshot-codec.ts:69-119 | expanding a compacted snapshot gives it back iff every model names its entry's provider and equal keys mean equal sets |
| SnapshotCodecLaws.ExpandRaises | packages/protocol/src/provider-snapshot-codec.ts:84-119 | expanding raises iff some index is outside the table, and never on compacted snapshots |
| SnapshotCodecLaws.CompactIsCanonical | packages/protocol/src/provider-snapshot-codec.ts:32-82 | the compact form has distinct keys, indices in first-use order with none unused, and no default beside a set |
| SnapshotCodecLaws.CompactExpand | packages/protocol/src/provider-snapshot-codec.ts:69-119 | expanding and compacting again gives the same compact form iff it is canonical |
| SnapshotCodecLaws.ExpandedModel | packages/protocol/src/provider-snapshot-codec.ts:84-119 | an expanded model has its entry's provider, its own fields, its set's options, and the set's default or else its own |
| SnapshotCodec.TableOk | packages/protocol/src/provider-snapshot-codec.ts:50-66 | the table holds every key that occurs, once, represented by a set that occurs |
| Highlighter.HighlightingIsUnique | packages/highlight/src/highlighter.ts:31-64 | that contract leaves exactly one result for a text and its spans |
| Highlighter.NothingLost | packages/highlight/src/highlighter.ts:31-64 | the tokens, line by line, are the text; neighbours differ in style and only an empty line has an empty token |
| Highlighter.StyleIsLastSpan | packages/highlight/src/highlighter.ts:22-29 | the style of a position is that of the last span from its start up to but not including its end, or none |
| TerminalStreamRouter.SlotsAlwaysKnown | packages/client/src/terminal-stream-router.ts:27-56 | after every history, whatever the ids, a slot leads to a terminal that knows it |
| TerminalStreamRouter.StepKeepsInverse | packages/client/src/terminal-stream-router.ts:27-40 | an operation keeps the maps mutual inverses iff no named terminal takes over the slot of the empty id |
| TerminalStreamRouter.NonEmptyNamesAreOrderly | packages/client/src/terminal-stream-router.ts:27-56 | with non-empty ids the maps are mutual inverses after every history |
| TerminalStreamRouter.FramesFollowHistory | packages/client/src/terminal-stream-router.ts:27-91 | frames of a slot go to a terminal, and its input goes out on that slot, iff the history bound the two with no later rebinding, removal or clear |
| TerminalStreamRouter.EmptyIdLosesFrames | packages/client/src/terminal-stream-router.ts:27-40 | three operations with the empty id after which a bound terminal gets no frames |
| TerminalStreamRouter.InverseIffOrderly | packages/client/src/terminal-stream-router.ts:27-56 | the maps are mutual inverses all through a history iff no operation of it displaces the empty id |
| TerminalStreamRouter.FramesBecomeEvents | packages/client/src/terminal-stream-router.ts:87-122 | after any orderly history a frame shows as output iff it is output, as a restore iff it is a restore and as the decoded state iff it is a snapshot that decodes, always for the terminal the history binds to its slot, and else as nothing |
| RuntimeMetricsLaws.Conservation | packages/client/src/daemon-client-runtime-metrics.ts:78-144 | whatever the clock does, dropped batches, kept batches and open records are all that was recorded, in order and once |
| RuntimeMetricsLaws.PruneKeepsFresh | packages/client/src/daemon-client-runtime-metrics.ts:139-144 | pruning leaves exactly the fresh batches iff no stale one stands behind a fresh one |
| RuntimeMetricsLaws.WindowIsExact | packages/client/src/daemon-client-runtime-metrics.ts:78-160 | with clocks that do not run back, a flush at t reports per key the counts, sums and maxima over exactly the records whose batch closed at or after t minus the window |
| RuntimeMetricsLaws.ClockStepsBack | packages/client/src/daemon-client-runtime-metrics.ts:139-144 | a history with a clock that steps back after which a stale batch is still reported |
| RuntimeMetricsLaws.WindowExactlyWhen | packages/client/src/daemon-client-runtime-metrics.ts:78-144 | for every history and clock: a flush keeps exactly the batches in its window iff no such batch was dropped before and none older stands behind one |
| RuntimeMetricsLaws.ReportIsExact | packages/client/src/daemon-client-runtime-metrics.ts:78-160 | if no earlier flush read a later clock, the tables reported are those of exactly the batches in the window iff no older batch was closed after one of them |
| RuntimeMetricsLaws.ClockStepsFarBack | packages/client/src/daemon-client-runtime-metrics.ts:139-144 | a history with a clock that steps back after which a batch in the window is not reported |
| RuntimeMetrics.MergeIsConcat | packages/client/src/daemon-client-runtime-metrics.ts:146-160 | merging the tables of two record lists gives the tables of both lists together |
| RuntimeMetrics.TallySums | packages/client/src/daemon-client-runtime-metrics.ts:175-177 | a counter holds exactly the keys entered, each with the sum of its amounts |
| RuntimeMetrics.TallyTimingsSums | packages/client/src/daemon-client-runtime-metrics.ts:179-196 | a timing holds exactly the keys entered, each with count, sum and maximum of its durations |
| BranchSlug.SlugIsWords | packages/protocol/src/branch-slug.ts:45-49 | before cutting, a slug is the words of the lower-cased input joined by single hyphens |
| BranchSlug.StripFindsNothing | packages/protocol/src/branch-slug.ts:56-61 | where the code strips trailing hyphens from a cut slug there are none |
| BranchSlug.SlugIsValid | packages/protocol/src/branch-slug.ts:45-61 | at most 50 characters, empty or accepted by the validator, a prefix of the joined words, all of them if they fit, 26 characters or more if not |
| BranchSlug.SlugsAreFixed | packages/protocol/src/branch-slug.ts:5-61 | the texts slugify leaves alone are exactly those of at most 50 characters that are empty or valid without a slash |
| BranchSlug.Idempotent | packages/protocol/src/branch-slug.ts:45-61 | a slug is its own slug |
| BranchSlug.ValidatesExactly | packages/protocol/src/branch-slug.ts:5-38 | the validator's verdict on every text, the first complaint that applies |
| PluginSourceReference.FormatAfterParse | packages/protocol/src/plugin-source-reference.ts:6-40 | formatting what was parsed gives every reference back and never fails |
| PluginSourceReference.ParseAfterFormat | packages/protocol/src/plugin-source-reference.ts:6-40 | a source and a path come back iff the path is portable and the source has a slash behind its authority, or has no scheme and is not user@host without a colon in the host |
| PluginSourceReference.ParseBareSource | packages/protocol/src/plugin-source-reference.ts:6-29 | a bare source comes back as one iff it does not itself read as such a source with a portable path |
| PluginSourceReference.PortableIsParts | packages/protocol/src/plugin-source-reference.ts:42-47 | portability is a condition on the parts alone; the tests on the front of the path are implied |
| PluginSourceReference.SchemeText | packages/protocol/src/plugin-source-reference.ts:15-17 | a source has a scheme iff it contains `://`, the first one counting |
| PluginSourceReference.UserAtHostText | packages/protocol/src/plugin-source-reference.ts:22-22 | the user@host form: non-empty, without white space, no slash or @ in the user, no colon in the host |
| DaemonEndpoints.BracketedIsPattern | packages/protocol/src/daemon-endpoints.ts:58-67 | the bracketed form is recognised iff the text is a non-empty host without `]` in brackets, a colon and one to five digits |
| DaemonEndpoints.PlainIsPattern | packages/protocol/src/daemon-endpoints.ts:70-73 | the plain form is recognised iff the text is a non-empty one-line host, a colon and one to five digits |
| DaemonEndpoints.ParseAfterPrint | packages/protocol/src/daemon-endpoints.ts:44-83 | printing and parsing give host, port and form back iff they are a result of parsing, which are characterised exactly |
| DaemonEndpoints.NormalizeIsIdempotent | packages/protocol/src/daemon-endpoints.ts:80-83 | normalising keeps what an endpoint denotes and does nothing the second time |
| DaemonEndpoints.LoopbackIsIdempotent | packages/protocol/src/daemon-endpoints.ts:145-154 | loopback addresses become localhost on the same port, other endpoints stay, and a second time changes nothing |
| DaemonEndpoints.ParsedExactly | packages/protocol/src/daemon-endpoints.ts:44-78 | parsing of every input: blank, bracketed and plain, each with its own error; a blank host is an error before the port is looked at |
| NativeReleaseVersion.ParseAfterPrint | packages/app/native-release-version.js:1-20 | every version has a text that is read as that version |
| NativeReleaseVersion.AcceptedExactly | packages/app/native-release-version.js:22-42 | which versions get numbers, and that the last test for safe integers never fires |
| NativeReleaseVersion.CodesFollowTriples | packages/app/native-release-version.js:29-29 | Android codes order accepted versions as their number triples, and are equal iff the triples are |
| NativeReleaseVersion.BuildsFollowPrecedence | packages/app/native-release-version.js:38-39 | iOS numbers order accepted versions by the precedence of Semantic Versioning 2.0.0, section 11, and are equal iff the versions are |
| NativeReleaseVersion.StoreNumbers | packages/app/native-release-version.js:10-57 | for accepted version texts: iOS numbers are equal iff the versions are, F-Droid codes iff triple and ABI are, all within 2,100,000,000; the app version reads back as the triple |
| NativeReleaseVersion.BetaSharesFdroidCode | packages/app/native-release-version.js:51-57 | every beta precedes its release and has the same F-Droid codes |
| NativeReleaseVersion.VersionTexts | packages/app/native-release-version.js:1-20 | a text is read as a version iff it is three numbers between dots and then nothing or `-beta.` and a number, and then with those numbers |
| NativeReleaseVersion.DerivedExactly | packages/app/native-release-version.js:22-49 | for every version the error it meets, in the order of the tests, or else its Android code, iOS number and app version |
| NativeReleaseVersion.FdroidCodes | packages/app/native-release-version.js:51-57 | the four F-Droid codes are the Android code times ten plus 1 to 4 in the order of the table |
| TerminalInputMode.TerminalInputModeTracker.Feed | packages/protocol/src/terminal-input-mode.ts:80-120 | the scanning loop applies exactly the matched sequences in order, or-ing changed and concatenating responses, and keeps exactly the unfinished tail |
| TerminalInputMode.TerminalInputModeTracker.Exec | packages/protocol/src/terminal-input-mode.ts:92-98 | finds the first position from the last index on at which the pattern matches |
| TerminalInputMode.TerminalInputModeTracker.Pop | packages/protocol/src/terminal-input-mode.ts:182-188 | n pops give the n-th saved value and the stack below it, or 0 and an empty stack when n exceeds the depth |
| TerminalInputMode.TerminalInputModeTracker.ApplyKittyKeyboardSequence | packages/protocol/src/terminal-input-mode.ts:165-202 | flags, stack, changed and the query response after each kitty form, with the defaults for missing parameters |
| TerminalInputMode.TerminalInputModeTracker.ApplyPrivateModeSequence | packages/protocol/src/terminal-input-mode.ts:204-227 | each of the three modes is set or reset iff its number is among the parameters; changed iff one of them changed |
| TerminalInputMode.TerminalInputModeTracker.ParsePrivateModeParams | packages/protocol/src/terminal-input-mode.ts:46-54 | a number is in the set iff some parameter part is all digits and denotes it |
| TerminalInputMode.TerminalInputModeTracker.GetPreamble | packages/protocol/src/terminal-input-mode.ts:148-163 | flags first when positive, then each mode that is set, in the fixed order |
| TerminalInputMode.TerminalInputModeTracker.Reset | packages/protocol/src/terminal-input-mode.ts:122-129 | leaves exactly the state of a fresh tracker |
| DaemonClient.DaemonClient.ResolveWaiters | packages/client/src/daemon-client.ts:6230-6241 | settles exactly the waiters whose predicate accepts the message, oldest first, clears their timers, keeps the others in order |
| DaemonClient.DaemonClient.RejectWaitersForRequestId | packages/client/src/daemon-client.ts:6243-6254 | rejects exactly the waiters holding the id, oldest first, and keeps the others in order |
| DaemonClient.DaemonClient.ClearWaiters | packages/client/src/daemon-client.ts:6256-6264 | rejects every waiter once and empties the set |
| DaemonClient.DaemonClient.CancelWaiter | packages/client/src/daemon-client.ts:6369-6395 | takes the waiter out and rejects it, unless it is settled already |
| DaemonClient.DaemonClient.OnWaiterTimer | packages/client/src/daemon-client.ts:6349-6357 | a timeout takes the waiter out and rejects it |
| DaemonClient.DaemonClient.WaitFor | packages/client/src/daemon-client.ts:6324-6367 | adds one waiter with a fresh id and, if timed, an armed timer; keeps the invariant |
| DaemonClient.DaemonClient.Cancel | packages/client/src/daemon-client.ts:6369-6395 | a caller may cancel any waiter it made, at any time; keeps the invariant |
| DaemonClient.DaemonClient.SendRequest | packages/client/src/daemon-client.ts:1687-1765 | registers the waiter, then sends, queues while connecting, or cancels the waiter if the send fails; keeps the invariant |
| DaemonClient.DaemonClient.FlushPendingSendQueue | packages/client/src/daemon-client.ts:1654-1672 | every queued message gets one outcome, in order, on the present transport, or is refused if the client is not connected; the queue is empty and its timers cleared |
| DaemonClient.DaemonClient.RejectPendingSendQueue | packages/client/src/daemon-client.ts:1677-1685 | every queued message is refused, in order; the queue is empty and its timers cleared |
| DaemonClient.DaemonClient.OnSendTimer | packages/client/src/daemon-client.ts:1634-1641 | the timed-out message leaves the queue and is refused; keeps the invariant |
| DaemonClient.DaemonClient.Connect | packages/client/src/daemon-client.ts:1172-1191 | one step of the model: a no-op when disposed, connected or already promised, otherwise an attempt whose callbacks are set before the promise is stored; keeps the invariant |
| DaemonClient.DaemonClient.AttemptConnect | packages/client/src/daemon-client.ts:1193-1346 | disposes the old transport, opens the next one and arms the connect timeout, or fails and schedules a reconnect; no effect while connecting |
| DaemonClient.DaemonClient.EnsureConnected | packages/client/src/daemon-client.ts:1398-1420 | clears an armed timer before any attempt, unlike connect(); keeps the invariant |
| DaemonClient.DaemonClient.Close | packages/client/src/daemon-client.ts:1366-1396 | one step of the model, with the connect promise dropped unsettled; keeps the invariant |
| DaemonClient.DaemonClient.SetReconnectEnabled | packages/client/src/daemon-client.ts:6044-6050 | turning reconnects off clears an armed timer; keeps the invariant |
| DaemonClient.DaemonClient.ScheduleReconnect | packages/client/src/daemon-client.ts:6052-6086 | rejects waiters, queued sends and the ping before the state changes, then arms the next delay if reconnecting is wanted |
| DaemonClient.DaemonClient.ArmReconnectTimer | packages/client/src/daemon-client.ts:6106-6119 | arms the capped power-of-two delay and advances the attempt |
| DaemonClient.DaemonClient.OnReconnectTimer | packages/client/src/daemon-client.ts:6112-6118 | a firing timer attempts a connection if reconnecting is still wanted, whatever the status; keeps the invariant |
| DaemonClient.DaemonClient.OnConnectTimer | packages/client/src/daemon-client.ts:1256-1267 | a connect timeout disposes the transport and reconnects, only while connecting; keeps the invariant |
| DaemonClient.DaemonClient.OnTransportOpen | packages/client/src/daemon-client.ts:1270-1277 | ends the grace period and reconnects if the hello message cannot be sent; keeps the invariant |
| DaemonClient.DaemonClient.OnTransportClose | packages/client/src/daemon-client.ts:1278-1293 | clears both timers of the transport and reconnects; keeps the invariant |
| DaemonClient.DaemonClient.OnTransportError | packages/client/src/daemon-client.ts:1294-1332 | an error without details only starts a grace period, any other reconnects; keeps the invariant |
| DaemonClient.DaemonClient.OnErrorTimer | packages/client/src/daemon-client.ts:1304-1317 | an unexplained error reconnects if the client is still up or coming up; keeps the invariant |
| DaemonClient.DaemonClient.HandleSessionMessage | packages/client/src/daemon-client.ts:6165-6228 | server info completes a connection before the waiters see the message |
| DaemonClient.DaemonClient.HandleFrame | packages/client/src/daemon-client.ts:5833-5933 | only a valid frame resets the failure count; pong ends the ping, a session message reaches the waiters, an invalid one rejects those it names; keeps the invariant |
| DaemonClient.DaemonClient.RecordLivenessFailure | packages/client/src/daemon-client.ts:6150-6163 | the second failure resets the count, disposes the transport and reconnects |
| DaemonClient.DaemonClient.SendPingAwaitRtt | packages/client/src/daemon-client.ts:1959-2013 | starts at most one ping at a time; a failed send counts only for a heartbeat ping |
| DaemonClient.DaemonClient.MeasureLatency | packages/client/src/daemon-client.ts:1941-1946 | a latency measurement never starts a counting ping; keeps the invariant |
| DaemonClient.DaemonClient.OnPingTimer | packages/client/src/daemon-client.ts:1985-1995 | an unanswered ping fails and counts iff the heartbeat started it; keeps the invariant |
| DaemonClient.DaemonClient.OnHeartbeatTimer | packages/client/src/daemon-client.ts:2033-2039 | the heartbeat starts a counting ping or joins the one in flight; keeps the invariant |
| DaemonClient.DaemonClient.ScheduleNextLivenessHeartbeat | packages/client/src/daemon-client.ts:2029-2041 | the next heartbeat is scheduled only while connected; keeps the invariant |
| FileTransfer.ConcatByteChunks | packages/client/src/daemon-client.ts:990-998 | raises iff the chunks are longer than the size; otherwise the chunks in order, filled up with zeros |
| FileTransfer.UploadFile | packages/client/src/daemon-client.ts:4577-4631 | sends one begin, chunks and one end; the chunks join to the bytes, none is empty, all but the last have the chunk size |
| FileTransfer.BinaryFileReads.HandleFileTransferFrame | packages/client/src/daemon-client.ts:5935-6009 | the three maps and the reply after each frame, and when it raises |
| FileTransfer.BinaryFileReads.EndRead | packages/client/src/daemon-client.ts:4465-4481 | hands out a completed file once and forgets the read |
| SnapshotCodec.CompactProviderSnapshot | packages/protocol/src/provider-snapshot-codec.ts:69-82 | the one-pass compactor gives what collecting the table first and looking every set up afterwards gives |
| SnapshotCodec.ThinkingSetTable.AddModel | packages/protocol/src/provider-snapshot-codec.ts:32-67 | the table grows by a set iff its key is new, and the model gets its set's position in the final table |
| Highlighter.HighlightCode | packages/highlight/src/highlighter.ts:7-64 | the rows, each ended by a line break, show the whole text with each character under the style of the last span over it; tokens are as long as they can be; an empty line is one empty token |
| Highlighter.PlainRows | packages/highlight/src/highlighter.ts:10-12 | without a parser the rows are those of a text with no spans |
| Highlighter.StyleMap | packages/highlight/src/highlighter.ts:22-29 | painting spans in order leaves at each position the style of the last span over it |
| Highlighter.LineTokens | packages/highlight/src/highlighter.ts:34-60 | the tokens of a line show its characters and styles in order, neighbours differ in style, none is empty |
| TerminalStreamRouter.TerminalStreamRouter.SetSlot | packages/client/src/terminal-stream-router.ts:27-40 | both maps after a rebinding, with the terminal and the slot freed of earlier partners |
| TerminalStreamRouter.TerminalStreamRouter.RemoveTerminal | packages/client/src/terminal-stream-router.ts:42-51 | both maps after a removal; mutual inverses stay so |
| TerminalStreamRouter.TerminalStreamRouter.InputSlot | packages/client/src/terminal-stream-router.ts:58-62 | input goes out on the slot whose frames come back to that terminal |
| TerminalStreamRouter.TerminalStreamRouter.HandleFrame | packages/client/src/terminal-stream-router.ts:87-122 | at most one event per frame: only output, restore and decodable snapshot frames of a bound slot cause one |
| RuntimeMetrics.MergeCountMap | packages/client/src/daemon-client-runtime-metrics.ts:209-213 | adds the counters key by key, in whatever order the keys come |
| RuntimeMetrics.MergeHandlerTimingMap | packages/client/src/daemon-client-runtime-metrics.ts:215-233 | joins counts, sums and maxima key by key, in whatever order the keys come |
| RuntimeMetrics.DaemonClientRuntimeMetrics.RecordMessage | packages/client/src/daemon-client-runtime-metrics.ts:57-61 | the three tables go on describing the records, the new one included |
| RuntimeMetrics.DaemonClientRuntimeMetrics.RecordAgentStream | packages/client/src/daemon-client-runtime-metrics.ts:63-70 | the two agent tables go on describing the records |
| RuntimeMetrics.DaemonClientRuntimeMetrics.RecordBinaryFrame | packages/client/src/daemon-client-runtime-metrics.ts:72-76 | bytes and durations of binary frames share the tables of messages under a prefix |
| RuntimeMetrics.DaemonClientRuntimeMetrics.ConsumeCurrentBucket | packages/client/src/daemon-client-runtime-metrics.ts:113-137 | closes a bucket with the records so far, unless there are only agent stream records, which wait |
| RuntimeMetrics.DaemonClientRuntimeMetrics.PruneBuckets | packages/client/src/daemon-client-runtime-metrics.ts:139-144 | drops buckets from the front while they are stale |
| RuntimeMetrics.DaemonClientRuntimeMetrics.AggregateBuckets | packages/client/src/daemon-client-runtime-metrics.ts:146-160 | the merged tables are those of all records in the buckets |
| RuntimeMetrics.DaemonClientRuntimeMetrics.Flush | packages/client/src/daemon-client-runtime-metrics.ts:78-111 | reports the tables of the batches in the window, exactly when there is one or the flush is the last |

## Left out

- WebSockets, the relay channel, URL handling, frame codecs, message schemas, logging and tracing: a transport accepts or refuses a send, frames and messages are datatypes.
- The one-line RPC methods of the daemon client: the correlated request they share is modelled once.
- Promises and the order of microtasks: a settlement is the call of a resolve or reject function. The flag that makes later calls no-ops is modelled only where `cancel` tests it; the log shows that no later call is made.
- Listeners and subscription handlers, which may call back into the client from inside a step: steps are atomic. Resubscription sends are assumed not to throw and are not logged.
- Whether a connect promise is settled: the model keeps when it and its callbacks are set and dropped, `close` included.
- The link between the client's steps and its router, metrics and file maps: each is modelled on its own; a finished file transfer reaches the waiters as a response frame.
- Two reads under one request id at the same time are allowed, as in the code; nothing is claimed about whose file the completed entry then is.
- Integers beyond 2^53 in terminal parameters, delays and sizes: numbers are unbounded, so rounding to doubles and the overflow of 2^k to infinity are not modelled. `ExponentNotation` gives the text of large flags from all their digits.
- TerminalInputMode.TerminalInputModeTracker.Pop: a pop count of 309 digits or more is read as infinity by the source, whose loop then never ends; the model's count is always finite.
- FileTransfer.UploadFile: does not cover a chunk size of zero with bytes to send, for which the source's loop does not end.
- RuntimeMetrics.DaemonClientRuntimeMetrics.Flush: does not model the sorted and rounded top lists of a report, only the tables they are taken from; milliseconds are reals and clock readings integers.
- RuntimeMetrics.MergeHandlerTimingMap: timing records are values, so that the source's copies keep buckets apart is not stated.
- Highlighter.HighlightCode: does not model the parser and the tree walk; any list of spans stands for what they report.
- SnapshotCodec.CompactProviderSnapshot: does not model the JSON text of a thinking set; any function may be the key, and fields the codec copies are opaque.
- BranchSlug.Idempotent: does not model lower-casing; any function that leaves slug characters alone may take its place.
- The URL-based functions of the endpoint file, relay versions and labels, the predicate for modified Enter, and other one-branch helpers: one reading of the body settles them.
