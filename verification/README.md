# Verified models of the nanus adapters

This project models the parts of nanus that move bytes and messages between a command, a model provider and
the agent loop, and proves what they promise. To check it: `dafny verify dfyconfig.toml`.

**The evidence archive of the shell adapter** (`Capture`, `CaptureProofs`, `CaptureTheorems`, `CleanRuns`,
`Backlog`). Two pumps read a command's pipes, two tasks own the sinks, and the engine sends one verdict.
They share one byte budget, a flag per stream, a channel per stream and a clock. `Capture` writes each
indivisible step as an action of a step relation; a run is any list of legal actions of both streams and
ticks of the clock. One inductive invariant (`CaptureProofs`) gives the theorems, of which `CleanRuns` says
what the archive is for: a run in which nothing goes wrong keeps every byte it has room for. The safety
theorems hold however late timers fire; the theorems about time hold for runs in which an armed timer is
handled no later than it is due. `Backlog` gives the archive task's own methods and the pump's drain loop as
they update their fields, tied to the same functions the step relation uses.

**The Messages request encoder and the managed grammar** (`Messages`, `Encoder`, `EncoderProofs`, `Meaning`,
`WireMeaning`, `Edits`, `LeadingRuns`, `Sessions`, `Grammar`, `GrammarOnTheWire`). The encoder folds
messages into turns, gathers tool results, and decides for each assistant turn whether its original signed
blocks may be sent by comparing a recorded digest with the digest of everything emitted so far; it then adds
a tail and cache markers. The fingerprint is a parameter; where a theorem needs it to be injective it says
so. `WireMeaning` reads the turns back. The theorems follow replay, edits and cache breakpoints from one
request to the next and over whole sessions, and carry the grammar's pairing to the turns that are sent.

**The streaming accumulators** (`Stream`, `AnthropicStream`, `AnthropicAccumulator`,
`AnthropicStreamProofs`, `StreamEndings`, `HeldArguments`, `SignedReplay`, `ReplayInput`, `ToldReplay`,
`Accounts`, `Reports`, `Admission`, `Response`, `ResponseEndings`, `BodyEnds`, `DeepSeekStream`,
`DeepSeekAccumulator`, `DeepSeekCalls`, `DeepSeekReports`, `DeepSeekResponse`, `DeepSeekEncoder`). Each
accumulator is a class whose methods are proved against a pure step on its fields; the theorems compare runs
of that step with an independent reading of the frames: concatenate everything that belongs to one block or
call, then judge it. `StreamEndings` shows that a stream which finishes was closed by `close` or by the last
frame, to the same effect, so the theorems speak of every finished stream; `ResponseEndings` and `BodyEnds`
carry them to whole bodies, and `Admission` says exactly which frames are let through.

**The function-schema walk** (`SchemaPolicy`, `SchemaWalk`, `SchemaMeaning`), **base64url** (`Base64Url`)
and **the capped search** (`Search`) are loops proved against recursive definitions.

Two statements of the sources do not hold as written, and the project says when they do.

- Signed blocks are always a leading run (`managed.rs`, lines 25 to 27). With nothing edited,
  `Sessions.SessionsLeadExactlyWhen` gives the exact condition over every session of its replies, and
  `Sessions.ATailBreaksTheRun` a session of its own replies that fails it: one made under a tail, then one
  made without. For edits, `LeadingRuns.SurvivorsOfAnEditLead` gives the exact condition for what survives
  of any leading run, `LeadingRuns.SurvivorsOfThinkingLead` the edits for which it always holds, and
  `LeadingRuns.SignedTurnsNeedNotLead` an edit for which it does not.
- The two cache counters partition the prompt (`message.rs`, lines 115 to 118). This fails once the prompt
  saturates; `Accounts.PartitionExactlyWhen` gives the exact condition over every run and
  `Accounts.PartitionCanFail` two frames that break it.

## Model

| member | source | states |
|---|---|---|
| `CleanRuns.CleanRunsArchiveThePipe` | crates/nanus-adapter-local/src/shell.rs:329-614 | In every interleaving in which the pump neither stalls nor is aborted, the sink neither refuses nor is late, the engine stays and its verdict has not yet settled: while the pipe fits the limit nothing fails and no chunk is let go, and a finalized sink accepted exactly the first bytes of the pipe up to the limit, under the quota if the pipe held more, else how it ended, else the verdict |
| `CleanRuns.EveryPipeCanBeArchived` | crates/nanus-adapter-local/src/shell.rs:296-614 | Every pipe within the limit, cut into any chunks a read can give, has a run in which the engine collects a receipt that says end of file and the sink accepted exactly that pipe |
| `CleanRuns.ReceiptsNameTheirCause` | crates/nanus-adapter-local/src/shell.rs:584-614 | In every run a receipt gives the bytes read and the first cause that applies: the sink's first failure, an end that was not seen, a read error, a vanished engine, the verdict's reason, end of file |
| `CleanRuns.WritesHaveTheirTime` | crates/nanus-adapter-local/src/shell.rs:495-515 | A write is given its whole deadline, or what is left until the verdict settles when that is sooner, and is refused only once it has settled |
| `CaptureTheorems.EndOfFileMeansAll` | crates/nanus-adapter-local/src/shell.rs:565-614 | In every interleaving of pumps, sink tasks, engine and clock, a finalized receipt says end of file if and only if the sink accepted exactly the bytes the pump read, the pump saw the pipe end, and the engine sent a clean verdict; observed and retained in the receipt are those byte counts. Abort, stall, quota, refusal, overdue write, read error, cancellation and a vanished engine therefore each exclude it |
| `CaptureTheorems.ReportedReceiptIsTheSinks` | crates/nanus-adapter-local/src/shell.rs:664-700 | The engine reports a receipt only when the sink finalized to that very receipt; a receipt of end of file it reports carries the same guarantee |
| `CaptureTheorems.ArchiveIsAPrefix` | crates/nanus-adapter-local/src/shell.rs:329-364 | At every reachable state accepted bytes (with a late write after them) are a prefix of the staged bytes, those a prefix of the pipe, and accepted bytes stay within the stream limit |
| `CaptureTheorems.NothingFollowsAGap` | crates/nanus-adapter-local/src/shell.rs:329-389 | For every run and every continuation of it: once the pump skipped a chunk nothing is staged again; once the sink failed no write starts and no byte is counted; nothing archived is taken back; a final receipt stands |
| `CaptureTheorems.PermitsAreConserved` | crates/nanus-adapter-local/src/shell.rs:296-379 | Free permits plus the bytes both streams hold always equal the call's budget, so staged memory is bounded by it, and a pump that cannot be admitted waits for permits that are out and whose return would admit it |
| `CaptureTheorems.NothingCountsAfterSettlement` | crates/nanus-adapter-local/src/shell.rs:470-563 | With timers handled when due, no byte is counted as retained after the verdict's settlement time, whether the write began before or after the verdict was sent or noticed |
| `CaptureTheorems.StallIsBounded` | crates/nanus-adapter-local/src/shell.rs:366-379 | In every timed run a pump has waited for room at most one allowance in all, and that is less than the drain grace |
| `CaptureTheorems.StallsUseTheWholeAllowance` | crates/nanus-adapter-local/src/shell.rs:366-379 | In every run a pump gives up for want of room only once it has waited its whole allowance, in all |
| `CaptureTheorems.VerdictsSettleOneDeadlineLater` | crates/nanus-adapter-local/src/shell.rs:664-700 | In every run a verdict that was sent was given by one step and settles exactly one deadline after it |
| `CaptureTheorems.FinalizedOnceAndLast` | crates/nanus-adapter-local/src/shell.rs:584-614 | A sink is finalized at most once, and then every write that was started has completed, the pump is over and the channel is empty |
| `CaptureTheorems.TheTaskIsNeverStuck` | crates/nanus-adapter-local/src/shell.rs:584-614 | With the pump ended and the verdict given or abandoned the task can always act until it has finalized, every act it can take leaves less work, and no work is left exactly when it has finalized |
| `CaptureTheorems.FinalizationIsReachable` | crates/nanus-adapter-local/src/shell.rs:565-614 | Every run, wherever it stands and whatever both streams did, can go on to a run that ends with the sink finalized: no interleaving leaves a stream stuck |
| `CaptureTheorems.FinalizationIsReached` | crates/nanus-adapter-local/src/shell.rs:584-614 | For every run and every continuation of it, once the pump has ended and the verdict is given or abandoned: the work left plus the steps the task has taken since never exceeds the work there was, whatever the clock, the engine and the other stream do in between; so with that many steps taken the sink is finalized, and was exactly once |
| `Backlog.Backlog.Fail` | crates/nanus-adapter-local/src/shell.rs:452-458 | The first failure is kept, later ones are not, and the pump's staging is switched off |
| `Backlog.Backlog.Note` | crates/nanus-adapter-local/src/shell.rs:460-468 | A stop becomes the failure and switches staging off, an end is remembered, and bytes that are only released change nothing |
| `Backlog.Backlog.PollVerdict` | crates/nanus-adapter-local/src/shell.rs:470-482 | The verdict is taken once, as it was sent; a vanished engine becomes a cancellation that settles one deadline from now |
| `Backlog.Backlog.Write` | crates/nanus-adapter-local/src/shell.rs:504-546 | One write agrees with the step relation's begin and end; with no verdict, or before it settles, a write in time keeps exactly what fits and reports a quota exactly when something did not; nothing is asked of the sink after a failure, past the limit or past settlement |
| `Backlog.AppendCapped` | crates/nanus-adapter-local/src/shell.rs:231-236 | The result is the first `cap` bytes of what was stored and what came |
| `Backlog.Drain` | crates/nanus-adapter-local/src/shell.rs:257-293 | Whatever the chunk sizes, the preview is the pipe's first `cap` bytes, the archive is handed every chunk uncut, and the preview says it was truncated exactly when the pipe held more |
| `WireMeaning.TheWireSaysTheConversation` | crates/nanus-adapter-anthropic/src/wire.rs:406-523 | Whatever the conversation: a reader of the turns gets back, one by one and in order, what the messages say: the human's text and parts, each reply's text and calls, signed or neutral, and each result's id, error flag and content; only system messages and what is skipped are missing, and the skips are counted |
| `WireMeaning.ResultIsRead` | crates/nanus-adapter-anthropic/src/wire.rs:425-443 | A result carries its call's id, its error flag, and its text, or its parts in order when there is an image, or else its texts as lines |
| `WireMeaning.NeutralIsTextThenCalls` | crates/nanus-adapter-anthropic/src/wire.rs:483-515 | A neutral turn is the text first, when there is any, and then only calls |
| `WireMeaning.SystemPartsAreCores` | crates/nanus-adapter-anthropic/src/wire.rs:337-342 | The system blocks are the system texts that are not blank, in order, each without the blanks around it |
| `WireMeaning.ThinkingIsSigned` | crates/nanus-adapter-anthropic/src/wire.rs:406-480 | No thinking is ever sent without its signature, and none in a user turn |
| `WireMeaning.NoReplyIsEmpty` | crates/nanus-adapter-anthropic/src/wire.rs:483-515 | An assistant turn is never sent empty |
| `Encoder.EncodeMessages` | crates/nanus-adapter-anthropic/src/wire.rs:406-480 | The one-pass encoder computes the fold that every replay property below is proved about, and counts the turns it skips |
| `Encoder.FlushResults` | crates/nanus-adapter-anthropic/src/wire.rs:517-523 | Gathered results become one user turn, and none becomes none |
| `Encoder.SearchBack` | crates/nanus-adapter-anthropic/src/wire.rs:317-334 | The backward search returns the last block in its range that may carry a marker, and none exactly when there is none |
| `Encoder.GeneratedIsLabelled` | crates/nanus-adapter-anthropic/src/managed.rs:255-265 | A message counts as the working data exactly when it is one plain reply that begins with the label |
| `Encoder.BreakpointsAreLast` | crates/nanus-adapter-anthropic/src/wire.rs:275-334 | The end breakpoint is the last markable block there is, the answer one the last before the last assistant turn, the head one the last up to the head turn; each is none exactly when there is no such block |
| `Encoder.BreakpointsAreSafe` | crates/nanus-adapter-anthropic/src/wire.rs:275-334 | Every breakpoint lies on a block that may carry a marker: never on thinking, never on the tail |
| `Encoder.PlaceMarkers` | crates/nanus-adapter-anthropic/src/wire.rs:237-272 | Markers are strictly increasing and each candidate is marked unless an earlier candidate at or after it already is; nothing else is marked |
| `Encoder.AppendTail` | crates/nanus-adapter-anthropic/src/wire.rs:221-234 | The tail's text is the last block of the last, user, turn and dropping that block gives the turns back |
| `Encoder.Decorate` | crates/nanus-adapter-anthropic/src/wire.rs:237-272 | With caching on, the first system block is marked and so is every breakpoint no earlier one serves, and the last marker is on the last markable block there is; with caching off there are none |
| `Encoder.Encode` | crates/nanus-adapter-anthropic/src/wire.rs:121-150 | Removing markers and tail from the body gives exactly the canonical turns; with caching on the last marker is on the last markable block, at most three lie in the turns, strictly increasing, all of the lifetime asked for, none on thinking or on the tail; the digest is that of the canonical prefix, with the tail unless it is left out |
| `EncoderProofs.ReplyIsReplayed` | crates/nanus-adapter-anthropic/src/wire.rs:121-140 | A reply bound to a digest without the tail is sent signed, right after exactly the turns it answered, on every extension that adds no system text; with an injective fingerprint on no other |
| `EncoderProofs.ReplyUnderATailIsNeutral` | crates/nanus-adapter-anthropic/src/wire.rs:121-140 | A reply bound to a digest that includes a tail is sent neutrally, or skipped when it is only replay, on every extension |
| `EncoderProofs.SignedMeansSamePrefix` | crates/nanus-adapter-anthropic/src/wire.rs:386-395 | A turn signed in two requests was judged against the same system, tools and turns in both |
| `Edits.StaysSignedExactlyWhen` | crates/nanus-adapter-anthropic/src/wire.rs:406-480 | Replace one message by another of its kind (a result by a result, a user or assistant message by one of those): a later turn that was signed stays signed if and only if the replacement is sent as the very same turn or result. A replacement that is skipped is included when the original skipped nothing |
| `Edits.ReplacingATurnUnsignsTheRest` | crates/nanus-adapter-anthropic/src/wire.rs:406-480 | Replacing one user or assistant message so that its turn differs leaves no later turn that was signed signed, whatever either request skips elsewhere |
| `Edits.HidingARunUnsignsTheRest` | crates/nanus-adapter-anthropic/src/wire.rs:406-480 | Hiding (or inserting) a run of any messages that makes at least one turn, where the longer body skipped nothing, leaves no later assistant turn signed on both sides |
| `Edits.WhatAnEditReaches` | crates/nanus-adapter-anthropic/src/managed.rs:10-20 | An edit in place changes nothing before it: every earlier assistant turn is sent as it was; of the later ones that were signed, all stay so or none, by the same condition |
| `Sessions.AReplyLeavesALeadingRun` | crates/nanus-adapter-anthropic/src/managed.rs:25-27 | A reply bound to its own request's digest without a tail, followed by results and user messages, leaves a leading run signed if and only if everything before it is sent signed |
| `Sessions.SignedExactlyWhenKept` | crates/nanus-adapter-anthropic/src/managed.rs:36-40 | Over every session, in which each reply is retained with its own request's digest, without replay or with one of another protocol: a reply is sent signed from then on if and only if it was retained under this protocol and its request had no tail or left it out of the digest |
| `Sessions.SessionsLeadExactlyWhen` | crates/nanus-adapter-anthropic/src/managed.rs:25-40 | Over every session from every start: what is signed is a leading run if and only if it was at the start, no reply that keeps its blocks follows one that does not, and none keeps them after a start not sent all signed |
| `Sessions.ATailBreaksTheRun` | crates/nanus-adapter-anthropic/src/managed.rs:25-40 | The remark fails on the adapter's own replies with nothing edited, with the session given: a first answer made under a tail and a second made without one, both with thinking; the first is sent neutrally and the second signed |
| `LeadingRuns.SurvivorsOfAnEditLead` | crates/nanus-adapter-anthropic/src/managed.rs:25-27 | For an edit in place of any request whose signed turns lead: before a turn signed in both requests the edited one sends nothing unsigned, if and only if it is not the case that the replacement is an assistant message not itself sent signed, sent as the very same turn, before a turn that was signed |
| `LeadingRuns.SurvivorsOfThinkingLead` | crates/nanus-adapter-anthropic/src/managed.rs:25-27 | So the survivors lead, of any request whose signed turns lead, when the replaced turn was retained with thinking or is a user message or a result |
| `LeadingRuns.SurvivorsOfHidingLead` | crates/nanus-adapter-anthropic/src/managed.rs:10-27 | Hiding or inserting a run that makes a turn, where the longer body skipped nothing and the signed turns of either lead: the turns signed in both are a leading run of what lies before it, and none lies after |
| `LeadingRuns.AnEditLeavesALeadingRun` | crates/nanus-adapter-anthropic/src/managed.rs:25-27 | When the original was sent all signed, the same condition decides whether everything the edited request sends signed, the replacement included, is a leading run |
| `LeadingRuns.AnEditOfThinkingLeavesALeadingRun` | crates/nanus-adapter-anthropic/src/managed.rs:25-27 | And that exception needs a replaced assistant turn whose retained blocks hold no thinking |
| `LeadingRuns.HidingARunLeavesALeadingRun` | crates/nanus-adapter-anthropic/src/managed.rs:10-27 | Hiding a run that makes a turn from a conversation sent all signed leaves a leading run signed, even when the run holds system messages |
| `LeadingRuns.InsertingARunLeavesALeadingRun` | crates/nanus-adapter-anthropic/src/managed.rs:10-27 | Inserting a run without replay, as the working-data message is, into a conversation sent all signed leaves a leading run signed when the request skips nothing, which preparation insists on |
| `LeadingRuns.SignedTurnsNeedNotLead` | crates/nanus-adapter-anthropic/src/managed.rs:25-27 | Read without those conditions the remark fails, with the conversation given: drop the replay of a first answer that was one text, from a conversation sent all signed, and the answer is sent neutrally while the later reply, thinking included, is still signed |
| `EncoderProofs.BreakpointsContinue` | crates/nanus-adapter-anthropic/src/wire.rs:275-334 | After one more assistant turn and then results or user messages, the new request's breakpoint before the last answer is the very block the old request marked as its end, which is the last markable block that request had, whatever tail either carries |
| `Grammar.ValidatePairs` | crates/nanus-adapter-anthropic/src/managed.rs:312-339 | The loop over a pending vector with swap removal decides the same as the scan over multisets, and names the same fault |
| `Grammar.SwapRemove` | crates/nanus-adapter-anthropic/src/managed.rs:321 | Swap removal takes one occurrence out of the pending multiset, in whatever order it leaves the rest |
| `Grammar.EnterCalls` | crates/nanus-adapter-anthropic/src/managed.rs:327-332 | Entering a message's calls succeeds exactly when its ids are distinct and new, and leaves exactly them pending |
| `Grammar.PairsExactly` | crates/nanus-adapter-anthropic/src/managed.rs:312-339 | Pairing accepts exactly the conversations whose call ids are all distinct and in which each message's calls are answered at once by a run of results that is a permutation of them, with no other result |
| `Grammar.GrammarExactly` | crates/nanus-adapter-anthropic/src/managed.rs:275-309 | The managed grammar accepts exactly the well-formed conversations; its rule on trailing generated data refuses nothing the ending rule would not |
| `GrammarOnTheWire.AcceptedConversationsStayPaired` | crates/nanus-adapter-anthropic/src/managed.rs:275-309 | Accepted and encoded with nothing skipped: each turn with tool uses is directly followed by one user turn whose results answer exactly those uses, results stand nowhere else, and the last turn is a user turn, so the tail has its place |
| `GrammarOnTheWire.HeadTurnExists` | crates/nanus-adapter-anthropic/src/wire.rs:275-315 | In an accepted conversation the head breakpoint names a turn that exists |
| `GrammarOnTheWire.NoResultIsLost` | crates/nanus-adapter-anthropic/src/wire.rs:406-480 | Whatever the conversation, its results reach the wire exactly once each and in order, each with its own id, error flag and content |
| `Admission.OpenExactlyWhen` | crates/nanus-adapter-anthropic/src/wire.rs:635-913 | Over every run a stream is open exactly when each step obeyed the rules after those before it: within the budgets, arguments only for an opened call, whole blocks few and small enough, arguments that parse, nameable calls, no error frame and no end; nothing else is refused and nothing less is let through |
| `Admission.AdmissibleResponsesFinish` | crates/nanus-adapter-anthropic/src/wire.rs:659-704 | A response all of whose frames obey the rules ends, at its `message_stop`, with `Finished` last and once, unless it holds thinking it cannot replay |
| `Reports.FinishedIsHeard` | crates/nanus-adapter-anthropic/src/wire.rs:938-1051 | A run that gave `Finished` told the reader exactly the text of its frames, joined, and the calls they open, in the order they came |
| `Reports.FinishedIsThought` | crates/nanus-adapter-anthropic/src/wire.rs:954-1051 | And as reasoning exactly the thinking of its frames, joined |
| `Reports.CallsAreAnnounced` | crates/nanus-adapter-anthropic/src/wire.rs:980-1014 | A call that is opened is announced at once, under its own index, id and name, with no argument yet, or reported as one that cannot be named |
| `Reports.FinishedForTheLastReason` | crates/nanus-adapter-anthropic/src/wire.rs:1053-1063 | Over every run a response finishes for the last stop reason its frames gave, read as `end_turn` and `stop_sequence` stop, `tool_use` calls tools, `max_tokens` is length, `refusal` the filter, any other unknown under its own text, and none a stop |
| `Reports.ProviderErrorsAreReported` | crates/nanus-adapter-anthropic/src/wire.rs:692-704 | An error frame on an open stream closes it with that error, last, and without finishing |
| `Reports.GarbledLinesAreReported` | crates/nanus-adapter-anthropic/src/wire.rs:635-652 | A line that is not JSON is reported, and ends an open stream exactly under response limits |
| `AnthropicStream.SlotsDoNotCollide` | crates/nanus-adapter-anthropic/src/wire.rs:1145-1155 | Two block indices below the largest a `u32` holds never name the same block, and one that a `u32` does not hold names none of them |
| `Stream.LimitIsTheFirst` | crates/nanus-ports/src/llm.rs:247-252 | A tool has the limit of the first entry that names it, and none exactly when no entry does |
| `AnthropicStream.CallsAreLimited` | crates/nanus-ports/src/llm.rs:247-252 | A call is limited exactly when an entry of the limits names its tool, and by the first that does |
| `AnthropicAccumulator.StreamAccumulator.ObserveFrame` | crates/nanus-adapter-anthropic/src/wire.rs:659-704 | Observing a frame updates every field as the pure step does, in the order the budgets, the argument limits, the replay and the events see it |
| `AnthropicAccumulator.StreamAccumulator.TakeReady` | crates/nanus-adapter-anthropic/src/wire.rs:609-614 | The first queued event is taken and the others stay in order |
| `AnthropicAccumulator.StreamAccumulator.Fail` | crates/nanus-adapter-anthropic/src/wire.rs:623-632 | A failure closes the stream with an error; under response limits it replaces everything queued and drops the replay |
| `AnthropicAccumulator.StreamAccumulator.ObserveLine` | crates/nanus-adapter-anthropic/src/wire.rs:635-652 | A line that is not JSON fails a limited stream and is only reported on another |
| `AnthropicAccumulator.StreamAccumulator.LimitFrame` | crates/nanus-adapter-anthropic/src/wire.rs:866-913 | A named call is held under its limit, its fragments are kept up to it, and passing it empties both buffers and voids the replay |
| `AnthropicAccumulator.StreamAccumulator.ObserveReplay` | crates/nanus-adapter-anthropic/src/wire.rs:761-824 | The replay keeps the frame's part of a block, or fails the stream past its bounds |
| `AnthropicAccumulator.StreamAccumulator.AbsorbReplayDelta` | crates/nanus-adapter-anthropic/src/wire.rs:826-857 | A fragment grows its own field of its own block, or its call's buffer unless the call is oversized |
| `AnthropicAccumulator.StreamAccumulator.ReleaseLimited` | crates/nanus-adapter-anthropic/src/wire.rs:921-935 | A held call leaves the map and delivers its arguments, or the marker, as one fragment |
| `AnthropicAccumulator.StreamAccumulator.OpenToolUse` | crates/nanus-adapter-anthropic/src/wire.rs:980-1014 | A call with no id or no usable name is an error, which ends a limited stream; any other is announced with no arguments |
| `AnthropicAccumulator.StreamAccumulator.Close` | crates/nanus-adapter-anthropic/src/wire.rs:1067-1135 | Closing releases what is held in index order, gives the replay or the failure, the accounting and the end, once |
| `StreamEndings.EitherWayCloses` | crates/nanus-adapter-anthropic/src/wire.rs:659-704 | On an open run the `message_stop` frame, unless a budget refuses it, does exactly what `close` does |
| `StreamEndings.OpenIsInBounds` | crates/nanus-adapter-anthropic/src/wire.rs:761-824 | An open stream never holds more than one record of replay bytes |
| `StreamEndings.FinishedRun` | crates/nanus-adapter-anthropic/src/wire.rs:623-704 | A run gives `Finished` only by one of those two ways of closing, with no thinking withheld; what the reader then has is never taken back and only errors can follow |
| `AnthropicStreamProofs.AtMostOneFinish` | crates/nanus-adapter-anthropic/src/wire.rs:623-704 | Over every run of observing, taking, failing and closing, at most one `Finished` is produced, and none before the stream closes |
| `AnthropicStreamProofs.OnlyErrorsFollow` | crates/nanus-adapter-anthropic/src/wire.rs:623-704 | Whatever is done after closure adds nothing but errors; without response limits everything already produced stays, with them only events not yet taken can be dropped |
| `HeldArguments.DeliveredIsJudgedWhole` | crates/nanus-adapter-anthropic/src/wire.rs:866-935 | At every point of an open stream, for every block, the argument text delivered and the text held are those of "concatenate, then judge", independently of all other blocks |
| `HeldArguments.OneCallIsJudgedWhole` | crates/nanus-adapter-anthropic/src/wire.rs:866-935 | A limited call opened once, for every fragmentation and interleaving, in a stream that is still open and the call stopped, or that finished by either way of closing, the call stopped or not: the reader has its whole concatenation when within the limit and the oversized marker otherwise |
| `HeldArguments.ClosingReleasesWhatIsHeld` | crates/nanus-adapter-anthropic/src/wire.rs:1067-1080 | A stream that closes before a call stops, by `close` or by the `message_stop` frame, delivers what is held, judged as a whole; under response limits it fails instead if and only if it has thinking it cannot replay |
| `HeldArguments.FinishedDelivers` | crates/nanus-adapter-anthropic/src/wire.rs:866-935 | Every run that ever gave `Finished`, whatever was done after, has delivered for every block exactly what "concatenate, then judge" makes of the frames seen while it was open |
| `SignedReplay.VoidExactlyWhenOverflowed` | crates/nanus-adapter-anthropic/src/wire.rs:899-913 | In an open stream the replay is void exactly when some limited call passed its limit |
| `SignedReplay.SignedExactlyWhen` | crates/nanus-adapter-anthropic/src/wire.rs:1083-1116 | Closing an open stream, by `close` or by the `message_stop` frame, gives a signed replay exactly when no limited call overflowed, there is thinking, every thinking block is signed and the replay fits; it is then every block in index order, and the only replay |
| `SignedReplay.ReplayMeansNoOverflow` | crates/nanus-adapter-anthropic/src/wire.rs:1083-1116 | Over every run of every operation: a signed replay the reader has means that no limited call passed its limit while the stream was open, and it is all its blocks, signed, with thinking, within the budget |
| `SignedReplay.FinishedSigned` | crates/nanus-adapter-anthropic/src/wire.rs:1083-1116 | A run that gave `Finished` has one signed replay exactly when the frames seen while it was open hold thinking and overflowed no limited call |
| `SignedReplay.HeldIsTheReplayBuffer` | crates/nanus-adapter-anthropic/src/wire.rs:826-913 | Under argument limits, with each call opened once, a held call that has not overflowed holds exactly the text the replay has buffered, and an overflowed one has nothing buffered |
| `SignedReplay.BlocksHoldEveryFragment` | crates/nanus-adapter-anthropic/src/wire.rs:761-857 | Every block of an open stream holds, in each text field, its opening value followed by every fragment that arrived for it, whatever is interleaved |
| `SignedReplay.BlocksStayThemselves` | crates/nanus-adapter-anthropic/src/wire.rs:761-857 | Every block of an open stream is the one last started at its index, apart from the text, thinking, signature and input that later frames bring |
| `SignedReplay.ValuesAreInOrder` | crates/nanus-adapter-anthropic/src/wire.rs:1075-1078 | The blocks of a replay are those kept, each once, in index order |
| `ReplayInput.BlocksFollowTheirFrames` | crates/nanus-adapter-anthropic/src/wire.rs:761-913 | At every point of an open stream what is held, buffered and stored as input for a block is what its own frames, in order, make of it |
| `ReplayInput.ReplayedInputIsTheWhole` | crates/nanus-adapter-anthropic/src/wire.rs:797-818 | For every run, open or ended in any way: the block of a call opened once and stopped within its limit, for every fragmentation and interleaving, has as input the parsed whole of its arguments, or its opening input when no fragment came; a signed replay that was given is those blocks |
| `ToldReplay.ReplaySaysWhatWasTold` | crates/nanus-adapter-anthropic/src/wire.rs:761-1116 | For a run that gave `Finished` and whose blocks start in index order, with text for the block started last: the text the reader was told, joined, is the text of the blocks, joined, and the calls announced are the blocks' usable calls in order; so a signed replay that was given says exactly what was told |
| `ToldReplay.ReplayedInputIsWhatWasTold` | crates/nanus-adapter-anthropic/src/wire.rs:797-935 | In a run that gave `Finished`, for a call opened once and stopped within its limit, limited or not: the reader was given its fragments, joined, and its block's input is those arguments, parsed, or its opening input when none came |
| `Accounts.CountsAreTheLargest` | crates/nanus-adapter-anthropic/src/wire.rs:938-952 | Each count is the largest that fits a `u32` among those the frames report for it, whatever their order, and zero when there is none |
| `Accounts.AccountingMeans` | crates/nanus-adapter-anthropic/src/wire.rs:1117-1143 | The prompt is the sum of the three input counts, what was read from the cache is a hit and the rest a miss, each capped at a `u32` |
| `Accounts.ReportedIsTheAccounting` | crates/nanus-adapter-anthropic/src/wire.rs:1117-1129 | Over every run of every operation: a usage the reader has is the accounting of the largest counts its frames reported while the stream was open |
| `Accounts.FinishedReports` | crates/nanus-adapter-anthropic/src/wire.rs:1117-1129 | A run that gave `Finished` has reported that accounting exactly once, and none exactly when it comes to nothing |
| `Accounts.PartitionExactlyWhen` | crates/nanus-adapter-anthropic/src/wire.rs:1117-1129 | Over every run: of a usage the reader has, the two cache counters partition the prompt if and only if the three counts fit a `u32` together or nothing was read from the cache |
| `Accounts.PartitionCanFail` | crates/nanus-domain/src/message.rs:115-118 | The partition is not an invariant: two frames, a `message_start` that saturates the prompt and a `message_stop`, report a usage that breaks it under every policy |
| `Response.Decode` | crates/nanus-adapter-anthropic/src/response.rs:9-69 | The poll loop hands out exactly the events of the answers, taking every event before the next answer, and ends when they do |
| `Response.ObserveLines` | crates/nanus-adapter-anthropic/src/response.rs:71-82 | Stopping at closure under response limits gives the same as observing every line |
| `Response.Answer` | crates/nanus-adapter-anthropic/src/response.rs:35-66 | One answer of the body leaves the accumulator as stated, and the body is read on exactly while the stream is open |
| `Response.OneTerminalOutcome` | crates/nanus-adapter-anthropic/src/response.rs:28-97 | However a body is cut into answers it gives at most one `Finished` and, if it ends, its last event is terminal; under response limits that event is the only terminal one |
| `Response.WithoutLimitsBothCanAppear` | crates/nanus-adapter-anthropic/src/response.rs:28-97 | Without response limits a concrete body gives an error and then `Finished` |
| `BodyEnds.BrokenBodiesSaySo` | crates/nanus-adapter-anthropic/src/response.rs:35-66 | A body still open when its transport or its framing fails gives what it gave, then that error, last, and has not finished, whatever would have come after |
| `BodyEnds.BodiesThatJustEnd` | crates/nanus-adapter-anthropic/src/response.rs:84-97 | A body still open at the sentinel or its end is an error under response limits, and otherwise closed: it finishes unless it holds thinking it cannot replay |
| `BodyEnds.OnlyProperBodiesFinish` | crates/nanus-adapter-anthropic/src/response.rs:28-97 | A body that finishes was open up to an answer that holds a `message_stop` or, without response limits, is the sentinel or an ordinary end |
| `ResponseEndings.FinishedBody` | crates/nanus-adapter-anthropic/src/response.rs:28-97 | For a whole body, however cut into answers, that gives `Finished`: the reader has, for every block, the arguments its frames deliver, judged as a whole, and one signed replay exactly when they hold thinking and overflowed nothing; under response limits those frames are the ones before the `message_stop` |
| `DeepSeekAccumulator.StreamAccumulator.ObserveToolCallDelta` | crates/nanus-adapter-deepseek/src/wire.rs:415-479 | One delta is folded into its slot: the vector grows to it, an implausible index falls into slot zero, and the arguments are judged whenever the name is known |
| `DeepSeekAccumulator.StreamAccumulator.ObserveFrame` | crates/nanus-adapter-deepseek/src/wire.rs:371-412 | A frame updates usage, finish reason, text and calls as the pure step does |
| `DeepSeekAccumulator.StreamAccumulator.Close` | crates/nanus-adapter-deepseek/src/wire.rs:514-563 | Closing reports the assembled calls in slot order, the usage and the end, once |
| `DeepSeekCalls.SlotsDependOnTheirOwnDeltas` | crates/nanus-adapter-deepseek/src/wire.rs:415-479 | Without a failure every slot depends only on its own sequence of deltas |
| `DeepSeekCalls.RunWaits` | crates/nanus-adapter-deepseek/src/wire.rs:415-479 | Whatever the frames, there are never more than 256 slots and no call is reported before the end |
| `DeepSeekCalls.RunSays` | crates/nanus-adapter-deepseek/src/wire.rs:371-412 | Without a failure the queue is the text and reasoning of the frames in order, and the usage and finish reason are the last ones given |
| `DeepSeekCalls.CallsAreConfluent` | crates/nanus-adapter-deepseek/src/wire.rs:415-563 | Two streams that give each call the same deltas in the same order, and the same last usage and finish reason, close alike however they cut and interleave them: the same calls, usage and end are added, or both fail; if their text is the same too the reader has the very same events |
| `DeepSeekCalls.AssembledIsJudged` | crates/nanus-adapter-deepseek/src/wire.rs:453-479 | A call is the last id and name its deltas give and the concatenation of its arguments, emptied exactly when at some delta everything so far was too long for the name so far |
| `DeepSeekCalls.TooLongExactlyWhen` | crates/nanus-adapter-deepseek/src/wire.rs:453-479 | For every call, renamed or not, and every limits: it was ever too long if and only if after some of its deltas the text so far was too long for the name so far |
| `DeepSeekCalls.TooLongWhenNamedOnce` | crates/nanus-adapter-deepseek/src/wire.rs:453-479 | For a call named once, early or late, under every limits: if and only if its whole is too long for its name, or what came before the name was too long for a call not named yet |
| `DeepSeekCalls.CallIsDelivered` | crates/nanus-adapter-deepseek/src/wire.rs:415-563 | After the stream ends the reader has, for every call under every limits: nothing when its last name is not usable, the oversized marker when it was ever too long, and otherwise its whole concatenation |
| `DeepSeekCalls.OneCallIsJudgedWhole` | crates/nanus-adapter-deepseek/src/wire.rs:415-563 | For a call named once: the marker exactly when its whole is past its limit or what came before the name was too long for a call not named yet; with limits of at most one record, exactly its whole, judged |
| `DeepSeekReports.EndedBodiesReport` | crates/nanus-adapter-deepseek/src/wire.rs:514-618 | What the reader has once a body ended well: its reasoning and text in order, then each call with a usable name once, in index order, with the last id and name its deltas gave and its arguments judged, then the last usage, each count under its own name, and last, once, the reason the last finish reason means |
| `DeepSeekReports.CloseFailsExactlyWhen` | crates/nanus-adapter-deepseek/src/wire.rs:514-532 | An open stream fails to close exactly when, under response limits, something came of a call that has no id or no usable name |
| `DeepSeekReports.OpenExactlyWhen` | crates/nanus-adapter-deepseek/src/wire.rs:371-512 | Under response limits a stream is open after its frames exactly when each frame is within the event budget, each delta names an index in range, and each call stays within the budget with every delta |
| `DeepSeekResponse.BrokenBodiesSaySo` | crates/nanus-adapter-deepseek/src/response.rs:35-66 | A chat-completions body still open when its transport or its framing fails ends there with that error and has not finished |
| `DeepSeekResponse.GarbledLinesAreReported` | crates/nanus-adapter-deepseek/src/wire.rs:351-369 | A line that is not JSON is reported, and ends an open stream exactly under response limits |
| `DeepSeekResponse.BodiesThatJustEnd` | crates/nanus-adapter-deepseek/src/response.rs:84-97 | One still open at the sentinel or its end is closed, unless under response limits the sentinel was not seen, which is an error |
| `DeepSeekResponse.OnlyProperBodiesFinish` | crates/nanus-adapter-deepseek/src/response.rs:28-97 | One that finishes was open up to an answer that ends it on its own and, under response limits, with the sentinel seen |
| `DeepSeekResponse.OneTerminalOutcome` | crates/nanus-adapter-deepseek/src/response.rs:28-97 | However a chat-completions body is cut into answers it gives at most one `Finished`, none before it ends, and if it ends its last event is terminal; under response limits that event is the only terminal one |
| `DeepSeekEncoder.EncodeMessages` | crates/nanus-adapter-deepseek/src/wire.rs:126-173 | The loop over turns and attachments computes the fold below |
| `DeepSeekEncoder.ResultsStayTogether` | crates/nanus-adapter-deepseek/src/wire.rs:126-173 | A whole run of results is sent in order with nothing between, then its attachments in order, then what follows exactly as it would be sent on its own |
| `DeepSeekEncoder.OneMessageEach` | crates/nanus-adapter-deepseek/src/wire.rs:126-173 | Each result of a run gives exactly one message, at its own place |
| `DeepSeekEncoder.EveryImageIsAttached` | crates/nanus-adapter-deepseek/src/wire.rs:126-173 | Of a run of results, one with images is sent as its label and every other as it is, and the attachments are those of the results with images, each with all its parts, one by one and in order |
| `DeepSeekEncoder.OthersAreSent` | crates/nanus-adapter-deepseek/src/wire.rs:126-173 | Any other message is sent as it is, after all that came before, unless only another protocol could say it |
| `SchemaMeaning.AcceptsExactly` | crates/nanus-adapter-openai/src/function_policy.rs:47-206 | A schema is accepted exactly when its root is a plain object schema, every schema reached from it by any path of properties, items and alternatives obeys the rules and lies at most nine places down, and the totals are within their ceilings |
| `SchemaMeaning.KidsAreInside` | crates/nanus-adapter-openai/src/function_policy.rs:126-158 | The children the walk takes are the schemas at the places directly inside, each once at its rank, and no others |
| `SchemaMeaning.LocalIsStrict` | crates/nanus-adapter-openai/src/function_policy.rs:61-206 | The rules of one schema, said of its members alone: only nine names, so no reference; one known type or up to seven; an object closed and requiring each property once; items exactly for an array; enumerated values distinct and of a declared type |
| `SchemaMeaning.NodesCount` | crates/nanus-adapter-openai/src/function_policy/limits.rs:25-52 | One schema counts the members of its properties and the values of its enumeration, with their characters |
| `SchemaWalk.ObjectSchema` | crates/nanus-adapter-openai/src/function_policy.rs:103-124 | Equal sizes, membership and no repetition of `required` decide exactly that it is the property set, each name once |
| `SchemaWalk.RequiresEachOnce` | crates/nanus-adapter-openai/src/function_policy.rs:103-124 | As many distinct names as keys, all of them keys, is the same as the multiset of keys |
| `SchemaWalk.ChildrenOf` | crates/nanus-adapter-openai/src/function_policy.rs:126-158 | The children are the properties, the items and the alternatives in order, unless there are too many |
| `SchemaWalk.Counts.Observe` | crates/nanus-adapter-openai/src/function_policy/limits.rs:25-52 | One node's counts are added, and refused exactly when a total would pass its ceiling or an enum is not allowed |
| `SchemaWalk.CheckNode` | crates/nanus-adapter-openai/src/function_policy.rs:61-98 | One node is accepted exactly when it obeys its own rules, it has no more children than the bound, and the totals with it stay within their ceilings |
| `SchemaWalk.Take` | crates/nanus-adapter-openai/src/function_policy.rs:56-98 | One turn of the loop replaces the top of the stack by its children one level down, or refuses, exactly as the rules and the bounds say |
| `SchemaWalk.Walk` | crates/nanus-adapter-openai/src/function_policy.rs:53-101 | The loop over the stack decides whether the tree fits, and ends |
| `SchemaWalk.GoingOnDecides` | crates/nanus-adapter-openai/src/function_policy.rs:47-101 | At the top of the stack, going on leaves less to check of the same tree, and not going on means the tree does not fit |
| `SchemaWalk.Schema` | crates/nanus-adapter-openai/src/function_policy.rs:47-101 | The worklist with its three bounds accepts exactly the trees in which every node obeys the local rules, the depth is at most nine and the totals are within their ceilings; the stack bound never refuses a tree within the node bound and the walk always ends |
| `Base64Url.FourSextets` | crates/nanus-adapter-openai/src/oauth.rs:453-463 | A full accumulator stays below twenty-four bits and none of its three byte conversions fails |
| `Base64Url.Absorb` | crates/nanus-adapter-openai/src/oauth.rs:455-463 | One sextet more keeps out, accumulator and count standing for the groups read so far, and never fails |
| `Base64Url.Finish` | crates/nanus-adapter-openai/src/oauth.rs:465-473 | The sextets left over give their whole bytes, and never fail |
| `Base64Url.Decode` | crates/nanus-adapter-openai/src/oauth.rs:438-474 | The decoder returns the bytes of the four-sextet groups of the payload, and refuses exactly an input with a foreign character before the padding |
| `Base64Url.RoundTrip` | crates/nanus-adapter-openai/src/oauth.rs:438-474 | Every byte sequence, encoded with or without padding, decodes to itself (section 5 of RFC 4648) |
| `Base64Url.TheAlphabetIsUrlSafe` | crates/nanus-adapter-openai/src/oauth.rs:438-452 | The alphabet is the letters, the digits, the hyphen and the underscore, in the order of section 5 of RFC 4648 |
| `Search.FileMatchesExactly` | crates/nanus-adapter-local/src/fs.rs:412-601 | What is found in a file in scope is exactly the file itself for a glob that admits it, or each of its lines in which the pattern stands, both folded when case does not matter, by number and in order; nothing in a file that is too large or not text |
| `Search.ContainsExactly` | crates/nanus-adapter-local/src/fs.rs:574-601 | A needle is found exactly when it stands at some place in the line |
| `Search.FilesAreCounted` | crates/nanus-adapter-local/src/fs.rs:441-464 | A literal search counts each file in scope exactly once, as too large, searched, binary or unreadable |
| `Search.SearchOutcome.CollectGlob` | crates/nanus-adapter-local/src/fs.rs:412-436 | One file is matched, and the cap drops its match exactly when it is full |
| `Search.SearchOutcome.ScanLiteral` | crates/nanus-adapter-local/src/fs.rs:441-464 | A file is counted under exactly one heading, and a searched one adds its matching lines up to the cap |
| `Search.SearchFile` | crates/nanus-adapter-local/src/fs.rs:319-333 | A file the caller excluded changes nothing; any other adds its matches up to the cap and its count |
| `Search.SearchOutcome.CollectLiteral` | crates/nanus-adapter-local/src/fs.rs:574-601 | The matching lines are appended up to the cap, and a drop is reported exactly when there was one more |
| `Search.SearchBlocking` | crates/nanus-adapter-local/src/fs.rs:305-335 | A capped search returns exactly the first `max_results` matches of the uncapped one in walk order, `truncated` exactly when there are more, and counters for exactly the files reached |
| `Search.Dropped` | crates/nanus-adapter-local/src/fs.rs:305-335 | A match dropped in one file: what is kept is the head of all matches and no later file is reached |

## Left out

- Reading in the archive protocol: `ArchiveFeed`, `archive` and `collect` interleave with each other, so they are steps of the relation rather than methods; only `Backlog` and `drain`, which one task owns, are classes and methods.
- Semaphore fairness: a pump may queue although its chunk would fit, and a grant is one atomic step that any fitting waiter may take, so no order among waiters and no permits held by a waiter are modelled, and no theorem depends on them.
- The branches of `stage` and `stop` for a channel whose receiver is gone, and the integer conversions that cannot fail for an 8 KiB chunk: the receiver outlives the pump in every run.
- Live preview events (`offer`), lossy decoding of previews, and everything about processes: spawning, signals, groups, pid reuse, exit status.
- Text is a sequence of characters that stand for bytes; trimming is ASCII in the encoder, and blank argument text is a parameter of the accumulator.
- JSON parsing and printing, serialized sizes and blake3: sizes arrive with the frames, parsing is a parameter, and the fingerprint is a parameter that is injective where a theorem says so.
- `AssistantReplay::validate`: the envelope's digest length and hexadecimal form and its size bound are one given predicate of the encoder.
- The context receipt of a replay, model and effort tables, ceilings, headers, and the byte splitter of server-sent events: the accumulators are fed decoded frames.
- Polling the verdict and arming the write's timeout are one step of the sink's task, and the engine's sending of a verdict is one step, so a verdict sent between the poll and the arming is not modelled.
- Counters of the search and of the accumulators that saturate at the width of a machine word are unbounded where no property is about saturation.
- SchemaWalk.Schema: requires what a parsed JSON object gives, that no object repeats a property name.
- The size check of a whole schema is a given truth value, because it is a serialized size.
- HeldArguments.OneCallIsJudgedWhole: is about streams that are open or finished; one that failed delivers an error instead, and under response limits nothing that was not yet taken.
- DeepSeekCalls.CallsAreConfluent: is about streams that have not failed before they close; how a failure orders against other frames is not compared.
- Edits.HidingARunUnsignsTheRest: is for runs that make a turn; hiding results or system messages alone is not stated, and the grammar does not let a result be hidden without its call.
- Sessions.SessionsLeadExactlyWhen: is for sessions whose tools stay the same and in which no system message comes after the start; either changes the prefix of every reply.
- ToldReplay.ReplaySaysWhatWasTold: is for frames in index order; frames in another order are told in the order they come and replayed in index order.
- Edits.StaysSignedExactlyWhen: is for replacements of a kind, not for a result in place of a turn, which the grammar refuses.
- Answers that are not a success: the poll loop starts from a successful status, so the bounded error body is not modelled.
- DeepSeekResponse.OneTerminalOutcome: is about the poll loop as a function of the answers; the loop as it is written is proved for the Messages adapter, in `Response`, and the two differ only in what ends a body.
- The DeepSeek and OpenAI copies of the managed grammar, and the OpenAI poll loop, which repeat the Messages ones.
- Walking, globbing, path confinement and symlinks in the file adapter: the search is given the walked files, what each holds, and the compiled patterns as predicates.
- `percent_encode`, `form`, claims and expiry of tokens, and the network side of OAuth.
