# Verified model of the agent run

The agent crate runs a model in a loop: it sends the conversation, keeps or drops
the reply, runs the tools it calls, and recovers from bad replies and provider
errors. It writes one event for every change of the conversation, and another
part of the crate rebuilds the conversation from those events, to continue a run
that was interrupted. This project models the loop, its log and the rebuilding,
and proves that they agree: for every provider, tool, summariser, collector,
pause and stop signal, and for a process that dies after any event.

| file | what it models |
|---|---|
| `Runner.dfy` | the turn loop, the call loop, recovery, compaction, dispatch (`AgentRun`) |
| `Protocol.dfy`, `Writer.dfy` | what may be written when, and what every such log has in common |
| `Replay.dfy`, `Emission.dfy` | the fold that rebuilds the conversation, its loop, and one turn's round trip |
| `Chains.dfy` | logs that seed each other by reference |
| `Continuation.dfy`, `Lineage.dfy` | continuing a run from its log, and continuing that, over and over |
| `Recovery.dfy`, `Outcomes.dfy` | the policy table, the ladder's bookkeeping, classifying replies |
| `Compaction.dfy`, `Conversation.dfy` | sizes, partition, summary, trimming; messages and tool pairing |
| `Collector.dfy`, `Skills.dfy` | framing and choosing injections; the loaded skills |
| `Transcript.dfy` | the events, and the answer text a reader takes from them |
| `FdBudget.dfy` | raising the descriptor limit and pacing starts |
| `Worlds.dfy` | everything outside, as arbitrary answers to numbered questions |

What the run meets is an arbitrary function of time (`World`): every reply, error,
tool result, summary, injection, built fallback, pause and stop signal. The log is
a growing sequence of events and every append succeeds. Files are a map from path
to events, the seed hash is an arbitrary function, and the two `f64` values of the
compaction budget are `real`. A string holds the UTF-8 bytes of the source's
string, so lengths are byte lengths.

`Run` asks of its caller what the source asks: replies that the log can carry
(`Faithful`: no empty text block, no tool result block, no call id twice;
`Emission.TurnRoundTripExactly` shows that each is needed), and a launch
(`Launchable`) whose seed is tool-paired, starts with a user message, is ready to
send when nothing is added to it and is what its reference rebuilds to, and whose
messages tell the continuation note only where the seed does not end with it. All
of that is proved of every continuation (`Continuation.ContinuationIsLaunchable`,
`Continuation.RetryIsLaunchable`, `Continuation.PromptedIsLaunchable`).

Some claims hold only under a condition. Each is proved with its exact condition
and an input that fails it:

- the loaded set and its log agree unless a carried skill is only missing
  (`Skills.SeedIsRecordedExactly`, `Skills.MissingSkillIsNotRecorded`);
- a compacted history whose cut the budget chose fits half the threshold as soon
  as its recent part has one counted character (`Compaction.CompactedFitsHalf`),
  and fails to only when that part has none and the opening message and the
  summary alone pass half of it (`Compaction.CompactedFitsHalfExactly`,
  `Compaction.TooLargeATaskDoesNotFit`);
- a run's log reads back, and its lost completion record makes no difference,
  unless the chain it lengthens passes the depth cap (`Chains.NewLogReadsBack`,
  `Continuation.LostCompletion`; `Chains.TooManyContinuations`,
  `Continuation.LostDeepCompletion`);
- a run that died before its first turn ended is continued by sending exactly what
  it held if and only if it was told the continuation note
  (`Continuation.ContinuingALaunch`). Every continuation is, and every prompt to
  an interrupted run; a prompt to a run that finished is not
  (`Continuation.FinishedRunIsNotTold`).

The code and its documentation differ in two places, where the model follows the
code: the reference of a log is the one its first *referring* seed names, not the
one its first seed decides (crates/rupu-agent/src/replay.rs:252-268); and not
every continuation that died before its first turn finished ends with the note,
as the comment on `ends_with_note` has it, but only one that was told it
(crates/rupu-agent/src/continuation.rs:452-455).

Run `dafny verify dfyconfig.toml` to check everything.

## Model

| member | source | states |
|---|---|---|
| Runner.AgentRun.Run | crates/rupu-agent/src/runner.rs:2183-3722 | A whole run, under any provider, tools, summariser, collectors, pauses and stop signals: its log replays to its messages at the end and, at every event, to the messages it held once that event's step was done; the log keeps the protocol and opens with the start record of its launch; every request is tool-paired and ends in a user turn or in the paused content it continues, and with a seed that has no two replies in a row no request and no conversation ever has; at most 80 × (turns + 20) stream calls, at most `max_turns` turns, 20 recovery actions and 21 visits to the ladder; it ends `Ok` only on a reply that succeeds, fails on an outcome only when that reply's rung 0 and the fallbacks are spent, and fails without one only at `max_turns`; nothing but a signal pauses or aborts it; the last event is the completion, with that status or, when the loop breaks off, one that is not `Ok` |
| Runner.AgentRun.Turns | crates/rupu-agent/src/runner.rs:2350-3687 | The turn loop: it ends, each turn raises the turn index by one, and the bounds on stream calls and ladder visits hold over all turns |
| Runner.AgentRun.Turn | crates/rupu-agent/src/runner.rs:2350-3687 | One turn, answered by a reply that some call got: the conversation after it is the one before, with the one-time injections, then the loop's own upkeep, then the reply taken (whole or not at all), then upkeep; after a refusal or a safety stop no assistant message is in it that was not before; only a paused reply leaves the next to join it; it ends the run well exactly when the reply succeeds, and fails it only when rung 0 and the fallbacks are spent for that reply; a turn paused before any reply leaves upkeep only, and one paused after it has that effect |
| Runner.AgentRun.Answer | crates/rupu-agent/src/runner.rs:2877-3687 | Everything after the reply of a turn has that effect on the conversation; a reply whose outcome is more than a warning, and no other, visits the ladder, and each visit costs an action or ends the run; while rung 0 has an attempt left for it, a kept turn is carried on by its own step, on the same client, at the cost of exactly one action and one attempt, and an incomplete one is sent again at that cost |
| Runner.DiscardedLeavesNothing | crates/rupu-agent/src/runner.rs:3052-3175 | Nothing of a discarded reply is ever in the conversation, after any compaction, note or hop of its turn |
| Runner.RefusedLeavesNothing | crates/rupu-agent/src/runner.rs:3052-3175 | A turn whose reply stopped as a refusal or at a safety filter leaves no assistant message that was not there before it |
| Runner.DiscardsByStop | crates/rupu-agent/src/recovery.rs:94-139 | A reply is discarded exactly when it was refused, blocked or incomplete, or was cut off at the output limit inside a tool call |
| Runner.UpkeepAddsNoReply | crates/rupu-agent/src/runner.rs:1365-1476 | Compacting and the loop's own notes never add an assistant message |
| Runner.KeptFacts | crates/rupu-agent/src/runner.rs:3477-3500 | A kept reply either is quiet, and then leaves non-blank text unless it calls a tool, or has a rung-0 step that carries it on; an empty one calls nothing |
| Runner.DiscardedIsAnError | crates/rupu-agent/src/recovery.rs:94-139 | A discarded reply never meets the success rule |
| Runner.AgentRun.BeginTurn | crates/rupu-agent/src/runner.rs:2358-2436 | A turn's request is the conversation with the one-time injections, which stay, then the every-turn ones that fit, which are in that request only; injections never break the request's shape, and no turn starts as one that has compacted |
| Runner.InjectionsKeepRequest | crates/rupu-agent/src/runner.rs:2383-2413 | Injected messages at its end leave a request one that a provider takes |
| Runner.RequestShape | crates/rupu-agent/src/runner.rs:2383-2436 | What every request of a run looks like: each call answered in the very next message, each result after its call, an end in a user message or, under the merge flag, in content that calls nothing, and no two replies in a row when the seed has none |
| Runner.AgentRun.NoteEveryTurn | crates/rupu-agent/src/runner.rs:2388-2397 | An every-turn injection is recorded when it is new or its content changed, and never joins the conversation |
| Runner.AgentRun.CallProvider | crates/rupu-agent/src/runner.rs:2436-2873 | The inner call loop: it ends, with at most 80 stream calls, and 80 more for each recovery action its hops cost. Its requests are those of a trail of calls that starts with the request it was given and the client's own cap, and in which an error stands between each call and the next, which is what the client does about that error or the first of another client; the reply it returns is one that a call got; nothing but upkeep happens to the conversation |
| Runner.AgentRun.TryCall | crates/rupu-agent/src/runner.rs:2454-2873 | One call decides what comes next: once the process is told to stop it is not made; its reply or its pause ends the loop; after an error the next call is the same client's, or, for an action, the first of another, with that client's cap and the history as the move to it left it |
| Runner.AgentRun.Handle | crates/rupu-agent/src/runner.rs:2560-2873 | An error leads to the same client's next call, to another client's first, or to the end of the run, and never to the same call with the same guards |
| Runner.AgentRun.Respond | crates/rupu-agent/src/runner.rs:2560-2769 | What a client does about an error, the first that applies: an adjustment it has not made, a compaction or a shorter request for an overflow, the same call once more for a transient error, or giving way |
| Runner.AgentRun.OnError | crates/rupu-agent/src/runner.rs:2560-2785 | A provider error either spends one of the client's guards, trims or retries and calls again, or climbs, or ends the run; an overflow is never retried as it was, the ladder is climbed only when no adjustment is left, and never past a stop signal |
| Runner.AdjustedSpends | crates/rupu-agent/src/runner.rs:2562-2647 | Each once-per-client adjustment spends a guard of its own and sends the same request |
| Runner.AgentRun.OnOverflow | crates/rupu-agent/src/runner.rs:2651-2728 | An overflow compacts once for a client and sends the compacted history; when that cannot run, or was done, it drops the oldest exchange of the request, at most 65 times; the conversation itself is never trimmed |
| Runner.OverflowSpends | crates/rupu-agent/src/runner.rs:2651-2728 | Each answer to an overflow spends a guard of the client |
| Runner.AgentRun.CompactOnOverflow | crates/rupu-agent/src/runner.rs:2651-2706 | The limit the provider names is learned first, and never raises the known one; a compaction then runs exactly when it can over the reported size, and opens with the task and the summary |
| Worlds.ClampLowersOnly | crates/rupu-providers/src/model_limits.rs:157-169 | Clamping makes the input limit known, and no larger than it was or than the clamp |
| Worlds.ThresholdIsLargest | crates/rupu-providers/src/model_limits.rs:138-151 | The compaction threshold is the largest input within the percentage that also leaves room for a whole reply, where output shares the window and is smaller than it |
| Runner.AgentRun.RetryOrClimb | crates/rupu-agent/src/runner.rs:2729-2769 | A transient error is retried at most ten times; one from before any request ends the run without the ladder |
| Runner.AgentRun.ClimbOnError | crates/rupu-agent/src/runner.rs:2799-2870 | A provider error on the ladder moves to a client never tried before at the cost of at least one action, or closes the run as failed because no eligible fallback or action is left |
| Runner.AgentRun.FallBack | crates/rupu-agent/src/runner.rs:1365-1480 | Rungs 1 and 2: it ends; a hop lands on a provider and model of the chain that the policy allows, never tried before, with limits as it was built, costs at least one action, and leaves the conversation ending in a user turn, the retry note where it ended in a reply; without a hop the client and the conversation are as they were; it gives up only when nothing is left |
| Runner.AgentRun.TryHop | crates/rupu-agent/src/runner.rs:1377-1475 | One candidate: one that cannot be built is skipped at the cost of an action, any other becomes the client |
| Runner.AgentRun.HopTo | crates/rupu-agent/src/runner.rs:1417-1475 | The client after a hop is the target, with the limits it was built with |
| Runner.AgentRun.SettleHop | crates/rupu-agent/src/runner.rs:1433-1475 | After a hop the history is compacted exactly when the last input passes the new client's threshold, this turn has not compacted and no stop is signalled, and the retry note is added exactly when it ended in a reply |
| Runner.AgentRun.Discarded | crates/rupu-agent/src/runner.rs:3052-3175 | A discarded turn costs an action or ends the run, and the conversation stays ready to send; while an attempt is left an incomplete one is sent again with nothing changed, and one cut off inside a tool call under a lowered cap is retried when its history is or can be compacted |
| Runner.AgentRun.EndDiscarded | crates/rupu-agent/src/runner.rs:1068-1094 | A discarded turn's blocks are shown in order, its text only when it was not streamed, and its end is marked as discarded |
| Runner.ShowsOneMore | crates/rupu-agent/src/runner.rs:1068-1094 | Each block of a discarded turn is shown by one event of its own or none: its text as it would have been streamed, any other block as it was, marked when a fallback abandons it |
| Runner.AgentRun.RetryDiscarded | crates/rupu-agent/src/runner.rs:3075-3141 | Rung 0 for a discarded turn, at the cost of one action and one attempt: with a lowered cap it compacts first, behind the task and the summary; when it cannot, nothing is changed and the ladder is next |
| Runner.AgentRun.Kept | crates/rupu-agent/src/runner.rs:3178-3687 | A kept turn joins the conversation with the results of exactly its calls; it ends the run well exactly when the reply succeeds, is carried on while rung 0 has an attempt for it, and fails only when that and the fallbacks are spent |
| Runner.AgentRun.AfterKept | crates/rupu-agent/src/runner.rs:3477-3687 | After a kept turn the run ends well exactly when it called no tool and had no outcome or a warning; with calls and no more than a warning it goes on unless it is told to pause; any other outcome costs an action or ends the run, and is carried on while rung 0 has an attempt for it |
| Runner.AgentRun.Recover | crates/rupu-agent/src/runner.rs:3482-3657 | Recovery of a kept turn: while the attempts used are below the policy's budget and the action cap is not reached, the turn is carried on by its own step, on the same client, at the cost of exactly one action and one attempt; it fails only when those and the fallbacks are spent, and then on its own outcome, or as incomplete when it is still paused; it goes on without the success rule only when tool calls carry it on |
| Runner.AgentRun.AskRung0 | crates/rupu-agent/src/runner.rs:1165-1175 | Rung 0 acts exactly when the attempts used for this logical turn are below the budget and the run is below its action cap |
| Runner.AgentRun.CarryOn | crates/rupu-agent/src/runner.rs:3553-3657 | Carrying on leaves the note of the step at the end, or the results of the calls, or the paused content for the next reply to join; a reply cut off by the window is carried on behind a compacted history whenever a compaction can run |
| Runner.AgentRun.ClimbSpent | crates/rupu-agent/src/runner.rs:3493-3552 | A kept turn climbs only when its rung 0 is spent, and fails only when the fallbacks are too |
| Runner.AgentRun.ClimbTurn | crates/rupu-agent/src/runner.rs:1180-1224 | A turn on the ladder moves on with another client that its policy offers, the chain of continuations ended, or fails on its outcome with nothing left |
| Runner.NoteByStop | crates/rupu-agent/src/runner.rs:3559-3657 | The note that carries a kept reply on, by why the provider stopped: none for a pause, the truncation note unless calls carry on for an output limit or a full window, the correction for a malformed call, the nudge for an empty reply |
| Recovery.StepByStop | crates/rupu-agent/src/recovery.rs:94-139 | The rung-0 step by why the provider stopped: each stop that is no end has a step of its own, and a refused or blocked reply has none |
| Recovery.ClassByStop | crates/rupu-agent/src/outcome.rs:172-240 | The class by why the provider stopped, and with it the budget |
| Recovery.RungsByClass | crates/rupu-agent/src/recovery.rs:94-139 | Where the ladder may go for each class: nowhere for a pause, an unknown stop or an error that no other client would mend, only to another provider for transient errors and a spent quota, anywhere otherwise |
| Runner.AgentRun.ContinueKept | crates/rupu-agent/src/runner.rs:3559-3657 | The note that carries each kept outcome on is the one its rung-0 step names; it is never the continuation note, and there is none only where tool calls carry the run on; only a full window compacts first, and then whenever a compaction can run |
| Runner.AgentRun.ResumePaused | crates/rupu-agent/src/runner.rs:3567-3580 | A paused reply is sent again with its content last, and the log and the run agree that the next reply joins it |
| Runner.AgentRun.CommitReply | crates/rupu-agent/src/runner.rs:3178-3475 | Writing, dispatching and ending a kept turn adds its kept content and one result per call, in call order, joined to a paused message that it continues; an empty reply adds nothing |
| Runner.AgentRun.EmitTurnContent | crates/rupu-agent/src/runner.rs:1011-1063 | A kept turn's events are its blocks in the provider's order, and replaying them gathers exactly the content the conversation keeps |
| Runner.AgentRun.Dispatch | crates/rupu-agent/src/runner.rs:3183-3419 | Every call is dispatched once, in order, and each result is what its tool answered |
| Runner.AgentRun.DispatchOne | crates/rupu-agent/src/runner.rs:3185-3419 | One call: unknown and denied ones are answered with an error, an answer is clamped, a loaded skill moves to the end of the set; only a stop leaves it unanswered, with the log closed |
| Runner.ResultTells | crates/rupu-agent/src/runner.rs:3195-3396 | Only a tool that ran says anything, whole when it fits the clamp; every other answer is an error, and only a stop by the operator is no answer; a skill is loaded only by a call without an error |
| Conversation.ResultSays | crates/rupu-agent/src/runner.rs:3455-3468 | A result is marked an error exactly when there is one, and then holds the error and the output behind it, both whole when they fit the clamp together |
| Conversation.ClampTells | crates/rupu-agent/src/runner.rs:156-165 | A result over the limit shows the longest run of whole characters that fits, and says how many bytes are missing |
| Runner.OneMoreAnswered | crates/rupu-agent/src/runner.rs:3384-3396 | Results are gathered in call order, one per call |
| Runner.AgentRun.EndTurn | crates/rupu-agent/src/runner.rs:3421-3475 | Ending a turn folds in the log to the messages the run adds: content that continues a paused message ends that message, behind what it held, and any other content is one new assistant message; the results are one user message behind it; every earlier message stays, and the merge is applied once |
| Conversation.AppendedTurnJoins | crates/rupu-agent/src/runner.rs:3436-3475 | The same, message by message, of the function that the run and the replay share |
| Runner.CommitJoins | crates/rupu-agent/src/runner.rs:3436-3475 | A commit to a conversation that is ready to send keeps replies apart |
| Runner.TurnIsWhole | crates/rupu-agent/src/replay.rs:64-105 | What the replay flushes for a dispatched turn is what the run commits for it |
| Runner.KeptStep | crates/rupu-agent/src/runner.rs:979-1063 | Kept content, its calls and its text grow together, one block at a time |
| Runner.AgentRun.CompactAhead | crates/rupu-agent/src/runner.rs:3013-3050 | Proactive compaction, exactly when the input passes the threshold and a compaction can run, and then behind the task and the summary; when the process stops there, a kept turn's content is still written ahead of the abort |
| Runner.AgentRun.CompactContext | crates/rupu-agent/src/runner.rs:545-640 | One compaction cycle leaves the end of the conversation, and so its readiness to send, as it was, and opens with the task and the summary; skipped, it changes nothing |
| Runner.AgentRun.CommitCompaction | crates/rupu-agent/src/runner.rs:601-626 | The compacted history replaces the conversation in the run and in the log alike |
| Runner.AgentRun.Reattach | crates/rupu-agent/src/runner.rs:649-674 | Loaded skills go back into the opening message of a compacted history as a block behind what it holds, and the events that record it fold to the new loaded set, which is the one that the source's walk picks |
| Runner.ReattachKeepsCompacts | crates/rupu-agent/src/runner.rs:664-674 | A re-attached block leaves a compacted history one, and is never the continuation note |
| Runner.AgentRun.Tell | crates/rupu-agent/src/runner.rs:184-191 | A user turn joins a trailing user message in the run as in the replay, and the conversation then ends in a user turn |
| Runner.AgentRun.Summarise | crates/rupu-agent/src/runner.rs:545-600 | Whether a summary is asked for and taken, and what a taken one makes of the history: a compacted one whose opening message does not hold the note |
| Runner.AgentRun.Conclude | crates/rupu-agent/src/runner.rs:3690-3707 | How the loop ended decides the recorded status: a paused run is recorded as aborted |
| Runner.AgentRun.Launch | crates/rupu-agent/src/runner.rs:2183-2296 | Before the first turn the log replays to the seed with the turn's user messages pushed, and, as long as no carried skill is only missing, the log records the loaded set, later operator loads included |
| Runner.AgentRun.SeedLoadedSkills | crates/rupu-agent/src/runner.rs:3936-3976 | Seeding leaves the carried skills that are granted or only missing, each once at its later entry; the log holds the same set if and only if none is only missing |
| Runner.AgentRun.SeedOne | crates/rupu-agent/src/runner.rs:3943-3974 | One carried entry: recorded, held back, or dropped with or without a notice |
| Runner.AgentRun.RecordOperatorLoads | crates/rupu-agent/src/runner.rs:3978-3998 | The operator's loads are recorded one by one, and an agreement of log and set outlasts them |
| Runner.AgentRun.RecordLoad | crates/rupu-agent/src/runner.rs:3978-3998 | An operator's load is recorded and moves to the end of the set |
| Runner.AgentRun.NoteLoad | crates/rupu-agent/src/runner.rs:4004-4047 | A model's load is recorded and moves to the end of the set |
| Runner.AgentRun.GiveUpOn | crates/rupu-agent/src/runner.rs:1205-1224 | Rung 3 for a reply: the failing turn counts, and the run fails with its outcome |
| Runner.AgentRun.CloseExhausted | crates/rupu-agent/src/runner.rs:1250-1286 | Rung 3 for a provider error: the ladder's last event, then the completion as failed with the outcome |
| Runner.OwnNotes | crates/rupu-agent/src/recovery.rs:30-45 | The retry note is never the continuation note |
| Runner.AgentRun.CallOnce | crates/rupu-agent/src/runner.rs:2454-2555 | A call is made exactly when the process is not told to stop, and the run is closed otherwise; every call's request is tool-paired and sendable |
| Runner.AgentRun.CompactForRung0 | crates/rupu-agent/src/runner.rs:3083-3110 | A compaction ahead of a retry or a continuation is not repeated on a history this turn compacted; otherwise it runs exactly when it can |
| Runner.AgentRun.PickHop | crates/rupu-agent/src/runner.rs:1378-1400 | A candidate is the selection from what is untried, costs one action, one that is skipped included, and has the limits that building it gave |
| Runner.EffectAfterUpkeep | crates/rupu-agent/src/runner.rs:2350-3687 | Compaction and hops during the call loop are upkeep ahead of the turn's effect |
| Writer.JsonlWriter.Write | crates/rupu-agent/src/runner.rs:2350-3727 | Appending an event that the protocol allows keeps the log legal, and keeps what it replays to, says and records in step with it |
| Runner.AgentRun.Write | crates/rupu-agent/src/replay.rs:270-413 | Each event is written with the run's own messages in hand, and the log up to it replays to them: lock-step is kept event by event, not only at turn ends |
| Writer.InertIsLegal | crates/rupu-agent/src/replay.rs:385-409 | Events that inform change neither the replayed conversation nor the answer nor the loaded set |
| Writer.TakesPiece | crates/rupu-agent/src/replay.rs:305-361 | A piece of a turn changes only the turn being read; a non-blank text makes the turn one that spoke |
| Protocol.EveryPrefixIsWellFormed | crates/rupu-agent/src/replay.rs:270-413 | Crash safety: every prefix of a log that a run wrote replays, to a tool-paired conversation that never ends on an unanswered call |
| Protocol.CutIsLastCommit | crates/rupu-agent/src/replay.rs:411-412 | A cut anywhere replays to the conversation as of the last committed step: nothing of an unfinished turn is in it |
| Protocol.StepKeepsWellFormed | crates/rupu-agent/src/replay.rs:288-383 | Each event of a legal log keeps the conversation tool-paired |
| Protocol.PrefixIsLegal | crates/rupu-agent/src/continuation.rs:1-9 | A log cut anywhere is again a log a run could have written |
| Protocol.LogTellsOnce | crates/rupu-agent/src/continuation.rs:417-423 | Along a whole log no message comes to hold the continuation note twice |
| Protocol.StepKeepsToldOnce | crates/rupu-agent/src/continuation.rs:456-463 | No event adds the note to a message that has it |
| Protocol.FlushKeeps | crates/rupu-agent/src/replay.rs:67-105 | Flushing a whole turn answers each of its calls in the very next message |
| Protocol.LogKeepsApart | crates/rupu-agent/src/replay.rs:67-83 | A log whose seed has no two replies in a row replays, wherever it is cut, to a conversation that has none: a reply that continues a paused one joins it |
| Protocol.StepKeepsApart | crates/rupu-agent/src/replay.rs:67-83 | One event keeps that |
| Replay.ReconstructWith | crates/rupu-agent/src/replay.rs:270-413 | The replay loop computes the fold of the log, and stops at the first error |
| Replay.Absorb | crates/rupu-agent/src/replay.rs:281-409 | The loop body takes one event into account as the fold does |
| Replay.TurnAccum.Take | crates/rupu-agent/src/replay.rs:305-361 | The turn being read grows by exactly its content, calls and results |
| Replay.TurnAccum.Flush | crates/rupu-agent/src/replay.rs:67-105 | Flushing empties the turn: content that continues a paused message ends that message, behind what it held, any other is one new assistant message, and the results are one user message in call order; every earlier message stays |
| Replay.TurnAccum.Discard | crates/rupu-agent/src/replay.rs:58-62 | A discarded turn leaves nothing |
| Replay.DrainAnswers | crates/rupu-agent/src/replay.rs:78-97 | Draining answers exactly the calls, in order, when ids are distinct and each has a result |
| Emission.TurnRoundTripExactly | crates/rupu-agent/src/runner.rs:1011-1063 | Replaying a kept turn's events gives the messages the run adds for it, if and only if the reply has no empty text, no tool result block and no call id twice |
| Emission.EmittedIsGathered | crates/rupu-agent/src/replay.rs:305-347 | What the replay gathers from emitted content is the recordable part of what the conversation keeps |
| Emission.DrainIsBlocks | crates/rupu-agent/src/runner.rs:3452-3475 | The replayed result blocks are the run's own, clamped and marked alike |
| Emission.DrainLength | crates/rupu-agent/src/replay.rs:78-84 | Draining answers every call only when no id occurs twice |
| Chains.ReconstructTranscript | crates/rupu-agent/src/replay.rs:172-225 | Walking and rebuilding ends on every file map and computes the walk followed by the rebuilding outward from the origin |
| Chains.WalkChain | crates/rupu-agent/src/replay.rs:173-200 | Phase 1: the loop with its visited set computes the bounded walk |
| Chains.WalkReportsTruly | crates/rupu-agent/src/replay.rs:181-200 | The walk says truly how it ended; a cycle is reported exactly when a path repeats within the depth cap |
| Chains.SeedReferenceMeaning | crates/rupu-agent/src/replay.rs:255-268 | The reference of a log is the one its first referring seed names |
| Chains.OneSeedIsSingleSource | crates/rupu-agent/src/replay.rs:252-254 | A log with at most one seed refers to one source |
| Chains.ReconstructedIsMeaning | crates/rupu-agent/src/replay.rs:172-225 | On a chain that ends within the cap, the two-phase loop equals the definition by recursion, errors included |
| Chains.RebuildIsMeaning | crates/rupu-agent/src/replay.rs:202-220 | Rebuilding outward gives each link its recursive meaning |
| Chains.AcceptedChainIsVerified | crates/rupu-agent/src/replay.rs:290-298 | Every link of an accepted chain, all the way down, was read and hashes to its recorded value |
| Chains.AcceptedLinksAreVerified | crates/rupu-agent/src/replay.rs:290-298 | A log that replays has every source it refers to verified |
| Chains.NeverUnresolved | crates/rupu-agent/src/replay.rs:207-216 | With one source a log, phase 2 never meets an unresolved seed |
| Chains.NewLogReadsBack | crates/rupu-agent/src/replay.rs:172-225 | A run's log put beside the files it was seeded from reads back as the run replayed it exactly when the chain it lengthens stays within the depth cap; otherwise it is too deep, and nothing worse |
| Chains.EndsBeforeIsWalked | crates/rupu-agent/src/replay.rs:181-200 | A chain is walked to its end exactly when it ends, at a log that stands alone, within the cap |
| Chains.OldLogReadsTheSame | crates/rupu-agent/src/replay.rs:181-200 | A new log changes nothing about how the earlier ones read |
| Chains.TooManyContinuations | crates/rupu-agent/src/replay.rs:181-200 | The failing case exists: a chain of logs that each kept the protocol reads back up to the depth cap, and the log after that does not |
| Continuation.NeverDangling | crates/rupu-agent/src/continuation.rs:206-215 | Wherever a run's process died, a continuation never finds a tool call without its result |
| Continuation.NeverDanglingPrompted | crates/rupu-agent/src/continuation.rs:294-311 | Nor does one with a prompt |
| Continuation.ResumesTheReplay | crates/rupu-agent/src/continuation.rs:201-231 | A continuation resumes from what the log replays to, with the skills the log records |
| Continuation.ResumesWhatTheRunHeld | crates/rupu-agent/src/continuation.rs:201-231 | A run whose process died after any of its events is resumed from exactly the messages it held once that event's step was done |
| Continuation.ResumesAnEndedRun | crates/rupu-agent/src/continuation.rs:201-231 | When a run that ended is resumed, it is from its own messages, with its own loaded skills when the log could hold them |
| Continuation.FailedRunIsResumed | crates/rupu-agent/src/continuation.rs:186-198 | A run that closed as failed on an outcome is, for recovery, resumed from its own messages as stopped on it, even when they end in a reply, and otherwise reported as failed with its error |
| Continuation.FailedIsResumedOrReported | crates/rupu-agent/src/continuation.rs:186-231 | The same of any log the protocol allows, and without an outcome: resumed exactly when it is to be recovered and recorded one, too deep or empty aside |
| Continuation.AbortedIsPickedUp | crates/rupu-agent/src/continuation.rs:186-231 | A run recorded as aborted is never reported as failed: it is resumed, or finished when its conversation ends in the answer |
| Continuation.PromptedEnds | crates/rupu-agent/src/continuation.rs:271-320 | With a prompt every ended run is picked up, as finished, failed on its outcome, or interrupted |
| Continuation.PromptedSays | crates/rupu-agent/src/continuation.rs:336-356 | Ahead of the prompt goes the retry note to a run that failed on an outcome, the continuation note to an interrupted one that does not end with it, and nothing to any other |
| Continuation.SeededFromMeaning | crates/rupu-agent/src/continuation.rs:359-367 | The seed source reported for a failed run is that of the first seed that names one |
| Continuation.GoodEndIsFinished | crates/rupu-agent/src/continuation.rs:186-191 | A run that ended well reads as finished; its answer is not blank, and is the texts of its last logical turn, joined |
| Continuation.LostCompletion | crates/rupu-agent/src/continuation.rs:216-223 | Losing the completion record of a run that ended well changes nothing, exactly when the chain behind it can still be read |
| Continuation.ReadsBack | crates/rupu-agent/src/continuation.rs:201-215 | A log a run wrote, whole or cut, reads back to a tool-paired conversation that does not end on a call, or is too deep |
| Continuation.LostDeepCompletion | crates/rupu-agent/src/continuation.rs:216-223 | The failing case exists: behind 1025 attempts, each of them read when it was referred to, a run that ended well is finished with its completion record and cannot be read without it |
| Continuation.ContinuationIsLaunchable | crates/rupu-agent/src/continuation.rs:425-438 | What a continuation seeds is a launch a run accepts: verified by its reference, tool-paired, and with the note only where it is not told |
| Continuation.RetryIsLaunchable | crates/rupu-cli/src/cmd/run.rs:1690-1709 | So is a failed run resumed on another model, which is sent the retry note after the rebuilt conversation |
| Continuation.PromptedIsLaunchable | crates/rupu-agent/src/continuation.rs:336-356 | So is a continuation with the operator's prompt, for every way the run had ended |
| Continuation.FirstSent | crates/rupu-agent/src/continuation.rs:425-438 | A continuation first sends the rebuilt conversation, with the note added exactly when it does not end with it |
| Continuation.NoteIsToldOnce | crates/rupu-agent/src/continuation.rs:421-434 | What a continuation first sent is what its own continuation first sends |
| Continuation.FirstTurnKeepsEnd | crates/rupu-agent/src/continuation.rs:456-463 | Whatever a first turn writes before it ends, compactions and hops included, keeps the conversation ending in a user turn, and in the note exactly if it did or is sent it now |
| Continuation.ContinuingFirstTurn | crates/rupu-agent/src/continuation.rs:201-231 | A run that died before its first turn ended, with no one-time injection, is resumed, with or without a prompt, from the conversation as its last event left it |
| Continuation.ContinuingALaunch | crates/rupu-agent/src/continuation.rs:417-463 | A run launched in any way (by a prompt, by a continuation, with a prompt of the operator, with the retry note) that died before its first turn ended is continued by sending exactly what it held if and only if its launch told the note, or it was told since |
| Continuation.ContinuingARun | crates/rupu-agent/src/continuation.rs:417-463 | The same of a run: cut after any event of its first turn, what is sent is what it held then, if and only if it was told the note |
| Continuation.PromptingALaunch | crates/rupu-agent/src/continuation.rs:336-356 | Continued with a prompt, it is sent the note if it was not told it, and then the prompt: the note is there once |
| Continuation.AppliedIsTold | crates/rupu-agent/src/continuation.rs:425-438 | Every continuation tells the note or finds it told |
| Continuation.PromptedIsTold | crates/rupu-agent/src/continuation.rs:336-356 | A prompted continuation tells it exactly when the run was interrupted, unless the seed ends with it or the prompt is it |
| Continuation.RetriedIsTold | crates/rupu-agent/src/continuation.rs:442-448 | A continuation sent the retry note tells it exactly when its seed ends with it |
| Continuation.FinishedRunIsNotTold | crates/rupu-agent/src/continuation.rs:336-356 | A launch that does not tell it: a prompt to a run that finished; continued before its first turn ended, it is sent the note after its prompt, which is more than it was sent |
| Continuation.ContinuingAContinuation | crates/rupu-agent/src/continuation.rs:421-424 | A launch that told the note, as every continuation and every prompt to an interrupted run does, is continued by sending exactly what the run held, whatever its first turn compacted, hopped to or noted: the note is not told again |
| Continuation.ContinuingUnchanged | crates/rupu-agent/src/continuation.rs:421-424 | When nothing was committed since the launch, what is sent is exactly what was first sent if and only if that told the note |
| Continuation.LastCompletionMeaning | crates/rupu-agent/src/continuation.rs:177-185 | The completion that decides is the one that none follows, and there is one exactly when the log has any |
| Lineage.NoteOnceAlongLineage | crates/rupu-agent/src/continuation.rs:421-424 | Along continuations of any number, whichever process died when, no log reads back with a message that holds the note twice |
| Lineage.NewLogTellsOnce | crates/rupu-agent/src/continuation.rs:421-424 | One more attempt keeps that |
| Conversation.PushUserTurnKeeps | crates/rupu-agent/src/runner.rs:184-191 | Pushing a user turn keeps every call answered in the very next message |
| Conversation.CommitTurnKeeps | crates/rupu-agent/src/runner.rs:3436-3475 | Committing a turn with the results of exactly its calls keeps the pairing |
| Conversation.TruncateUtf8Bytes | crates/rupu-agent/src/runner.rs:145-154 | The longest prefix within the limit that ends on a character boundary |
| Outcomes.FallbackBoundary | crates/rupu-agent/src/outcome.rs:109-113 | The boundary is the last server-side fallback block |
| Outcomes.KeptMembers | crates/rupu-agent/src/runner.rs:979-989 | A block is in the kept content exactly when some place of it is not abandoned at the boundary |
| Outcomes.KeptInOrder | crates/rupu-agent/src/runner.rs:979-989 | The kept blocks are those at the places that are not abandoned, in the order of the reply, each once |
| Outcomes.AbandonedMeaning | crates/rupu-agent/src/outcome.rs:109-124 | A block is abandoned exactly when it is a tool call or reasoning and some fallback block follows it |
| Outcomes.QuietReplySpeaks | crates/rupu-agent/src/outcome.rs:130-169 | A reply with no outcome or a warning that calls no tool leaves non-blank text |
| Outcomes.EmptyReplyExactly | crates/rupu-agent/src/outcome.rs:130-169 | A reply is empty exactly when it stopped normally, or in a way nobody recognizes, with neither text nor a call to run |
| Recovery.EveryErrorReplyHasAStep | crates/rupu-agent/src/recovery.rs:94-139 | An error reply has a continuing rung-0 step exactly when it is not discarded |
| Recovery.RecoveryState.TakeAction | crates/rupu-agent/src/recovery.rs:200-206 | At most 20 actions, each counted once |
| Recovery.RecoveryState.TryBudget | crates/rupu-agent/src/recovery.rs:210-221 | An attempt is granted exactly while those used for the logical turn and step are below the budget; it is counted, and no other budget moves |
| Recovery.RecoveryState.ScanRung | crates/rupu-agent/src/recovery.rs:238-260 | The scan finds the first eligible entry of a rung |
| Recovery.RecoveryState.NextHop | crates/rupu-agent/src/recovery.rs:231-270 | A hop is the selection from what is untried, and is marked tried |
| Recovery.RecoveryState.TakeHop | crates/rupu-agent/src/recovery.rs:275-295 | At the cap, or with nothing to select, a hop leaves the state unchanged; otherwise it costs one action |
| Recovery.SelectHopMeaning | crates/rupu-agent/src/recovery.rs:231-270 | A hop is the first untried eligible entry, rung 1 before rung 2; its rung is 1 exactly on the origin's provider; it is neither origin nor current; none means no eligible entry is left |
| Recovery.FirstOnRungMeaning | crates/rupu-agent/src/recovery.rs:238-260 | The first eligible entry in chain order |
| Recovery.SelectionsDistinct | crates/rupu-agent/src/recovery.rs:231-270 | Over any sequence of calls no target is selected twice, and the origin never |
| Recovery.TakeRung0Step | crates/rupu-agent/src/runner.rs:1165-1175 | Acting costs exactly one action and one attempt; over budget costs neither, and at the action cap only the attempt is counted |
| Compaction.TrimKeeps | crates/rupu-agent/src/runner.rs:201-212 | Trimming drops one whole exchange: the first and last messages stay, no call is cut from its result, and replies stay apart |
| Compaction.PartitionForCompaction | crates/rupu-agent/src/runner.rs:273-325 | The partition loop finds where the recent messages start |
| Compaction.WalkBackMeaning | crates/rupu-agent/src/runner.rs:291-301 | The recent messages are the longest suffix within the budget, and at least two |
| Compaction.PartitionKeepsWithinBudget | crates/rupu-agent/src/runner.rs:291-325 | Kept characters are at most the budget or the last two messages, plus the one message moved for pairing |
| Compaction.PartitionNeverSplitsAPair | crates/rupu-agent/src/runner.rs:303-320 | No result is kept without its call |
| Compaction.CompactionConserves | crates/rupu-agent/src/runner.rs:403-536 | A compaction summarises a middle of at least one message, keeps the rest of the history in order, and strictly shrinks it; its opening message is one text: the texts of the task but not the re-attached skills, the heading, and behind it every text of the summariser's answer, each in order |
| Compaction.RebuiltOpens | crates/rupu-agent/src/runner.rs:328-337 | The same of the rebuilt opening message, stated from the blocks of the task and of the answer |
| Compaction.CompactsExactly | crates/rupu-agent/src/runner.rs:461-536 | A compaction goes through exactly when there is a middle and the summariser answered with text and came to an end or paused: a refused, blocked, cut-off or blank answer never replaces the history |
| Compaction.SummaryRequestCovers | crates/rupu-agent/src/runner.rs:428-436 | The summariser is given everything before the cut, each message in its place and whole, and then the instruction |
| Compaction.RecentBudgetIsLargest | crates/rupu-agent/src/runner.rs:410-421 | The budget is the largest number of characters that fits half the threshold behind the opening message and the summary, and none when those fill it |
| Compaction.TokensPerCharMeaning | crates/rupu-agent/src/runner.rs:410-412 | A character costs its share of what the provider charged for the history, and never less than a quarter token |
| Compaction.TotalCharsIsWritten | crates/rupu-agent/src/runner.rs:217-245 | The size of a history is the length of everything in it, written out |
| Compaction.CompactsKeeps | crates/rupu-agent/src/runner.rs:328-337 | A compacted history is tool-paired, starts with a user message and keeps its last message |
| Compaction.SummaryRequestIsWellFormed | crates/rupu-agent/src/runner.rs:428-436 | The summariser's own request is tool-paired and ends in a user turn |
| Compaction.CompactedFitsHalf | crates/rupu-agent/src/runner.rs:410-425 | With more than the minimum kept and none moved, opening message, summary and recent tokens stay within half the threshold as soon as the recent part has one counted character |
| Compaction.CompactedFitsHalfExactly | crates/rupu-agent/src/runner.rs:410-425 | And without one, exactly when the opening message and the summary alone stay within it |
| Compaction.TooLargeATaskDoesNotFit | crates/rupu-agent/src/runner.rs:395-402 | The degenerate case exists: a recent part with no counted character behind an opening message and a summary that pass half the threshold alone |
| Transcript.ReadFinalTurnText | crates/rupu-transcript/src/reader.rs:44-98 | The reader's loop computes the answer that the events say |
| Transcript.SpokenAnswer | crates/rupu-transcript/src/reader.rs:44-98 | A turn that spoke leaves an answer that is not blank |
| Transcript.HeardIsLogicalTurn | crates/rupu-transcript/src/reader.rs:44-98 | What is gathered event by event is the last logical turn: a turn's non-blank texts behind those of the turn whose cut-off output it carries on, discarded turns left out; and with it the last text said |
| Transcript.AnswerIsLogicalTurn | crates/rupu-transcript/src/reader.rs:92-98 | The answer is the texts of the last logical turn, joined, or, when it has none, the last text that was said and not discarded |
| Transcript.JoinFromFront | crates/rupu-transcript/src/reader.rs:92-98 | Joining puts the separator between each two parts and nowhere else |
| Collector.LongestRun | crates/rupu-agent/src/collector.rs:97-108 | The loop finds the longest run |
| Collector.MaxRunIsMaximal | crates/rupu-agent/src/collector.rs:97-108 | It is a run that occurs, and none longer does |
| Collector.ClosingLineOccursOnce | crates/rupu-agent/src/collector.rs:155-167 | The closing line occurs in the framed text exactly once, as its end: content and source cannot forge it |
| Collector.UnwrapWrap | crates/rupu-agent/src/collector.rs:155-167 | A reader that takes the fence from the last line recovers the content and the one-line source exactly |
| Collector.KindFrames | crates/rupu-agent/src/collector.rs:120-167 | From an injection of any kind but an operator's a reader recovers the source and the content; an operator's is never framed as data, and holds its content word for word between lines of its own |
| Collector.CollectorPipeline.Run | crates/rupu-agent/src/collector.rs:208-239 | The pipeline keeps every one-time injection and the every-turn ones that fit, from the stable priority order |
| Collector.OnceIsAlwaysKept | crates/rupu-agent/src/collector.rs:226-228 | Exactly the one-time injections are kept, each once, in priority order, however little the budget |
| Collector.ByPriorityIsStable | crates/rupu-agent/src/collector.rs:213-215 | Descending priority, nothing added or lost, ties in collection order |
| Collector.FittingStaysWithinBudget | crates/rupu-agent/src/collector.rs:229-235 | Kept every-turn costs never exceed the budget |
| Collector.KeptExactlyWhenItFits | crates/rupu-agent/src/collector.rs:229-235 | An every-turn injection is kept exactly when it fits on top of those kept before it, each once and in priority order |
| Collector.EstTokensMeaning | crates/rupu-agent/src/collector.rs:259-261 | An injection is charged one token for every four bytes, and one more |
| Collector.CollectorPipeline.Seen | crates/rupu-agent/src/collector.rs:243-255 | Each collector is told, once and in order, of the messages that are its own and were seen |
| Collector.CollectorPipeline.Mine | crates/rupu-agent/src/collector.rs:245-250 | The messages of one collector that were seen |
| Collector.SeenIsOwnAndSeen | crates/rupu-agent/src/collector.rs:243-255 | A collector is told of an id exactly when it delivered it and a model call saw it |
| Collector.KeepInOrder | crates/rupu-agent/src/collector.rs:245-250 | The ids a collector is told of keep their order: keeping distributes over concatenation |
| Collector.ReceiptsAreOwnOnce | crates/rupu-agent/src/collector.rs:243-255 | Nobody is told twice, and nobody of another's messages |
| Skills.ReadLoadedSkills | crates/rupu-agent/src/replay.rs:112-133 | The fold of a log's loads; names stay unique |
| Skills.LoadedMeaning | crates/rupu-agent/src/replay.rs:112-133 | The recorded set is each skill at its last load, in the order of those loads; preloads are no loads |
| Skills.MoveToEndIsDistinct | crates/rupu-agent/src/runner.rs:4043-4046 | Moving to the end keeps names unique |
| Skills.SeedIsRecordedExactly | crates/rupu-agent/src/runner.rs:3936-3976 | The seeding's log rebuilds the seeded set exactly when no entry is held back for a missing frozen skill |
| Skills.MissingSkillIsNotRecorded | crates/rupu-agent/src/runner.rs:3936-3976 | The failing case exists: one carried skill that is only missing is in the set and not in the log |
| Skills.SeededSetIsDistinct | crates/rupu-agent/src/runner.rs:3943-3947 | A name carried twice is seeded once |
| Skills.SeededSetMeaning | crates/rupu-agent/src/runner.rs:3936-3976 | The seeded set is, in order, the entries whose name no later one carries and that are granted without a preload, or are not granted and only missing |
| Skills.PickFitting | crates/rupu-agent/src/skills_reattach.rs:114-129 | The walk from the most recent entry down: each entry is found, left out for space, or missing; with distinct names, those on disk that are left out are exactly those not found |
| Skills.ChosenExactly | crates/rupu-agent/src/skills_reattach.rs:114-129 | An entry on disk is put back exactly when its body fits on top of those chosen after it |
| Skills.BlockHolds | crates/rupu-agent/src/skills_reattach.rs:130-139 | The block opens with its marker and holds the name and the body of every skill that is put back |
| Skills.ChangedMeaning | crates/rupu-agent/src/skills_reattach.rs:143-149 | A skill is reported as changed exactly when its version on disk is not the one that was loaded |
| Skills.ReattachBlock | crates/rupu-agent/src/skills_reattach.rs:97-175 | A re-attach puts back the picked skills in load order and leaves the others ahead of them |
| Skills.ChosenFits | crates/rupu-agent/src/skills_reattach.rs:118-127 | The bodies put back fit the cap |
| Skills.ChosenMeaning | crates/rupu-agent/src/skills_reattach.rs:141-155 | The picks are in load order, each on disk |
| Skills.ReattachIsRecorded | crates/rupu-agent/src/skills_reattach.rs:42-76 | A re-attach's events fold the loaded set into its `loaded` field |
| Skills.MovedToEndIsOthersThenFresh | crates/rupu-agent/src/skills_reattach.rs:157-166 | Moving the re-attached to the end one by one is the others, then them |
| FdBudget.GrowthStep | crates/rupu-agent/src/fd_budget.rs:157-166 | Growth is possible exactly below the smaller of hard limit, ceiling and 64 bits; it doubles or reaches that, never more |
| FdBudget.GrowthEndsAtTop | crates/rupu-agent/src/fd_budget.rs:157-166 | From any positive limit 64 doublings reach it, and growth stops there |
| FdBudget.StartupCandidates | crates/rupu-agent/src/fd_budget.rs:136-153 | The startup list |
| FdBudget.CandidatesRaise | crates/rupu-agent/src/fd_budget.rs:136-153 | Startup only raises, never past the hard limit or what was asked for, and tries the default second exactly when that is below the first and still a raise |
| FdBudget.ProcessLimit.Configure | crates/rupu-agent/src/fd_budget.rs:202-227 | The first candidate not refused is taken, nothing is lowered, and growth starts afresh under the new ceiling |
| FdBudget.ProcessLimit.Grow | crates/rupu-agent/src/fd_budget.rs:230-255 | Growing strictly raises the limit by one step, or changes nothing and ends growth for good |
| FdBudget.AdmitWith | crates/rupu-agent/src/fd_budget.rs:333-384 | Pacing ends; it ends under the mark, blind, or after the window; it grows the limit to its end before it ever waits, and its sleeps are the doubling ones |
| FdBudget.HighWaterMeaning | crates/rupu-agent/src/fd_budget.rs:333-384 | Usage is under the mark exactly when the open share of the limit is below the percentage; more descriptors or a lower limit never bring it under, and full use never is, for any percentage up to 100 |
| FdBudget.SleepsDouble | crates/rupu-agent/src/fd_budget.rs:333-384 | Sleeps start at the initial length and double up to the longest |
| FdBudget.RetryOnFdExhaustion | crates/rupu-agent/src/fd_budget.rs:388-418 | At most max(1, attempts) loads, all but the last out of descriptors, and the last is the answer; between two loads the limit was raised, or, with growth at its end, there was one of the doubling sleeps |

## Left out

- JSONL and serde, file locking, flushing, failing writes, backup dumps of the history before a compaction, and events written beside the run by the orchestrator: the log is a sequence of events.
- Malformed inline messages, compactions and blocks in a log (`ReplayError::Seed`, `Compaction`, `AssistantBlock`): events hold messages, not JSON.
- Streaming deltas, stdout, callbacks, usage hooks and totals, timers and real backoff: only the counters that bound them are kept.
- Messages carried by injections and their receipts in the run itself: `CollectorPipeline.Seen` is proved on its own, and the `message` events change no conversation.
- Permission prompting, tool grants, coverage, derived events (file edits, commands), `skill_changed` and `skill_tools_missing` notices of a load: they change neither the conversation nor the loaded set.
- The origin model's request pins, thinking and output formats of a request: a request is its messages, its merge flag and its output cap.
- `record_unstarted_run`, which writes a log for a run that never starts.
- Runner.AgentRun.Turn: that a cap lowered by the call loop reaches the recovery of the reply is in its body only; what recovery does with it is stated of `AgentRun.Discarded`.
- Titles and details of outcomes, beyond what the retry note shows; `Event.RunComplete` keeps the class of an outcome, so `ApplyPrompted` is given its title.
- The summariser's instruction beyond its first sentence, and the base directories that a re-attached block names: no property depends on them.
- The sorts of the standard library are taken as what they promise: a stable insertion sort (`Collector.ByPriority`), and picks put back in ascending order (`Skills.Chosen`).
- `CommandCollector`, `launch_args`, `launch_skills`, `continued_from`, `replays_to`: they read recorded fields, compare two conversations or run one command, and change none.
- `fd_usage` and `/dev/fd`, and limits changed by others while a start is paced: `AdmitWith` is given the readings.
- Provider clients, permission modes, agent specs and the other crates of the repository.
