# Forge: a verified model of the agent harness

Forge runs a language model as a coding agent. This project models the parts of it that
carry real invariants and proves what they keep:

- **The agent loop** (`AgentLoop`, `Conversation`, `Stages`, `LogOnWire`, `CompactedRuns`): the stage machine,
  the belief store with its hypotheses and claims, the handling of one completion with its tool calls, compaction of
  the message log, and runs of any length. The model, the tools, permission decisions, planners, the completion
  gate and the budget are inputs of every iteration.
- **The provider layer** (`WireMessages`, `StreamParsers`, `ToolCallDeltas`, `RepairJson`): the
  four-pass message normaliser, the incremental stream parsers, the tool-call accumulator and the
  repair of truncated JSON.
- **Scanners** (`SqlSplit`, `ExtractJson`, `Json`, `Text`): the SQL statement splitter, against a grammar of comments
  and quotations, and the JSON extractor, against that of RFC 8259 (sections 2 to 7).
- **The repository graph** (`RepoGraph` in `GraphQuery.dfy`): hash indexes against plain scans,
  breadth-first search, callers and affected tests.
- **The completion gate** (`Acceptance`): contract, verification matrix and tool handlers.
- **Migrations, the semantic index and tool-output compression** (`Migrations`, `SemanticIndex`, `ToolOutput`).

Code that updates objects or variables step by step is a class or a method with a loop, proved
against a specification function of the old state; the theorems are lemmas about those functions,
over every input, every chunking, or every run. What such a function says is fixed a second time, by a lemma that
speaks of the input alone: the nodes of a graph, the messages of a list, the words of an update, the tokens of a
script. `dafny verify dfyconfig.toml` checks the project.

## What the proofs found

Where the code and its comments disagree, the model follows the code; each point is a lemma.

- `compactMessages` is forced after repeated failures in order to make the next request smaller. It makes
  the log shorter only from 36 messages on, and longer on 13 to 34 (`Conversation.CompactionShrinks`), where it also
  repeats tool-use ids exactly when the repeated messages hold calls (`Conversation.CompactionAsksOnceIff`). A cut can
  part a tool call from its answer: `Conversation.CompactionSettlesIff` is the exact condition, and
  `CompactedRuns.CompactionStrandsRun` a run, going on, in which it happened.
- REPAIR is said not to spin because an edit is attempted instead. That is so while a claim is open: a fresh task
  always has one and never repairs (`AgentLoop.FreshTaskNeverRepairs`), and otherwise every repair uses up a
  contradicted hypothesis (`AgentLoop.RepairsConserve`). No run closes a claim (`AgentLoop.RunClaims`), but a writer
  outside the loop can, and a task resumed then, with every criterion claimed and none open
  (`Stages.SeededOpenIff`), repairs for as long as the gate is shut, without asking the model, exactly when no
  candidate hypothesis has a confidence of 0.6 and is neither contradicted nor unknown (`AgentLoop.RepairsForEverIff`).
- The redundant-run guard is meant for runs after which nothing has changed. It blocks those, and besides exactly the
  runs in EDIT before which files were changed only by calls the loop does not track, be it through the shell or by
  the last test run itself (`AgentLoop.WronglyBlockedIff`, and a run in `AgentLoop.GuardMisfires`).
- VERIFY is never entered: `nextStage` does not return it, so `verifyFailed` is never set
  (`AgentLoop.RunStages`). The comment on `topHypothesisFor` names the statuses plausible and likely;
  the code excludes only disproven and superseded.
- A comment on the acceptance gate says the model cannot declare itself done. It can in two ways: `verify_check` lets
  it declare a check passed (`Acceptance.SelfDeclaredDone`), and criteria it marks as not applicable need no evidence
  (`Acceptance.SkippedDone`). These are all: while no check has run and passed, a finish is accepted exactly with
  every criterion skipped or on a declared pass (`Acceptance.OwnWordIff`). Without declared passes an accepted finish
  rests on a check that ran or on a contract skipped as a whole (`Acceptance.FinishRests`), and every verified
  criterion on checks that ran (`Acceptance.VerifiedMeansRan`).
- The automatic marking ignores `requiredChecks` (`Acceptance.RequiredChecksSkipped`; exactly when, in
  `Acceptance.FinishPassesOverIff`), and the refusal's advice to use `run_tests` cannot help on an empty matrix
  (`Acceptance.RunTestsAlone`).
- Resuming a task makes a new contract but keeps the matrix, so checks of an earlier session can finish it at once
  (`Acceptance.ResumedFinishIff`). The loop's own completion after passing tests does not look at failed or blocked
  criteria (`Acceptance.LoopCompletionIff`).
- A compressed log is said to preserve its tail, failures and head. The tail is not even printed when more lines are
  chosen than the budget allows (`ToolOutput.LogTailIff`), and what is printed loses its middle, chosen lines
  included, exactly when it is longer than budget + 1200 characters (`ToolOutput.LogWholeIff`); its last lines then
  survive exactly as far as they fit the part that is kept (`ToolOutput.LogEndShownIff`, an input in
  `ToolOutput.LongLineLost`). The same cut falls on JSON rows and search results (`ToolOutput.JsonWholeIff`,
  `ToolOutput.SearchWholeIff`).
- The quote count in `safeParseToolInput` misreads an escaped backslash before a quote
  (`RepairJson.RepairMissesEscapedBackslash`). For every text, `RepairJson.RepairsIff` says exactly when its repair is
  JSON.
- The normaliser keeps a tool result that stands before its use (`WireMessages.ResultBeforeUse`).
- Two different calls can share the key by which `findCallers` removes duplicates (`RepoGraph.KeyCollision`); the
  one looked up first is kept (`RepoGraph.FirstIsKept`).
- A reference to a file whose path holds a line terminator is never read back (`SemanticIndex.RefRoundTrip`), and
  `boundText` does not bound below a budget of 5 (`ToolOutput.BoundTextIff`).

## Model

| member | source | states |
|---|---|---|
| AgentLoop.AgentLoop.RunLoop | packages/forge-agent/src/agent-loop.ts:938-1028 | the while loop leaves exactly the state of the step machine (control, hypotheses, claims, chat) run over the same inputs, stopping at the first terminal stage |
| AgentLoop.AgentLoop.Iterate | packages/forge-agent/src/agent-loop.ts:938-1028 | one iteration is one step of the machine |
| AgentLoop.AgentLoop.Enter | packages/forge-agent/src/agent-loop.ts:943-1012 | compaction at overflow, fresh probe budget on a changed top hypothesis, LOCALIZE first and `nextStage` afterwards, recorded in the trace |
| AgentLoop.AgentLoop.RefreshTop | packages/forge-agent/src/agent-loop.ts:983-991 | the probe budget is fresh exactly when both tops exist and differ |
| AgentLoop.AgentLoop.ChooseStage | packages/forge-agent/src/agent-loop.ts:993-1012 | LOCALIZE in the first iteration, otherwise the next stage of the current context, appended to the trace |
| AgentLoop.AgentLoop.RunStage | packages/forge-agent/src/agent-loop.ts:1202-1225 | each stage touches only its part of the state: probes push a call with its answer, VERIFY regrades claims, REPAIR rewrites the hypotheses and starts a pass, LOCALIZE and EDIT converse |
| AgentLoop.AgentLoop.RunProbeStage | packages/forge-agent/src/agent-loop.ts:1261-1296 | without a probe nothing happens; otherwise one more probe, and its call and answer end the log |
| AgentLoop.AgentLoop.RunVerifyStage | packages/forge-agent/src/agent-loop.ts:1365-1444 | the claims after marking stale ones and verifying the first, the failure flag, the matrix entry, and when a repair is asked for |
| AgentLoop.AgentLoop.MarkStale | packages/forge-agent/src/agent-loop.ts:1381-1396 | the loop over the claims as they were when the stage began leaves the claims of the specification |
| AgentLoop.StaledMeaning | packages/forge-agent/src/agent-loop.ts:1381-1396 | of claims with distinct ids exactly the verified and partially verified ones touched by changed files become stale, at 0.49 if their confidence was higher |
| AgentLoop.ReclaimedMeaning | packages/forge-agent/src/agent-loop.ts:1381-1432 | claim by claim what a verification makes of them: a passed one verifies the first at 0.85, touched ones become stale, the others stay |
| AgentLoop.AgentLoop.RunRepairStage | packages/forge-agent/src/agent-loop.ts:1446-1481 | the top hypothesis is disproven and the diagnostics are added, nothing else changes |
| AgentLoop.AgentLoop.HandleCompletion | packages/forge-agent/src/agent-loop.ts:1506-2045 | failed, cut off, quiet and tool-calling completions have the effect of the specification, and control fields stay |
| AgentLoop.AgentLoop.HandleFailure | packages/forge-agent/src/agent-loop.ts:1521-1541 | a failed call is retried with a note, compacted from the second on, and blocks at the fifth (pinned over runs by `AgentLoop.EndedIff` and for the log by `Conversation.ToollessLog`) |
| AgentLoop.AgentLoop.HandleQuiet | packages/forge-agent/src/agent-loop.ts:1557-1586 | a quiet completion completes with the gate open, blocks at the fourth, and is nudged otherwise |
| AgentLoop.AgentLoop.HandleToolCalls | packages/forge-agent/src/agent-loop.ts:1588-1972 | the loop over the calls stops at the one that ends the run |
| AgentLoop.AgentLoop.TrackExecuted | packages/forge-agent/src/agent-loop.ts:1732-1868 | what an executed call leaves in log, tests, discoveries and replies |
| AgentLoop.AgentLoop.HandleSignal | packages/forge-agent/src/agent-loop.ts:1870-1970 | finish, refused finish, verified tests and questions |
| AgentLoop.AgentLoop.HandleToolCall | packages/forge-agent/src/agent-loop.ts:1614-1970 | one call: redundant test run, denial, declined shell, wait for a human, or execution with its tracking and its signal |
| AgentLoop.AgentLoop.RefuseToolCall | packages/forge-agent/src/agent-loop.ts:1614-1718 | a call that is not executed gets its answer or ends the run, and nothing else changes |
| AgentLoop.AgentLoop.ExecuteToolCall | packages/forge-agent/src/agent-loop.ts:1720-1970 | an executed call is tracked, answered, and its signal obeyed |
| AgentLoop.AgentLoop.TrackTestRun | packages/forge-agent/src/agent-loop.ts:1756-1813 | what is kept of a test run; a subset of the suite leaves the remaining failures alone |
| AgentLoop.AgentLoop.GuardEdit | packages/forge-agent/src/agent-loop.ts:2000-2038 | EDIT passes without a write, a verified fresh write or a new read are counted and nudged |
| AgentLoop.AgentLoop.CompactMessages | packages/forge-agent/src/agent-loop.ts:2460-2515 | first four messages, one summary, last thirty, and when nothing is done |
| AgentLoop.ShortenedIff | packages/forge-agent/src/agent-loop.ts:943-958 | before an iteration the log is compacted if and only if it has over 30 messages and is over the budget or has over 400 |
| AgentLoop.StageTrace | packages/forge-agent/src/agent-loop.ts:938-1028 | for every run: LOCALIZE once and first, then PROBE, EDIT, REPAIR, FINALIZE, FINALIZE only last; passId counts repairs; probes at most 2 x (1 + repairs + changes of top hypothesis) |
| AgentLoop.RunStages | packages/forge-agent/src/stages.ts:73-121 | the invariant of all runs behind it; VERIFY is never entered and no failed verification is ever pending |
| AgentLoop.RepairedNeverOnTop | packages/forge-agent/src/agent-loop.ts:1463-1481 | a repair disproves exactly the hypothesis on top, leaves some hypothesis on top, and the disproven one is never on top in any continuation |
| AgentLoop.RunBeliefs | packages/forge-belief/src/store.ts:204-305 | over every run only REPAIR changes hypotheses, ids stay distinct, and the disproven stay disproven |
| AgentLoop.UnconfidentRepairs | packages/forge-agent/src/stages.ts:100-120 | without a confident hypothesis the next stage is REPAIR if and only if the gate is shut and no claim is open |
| AgentLoop.FreshTaskNeverRepairs | packages/forge-agent/src/agent-loop.ts:886-897 | every run of a fresh task keeps a claim open, never repairs, probes at most twice in all, and changes no hypothesis and no claim |
| AgentLoop.RunClaims | packages/forge-agent/src/agent-loop.ts:1204-1225 | no run changes a claim, since only VERIFY would |
| AgentLoop.RepairsConserve | packages/forge-agent/src/stages.ts:73-121 | while a claim is open, repairs made and contradicted hypotheses left always add up to the same number |
| AgentLoop.RepairIff | packages/forge-agent/src/stages.ts:73-121 | REPAIR comes next if and only if LOCALIZE is over, the gate is shut, no probe is due, and the top is contradicted, or below 0.6 or unknown with no claim open |
| AgentLoop.NextStageIff | packages/forge-agent/src/stages.ts:73-121 | when each of FINALIZE, PROBE, EDIT and REPAIR comes after LOCALIZE, said of the gate, the planned probe, the probes left (two, or a fresh budget on a changed top), the confidence of open claims and the top hypothesis |
| AgentLoop.RunBudgeted | packages/forge-agent/src/agent-loop.ts:983-1026 | over every run the probe counter is the number of probes since the last repair or change of the top hypothesis |
| AgentLoop.AdriftStart | packages/forge-agent/src/agent-loop.ts:886-897 | once LOCALIZE has gone on, a task is without an open claim if and only if it was entered so, and its hypotheses are as they were |
| AgentLoop.RepairsForEverIff | packages/forge-agent/src/stages.ts:100-120 | with no open claim, the gate shut and no database failure diagnosed, a run at least as long as the list of hypotheses repairs in every iteration if and only if no candidate could be acted on (0.6 or more, neither contradicted nor unknown); otherwise it edits after at most one repair for each that blocks |
| AgentLoop.HopelessRepairs | packages/forge-agent/src/agent-loop.ts:1463-1481 | without such a candidate every iteration repairs, the model is not asked, and the log changes only by compaction |
| AgentLoop.EditReached | packages/forge-agent/src/agent-loop.ts:1463-1481 | with one, EDIT is reached after at most as many repairs as confident candidates block it |
| AgentLoop.AdriftNext | packages/forge-agent/src/stages.ts:100-120 | with no open claim and the gate shut the next stage is EDIT if and only if the top hypothesis can be acted on, and otherwise REPAIR |
| Stages.RepairHopeless | packages/forge-agent/src/agent-loop.ts:1473-1479 | a repair leaves something to act on if and only if there was something or a database failure is diagnosed, and takes one off the blocking hypotheses when the top was one |
| AgentLoop.EditBetweenTestRuns | packages/forge-agent/src/agent-loop.ts:1623-1645 | in every run, between a test or build run and a later one executed in EDIT, a write_file or edit_file with a path was executed |
| AgentLoop.WronglyBlockedIff | packages/forge-agent/src/agent-loop.ts:1614-1645 | over every run and every call it reaches: a test run is blocked although the last run is out of date if and only if the stage is EDIT and files were changed since that run, or by it, by calls the loop does not track, with no tracked edit in between; and where nothing has changed it is always blocked |
| AgentLoop.GuardMisfires | packages/forge-agent/src/agent-loop.ts:1614-1645 | a run of a fresh task in which that happens: tests, a file changed through the shell, and the next test run is blocked |
| AgentLoop.EveryCallAnswered | packages/forge-agent/src/agent-loop.ts:1588-1972 | in every run not ended and not compacted, each tool call in the log is answered by a later tool message with its id, and each tool message was asked for |
| AgentLoop.EndedIff | packages/forge-agent/src/agent-loop.ts:1506-1972 | over every run and for each status: the run has ended with it if and only if its last iteration is, for completed, FINALIZE or a quiet reply with the gate open; for blocked, the fifth failed completion in a row, or the fourth quiet one under a shut gate; or, for any status, holds a call that is reached and ends the run so (a finish not refused, tests verified past the gate, a question for a human, a wait for one) |
| AgentLoop.ToleranceHolds | packages/forge-agent/src/agent-loop.ts:1521-1586 | over every run the two counters count the failed completions in a row and the quiet ones since the last tool call, and a run that goes on has had at most four and three |
| Stages.TopMeaning | packages/forge-agent/src/stages.ts:132-138 | the top is the first, in order of creation, of the rows of maximum confidence that are neither disproven nor superseded; none only if no row is left |
| Stages.RepairDisprovesTop | packages/forge-agent/src/agent-loop.ts:1473-1479 | the disproven set grows by exactly the top, every other row is unchanged, a candidate remains |
| Stages.DisprovenNotTop | packages/forge-agent/src/stages.ts:132-138 | a disproven hypothesis is never on top |
| Stages.OpenMeaning | packages/forge-agent/src/stages.ts:124-129 | a claim is open unless verified, conflicted, under review or not applicable |
| Stages.DoubtIff | packages/forge-agent/src/stages.ts:88-93 | what a probe is for, said of the whole store: there is a hypothesis, and some open claim has a confidence below one half |
| Stages.BeliefStore.InvalidateHypothesis | packages/forge-belief/src/store.ts:289-305 | exactly the row with the id becomes contradicted or disproven at confidence 0.05; an unknown id is reported |
| Stages.AddedForm | packages/forge-belief/src/store.ts:221-244 | adding hypotheses keeps every row there was as a prefix and ids distinct, disproves nothing, and leaves a candidate on top |
| Stages.RepairAdds | packages/forge-agent/src/agent-loop.ts:1446-1481 | a repair adds one plausible hypothesis for each proposal of the diagnosis, in order, with its confidence and a new id |
| Stages.RepairContradictions | packages/forge-agent/src/agent-loop.ts:1473-1479 | a repair takes one off the contradicted hypotheses when the top was one of them, and otherwise leaves their number alone |
| Stages.SeededOpenIff | packages/forge-agent/src/agent-loop.ts:886-897 | a task is entered without an open claim if and only if none was open and every criterion was already claimed |
| Stages.SeededForm | packages/forge-agent/src/agent-loop.ts:886-897 | the claims there were stay as a prefix; each one added is unverified at confidence 0 for a criterion not claimed before |
| Stages.SeededClaims | packages/forge-agent/src/agent-loop.ts:886-897 | afterwards every criterion is claimed |
| Stages.BeliefStore.SeedClaims | packages/forge-agent/src/agent-loop.ts:886-897 | one unverified claim for each criterion whose text was not claimed before, added after the claims there were |
| Stages.BeliefStore.UpdateClaimConfidence | packages/forge-belief/src/store.ts:367-389 | exactly the claims with the id get the status and the clamped confidence |
| Conversation.ConverseSettles | packages/forge-agent/src/agent-loop.ts:1588-1972 | whichever branch handled a call, a completion that neither ends the run nor compacts keeps every call answered |
| Conversation.HandleAnswers | packages/forge-agent/src/agent-loop.ts:1614-1970 | after each call only calls still to come are unanswered |
| Conversation.HandleReplies | packages/forge-agent/src/agent-loop.ts:1614-1970 | when a call is executed and when it waits; every other call is answered under its id, with its result or with the refusal |
| Conversation.HandleHistory | packages/forge-agent/src/agent-loop.ts:1614-1762 | exactly the allowed calls that are no redundant test runs are executed; by kind, what each adds to the history of edits, runs and changes |
| Conversation.ConverseSpaced | packages/forge-agent/src/agent-loop.ts:1732-1762 | the flag says whether a test ran since the last tracked edit, whatever else changed files, and no test runs in EDIT while it is set |
| Conversation.EditBetweenTests | packages/forge-agent/src/agent-loop.ts:1623-1645 | from that invariant, the edit between two test runs |
| Conversation.ChangeStaysBlocked | packages/forge-agent/src/agent-loop.ts:1623-1645 | any executed call that changes files without being a tracked edit, a test run included, leaves the next test run in EDIT blocked once a test has run |
| Conversation.GuardIff | packages/forge-agent/src/agent-loop.ts:1623-1645 | the guard said of the recorded history: it blocks exactly the test runs in EDIT after an unchanged run, and after one followed by, or making, untracked changes only |
| Conversation.TestSinceIff | packages/forge-agent/src/agent-loop.ts:1732-1762 | the flag means that a test run has no tracked edit after it |
| Conversation.RemainingFailures | packages/forge-agent/src/agent-loop.ts:1764-1813 | over every sequence of test runs the remaining failures are those of the last run of at least half of the largest suite seen |
| Conversation.RunNudges | packages/forge-agent/src/agent-loop.ts:1764-1813 | over every sequence of test runs, the note a run puts in the log: that it was a subset, or that no fewer tests fail than in the last full run |
| Conversation.CompactionShrinks | packages/forge-agent/src/agent-loop.ts:2460-2515 | compaction shortens the log if and only if it has at least 36 messages, and lengthens it if and only if it cuts at most 34; it keeps the first four, puts the summary, and then the last thirty or all |
| Conversation.CompactionSettlesIff | packages/forge-agent/src/agent-loop.ts:2466-2471 | compaction leaves a settled log settled if and only if every answer in the tail was asked for in the head or earlier in the tail and every call open after the head is answered in the tail |
| CompactedRuns.CompactionStrandsRun | packages/forge-agent/src/agent-loop.ts:938-1028 | a run that goes on, compacted once, whose log has lost an answer: a task that writes 17 or more files, one in an iteration, then goes over its budget |
| Conversation.CompactionAsksOnceIff | packages/forge-agent/src/agent-loop.ts:2466-2471 | compaction of a log that asks for no id twice keeps that if and only if the messages common to head and tail ask for nothing |
| Conversation.PassFlags | packages/forge-agent/src/agent-loop.ts:1734-1753 | a pass counts as a write, or as a verification, if and only if some call that was reached and executed was one |
| Conversation.PassFinds | packages/forge-agent/src/agent-loop.ts:1820-1830 | after a pass exactly what was known and what its executed calls discovered is known |
| Conversation.EditGuardIff | packages/forge-agent/src/agent-loop.ts:2000-2038 | a completion in EDIT counts as idle unless a call it executed changed files, discovered something, or checked a change not checked before; from the second idle one in a row on the log ends with the note to edit |
| Conversation.CallsLog | packages/forge-agent/src/agent-loop.ts:1588-1972 | the log after a completion with calls: notes on test runs, then the completion with its calls, then the answers |
| Conversation.ToollessLog | packages/forge-agent/src/agent-loop.ts:1521-1586 | the log after a failed, cut off or quiet completion, compacted first from the second failure in a row on |
| Conversation.ConverseEnds | packages/forge-agent/src/agent-loop.ts:1506-1972 | when one completion ends a run, and with which status: failed with four failures before it, quiet under the open gate or with three quiet ones before it, or by a call that is reached |
| LogOnWire.SettledGoesOutWhole | packages/forge-provider/src/base.ts:241-265 | of a log with every call answered the normaliser drops no block, and uses stand before their results |
| LogOnWire.WholeIff | packages/forge-provider/src/base.ts:241-265 | a log whose answers were all asked for, compacted or not, goes out whole if and only if the ids asked for are the ids answered |
| LogOnWire.NothingDropped | packages/forge-agent/src/agent-loop.ts:2217-2223 | the same for the assembled prompt: base messages, log with its cache boundary, situation report |
| LogOnWire.RunGoesOutWhole | packages/forge-agent/src/agent-loop.ts:2217-2223 | in every run not ended and not compacted the wire is made of exactly what the messages of the prompt show, one after another |
| LogOnWire.OnTheWireIff | packages/forge-provider/src/base.ts:241-265 | of any list of messages, a block shown is on the wire if and only if it is text, a call whose id some tool message answers, or an answer to an id some assistant message calls |
| LogOnWire.AskedAnsweredIff | packages/forge-provider/src/base.ts:246-252 | an id is asked for, or answered, in a list if and only if some message of it does so |
| WireMessages.MapAnthropicMessages | packages/forge-provider/src/base.ts:189-276 | the four passes give the maximal same-role runs of what the messages show, less the tool blocks without a partner |
| WireMessages.Normalize | packages/forge-provider/src/base.ts:189-231 | the first pass holds exactly what each message shows, in order |
| WireMessages.StreamShows | packages/forge-provider/src/base.ts:200-231 | a stream is that of a list if and only if it is made of what each message shows in turn: a tool message one result with its id and content, any other its text unless empty and then, for an assistant, each call with id, name and input; the cache mark on the last block of a boundary message and nowhere else; the side by role |
| WireMessages.MergeTurns | packages/forge-provider/src/base.ts:233-239 | merging groups a turn list into the maximal runs of its stream |
| WireMessages.CollectIds | packages/forge-provider/src/base.ts:246-252 | the ids of all uses and of all results |
| WireMessages.DropOrphans | packages/forge-provider/src/base.ts:254-265 | dropping keeps exactly the non-empty text and partnered tool blocks in order, and no empty turn |
| WireMessages.WireForm | packages/forge-provider/src/base.ts:189-276 | roles alternate, no turn or text is empty, kept uses and kept results have the same ids, and a second application changes nothing |
| WireMessages.Repass | packages/forge-provider/src/base.ts:233-275 | the last three passes on any turn list group its paired stream |
| WireMessages.RunsUnique | packages/forge-provider/src/base.ts:267-274 | an alternating list without empty turns is the grouping of its own stream, and the only one |
| WireMessages.PairsClosed | packages/forge-provider/src/base.ts:246-265 | after dropping, use ids and result ids are both the ids found on both sides |
| WireMessages.WireOrderedIff | packages/forge-provider/src/base.ts:241-245 | uses come before their results on the wire if and only if they do in the message list, for ids found on both sides |
| WireMessages.ResultBeforeUse | packages/forge-provider/src/base.ts:241-245 | a result before its use goes out as it stands |
| StreamParsers.ParseSSE | packages/forge-provider/src/base.ts:60-103 | for every chunking the events are those of the whole text line by line, the unterminated last line included, up to [DONE] |
| StreamParsers.ParseAnthropicEventStream | packages/forge-provider/src/base.ts:105-137 | for every chunking the named events are those of the terminated lines of the whole text |
| StreamParsers.ParseNewlineJson | packages/forge-provider/src/base.ts:139-164 | for every chunking the values are those of the terminated lines of the whole text |
| StreamParsers.SseLines | packages/forge-provider/src/base.ts:76-90 | the inner loop over complete lines, with its early return at [DONE] |
| StreamParsers.SseLine | packages/forge-provider/src/base.ts:76-90 | what one line yields, and whether it is the end marker |
| StreamParsers.AnthropicLines | packages/forge-provider/src/base.ts:120-134 | the inner loop, with the event name left pending |
| StreamParsers.ByChunkIsWhole | packages/forge-provider/src/base.ts:69-102 | a buffer without line break and any further chunks give the events of their concatenation |
| StreamParsers.NamedByChunkIsWhole | packages/forge-provider/src/base.ts:112-136 | the same with the pending event name carried across chunk borders |
| StreamParsers.JsonByChunkIsWhole | packages/forge-provider/src/base.ts:145-163 | the same for newline JSON |
| StreamParsers.EventNames | packages/forge-provider/src/base.ts:120-134 | each event's name is found by looking back in the text to the last name line not yet used up |
| StreamParsers.EventsConcat | packages/forge-provider/src/base.ts:76-90 | nothing is emitted after a [DONE] line |
| StreamParsers.LineMeaning | packages/forge-provider/src/base.ts:120-134 | a line is a name or a payload if and only if without the spaces around it it is `event: ` or `data: ` and that text |
| StreamParsers.LineYields | packages/forge-provider/src/base.ts:76-163 | what one line yields, and what name it leaves pending, in each of the three formats |
| StreamParsers.EventsReadBack | packages/forge-provider/src/base.ts:105-137 | round trip: any events printed as name line, data line and empty line are read back, each under its name, for every chunking |
| StreamParsers.DataReadBack | packages/forge-provider/src/base.ts:60-103 | round trip: any data printed before the end marker are read back, and nothing after it, for every chunking |
| StreamParsers.JsonReadBack | packages/forge-provider/src/base.ts:139-164 | round trip: any texts printed one a line are read back, and an unterminated last line is not, for every chunking |
| ToolCallDeltas.OpenAIProvider.Complete | packages/forge-provider/src/openai.ts:64-113 | what each chunk yields depends only on the fragments so far, not on how they were batched |
| ToolCallDeltas.OpenAIProvider.AcceptDeltas | packages/forge-provider/src/openai.ts:76-96 | the Map after a chunk, with every index listed once in insertion order |
| ToolCallDeltas.OpenAIProvider.EmitCalls | packages/forge-provider/src/openai.ts:98-112 | the calls in Map order, with empty input for arguments that do not parse |
| ToolCallDeltas.CallOfIndex | packages/forge-provider/src/openai.ts:78-95 | with explicit indexes a call is the last non-empty id and name of its own fragments and the concatenation of their arguments; an index without fragments has none |
| ToolCallDeltas.OrderIsFirstSeen | packages/forge-provider/src/openai.ts:79-84 | calls are listed in first-seen order |
| ToolCallDeltas.EmittedByIndex | packages/forge-provider/src/openai.ts:98-113 | the emitted calls, said of the fragments alone: last non-empty id and name, and what all arguments parse to, or the empty input |
| ToolCallDeltas.YieldIff | packages/forge-provider/src/openai.ts:98-113 | a chunk yields calls if and only if it has finish reason `tool_calls` and some fragment has come by then; they are those of all fragments so far |
| ToolCallDeltas.InterleavingIrrelevant | packages/forge-provider/src/openai.ts:76-96 | interleavings with the same fragments per index and the same first-seen order give the same calls |
| ToolCallDeltas.ImplicitIndex | packages/forge-provider/src/openai.ts:78 | a fragment without index opens a new call if and only if the Map's size is not already an index |
| RepairJson.SafeParseToolInput | packages/forge-provider/src/base.ts:309-341 | the three attempts: as it stands, repaired, nothing; blank input is the empty object |
| RepairJson.RepairClosesStrings | packages/forge-provider/src/base.ts:318-322 | for every text, the repaired text ends outside strings if and only if the quote count misses an even number and no escape is pending |
| RepairJson.RepairNests | packages/forge-provider/src/base.ts:318-335 | for every prefix of a well-nested text, the repaired text is well nested under the same condition and only then |
| RepairJson.RepairMends | packages/forge-provider/src/base.ts:318-335 | a JSON text cut inside a string value, or after a complete value, is repaired to JSON if and only if the count misses an even number, and then to the mended value's text with the blanks around it |
| RepairJson.RepairsIff | packages/forge-provider/src/base.ts:318-335 | for every text whatever, its repair is JSON if and only if the text is what is left of a JSON text cut at one of those places and the count misses an even number: these places are all that can be mended |
| RepairJson.ParsedMeaning | packages/forge-provider/src/base.ts:309-341 | absent or blank arguments are the empty input; a text that parses is returned as parsed, whatever a repair would make of it; any other is repaired and parsed once more |
| RepairJson.SurvivesIff | packages/forge-provider/src/base.ts:309-341 | for every text, with a parser of exactly JSON: the arguments are kept if and only if they are blank, JSON, or mendable with an even number of missed quotes |
| RepairJson.RunCounts | packages/forge-provider/src/base.ts:323-335 | for every text the scan follows its string literals and owes as many closers as brackets are open, a closer of either kind closing one |
| RepairJson.RepairLength | packages/forge-provider/src/base.ts:318-336 | so much is appended: a quote or none, and one closer for each open bracket |
| RepairJson.TruncatedInputSurvives | packages/forge-provider/src/base.ts:309-341 | such an input is never dropped by a parser that accepts all JSON |
| RepairJson.NoBackslash | packages/forge-provider/src/base.ts:318-320 | without backslashes the count misses nothing |
| RepairJson.RepairMissesEscapedBackslash | packages/forge-provider/src/base.ts:318-320 | a text ending outside strings that the repair leaves inside one |
| ExtractJson.ExtractJson | packages/forge-local-model/src/parse.ts:10-45 | the loop cuts what the specification cuts, from the fenced body if there is one |
| ExtractJson.CutsExactly | packages/forge-local-model/src/parse.ts:17-44 | for every JSON object or array after text without brackets and before any text, exactly that JSON text is cut |
| ExtractJson.CutMeaning | packages/forge-local-model/src/parse.ts:17-44 | for every text, the span cut begins at the first bracket and is the shortest that ends in a closing bracket of that kind, outside string literals, with as many opened as closed |
| Json.QuotesRead | packages/forge-local-model/src/parse.ts:24-36 | how any text is read: outside, through a literal with its escapes, and within one that has not ended |
| ExtractJson.GroupSpan | packages/forge-local-model/src/parse.ts:24-44 | counting one bracket kind outside strings first reaches zero at the end of a JSON group, though the other kind is not counted |
| ExtractJson.ExtractsUnfenced | packages/forge-local-model/src/parse.ts:10-45 | the JSON value is returned from text with no two separate fences |
| ExtractJson.ExtractsFenced | packages/forge-local-model/src/parse.ts:13-16 | the JSON value is returned from between the first two fences, tagged or not, whatever words stand before it |
| ExtractJson.FencedIff | packages/forge-local-model/src/parse.ts:13-16 | a fenced body is taken if and only if a fence is closed after it was opened |
| ExtractJson.ParseRerank | packages/forge-local-model/src/parse.ts:93-113 | null if and only if the answer holds no array, itself or under `order`; otherwise a permutation of 0 to n-1 that begins with the model's own valid indexes and ends with the missing ones ascending, so the final length check never fails |
| ExtractJson.FirstsMeaning | packages/forge-local-model/src/parse.ts:93-113 | the model's own valid indexes are the values below n, each once, in order of first occurrence |
| SqlSplit.SplitSqlStatements | packages/forge-state-store/src/store.ts:659-714 | for every text and every way to read it as tokens, the loop yields the printed tokens between the semicolon tokens, trimmed, without the empty ones |
| SqlSplit.OneStatementIff | packages/forge-state-store/src/store.ts:667-702 | against a grammar of tokens (line comment to its line break, block comment to its closer, text in single or double quotes with backslashed quotes, plain characters): a text is one statement if and only if it holds no semicolon token, and closed if and only if its last token is finished |
| SqlSplit.CutAtSemicolon | packages/forge-state-store/src/store.ts:703-708 | a text is cut at its first semicolon token, and what follows on its own |
| SqlSplit.ScriptCut | packages/forge-state-store/src/store.ts:659-714 | so it is cut at its semicolon tokens and nowhere else |
| SqlSplit.EveryTextIsScript | packages/forge-state-store/src/store.ts:667-714 | every text is a list of such tokens |
| SqlSplit.SplitUndoesJoin | packages/forge-state-store/src/store.ts:659-714 | splitting the join of trimmed statements without top-level semicolon gives them back if and only if every one but the last ends outside quotes and comments |
| SqlSplit.SplitStable | packages/forge-state-store/src/store.ts:659-714 | every output piece is such a statement and splits to itself |
| SqlSplit.PiecesTile | packages/forge-state-store/src/store.ts:700-713 | the untrimmed pieces joined with semicolons are the input |
| SqlSplit.PiecesUnique | packages/forge-state-store/src/store.ts:659-714 | no other division of the input has pieces without top-level semicolon that close |
| Migrations.StateStore.RunMigrations | packages/forge-state-store/src/store.ts:189-232 | the loop over transactions equals the specification whichever read or statement fails |
| Migrations.StateStore.Apply | packages/forge-state-store/src/store.ts:213-226 | one transaction: statements and record are committed together, or nothing is |
| Migrations.ExactlyOnce | packages/forge-state-store/src/store.ts:189-232 | over any sequence of runs from an empty database the committed statements are those of a prefix of the migrations, each once |
| Migrations.SuccessCompletes | packages/forge-state-store/src/store.ts:211-228 | a run that succeeds has applied the whole list, and the next one applies nothing |
| Migrations.RunKeepsPrefix | packages/forge-state-store/src/store.ts:211-228 | one run extends an applied prefix and never repeats a migration |
| Migrations.RunAppliesTodo | packages/forge-state-store/src/store.ts:189-232 | one run over any database, whatever it has recorded: of the migrations not recorded those before the first that breaks are applied, whole, in order and recorded; it succeeds if and only if none breaks, and names them |
| RepoGraph.GraphQuery.constructor | packages/forge-repo-graph/src/query.ts:44-122 | every one of the thirteen indexes agrees with a scan of the graph |
| RepoGraph.IndexNodes | packages/forge-repo-graph/src/query.ts:59-65 | lookups by id and path give the last such node, and name buckets all of them in order |
| RepoGraph.IndexEdges | packages/forge-repo-graph/src/query.ts:67-74 | outgoing and incoming buckets are order-preserving filters of the edges |
| RepoGraph.IndexDefinitions | packages/forge-repo-graph/src/query.ts:76-83 | definition buckets by name and by file are order-preserving filters |
| RepoGraph.IndexReferences | packages/forge-repo-graph/src/query.ts:85-92 | reference buckets by source and by target, or by a made-up name for want of one, are order-preserving filters |
| RepoGraph.IndexCalls | packages/forge-repo-graph/src/query.ts:94-109 | call buckets by callee, by caller and by resolved symbol are order-preserving filters |
| RepoGraph.IndexTests | packages/forge-repo-graph/src/query.ts:111-121 | the test nodes filed under a path are the sources of its tests edges, each once |
| RepoGraph.GraphQuery.Resolve | packages/forge-repo-graph/src/query.ts:382-389 | said of the list of nodes: a query that is some node's id stands for itself, else for the last node with that non-empty path, else for the first with that name; for nothing if and only if there is none or its id is empty |
| RepoGraph.NodeAtMeaning | packages/forge-repo-graph/src/query.ts:59-60 | a lookup by id gives the last node with it |
| RepoGraph.NodeAtPathMeaning | packages/forge-repo-graph/src/query.ts:61 | a lookup by path gives the last node there, an empty path counting as none |
| RepoGraph.SymbolMeaning | packages/forge-repo-graph/src/query.ts:391-395 | a name's symbol is the node of its first definition, an empty id counting as none |
| RepoGraph.GraphQuery.FindDependencyPath | packages/forge-repo-graph/src/query.ts:304-337 | a path joins what the two queries stand for, through known nodes, with the fewest hops of any walk and at most maxDepth (4 unless given); null if and only if one stands for nothing or they differ and no such walk exists |
| RepoGraph.GraphQuery.Search | packages/forge-repo-graph/src/query.ts:315-336 | the breadth-first loop with its queue and visited set, which terminates because the visited set grows |
| RepoGraph.GraphQuery.Round | packages/forge-repo-graph/src/query.ts:315-336 | one round keeps the search invariant, and the visited set grows or the queue shrinks |
| RepoGraph.GraphQuery.Expand | packages/forge-repo-graph/src/query.ts:321-334 | one round of the search keeps distances shortest and the queue layered |
| RepoGraph.Frontier | packages/forge-repo-graph/src/query.ts:315-336 | if every open node is at distance d or more, every walk of at most d edges ends in a visited node at its true distance |
| RepoGraph.NothingOpen | packages/forge-repo-graph/src/query.ts:315-336 | an empty queue means no walk within the bound |
| RepoGraph.GraphQuery.FindCallers | packages/forge-repo-graph/src/query.ts:148-173 | exactly the calls that name the symbol or resolve to its node, one of every key, by file in the order of the collation and by line within a file |
| RepoGraph.HitMeaning | packages/forge-repo-graph/src/query.ts:152-161 | a hit holds the last node of the id `file:` and its caller, and the node of the callee's symbol |
| RepoGraph.GraphQuery.CollectCallers | packages/forge-repo-graph/src/query.ts:148-168 | from two index lookups, in their order, the first call of every key |
| RepoGraph.FirstIsKept | packages/forge-repo-graph/src/query.ts:152-160 | a call is kept if and only if no earlier call looked up has its key |
| RepoGraph.SortStable | packages/forge-repo-graph/src/query.ts:169-172 | callers at the same line of the same file stay in the order they were looked up in |
| RepoGraph.SortForm | packages/forge-repo-graph/src/query.ts:169-172 | sorting orders by file and line and permutes |
| RepoGraph.CallersComplete | packages/forge-repo-graph/src/query.ts:152-160 | when no callee name holds a colon, every matching call is represented by one of its own caller, line and callee |
| RepoGraph.KeyCollision | packages/forge-repo-graph/src/query.ts:153 | two different calls with one key |
| RepoGraph.GraphQuery.FindAffectedTests | packages/forge-repo-graph/src/query.ts:260-293 | exactly the tests with a tests edge to a matching file path, each once |
| RepoGraph.GraphQuery.MatchedFiles | packages/forge-repo-graph/src/query.ts:260-275 | exactly the paths of file nodes that match |
| RepoGraph.GraphQuery.CollectSuiteRelatedFiles | packages/forge-repo-graph/src/query.ts:415-427 | the targets of a test's tests edges, each once |
| RepoGraph.SuiteFilesForm | packages/forge-repo-graph/src/query.ts:415-427 | they are exactly the known targets of its tests edges, none twice |
| RepoGraph.AffectedByFiles | packages/forge-repo-graph/src/query.ts:260-293 | a test is affected if and only if it is filed under one of the matching files |
| RepoGraph.MatchingMembers | packages/forge-repo-graph/src/query.ts:67-74 | a bucket holds exactly the elements of its key |
| RepoGraph.MatchingFirst | packages/forge-repo-graph/src/query.ts:67-74 | a bucket begins with the first element of its key |
| RepoGraph.MatchingConcat | packages/forge-repo-graph/src/query.ts:67-74 | buckets keep the order of the list |
| Acceptance.FinishIff | packages/forge-agent/src/tools.ts:945-1001 | "completed" is accepted if and only if the contract is non-empty and either all criteria are resolved, or a check passed, none failed and no criterion is failed or blocked; what is left is then complete |
| Acceptance.FailureRefusesFinish | packages/forge-agent/src/tools.ts:765-1001 | once the model has said "failed" or "blocked" of a criterion, no finish is accepted, whatever else is called and passes, before it says something else of that criterion or the task is resumed |
| Acceptance.UpdateIff | packages/forge-agent/src/tools.ts:765-819 | what each word of an update makes of the status of the criterion with the id, the evidence for "passed" and "verified" being that every required check passed last or, with none required, that some check did |
| Acceptance.StatusComesFrom | packages/forge-agent/src/tools.ts:765-1001 | the only calls that can give a criterion each status: verified only by "passed", "verified" or the automatic marking, skipped only by "not_applicable" or "skipped", failed only by "failed", blocked only by "blocked" |
| Acceptance.AutoMeaning | packages/forge-agent/src/tools.ts:969-986 | the automatic marking verifies exactly the criteria under review or skipped, when a check passed and none failed |
| Acceptance.CallRecords | packages/forge-agent/src/tools.ts:524-908 | what each call records, and that the matrix of a sound state holds for each check what was recorded last |
| Acceptance.RunSound | packages/forge-agent/src/tools.ts:688-1001 | from any sound state, over every sequence of handler calls and resumptions: ids distinct, the matrix holds each check's last status, every verified mark was made with its gate open, every verified criterion has a mark of its own session |
| Acceptance.VerifiedMeansRan | packages/forge-agent/src/tools.ts:785-818 | unless verify_check declares a pass, a verified criterion rests on checks that ran, in this session or an earlier one, and passed last when it was marked |
| Acceptance.ResumedFinishIff | packages/forge-agent/src/agent-loop.ts:860 | a resumed task can be finished at once, with no handler call in between, if and only if its earlier sessions left some check passed last and none failed last |
| Acceptance.FreshSound | packages/forge-state/src/acceptance.ts:44-64 | a new contract with no check run is a sound state |
| Acceptance.SynthesizeCriteria | packages/forge-state/src/acceptance.ts:174-222 | the contract made for a task is never empty, begins with the task's own criterion, has distinct ids none of which is of the generated form, nothing in it is verified, and every known domain it is about has its criterion |
| Acceptance.EffectiveIff | packages/forge-state/src/acceptance.ts:174-222 | the domains it is about: tests if mentioned, and the inferred ones, only those requested if any of these is requested |
| Acceptance.SelfDeclaredDone | packages/forge-agent/src/tools.ts:889-908 | for every fresh non-empty contract, one declared pass is enough to finish with no check run |
| Acceptance.SkippedDone | packages/forge-agent/src/tools.ts:780-818 | for every fresh non-empty contract, marking each criterion as not applicable is enough to finish, with nothing run and nothing declared passed |
| Acceptance.OwnWordIff | packages/forge-agent/src/tools.ts:785-1001 | over every run, while no check has run and passed, a finish is accepted if and only if all criteria are skipped, or the model has declared some check passed and the gate is open with it |
| Acceptance.FinishRests | packages/forge-agent/src/tools.ts:785-1001 | over every run without a declared pass, an accepted finish rests on a check that ran and passed, or on a contract skipped as a whole |
| Acceptance.NothingRunIff | packages/forge-agent/src/tools.ts:785-1001 | over every run of a fresh task in which nothing was recorded, a finish is accepted if and only if all criteria are skipped |
| Acceptance.RequiredChecksSkipped | packages/forge-agent/src/tools.ts:958-987 | an input: finishing verifies a criterion that its own required checks would refuse |
| Acceptance.FinishPassesOverIff | packages/forge-agent/src/tools.ts:958-987 | finishing verifies some criterion whose own required checks have not all passed if and only if not all are resolved, the matrix has a pass and no failure, and a pending criterion lacks a required pass |
| Acceptance.LoopPassesOverIff | packages/forge-agent/src/agent-loop.ts:1902-1930 | the loop's own completion does so under the same condition, resolved or not |
| Acceptance.UpdatePassesNothingOver | packages/forge-agent/src/tools.ts:785-818 | the model's own update never verifies a criterion against its required checks |
| Acceptance.RunTestsAlone | packages/forge-agent/src/tools.ts:688-719 | on an empty matrix any number of run_tests calls changes nothing |
| Acceptance.LoopCompletionIff | packages/forge-agent/src/agent-loop.ts:1902-1930 | when the loop completes a task after passing tests, the contract is complete if and only if it is there, non-empty, and no criterion is failed or blocked |
| Acceptance.LoopCompletesWithFailure | packages/forge-agent/src/agent-loop.ts:1902-1930 | a failed criterion stays failed in a task the loop has completed |
| Acceptance.AcIdNumber | packages/forge-agent/src/tools.ts:826 | a generated id determines its number whatever the random suffix |
| Acceptance.ApplyIds | packages/forge-state/src/acceptance.ts:66-110 | ids stay distinct and no handler changes an id or the required checks of a criterion |
| Acceptance.RecordedStatus | packages/forge-verification/src/verification-matrix.ts:21-67 | recording sets the status of one check, keeps all others and keeps checks distinct |
| Acceptance.VerificationMatrixEngine.UpdateStatus | packages/forge-verification/src/verification-matrix.ts:47-67 | the first entry of the check is replaced; an unknown check changes nothing |
| Acceptance.VerificationMatrixEngine.GetSummary | packages/forge-verification/src/verification-matrix.ts:84-100 | the counts of passed and failed entries |
| Acceptance.UpdateMeaning | packages/forge-state/src/acceptance.ts:66-92 | an update leaves criteria with other ids and all required checks alone; the reference comes last and once, after all other references |
| Acceptance.ToolExecutor.HandleUpdateAcceptance | packages/forge-agent/src/tools.ts:765-819 | the update is made unless there is no contract, or "passed" or "verified" is said without the evidence; its effect by word is `Acceptance.UpdateIff` |
| Acceptance.ToolExecutor.HandleAddAcceptanceCriterion | packages/forge-agent/src/tools.ts:821-839 | one criterion under review with a generated id comes last |
| Acceptance.ToolExecutor.HandleVerifyCheck | packages/forge-agent/src/tools.ts:889-908 | the declared status is recorded for the check, known or not |
| Acceptance.ToolExecutor.HandleRunTests | packages/forge-agent/src/tools.ts:688-719 | the result is recorded only for a check already in the matrix |
| Acceptance.ToolExecutor.HandleRunCommand | packages/forge-agent/src/tools.ts:524-570 | the result of a recognised check command is recorded, known or not |
| Acceptance.ToolExecutor.HandleFinishTask | packages/forge-agent/src/tools.ts:945-1001 | the gate with its automatic marking, and when it accepts |
| Acceptance.ToolExecutor.AutoVerifyPending | packages/forge-agent/src/tools.ts:969-986 | updating criteria by id one after another marks exactly the pending ones |
| Acceptance.ToolExecutor.CompleteAfterTests | packages/forge-agent/src/agent-loop.ts:1902-1930 | the loop's completion after passing tests |
| Acceptance.ToolExecutor.HandleRunVerification | packages/forge-agent/src/tools.ts:721-737 | each result is recorded, new checks are added |
| SemanticIndex.ChunkFile | packages/forge-agent/src/semantic-index.ts:64-78 | the stepping loop yields the chunks of all windows that are not blank |
| SemanticIndex.WindowsTile | packages/forge-agent/src/semantic-index.ts:70-74 | the windows joined by line breaks are the file |
| SemanticIndex.CoveredIff | packages/forge-agent/src/semantic-index.ts:70-77 | a line is in a chunk if and only if its window of fifty lines is not blank, and in at most one |
| SemanticIndex.WindowBlank | packages/forge-agent/src/semantic-index.ts:74 | a window is blank if and only if each of its lines is |
| SemanticIndex.ParseRefIff | packages/forge-agent/src/semantic-index.ts:176-180 | a reference parses to a path and two numbers if and only if it is their pattern, so in at most one way |
| SemanticIndex.RefRoundTrip | packages/forge-agent/src/semantic-index.ts:176-180 | a printed reference gives back path, start and end, even with `#` in the path, if and only if the path has no line terminator |
| SemanticIndex.ChunkReadBack | packages/forge-agent/src/semantic-index.ts:176-188 | reading back a chunk of an unchanged file gives its text |
| SemanticIndex.AnyReadBack | packages/forge-agent/src/semantic-index.ts:176-188 | what any reference reads back from a file: the lines it names as far as there are any, and from the last line on when it begins with line 0 |
| SemanticIndex.ReadHit | packages/forge-agent/src/semantic-index.ts:174-191 | one hit is parsed and its lines are cut from the file again |
| ToolOutput.BoundTextIff | packages/forge-agent/src/tool-output.ts:390-395 | re-bounded text is at most budget + 1200 characters if and only if it already was or the budget is at least 5 |
| ToolOutput.BoundWholeIff | packages/forge-agent/src/tool-output.ts:390-395 | a text comes out of re-bounding unchanged if and only if it has at most budget + 1200 characters |
| ToolOutput.EndShownIff | packages/forge-agent/src/tool-output.ts:390-395 | what a text ends in still ends its re-bounded form if and only if nothing is cut, or it lies within the part kept, or the text repeats the mark of the cut just there |
| ToolOutput.HeadTailBounded | packages/forge-agent/src/tool-output.ts:259-279 | head, omitted line and tail are at most budget + 1200 characters while the count has at most 20 digits |
| ToolOutput.HeadTailForm | packages/forge-agent/src/tool-output.ts:259-279 | the body begins with the head of the content, 72 percent of the budget but 500 at least, and ends with its tail, 22 percent but between 300 and 1200, with the omitted count between them |
| ToolOutput.EveryBodyBounded | packages/forge-agent/src/tool-output.ts:126-279 | whichever compressor the dispatcher picks for any content, the body is at most budget + 1200 characters for every budget of at least 5 |
| ToolOutput.HeadTailAccounts | packages/forge-agent/src/tool-output.ts:265-276 | head, printed count and tail add up to the content if and only if they do not overlap |
| ToolOutput.CompressByContentType | packages/forge-agent/src/tool-output.ts:126-133 | the dispatcher tries JSON rows, search results, diff or code, log, and head and tail, in that order |
| ToolOutput.StrategyIff | packages/forge-agent/src/tool-output.ts:126-133 | which compressor a content gets, said of the content alone, and what becomes of it |
| ToolOutput.SearchLooksIff | packages/forge-agent/src/tool-output.ts:321-324 | a content is taken for search results if and only if some three of its first thirty lines are matches |
| ToolOutput.CompressJsonArray | packages/forge-agent/src/tool-output.ts:135-185 | the loops over the rows keep what the specification keeps, or nothing when the result is no shorter |
| ToolOutput.JsonKeeps | packages/forge-agent/src/tool-output.ts:145-161 | of the rows rendered, before re-bounding: the first three, the last two and every notable row, in all no more than these or the rows the budget allows; kept and dropped add up |
| ToolOutput.JsonSamples | packages/forge-agent/src/tool-output.ts:156-158 | the other rows kept are every n-th, up to one for 300 characters of the budget but between eight and 24 in all |
| ToolOutput.FilledMeaning | packages/forge-agent/src/tool-output.ts:156-158 | sampling adds every step-th index up to where the set is full or the list ends |
| ToolOutput.JsonWholeIff | packages/forge-agent/src/tool-output.ts:162-184 | the body holds the whole rendering of the kept rows if and only if that has at most budget + 1200 characters; otherwise its middle is cut out |
| ToolOutput.CompressLog | packages/forge-agent/src/tool-output.ts:220-248 | selected lines under their numbers with a note for every gap, re-bounded |
| ToolOutput.SelectLogLines | packages/forge-agent/src/tool-output.ts:221-231 | exactly the first twenty lines, the last twenty, and those within three of one that matters |
| ToolOutput.LogTailIff | packages/forge-agent/src/tool-output.ts:220-248 | of the lines printed, before re-bounding: the head always; the last line, and with it every line chosen, if and only if no more lines are chosen than the budget allows |
| ToolOutput.LogAccounts | packages/forge-agent/src/tool-output.ts:235-242 | before re-bounding the notes and the printed lines account for every line up to the last one printed, and for the whole log if and only if nothing was lost from its end |
| ToolOutput.LogLineReads | packages/forge-agent/src/tool-output.ts:235-241 | what is printed can be read back: each line its number and its text, and in front of a gap a note with the number of lines left out |
| ToolOutput.LogHeaderReads | packages/forge-agent/src/tool-output.ts:235 | the header holds the number of lines and of those selected |
| ToolOutput.LogWholeIff | packages/forge-agent/src/tool-output.ts:233-247 | the body is all that is printed if and only if that has at most budget + 1200 characters; otherwise its middle is cut out |
| ToolOutput.LogEndShownIff | packages/forge-agent/src/tool-output.ts:233-247 | the body still ends with the last n lines printed if and only if nothing is cut, or these lines lie within the part kept, or the log repeats the mark of the cut just there |
| ToolOutput.LogEndIsTail | packages/forge-agent/src/tool-output.ts:221-233 | while no more lines are chosen than the budget allows, the last twenty printed are the last twenty of the log |
| ToolOutput.LongLineLost | packages/forge-agent/src/tool-output.ts:233-247 | a chosen last line of more than budget + 1200 characters never ends the body, however few lines the log has |
| ToolOutput.CompressSearchResults | packages/forge-agent/src/tool-output.ts:187-218 | matches grouped by file in order of first sight, the chosen ones of the first eighteen files printed, the rest noted |
| ToolOutput.SearchAccounts | packages/forge-agent/src/tool-output.ts:203-212 | before re-bounding at most five matches of a file are printed; with at most eighteen files, printed and noted matches are all of them |
| ToolOutput.SearchTextForm | packages/forge-agent/src/tool-output.ts:199-214 | what is printed: a header that holds both counts, the blocks of the first eighteen files, and a note that holds how many more there are |
| ToolOutput.FileBlockForm | packages/forge-agent/src/tool-output.ts:203-210 | the block of a file: an empty line, its name, the chosen matches, and a note that holds the number of the others |
| ToolOutput.FilesForm | packages/forge-agent/src/tool-output.ts:189-196 | the files are those of the matches, each once, in the order they are first seen |
| ToolOutput.TextsEach | packages/forge-agent/src/tool-output.ts:193-195 | each match stands once and in its place among those of its file |
| ToolOutput.MatchesEach | packages/forge-agent/src/tool-output.ts:190-192 | each line that is a match stands once and in its place among the matches |
| ToolOutput.NonEmptyEach | packages/forge-agent/src/tool-output.ts:188 | each line that is not empty stands once and in its place among those counted |
| ToolOutput.SearchWholeIff | packages/forge-agent/src/tool-output.ts:213-217 | the body is all that is printed of the matches if and only if that has at most budget + 1200 characters, otherwise its middle is cut out; the lines not printed count as omitted |
| ToolOutput.SelectImportantLines | packages/forge-agent/src/tool-output.ts:370-384 | the lines chosen by the three loops, in order |
| ToolOutput.ImportantForm | packages/forge-agent/src/tool-output.ts:370-384 | at most `max` lines are chosen, the first and the last among them |
| ToolOutput.ImportantMeaning | packages/forge-agent/src/tool-output.ts:370-384 | which lines are chosen: the first and the last, those that matter up to where there is no more room, and every n-th while there is |

## Left out

- Networking, files, processes, Postgres, browser checks and UTF-8 decoding: environment; streams start from decoded characters, and a string is a sequence of Dafny characters where JavaScript has UTF-16 code units.
- `JSON.parse`, `localeCompare`, glob matching, command classification, permission rules, planners, `evaluateCompletion` and the diagnostic's regular expressions: parameters or inputs of each iteration.
- Tools are told apart by a kind that is an input beside the call, so every theorem holds for any assignment of names to kinds.
- Texts of prompts, notes, summaries and evidence strings: each is one fixed text; tool replies are inputs. Tracing, events, ledgers, budgets in tokens or time, and `testSelector` have no part in the claims.
- Message metadata on hypotheses, claims, criteria and matrix entries (domains, notes, timestamps): not modelled; ids made by `randomUUID` are a counter that never repeats.
- Compaction of tool outputs in place (`compactionPolicy`): it changes contents of tool messages only, which no theorem here reads.
- AgentLoop.AgentLoop.RunLoop: the belief snapshot of an iteration is read from the store directly, since nothing writes hypotheses between the refresh and the stage and no run changes claims; writers outside the loop that change claims during a run, and errors thrown by the database, are not modelled.
- AgentLoop.AgentLoop.RunVerifyStage: the snapshot of claims is the store at the start of the stage; which claims the changed files touch is an input, and the failure log of a failed verification is not modelled.
- AgentLoop.WronglyBlockedIff: whether a call changed files is an input of each executed call, and changes made by other processes are not modelled; a tracked edit counts as a change even when it failed, so that the guard then lets a run through although nothing has changed is not stated.
- CompactedRuns.CompactionStrandsRun: is about 17 to 200 writes, since above 400 messages the loop compacts before its budget is used up.
- Stages.TopMeaning: rows are taken in order of creation, so the order of two rows created at the same instant is not modelled; claims are not sorted by importance, because only their presence and confidence are read.
- Acceptance.UpdateIff: a word that every JavaScript object has as a property name, such as `constructor`, is taken as any unknown word; the source then stores a value that is no status, which the gates treat like a criterion under review.
- Acceptance.SynthesizeCriteria: the domains inferred from the text, the first line of the task and whether it mentions tests are inputs; risk areas are not modelled.
- RepoGraph.GraphQuery.FindCallers: `localeCompare` is taken to be a total order that tells different file names apart; it also gives 0 for canonically equivalent names, where the comparator is not an order and no theorem here applies.
- RepoGraph.GraphQuery.constructor: `findDefinitions`, `findCrossDomainEdges` and the domain queries, which would add easy members, are not modelled; of definitions and references only the fields an index reads are.
- Migrations.StateStore.RunMigrations: two processes migrating at once are not modelled; every failure of a transaction rolls it back as a whole.
- SemanticIndex.RefRoundTrip: numbers are unbounded, where `Number` loses precision above 2^53; embedding and ranking are not modelled.
- ToolOutput.HeadTailBounded: shares of the budget are exact fractions rounded down, where the source multiplies floating-point numbers.
- ToolOutput.CompressByContentType: the pattern tests (what looks like a log, a diff, a notable row or an important line), the pattern of a search line and the JSON rendering of kept rows are parameters; the marker around the body and the summary sentences are not modelled, only the numbers in them.
- ToolCallDeltas.ImplicitIndex: fragments without an index are characterised one at a time, because mixing them with explicit indexes can join two calls.
- PR rendering, CLI, configuration, evaluation scoring, routing, provider catalog and repository scanning: straight-line text assembly or heuristics.
