# Verified models of BuildMax

BuildMax runs language-model agents from a desktop application, a command line and
server-dispatched workers. This project states, and proves with Dafny, what a dozen of its
components promise. Every file is one module; `dafny verify dfyconfig.toml` checks them all.

- **Sessions** (`Journal`, `Reducer`, `Branching`, `Reading`, `SessionContext`, `SessionManager`,
  `SessionRuns`, `Recovery`). A session is an append-only journal whose records each name a
  parent; the head selects a branch. A context keeps a read model in step with the journal on
  every commit and rebuilds it by replay on open and rewind. The central results say that the
  incremental form is the replay, after any run of commits and rewinds; what a rewind leaves;
  that nothing abandoned returns; that a fork is self-contained; and when a repaired session
  opens again. `Reading` and the end of `Recovery` say, by position on the branch, what each field
  of the state, each line of a rewind's report and each finding of an analysis comes from.
- **Scheduling** (`Protocol`, `Exclusion`, `Callbacks`, `Deliveries`, `Events`, `Submission`, `Turns`,
  `SchedulerLimits`, `Scheduler`). Submits, background events, runs, cancellations and compactions
  are threads taking steps of the size of one critical section. `Protocol` is the state machine; the
  results hold for every interleaving. `Scheduler` holds the objects themselves; the contract of each method says that, in
  any state with the same shared part, the corresponding step of the machine moves it alike.
- **Fork tree** (`ForkTree`). The tree is rebuilt from parent links that may dangle or run in
  circles.
- **Evaluation** (`Wilson`, `Comparison`, `Summary`, `Tally`, `Digest`, `Harbor`). The score
  interval and the paired comparison over exact reals, the suite summary, the bytes a directory
  digest hashes, and the import of a Harbor job.
- **Configuration** (`Permissions`, `Spelling`, `Mcp`, `McpReading`). The most specific permission
  rule, however it is written, and MCP servers merged from three layers.
- **Workers** (`Worker`, `WorkerExit`, `WorkerLimits`). Any number of worker processes and one
  run's status cell on the server, with requests that may be delayed or answered to nobody.

`Order`, `Rank` and `Outcome` hold what several modules share: string order, sorting, arrangements,
places among other values, `Option` and `Result`.

Oracles stand for what the code calls but does not decide: whether a disk write, a host, a store
or a turn succeeded; the ids a session mints; the random draws of a bootstrap; square root,
SHA-256, variable expansion and server validation; and the order in which a map is walked.

## Where the code and what is said of it part ways

- The read model's turn markers are not moved when a turn begins or finishes
  (`SessionRuns.TurnMarkersLag`). A tool result is committed whether or not its call was already
  answered; the session then no longer opens (`SessionRuns.AnsweredTwiceNoLongerOpens`), and a
  rewind that keeps both answers fails after the head has moved, with the old messages still shown
  (`SessionRuns.StaleRewindStillShowsAll`). So replaying the journal gives the incremental state
  exactly if the branch answers no call twice and the turns since the last rewind left the markers as
  they were (`SessionRuns.EqualsReplayExactly`), and a journal reopens after a commit exactly under
  the condition of `SessionRuns.CommitKeepsReopening`.
- Recovery answers every uncertain call it lists, so repeated call ids leave a session that is
  written but refused (`Recoveries.RepairReopensIff`).
- A prompt can be queued after the run it was meant for has stopped reading
  (`SchedulerLimits.PromptsCanWaitWithNoRun`), exactly when it is accepted after that run's last
  dequeue (`Deliveries.StrandedExactly`). A cancel-all lets a second run of a key start beside the
  first (`SchedulerLimits.CancelAllAdmitsASecondRun`), whenever it finds the key busy and only then
  (`Exclusion.OneOwnerEachExactly`, `SchedulerLimits.LoudCancelAdmitsASecondRun`).
- The smallest id of a circle of parents depends on the map's order when the empty id is among
  others (`ForkTrees.SmallestIsSettled`), and with it the tree, exactly for a session of the empty id
  whose parent chain has no end (`ForkTrees.ForkTreeIsDetermined`). The sessions read depend on the
  order of the index exactly when two different ones share an id (`ForkTrees.UsersIgnoreOrder`).
- An accepted claim whose answer is lost leaves a run that nobody runs
  (`WorkerLimits.LostClaimStrandsTheRun`); `WorkerLimits.NeverExecutedExactly` and
  `WorkerLimits.NoWorkerEndsExactly` say when. A worker that never claimed can end a run that another
  executes (`WorkerLimits.RefusalEndsAnothersRun`), exactly when it was told at its fetch not to start
  and its report finds the run running (`WorkerLimits.ForeignEndExactly`).
- When both files redeclare a plugin's server, the record of what shadowed it names the global
  file although the workspace's server runs (`McpConfigs.ResolveMcpConfig`).
- Two permission rules whose keys differ only in case make the answer depend on their order
  (`Permissions.OrderMattersOnlyForSharedKeys`).

## Model

| member | source | states |
|---|---|---|
| Journal.Validator.Add | internal/core/session/branch.go:31-57 | a record is accepted exactly if its id is new and not empty, its kind is known or optional, and its parent is known; the ids held grow by it |
| Journal.Validate | internal/core/session/branch.go:69-77 | a journal passes exactly if every record is acceptable after those before it |
| Readings.ValidExactly | internal/core/session/branch.go:31-77 | a journal is accepted exactly if each record has an id of its own, a kind this build may read, and the root's place or a parent written before it |
| Readings.RequiredIfItShows | internal/core/session/history.go:95-276 | a record is written as required exactly if applying it can change more than the turn markers, or if it moves the head |
| Journal.BranchIsChain | internal/core/session/branch.go:97-127 | on a valid journal the walk from a held head never fails and gives the parent chain, root first |
| Journal.ChainDistinct | internal/core/session/branch.go:97-127 | a branch names no record twice |
| Journal.ChainPrefix | internal/core/session/branch.go:97-127 | the branch of a record on a branch is the part of that branch up to it |
| Journal.BranchWalk | internal/core/session/branch.go:97-127 | the loop computes the branch, with its refusals of an unknown head and of a cycle |
| Reducer.CompactionBoundary | internal/core/session/reduce.go:91-106 | the count of messages through the covered record, or a refusal when the branch does not hold it |
| Reducer.ReduceLoop | internal/core/session/reduce.go:32-84 | the replay loop computes the reduction, errors included |
| Reducer.ReplayIsSummary | internal/core/session/reduce.go:32-84 | replaying a branch whose compactions look back succeeds exactly if no call is answered twice, and then gives the incremental summary |
| Readings.StateIsLatest | internal/core/session/reduce.go:42-82 | notes, todos, prompt, last turn and whether it is open are what the last record of their kind on the branch says, wherever it stands |
| Readings.CompactionIsLatest | internal/core/session/reduce.go:62-68 | the summary in force is the last compaction's, and stands for the messages through the first record it names |
| Readings.MessageTells | internal/core/session/reduce.go:49-61 | each message record is the message after those before it: as written, or a tool result as the empty-source answer to its call |
| Readings.MessagesAreCounted | internal/core/session/reduce.go:49-61 | there are as many messages as records carrying one |
| Readings.AnswersByPosition | internal/core/session/reduce.go:51-55 | a call is answered by a result anywhere on the branch, and none twice exactly if no two results name one call |
| Readings.SilentRecordsLeaveReplay | internal/core/session/reduce.go:75-81 | a tool start, head selection, recovery record or optional unknown record at the end of any branch leaves the replay as it was, result or refusal, unless a compaction names it |
| Reducer.SummaryAligned | internal/agentapp/session_context.go:112-125 | messages and message ids stay parallel, and the compaction index stays within them |
| Reducer.BoundaryOfMessage | internal/core/session/reduce.go:91-106 | the boundary found from the id of the i-th message is i |
| Reducer.MessagesPrefix | internal/core/session/reduce.go:32-84 | a prefix of a branch reads as the matching prefix of its messages and ids |
| Reducer.MessageIDsOnBranch | internal/agentapp/session_context.go:112-125 | the ids of the records that read as messages, in branch order |
| Branching.EditKeepsJournal | internal/agentapp/session_context.go:549-586 | a commit or a rewind keeps the journal well formed; the live branch becomes the old one, cut at the landing for a rewind, with the new record last |
| Branching.RunKeepsJournal | internal/agentapp/session_context.go:549-586 | any run of commits and rewinds keeps the journal well formed and only lengthens it |
| Readings.RunWrites | internal/agentapp/session_context.go:549-586 | each edit of a run leaves one record with its own id, turn and payload, numbered on, and chained to the record before it or to its landing |
| Branching.AbandonedStaysAbandoned | internal/agentapp/session_context.go:411-437 | a record off the live branch never returns to it, whatever commits and rewinds follow |
| Branching.RewindLandingLoop | internal/core/session/rewind.go:122-144 | the loops compute the landing: the nearest record before the message that does not open a turn |
| Readings.LandingTells | internal/core/session/rewind.go:122-144 | the landing is the nearest record before the first of that id that opens no turn; an unknown id and a message with nothing else before it are refused, each with its own error |
| Branching.RewindKeepsPrefix | internal/core/session/rewind.go:122-144 | landing before message i keeps exactly the messages before i; any i above zero has a landing |
| Branching.RewindReportExists | internal/core/session/rewind.go:57-104 | every accepted rewind has a report, which counts exactly the messages it removes |
| Branching.EnteredOnce | internal/core/session/rewind.go:57-104 | the reported effects name each call the span entered once, and no other call |
| Branching.AbandonedLoop | internal/core/session/rewind.go:57-104 | the loop computes the report, refusing an unknown target and the head itself |
| Readings.AbandonedTells | internal/core/session/rewind.go:57-104 | the report counts the messages after the target and lists the calls entered there, each once in order of first entry, under the name last recorded, as returned exactly if a result for it stands there |
| Readings.ReportRefusals | internal/core/session/rewind.go:57-77 | a report is refused exactly for a target the branch does not hold and for its head |
| Branching.RewindTwiceLandsAlike | internal/core/session/rewind.go:122-144 | rewinding to i and then to an earlier j lands where rewinding straight to j does |
| Branching.ForkPrefixLoop | internal/core/session/fork.go:17-28 | the loop computes the renumbered branch |
| Branching.RenumberReadsAlike | internal/core/session/fork.go:17-28 | the copy has the branch's summary, ids, boundaries and answered calls |
| Readings.CopyTells | internal/core/session/fork.go:17-28 | the copy holds the branch's records in order, each unchanged but for its number |
| Branching.ForkIsSelfContained | internal/core/session/fork.go:17-28 | the copy is a well-formed journal that is all live branch |
| SessionContexts.FileWriter.Append | internal/infra/sessionstore/store.go:360-392 | a batch is written whole or not at all, and is refused exactly if its numbering or chaining does not continue the journal or the disk fails |
| SessionContexts.BuildBatch | internal/agentapp/session_context.go:563-586 | the batch is the journal's next run of commits, and the writer's conditions hold of it |
| SessionContexts.SessionContext.FromWriter | internal/agentapp/session_context.go:84-102 | a context opened over a journal is valid and equals the replay |
| SessionContexts.SessionContext.CommitAll | internal/agentapp/session_context.go:563-586 | all payloads reach journal, items and head, or a failed append leaves everything as it was |
| SessionContexts.SessionContext.CommitTo | internal/agentapp/session_context.go:549-561 | one head selection under an explicit parent, refused exactly if the journal does not hold that parent or the disk fails; without a writer nothing is recorded |
| SessionContexts.SessionContext.Append | internal/agentapp/session_context.go:200-208 | message, id and journal advance together and a context in step stays so, also after a rewind that failed; a failed write changes nothing |
| SessionContexts.SessionContext.ToolExecutionStarted | internal/agentapp/session_context.go:215-221 | one record per call in one batch, none of which changes what is read |
| SessionContexts.SessionContext.AppendToolResult | internal/agentapp/session_context.go:225-243 | the result is committed in any case, and the journal reopens exactly if the call had no result before |
| SessionContexts.SessionContext.AddCompaction | internal/agentapp/session_context.go:254-271 | the boundary advances by the count, capped, and is recovered from the record written; covering nothing is refused |
| SessionContexts.SessionContext.SetNotes | internal/agentapp/session_context.go:277-284 | notes are replaced with their ages kept, in journal and read model alike |
| SessionContexts.NotesKeepTheirAge | internal/core/agent/notes.go:196-212 | a note keeps the age of the first old note of its text, else starts at this iteration |
| SessionContexts.SessionContext.SetTodos | internal/agentapp/session_context.go:288-295 | todos are replaced with their ages kept, in journal and read model alike |
| SessionContexts.TodosKeepTheirAge | internal/core/agent/notes.go:214-234 | a todo keeps the age of the first old one of its content and status; a changed status starts it again |
| SessionContexts.SessionContext.SetAdditionalPrompt | internal/agentapp/session_context.go:172-183 | a changed prompt is committed, an unchanged one writes nothing |
| SessionContexts.SessionContext.BeginTurn | internal/agentapp/session_context.go:301-310 | the turn is recorded and the read model stays; it then equals the replay exactly if it already named this turn as open |
| SessionContexts.SessionContext.FinishTurn | internal/agentapp/session_context.go:315-322 | the end is recorded if a turn was open; the read model then equals the replay exactly if it already showed the replay's last turn, closed |
| SessionContexts.SessionContext.FindMessage | internal/agentapp/session_context.go:440-447 | the message under the first occurrence of an id |
| SessionContexts.SessionContext.ReduceFromHead | internal/agentapp/session_context.go:479-486 | the read model becomes the replay, or stays when some call is answered twice |
| SessionContexts.SessionContext.Rewind | internal/agentapp/session_context.go:411-437 | refusals change nothing; otherwise the journal gains one record and the messages before the i-th are left, with the report and the i-th message's text and image count handed back, unless the kept part does not replay; after a rewind that failed it does the same to the branch and reports what the stale read model showed |
| SessionContexts.RewindReads | internal/agentapp/session_context.go:411-437 | removing the i-th message leaves the old messages up to i, and its id finds that message |
| SessionContexts.CountImages | internal/core/llm/llm.go:60-68 | the image parts that carry data |
| SessionContexts.ImagesAreCounted | internal/core/llm/llm.go:60-68 | the count is of the parts of kind image whose data is not empty |
| SessionContexts.SessionContext.AdoptPrefix | internal/agentapp/session_context.go:457-471 | an empty context takes a prefix that starts a journal of its own and equals its replay; each refusal exactly under its condition |
| SessionContexts.SessionContext.Close | internal/agentapp/session_context.go:506-517 | the writer is released and the read model stays; later commits reach no journal |
| SessionContexts.LiveReplay | internal/infra/sessionstore/store.go:238-260 | opening a journal gives the live branch's summary, or is refused exactly if a call is answered twice |
| SessionContexts.EditReplays | internal/core/session/reduce.go:32-84 | what a fresh replay says after one more record, in terms of the replay before it |
| SessionRuns.RunReadsAsReplay | internal/agentapp/session_context.go:170-295 | after any run of a session's own commits and rewinds the read model is in sync with the branch, up to the turn markers, exactly if the last rewind kept no call answered twice; otherwise it shows messages that have left |
| SessionRuns.EqualsReplayExactly | internal/agentapp/session_context.go:170-486 | after any such run the replay of the journal is exactly the incremental state if and only if the branch answers no call twice and the turns opened and closed since the last rewind left the markers as they were; the ids held are then the branch's |
| SessionRuns.EqualsSummaryExactly | internal/agentapp/session_context.go:170-486 | after any such run, whether the branch replays or not, the read model equals the branch's summary and ids exactly if the last rewind did not fail and those turns left the markers as they were |
| SessionRuns.RunReopens | internal/infra/sessionstore/store.go:238-260 | after any run the journal reopens with the branch's summary, or is refused exactly if the branch answers a call twice |
| SessionRuns.StaleRewindStillShowsAll | internal/agentapp/session_context.go:430-435 | two results for one call, two messages and a rewind of the second: the rewind fails and all four messages are still shown |
| SessionRuns.CommitKeepsReopening | internal/agentapp/session_context.go:225-243 | a journal that opened still opens after a commit exactly if that is not a second answer to a call |
| SessionRuns.TurnMarkersLag | internal/agentapp/session_context.go:301-310 | a turn opened on an empty session: journal and read model disagree |
| SessionRuns.AnsweredTwiceNoLongerOpens | internal/agentapp/session_context.go:225-243 | two results for one call are both committed and the session no longer opens |
| SessionRuns.RewindTwiceReadsAlike | internal/agentapp/session_context.go:411-437 | rewinding to i, then to an earlier j, reads as rewinding to j |
| SessionContexts.RewoundMessageIsFound | internal/agentapp/session_context.go:440-447 | the text returned by a rewind is that of the message at the rewound position |
| SessionManagers.Fork | internal/agentapp/session_manager.go:122-174 | a fork succeeds exactly under the stated conditions, and is a new session holding the renumbered branch through the record and reading as it, the parent untouched |
| SessionManagers.HistoryPoints | internal/agentapp/session_manager.go:225-238 | exactly the messages the rule keeps, in branch order, each under its own record's id |
| SessionManagers.PointsTell | internal/agentapp/session_manager.go:196-246 | a fork is offered the prompts and the replies that ask for no tool, a rewind the prompts typed other than the first message; in order, each as the message reads |
| SessionManagers.ForkPointsAreAnswered | internal/agentapp/session_manager.go:196-203 | where calls are answered in turn, no offered fork point leaves a call open |
| SessionManagers.WithheldPointsAreNot | internal/agentapp/session_manager.go:196-203 | an assistant message that is withheld would leave its calls open |
| SessionManagers.RewindPointsLand | internal/agentapp/session_manager.go:216-220 | every prompt offered for a rewind was typed by the person, and has a landing that keeps exactly the messages before it |
| SessionManagers.FirstMessageLandsIff | internal/agentapp/session_manager.go:212-220 | the first message, withheld, has a landing only if something other than turn openings stands before it |
| SessionManagers.ForkCopiesThroughPoint | internal/agentapp/session_manager.go:122-174 | forking at the k-th message copies exactly the messages through it |
| Recoveries.Analyze | internal/core/session/recovery.go:47-117 | the walk finds the last turn, the calls asked for, entered and answered, and sorts them into uncertain and not started |
| Recoveries.AnalysisCovers | internal/core/session/recovery.go:47-117 | a call is uncertain exactly if the walk holds it as entered and not as answered |
| Recoveries.AnalysisTells | internal/core/session/recovery.go:47-117 | a call is uncertain exactly if records since the last turn opened enter it and none answers it, not started exactly if they ask for it and do neither; a closed turn has nothing to repair |
| Recoveries.UncertainNamed | internal/core/session/recovery.go:88-115 | an uncertain call goes by the name its last entry recorded, if not empty |
| Recoveries.UncertainPicked | internal/core/session/recovery.go:88-103 | the uncertain requests are exactly the entered and unanswered ones, in the order asked for |
| Recoveries.NotStartedPicked | internal/core/session/recovery.go:88-103 | the requests not started are exactly those neither entered nor answered, in the order asked for |
| Recoveries.RequestedInOrder | internal/core/session/recovery.go:74-77 | the calls one message asks for stand together, in its order, after those asked for before |
| Recoveries.BuildRecoveryItems | internal/infra/sessionstore/store.go:180-202 | the repair is an allowed run of commits that keeps the journal well formed |
| Recoveries.RepairReopensIff | internal/infra/sessionstore/store.go:149-175 | a repaired journal opens exactly if the uncertain calls are distinct and none was answered before; its state is the old one with one unknown message more for each, and nothing else changed |
| Recoveries.RepairedBranch | internal/infra/sessionstore/store.go:180-202 | the repaired branch is the old one, one recovery record naming turn and uncertain calls, and an empty unknown result for each |
| Recoveries.UnknownMessagesTell | internal/infra/sessionstore/store.go:192-197 | each unknown message is an empty tool message naming its call |
| Recoveries.RepairIsIdempotent | internal/core/session/recovery.go:47-117 | analysing a repaired branch finds nothing left uncertain |
| Recoveries.OpenBranch | internal/infra/sessionstore/store.go:149-175 | a branch that does not replay is refused before anything is written; otherwise opening repairs only what is uncertain, writes nothing when nothing is, and answers as the replay does |
| Exclusion.OneRunPerKey | internal/agentapp/run_scheduler.go:179-324 | in every interleaving whose cancel-alls find no key busy, a key is busy exactly while one run owns it, the slot is that run's, and no two runs of a key own it or hold sessions at once |
| Exclusion.OneOwnerEachExactly | internal/agentapp/run_scheduler.go:179-324 | throughout a history every busy key has its one owner, exactly if each cancel-all in it finds no key busy |
| Exclusion.ClearingMatchesIff | internal/agentapp/run_scheduler.go:279-284 | clearing all slots leaves slots and owners matched exactly if none was taken |
| Exclusion.SlotsKept | internal/agentapp/run_scheduler.go:179-324 | every step other than clearing all slots keeps slots and owners matched |
| Exclusion.OneTurnPerSession | internal/agentapp/turn_coordinator.go:24-41 | in every interleaving, cancel-all included, the coordinator's set is the sessions between a begin and its end, each held by one thread |
| Protocol.StepShape | internal/agentapp/run_scheduler.go:94-291 | a step moves one thread, keeps its key and session, and changes the coordinator's set only by begin and end |
| Deliveries.PromptsAreConserved | internal/agentapp/run_scheduler.go:94-291 | per key, the prompts accepted are those that left the queue, each once and in order, followed by those waiting; at most ten wait |
| Deliveries.StepFlows | internal/agentapp/run_scheduler.go:159-291 | each step accepts one prompt, takes the head, drops the queue, or leaves every queue alone |
| Deliveries.OnlyOwnersTake | internal/agentapp/run_scheduler.go:208-258 | a prompt is taken only by a run of that key, during or between turns; the slot is that run's wherever slots and owners match |
| Submissions.RequestsAreFollowed | internal/agentapp/run_scheduler.go:94-291 | in every interleaving the thread a request started does that request's work: under its key and session, opening only with its prompt, or with an event |
| Submissions.ThreadsWereRequested | internal/agentapp/run_scheduler.go:94-291 | no thread is there without a request that started it |
| Submissions.OwnPromptOnly | internal/agentapp/run_scheduler.go:94-122 | the prompt a submit's run opens with, and the one it puts in a queue, is the prompt submitted, under its key |
| Submissions.AcceptedWereSubmitted | internal/agentapp/run_scheduler.go:94-174 | every prompt a queue accepts was submitted for that key |
| Submissions.SubmitDecides | internal/agentapp/run_scheduler.go:94-187 | a submit joins a queue only on finding its key busy, opens a run only on finding it idle, and otherwise ends only queued, refused at the cap, or without a host |
| Submissions.EventDecides | internal/agentapp/run_scheduler.go:128-157 | an event goes on only while its key is idle, and opens a run exactly if one is parked and the key idle when it would reserve |
| Submissions.ArrivedWereParked | internal/agentapp/run_scheduler.go:128-157 | what has arrived for a key is what was parked for it, in order |
| Submissions.FatesWereCalledFor | internal/agentapp/run_scheduler.go:236-291 | a prompt leaves its queue only to a run started for its key, or by a cancel of its key or a cancel-all |
| Submissions.CancelDrains | internal/agentapp/run_scheduler.go:264-291 | once a cancel of a key, or a cancel-all, has ended, all that its queue had accepted before has left it |
| Submissions.UnresolvedLeavesNothing | internal/agentapp/run_scheduler.go:98-103 | a host that cannot be resolved leaves nothing reserved, queued or popped |
| Submissions.UnopenedFreesItsSlot | internal/agentapp/run_scheduler.go:191-202 | a session that cannot be opened frees the slot and tells nothing; one that can is the first thing told |
| Turns.EveryTurnIsTold | internal/agentapp/run_scheduler.go:231-258 | in every interleaving a run's callbacks, with the turn not yet told, say exactly how its turns came out and which prompts it took up between them, in order |
| Callbacks.TraceOfARun | internal/agentapp/run_scheduler.go:208-258 | in every interleaving an ended run told exactly: opened, started, each earlier turn and the prompt after it, TurnDone only if the last succeeded, closed, freed, Done |
| Callbacks.StoryEndsOnce | internal/agentapp/run_scheduler.go:208-258 | Done comes once and last, after the one close and the one release |
| Deliveries.NextRunDrains | internal/agentapp/run_scheduler.go:236-256 | whatever a queue had accepted has left it once a later run of the key passes its last dequeue |
| Deliveries.WaitingIsWhatCameSince | internal/agentapp/run_scheduler.go:159-174 | from any moment a queue is empty and until a take or a drop, what waits is exactly what was accepted since |
| Deliveries.StrandedExactly | internal/agentapp/run_scheduler.go:236-256 | after a run's last dequeue and until a take or a drop, a prompt is left waiting exactly if one was accepted after that dequeue |
| Events.EventsPoppedWithTheirSlots | internal/agentapp/run_scheduler.go:128-157 | in every interleaving events are popped in the order parked, each once, by exactly the threads whose runs open with them |
| Events.PoppedExactlyWithASlot | internal/agentapp/run_scheduler.go:128-157 | a step pops an event of a key exactly if by it a thread waiting to reserve for an event comes to hold that key's slot |
| SchedulerLimits.PromptsCanWaitWithNoRun | internal/agentapp/run_scheduler.go:159-174 | an interleaving that ends with a prompt queued and no run left |
| SchedulerLimits.CancelAllAdmitsASecondRun | internal/agentapp/run_scheduler.go:279-291 | an interleaving in which two runs of one key hold its slot after a cancel-all |
| SchedulerLimits.LoudCancelAdmitsASecondRun | internal/agentapp/run_scheduler.go:279-291 | whenever a cancel-all is about to clear a key some run owns, a submit right after it starts a second run of that key |
| Scheduler.MessageQueue.Enqueue | internal/core/agent/queue.go:43-51 | appends and gives the 1-based place, or refuses at the cap and changes nothing |
| Scheduler.MessageQueue.Dequeue | internal/core/agent/queue.go:54-63 | removes and returns the oldest |
| Scheduler.MessageQueue.DropLast | internal/core/agent/queue.go:67-77 | removes and returns the newest |
| Scheduler.MessageQueue.Drop | internal/core/agent/queue.go:80-86 | empties the queue and counts what it held |
| Scheduler.TurnCoordinator.Begin | internal/agentapp/turn_coordinator.go:24-35 | admits a session exactly if it is not active, and moves the set as the protocol's step does |
| Scheduler.TurnCoordinator.End | internal/agentapp/turn_coordinator.go:37-41 | removes the session, as the protocol's step does |
| Scheduler.RunScheduler.QueueLocked | internal/agentapp/run_scheduler.go:328-335 | the key's own queue, allocated once and never replaced |
| Scheduler.RunScheduler.Reserve | internal/agentapp/run_scheduler.go:179-187 | takes the slot exactly if the key is idle, returns the key's own queue either way, and moves the shared state as the step of any thread then reserving does |
| Scheduler.RunScheduler.ReserveForEvent | internal/agentapp/run_scheduler.go:136-149 | pops the oldest parked event exactly if the slot is won, as the protocol's step does |
| Scheduler.RunScheduler.QueueIfBusy | internal/agentapp/run_scheduler.go:161-168 | the key's queue exactly if it is busy; moves the shared state as the protocol's step does |
| Scheduler.RunScheduler.EnqueueBehind | internal/agentapp/run_scheduler.go:169-173 | one prompt more in that queue unless it is full, as the protocol's step does |
| Scheduler.RunScheduler.TakeNext | internal/agentapp/run_scheduler.go:236-256 | the oldest prompt leaves that queue, as the protocol's dequeue and fold do |
| Scheduler.RunScheduler.Busy | internal/agentapp/run_scheduler.go:294-299 | true exactly if some thread holds the key's slot in the shared state |
| Scheduler.RunScheduler.Queued | internal/agentapp/run_scheduler.go:302-310 | the prompts waiting behind the key in the shared state, oldest first, none for a key never queued behind |
| Scheduler.RunScheduler.Release | internal/agentapp/run_scheduler.go:320-324 | the key is idle, nothing else changes, and the protocol's releasing steps do the same |
| Scheduler.RunScheduler.DropQueue | internal/agentapp/run_scheduler.go:268-271 | the key's queue, if it has one, is emptied, as the protocol's drop does |
| Scheduler.RunScheduler.Cancel | internal/agentapp/run_scheduler.go:264-275 | the key's queue is emptied and its run named; the slot is kept |
| Scheduler.RunScheduler.ClearSlots | internal/agentapp/run_scheduler.go:280-284 | under the lock, every slot is cleared and the runs and queues to cancel are named, as the protocol's step does |
| Scheduler.RunScheduler.CancelAll | internal/agentapp/run_scheduler.go:279-291 | left alone, every slot is cleared and every queue emptied, no queue replaced |
| Scheduler.OtherStepsStandStill | internal/agentapp/run_scheduler.go:94-335 | no step of the protocol but those of these methods moves the shared state |
| Scheduler.RunScheduler.RunLoop | internal/agentapp/run_scheduler.go:208-258 | left alone, the loop drains the queue, frees the slot and says exactly the expected callbacks |
| Scheduler.DrainedIsAStory | internal/agentapp/run_scheduler.go:236-256 | those callbacks are a whole story, decided by the last turn's outcome |
| ForkTrees.ChildIndex | internal/agentapp/session_fork_tree.go:79-94 | every session stands under the parent it names, oldest first, whatever order the map is walked in |
| ForkTrees.IndexIsUnique | internal/agentapp/session_fork_tree.go:79-94 | there is one such index |
| ForkTrees.FindRoot | internal/agentapp/session_fork_tree.go:58-77 | the walk ends on any links, at the end of the current session's parent chain, or at the first id of a chain with no end |
| ForkTrees.RootIsDetermined | internal/agentapp/session_fork_tree.go:58-77 | a session has one root, unless it has the empty id and a chain with no end |
| ForkTrees.RootsAreTheChoices | internal/agentapp/session_fork_tree.go:58-77 | of a chain with no end, the roots described are exactly the choices made visiting its ids in some order |
| ForkTrees.SmallestID | internal/agentapp/session_fork_tree.go:124-132 | the choice made along some order of the ids |
| ForkTrees.SmallestIsSettled | internal/agentapp/session_fork_tree.go:124-132 | that choice is the same for every order exactly if the empty id is not among others |
| ForkTrees.BuildForkTree | internal/agentapp/session_fork_tree.go:40-122 | there is a tree exactly if the id names a user session, and it is the tree built from that root |
| ForkTrees.ConsideredExactly | internal/agentapp/session_fork_tree.go:41-57 | the sessions a tree is built from are the last user session of the index under each id, where it belongs to the project |
| ForkTrees.ForkTreeIsExact | internal/agentapp/session_fork_tree.go:40-122 | the nodes are the root and every same-project session whose parent chain reaches it, each once; one node is current; missing, title, parent and sibling order are true of each |
| ForkTrees.BuiltIsFaithful | internal/agentapp/session_fork_tree.go:95-118 | every node hangs under the parent its session names, siblings oldest first |
| ForkTrees.ForkTreeIsDetermined | internal/agentapp/session_fork_tree.go:40-122 | one tree answers, whatever order maps are walked in, exactly unless the session has the empty id and a parent chain with no end |
| ForkTrees.UsersIgnoreOrder | internal/agentapp/session_fork_tree.go:41-46 | the order of the index does not matter exactly if no two different user sessions share an id |
| ForkTrees.ForkTreeIgnoresOrder | internal/agentapp/session_fork_tree.go:40-122 | shuffling an index without shared ids leaves the tree as it was |
| WilsonIntervals.WilsonIsExact | evaluation/runner/stats.go:21-46 | clamps and overrides change nothing; 0 <= low <= s/n <= high <= 1 and low < high |
| WilsonIntervals.Z95Squared | evaluation/runner/stats.go:9-10 | the constant's square is the ninety-five in a hundred quantile of the chi-squared distribution with one degree of freedom, to nine places |
| WilsonIntervals.WilsonInvertsScoreTest | evaluation/runner/stats.go:11-46 | the interval is exactly the rates whose distance from the observed rate is at most z standard errors |
| WilsonIntervals.WilsonMirrors | evaluation/runner/stats.go:21-46 | the interval for the failures is the mirror image |
| Comparisons.TaskRate | evaluation/runner/stats.go:100-111 | passes over attempts, zero for none |
| Comparisons.RateTells | evaluation/runner/stats.go:100-111 | the rate is the share of attempts that passed |
| Comparisons.Mean | evaluation/runner/stats.go:230-239 | the sum over the count, zero for none |
| Comparisons.BootstrapInterval | evaluation/runner/stats.go:190-214 | the two percentiles of the sorted resampled means |
| Comparisons.IntervalHoldsItsShare | evaluation/runner/stats.go:188-228 | at most one resample in forty has a mean below the low bound and more than one in forty one not above it; for the high bound thirty-nine in forty |
| Comparisons.NoSpread | evaluation/runner/stats.go:190-198 | one pair, or no resamples, gives no spread |
| Comparisons.SampleMeanTells | evaluation/runner/stats.go:203-211 | a resample's mean is that of as many differences as there are, each the one drawn for its place |
| Comparisons.PercentilesOrdered | evaluation/runner/stats.go:216-228 | percentiles of a sorted list are elements of it and grow with p |
| Comparisons.ComparePaired | evaluation/runner/stats.go:143-186 | the loops compute the comparison over the sorted union of tasks |
| Comparisons.ComparisonPartitions | evaluation/runner/stats.go:143-186 | each task of either side is improved, regressed, unchanged or unscorable by its rates; pairs and unscorable tasks make up the union |
| Comparisons.ComparisonTells | evaluation/runner/stats.go:143-186 | the lists are in order; delta and interval are those of the differences in rate, task by task in order, over the tasks both sides attempted |
| Comparisons.IntervalWithinDeltas | evaluation/runner/stats.go:190-214 | for any draws, min <= low <= high <= max of the differences, and the delta lies there too |
| Comparisons.ComparisonSwaps | evaluation/runner/stats.go:143-186 | swapping the arms negates the delta and swaps improved with regressed |
| Comparisons.ComparisonIsDetermined | evaluation/runner/stats.go:143-186 | the same outcomes and draws give one comparison |
| Summaries.UsageTotal.Add | evaluation/runner/runner.go:163-195 | the running total moves as the fold does |
| Summaries.UsageIsExact | evaluation/runner/runner.go:163-195 | the cost is the exact sum over trials priced in the first priced currency; the total is incomplete exactly if a trial says so or, after the first priced one, is unpriced or priced otherwise |
| Summaries.TokensAddUp | evaluation/runner/runner.go:163-169 | call and token totals are sums over the trials |
| Summaries.PassRate | evaluation/runner/stats.go:54-67 | passes and attempts summed over all tasks, whatever order the map is walked in |
| Summaries.ConsistencyRate | evaluation/runner/stats.go:74-96 | the share of measured tasks that passed every attempt |
| Tallies.ConsistentIsEveryPass | evaluation/runner/stats.go:74-96 | a task is consistent exactly if all of its attempts, of which there are some, count as passes |
| Summaries.PercentileOf | evaluation/runner/stats.go:254-265 | the sorted value at the percentile's place |
| Summaries.PercentileIgnoresOrder | evaluation/runner/stats.go:254-265 | a percentile does not depend on the order of the durations |
| Summaries.PercentileIsOrdered | evaluation/runner/stats.go:254-265 | a percentile is one of the durations and grows with p |
| Tallies.LatenciesHoldTheirShare | evaluation/runner/stats.go:252-265 | at most half the trials are faster than the median and more than half no slower; nineteen in twenty for the high percentile |
| Summaries.CriticalFailuresIn | evaluation/contract/grader.go:77-85 | the failed critical graders of a bundle, in order |
| Tallies.CriticalPicked | evaluation/contract/grader.go:77-85 | a trial's critical failures are its failed critical graders in order, under its task and failure class |
| Tallies.CriticalTrialByTrial | evaluation/runner/summary.go:41-45 | the suite's critical failures are its trials', trial after trial |
| Summaries.Summarize | evaluation/runner/summary.go:18-55 | every metric of the one pass, latencies of an empty suite included, with the pass rate recounted from the outcomes equal to passed over scored |
| Tallies.TrialsAreCounted | evaluation/runner/summary.go:29-36 | scored trials are those that passed, failed or timed out; passed ones those that passed |
| Tallies.SuiteIsFirst | evaluation/runner/summary.go:24-26 | the suite is the first one a trial names |
| Summaries.OutcomesConserve | evaluation/runner/summary.go:30-37 | recounting the outcomes finds every scored and every passed trial |
| Summaries.OutcomesAreInOrder | evaluation/runner/summary.go:30-37 | a task's outcomes are its scored bundles in order, and it is listed exactly if it has one |
| Summaries.TrialsAreConserved | evaluation/runner/summary.go:23-41 | trials are the scored ones plus all faults |
| Summaries.FaultsCountTheirTrials | evaluation/runner/summary.go:37-39 | each unscored status is counted once per trial that has it |
| Digests.ParseUndoesStream | evaluation/adapter/workspace.go:174-184 | a total parser gives back the entries of any printed stream; the raw sum is read only where the mode has no type bits |
| Digests.ParseOneUndoes | evaluation/adapter/workspace.go:178-183 | one printed entry parses back, whatever follows it |
| Digests.EntryTellsFound | evaluation/adapter/workspace.go:139-163 | directories, links, irregular and regular files cannot be mistaken for one another |
| Digests.PrintedForm | evaluation/adapter/workspace.go:139-183 | the bytes of an entry: path, octal mode, link and raw sum, each closed by a NUL, a directory's path with a slash |
| Digests.StreamInOrder | evaluation/adapter/workspace.go:174-184 | the stream lists every entry once, strictly by path |
| Digests.SameInputSameTree | evaluation/adapter/workspace.go:116-186 | two trees hash the same bytes exactly if they hold the same paths, modes, links and sums, whatever the walk order |
| Order.LessExactly | evaluation/adapter/workspace.go:174 | one string comes before another exactly if, where they part, it ends or its character is the lower |
| Digests.DigestDir | evaluation/adapter/workspace.go:116-186 | the digest is the hash of that stream; a failed walk is the only error |
| Digests.VerifyBoundary | evaluation/adapter/workspace.go:208-265 | the sorted list of workspace files whose sum is hidden, or the error of a walk that was needed |
| Digests.BoundaryHolds | evaluation/adapter/workspace.go:208-265 | a path is reported exactly if its content is that of a hidden file that is not empty |
| Permissions.ResolvePermissions | internal/config/permissions.go:53-70 | the rules in the order of their keys as written; one with an unknown action is set aside with that action |
| Permissions.RulesAreReadOnce | internal/config/permissions.go:53-70 | every rule becomes an entry or an invalid key, and none is lost |
| Spellings.NormalizeTells | internal/config/permissions.go:37 | normalizing tells two strings apart exactly if they differ in more than surrounding spaces and the case of letters |
| Spellings.NormalForm | internal/config/permissions.go:37 | a normalized string has no capital and no space around it, and is alike to what it came from |
| Spellings.ActionAsWritten | internal/config/permissions.go:59-63 | an action is accepted exactly if it is written like allow, ask or deny, and is read as that one |
| Spellings.EntriesInOrder | internal/config/permissions.go:53-66 | the rules stand in the order of their keys as written, each shown under that key, with one of the three actions |
| Spellings.InvalidInOrder | internal/config/permissions.go:53-67 | so do the rules set aside |
| Permissions.Lookup | internal/config/permissions.go:77-96 | the single pass finds the first rule of the highest rank, or none if no rule speaks |
| Permissions.MostSpecificWins | internal/config/permissions.go:72-96 | the exact scope wins, then the longest matching pattern, then the bare tool name |
| Spellings.RuleAsWritten | internal/config/permissions.go:37-86 | a rule whose key is written like the tool's name speaks about every call of it, and one written like the scope above every pattern |
| Spellings.AnswersAsWritten | internal/config/permissions.go:77-78 | names and scopes written alike are answered alike |
| Spellings.CoversExactly | internal/config/permissions.go:85 | a pattern covers the scopes that go on from what stands before its star |
| Permissions.OrderMattersOnlyForSharedKeys | internal/config/permissions.go:77-96 | the answer is the same for every order of the rules exactly if no two different rules share a normalized key |
| McpConfigs.LoadablePlugins | internal/config/mcp.go:192-201 | the loadable plugins in name order |
| McpReadings.LoadedInOrder | internal/config/mcp.go:192-201 | plugins are read in the order of their names |
| McpConfigs.LoadPluginServers | internal/config/mcp.go:110-160 | an id loads exactly if one loadable, readable plugin declares it; every contested id gives one finding naming all claimants, every unreadable file one finding |
| McpConfigs.PluginOrderIsIrrelevant | internal/config/mcp.go:105-160 | the same servers, owners and findings for every order of the plugins, even with equal names |
| McpConfigs.Merge.MergeLayer | internal/config/mcp.go:164-188 | a layer replaces what it redeclares and records the plugin servers replaced; an unreadable file changes nothing |
| McpConfigs.ResolveMcpConfig | internal/config/mcp.go:67-103 | each id stands for the workspace's server, else the global one, else its only plugin's; each plugin server redeclared is recorded once; an error exactly if a higher file is unreadable or a server invalid |
| McpReadings.ServersTell | internal/config/mcp.go:60-188 | the workspace's server runs if declared, else the global one, else that of the one plugin declaring the id, with its own root; no other id runs |
| McpReadings.ShadowsTell | internal/config/mcp.go:164-188 | a shadowing is recorded exactly for each server one plugin alone declares and a file declares again, naming the global file as winner whenever it does |
| McpReadings.FindingsTell | internal/config/mcp.go:105-160 | findings are of plugins that do not read, under their own error, and of ids two or more declare, each once |
| McpReadings.RivalsTell | internal/config/mcp.go:150-157 | a collision lists the names of exactly the plugins declaring the id, in order |
| McpConfigs.ResolutionIsDetermined | internal/config/mcp.go:67-103 | one resolution for a set of plugins and two files, up to the order of its lists |
| Workers.RunStore.PatchRunning | internal/server/handlers/worker/worker.go:235-252 | the claim passes exactly from scheduled, as the protocol's step does |
| Workers.RunStore.PatchTerminal | internal/server/handlers/worker/worker.go:305-358 | a report ends a running run, or a scheduled one unless it reports success, is always answered as accepted, and undisturbed does what the protocol's one or two steps do |
| Workers.OneClaimer | internal/bootstrap/worker.go:143-211 | in every interleaving at most one RUNNING transition passes, and only its worker fetches secrets or executes |
| Workers.ExitZeroMeansNotScheduled | cmd/buildmax-worker/main.go:71-102 | a worker that exits zero leaves a run that no longer waits to be started |
| WorkerExits.ExitsZeroExactly | cmd/buildmax-worker/main.go:71-102 | in every interleaving a worker exits zero exactly if the answer to its claim or report, or a fetch of a run past starting, ended it |
| WorkerExits.ReportsWhatItDid | internal/bootstrap/worker.go:304-318 | what executing came to is what the worker reports, and exits with once answered |
| WorkerExits.AlwaysTruthful | internal/bootstrap/worker.go:304-341 | a waiting worker's report on its way is its own outcome's, and its exit error the one that outcome calls for |
| WorkerExits.FetchDecides | internal/bootstrap/worker.go:143-203 | a worker claims exactly if told neither to cancel nor of plugins; a cancel comes before a complaint |
| WorkerExits.SetUpDecides | internal/bootstrap/worker.go:205-300 | refused secrets are reported as a failure; a preparation that fails is not reported |
| Workers.StatusOnlyAdvances | internal/core/task/task.go:40-51 | from pending on, a run never returns to an earlier stage, and a terminal status never changes |
| WorkerLimits.LostClaimStrandsTheRun | internal/bootstrap/worker.go:192-203 | an interleaving in which the claim passed and nobody runs the run |
| WorkerLimits.NeverExecutedExactly | internal/bootstrap/worker.go:192-318 | once a claim is accepted, no continuation executes the run exactly if its claimer already reports or is gone without having executed it |
| WorkerLimits.NoWorkerEndsExactly | internal/bootstrap/worker.go:192-341 | no continuation of the workers ends a running claimed run exactly if its claimer is gone and no report that could end it is on its way |
| WorkerLimits.RefusalEndsAnothersRun | internal/bootstrap/worker.go:327-341 | an interleaving in which a worker that never claimed ends the run another executes |
| WorkerLimits.ForeignEndExactly | internal/server/handlers/worker/worker.go:305-358 | serving a report ends a run its sender did not claim exactly if the sender was told at its fetch not to start and the report finds the run running |
| WorkerLimits.NoRefusalNoForeignReport | internal/bootstrap/worker.go:143-203 | where no fetch is answered with a cancel or a missing plugin, every report on its way is the claimer's |
| Harbor.SortTrials | evaluation/harbor/job.go:179-191 | a stable sort by task, start and trial name |
| Harbor.SortedTrialsTell | evaluation/harbor/job.go:179-191 | the trials go by task name, then start, a trial never started counting from the zero time, then name |
| Order.SortIsStable | evaluation/harbor/job.go:179-191 | trials the order does not tell apart keep their order |
| Harbor.SortedTrialsAreUnique | evaluation/harbor/job.go:172-191 | trials with names of their own have one order, however the directory lists them |
| Harbor.TaskIdIsLastElement | evaluation/harbor/convert.go:212-217 | the id has no slash and is what follows the organization |
| Harbor.BeforeAtTells | evaluation/harbor/convert.go:126-128 | a source's dataset is what stands before its first at sign |
| Harbor.Convert | evaluation/harbor/convert.go:84-135 | the bundles in trial order with their numbers, or an error exactly if there is no trial, another dataset, or evidence that cannot be read |
| Harbor.IndicesAreExact | evaluation/harbor/convert.go:97-113 | a task id is given index m exactly if m is below its number of trials, whatever qualified names strip to it |
| Harbor.NumbersIncrease | evaluation/harbor/convert.go:97-113 | later trials of a task get larger indices, so no pair of task and index repeats |
| Harbor.DirsDiffer | evaluation/contract/store.go:39-47 | different attempts have different directories |
| Harbor.DirForm | evaluation/contract/store.go:39-47 | where attempt twelve of a task is filed, and ids and indices that are refused |
| Harbor.BundleTree.WriteBundle | evaluation/contract/store.go:72-85 | the bundle is filed in its directory exactly if its id is valid and the disk takes it; otherwise nothing is written |
| Harbor.BundleTree.WriteAll | evaluation/harbor/import.go:50-54 | every bundle is filed, or those before the first that cannot be |
| Harbor.NothingOverwritten | evaluation/harbor/import.go:50-54 | importing into an empty tree leaves every bundle in its own directory and nothing else |
| Harbor.BundleTree.ReadBundles | evaluation/contract/store.go:103-140 | the bundles filed, sorted by task and index, or an error exactly if a manifest cannot be read |
| Harbor.ImportReadsBack | evaluation/contract/store.go:99-140 | reading an import back gives every attempt once, by task and index |
| Harbor.ReadBackTells | evaluation/contract/store.go:127-139 | what is read back goes by task, then strictly by index |
| Harbor.Attempts | evaluation/harbor/import.go:91-101 | the largest number of attempts any task reached, and reached by one |
| Harbor.MostAttemptsAreNumbered | evaluation/harbor/import.go:91-101 | every index below that count was given out |
| Harbor.Tasks | evaluation/harbor/import.go:72-83 | each task once, where it first occurs |
| Harbor.TasksInOrder | evaluation/harbor/import.go:72-83 | the tasks stand in the order of their first bundles |

## Left out

- SessionContexts.SessionContext.AddCompaction: a count that would reach below zero is excluded, because the code then indexes out of range; so is, after a rewind that failed, covering a message that has left the branch, a record no replay accepts.
- SessionContexts.SessionContext.FromWriter: journals are opened under the assumption that every compaction covers a record on its own branch, as the journals this code writes do.
- SessionContexts.SessionContext.AdoptPrefix: the prefix is a well-formed journal, as the copy a fork makes is; the code hands any records to its writer.
- SessionManagers.Fork: the new session's title, workspace, project and provenance are copied fields and not modelled.
- Recoveries.OpenBranch: the ids of the repair are new by assumption; locking and reading the file are not modelled.
- Exclusion.OneRunPerKey: the clean-up of a run that panics, which frees the slot before it closes the session, is not modelled.
- Exclusion.OneTurnPerSession: a run's own cancellation is the outcome of its turn; contexts and their causes are not modelled.
- Scheduler.RunScheduler.CancelAll: the method is stated for nobody else acting; that the code walks the live map after releasing its lock is in the protocol, whose cancel-all may also drop queues that appear meanwhile.
- Deliveries.NextRunDrains: that some later run starts and ends is not promised, so only its effect is stated.
- Comparisons.IntervalWithinDeltas: the interval is not claimed to mirror when the arms are swapped; the two percentiles do not sit at mirrored places.
- WilsonIntervals.WilsonIsExact: floating-point rounding is not modelled; the code's overrides exist for it.
- Summaries.Summarize: 64-bit overflow of counts, tokens and cost is not modelled.
- Permissions.Lookup: letters and spaces are those of ASCII; Unicode case folding is not modelled.
- McpConfigs.ResolveMcpConfig: reading and parsing files, environment tables and the expansion of one server are arguments; which of several invalid servers is reported is left open.
- Digests.SameInputSameTree: the strength of SHA-256 is not modelled; the claim is about the bytes it is given. Paths and links hold no NUL, which no file system allows.
- Harbor.Convert: reading a trial's evidence and building the subject appear only as errors; verdicts, usage and traces of a bundle would add only easy members.
- Harbor.BundleTree.ReadBundles: whether a manifest can be read and has this contract's version is one argument.
- Harbor.DirsDiffer: the root is taken as a clean path, and directories are told apart by case.
- Workers.OneClaimer: workers are started only for a dispatched run, as the server's dispatcher does; the task's execution is one step with an outcome; its streaming, heartbeat and checkpoints are not modelled, and a request reaches the server at most once.
- Timestamps, titles, selected models, token counters and the other mutable metadata of a session: strings and numbers with no invariant.
- The sharing of backing arrays between a context's items and its writer's: items are values here.
- Listing, renaming, pinning, deleting and titling sessions: single writes to an index.
- The worker's configuration, model resolution, storage and bridge set-up: each can only fail before or after the claim, and appears as that failure.
- Provider clients, MCP connections, sandboxes, browsers and user interfaces.
