# Verification of the literature agent's background execution

The system lets a user talk to a research agent about a project's papers. Every message starts a *turn*: a run that
workers execute in the background while users cancel, workers crash, jobs are delivered again and browsers reconnect.
Business state changes only in short database transactions. This project models those transactions as steps on an
abstract store and proves what every run of them keeps.

Transactions are atomic: a row lock makes a read and the following write one step, an exception before the commit is a
step that changes nothing, and a conditional update is a compare-and-set. Where the code reads without a lock (claiming a
run, requeueing it, looking up a receipt), the read and the write are separate steps and the write sees a stale value.

## The parts

- `Runs` holds the status table, event types and numbered logs that everything else uses.
- `TurnProtocol`, `TurnInvariant`, `TurnTheorems`: sessions, turns, messages, claims of runs, cancellation, failure and
  retry, success, late callbacks, tool calls, the sandbox lease, the browser control and every writer to a turn's log,
  as one state machine. The invariant is global; the theorems read off what it means, and `TurnEnd` says what can still
  happen to a turn that has ended, and `TurnFences` when its artifacts can still be published.
- `TurnMoves`, `TurnSessions`, `TurnTables`: what each transaction does to each turn, session and table, in terms of who
  asked for what, in every reachable state; `TurnAnswers`: what callers of the services can rely on.
- `Store`, `TurnServices`, `ControlServices`: the services themselves: a transaction object with the repositories'
  statements, and each method in the order the code issues them, proved equal to its step.
- `Ledger`, `LedgerTheorems`, `LedgerReplay`, `LedgerAnswers`, `UsageService`: the budget of one turn under arbitrary
  replay, and exactly which requests it grants.
- `Artifacts`, `ArtifactTheorems`, `ArtifactAnswers`, `ArtifactServices`: candidates, limits and publication.
- `Reconciliation`: what the executor asks the runtime before it executes, resumes or collects.
- `EventStream`, `EventStore`, `TurnStreams`, `Timeline`: the server's polling stream, the browser's fold and
  reconnects, the link between the two and the protocol, and the page's grouping and merging.
- `Attachments`, `AttachmentAnswers`, `AttachmentService`: uploads around a storage write, deletions and posts that meet at
  row locks.
- `ArxivImport`, `ArxivImportTheorems`, `ArxivImportService`: the import loop with other processes committing at every
  point between its transactions, registration of content, the run of a review and its dependency reconciler.
  `ArxivReviews` says when a cancelled review holds open candidates, `ArxivSummary` when the summary of an import is
  right, `ArxivAnswers` and `ArxivSources` what each commit does to a review and each of its sources.
- `Outline`, `ReviewResults`: the outline editor and the all-or-nothing parsers.
- `LibraryMerge`, `LibraryMigration`: the deduplicating migration.

## What the proofs found

- *Events can follow the end of a turn.* The stream's comment assumes that nothing does. Taking over or giving back the
  browser of an ended turn writes to its log, and so does the failure report of an external call that was in flight.
  `OnlyLateWritersAppend` says that these are exactly the exceptions, `EndedLogIsFinalIff` says exactly when nothing can
  follow any more, and the stream theorems allow for them: what a closed stream misses was written late. One cause is a
  worker that is slow: taking the sandbox compares its fencing token and never the status of the turn.
- *A status test alone would let a worker claim twice.* Claims read the run without a lock. After a failed attempt the
  run is queued again and an old read shows the right status; only the unique event number stops the late claim.
- *A repeated upload can be answered with a deleted attachment*, as a success: exactly when the row under its key has been
  deleted, and from then on always.
- *The import's summary can differ from the store*, in both directions, when another execution settles a source first, and
  when a source it had read as importing fails later. `SummaryAgainstStore` says exactly when each counter is right.
- *A cancelled review can hold open candidates* until the dependency reconciler rejects them: a run that waits or is queued
  is cancelled at once, a second cancellation and the recovery of a crashed worker do not look at sources either, and a
  search that finishes after the end adds new ones. `ClosedIff` lists exactly these; the import itself never leaves any.
- *The migration relies on one version for each paper.* With several, a paper can be merged into itself; marks have length
  one if and only if the papers they lead to hold no duplicate.
- *The page never shows `agent_turn_cancelled`*: it closes on the `run_cancelled` before it.

## Model

| member | source | states |
|---|---|---|
| TurnInvariant.EveryRunKeeps | backend/src/literature_agent/application/agent_session_service.py:306-583 | in every database that any interleaving of posts, claims, cancellations, crashes, redeliveries, commits, budget and artifact writers and late callbacks reaches, the whole protocol invariant holds (logs, ledgers, shelves, transcripts, session holders, stale reads) |
| TurnInvariant.NextKeeps | backend/src/literature_agent/application/agent_turn_executor.py:172-357 | each single transaction, whoever runs it and whatever it finds, keeps the invariant |
| TurnInvariant.PostKeeps | backend/src/literature_agent/application/agent_session_service.py:306-583 | posting keeps it, on every reply including conflicts and refusals |
| TurnInvariant.SucceedKeeps | backend/src/literature_agent/application/agent_turn_executor.py:172-357 | the success commit keeps it, with a variable number of staged and published artifacts |
| TurnInvariant.CommitCancellationKeeps | backend/src/literature_agent/application/agent_turn_executor.py:586-630 | the executor's cancellation keeps it, always ends CANCELLED and always leaves the session free |
| TurnInvariant.UsageKeeps | backend/src/literature_agent/application/agent_usage_service.py:417-444 | a budget request keeps it: the log gains one budget event exactly for each new reservation |
| TurnInvariant.SubmitKeeps | backend/src/literature_agent/application/agent_artifact_service.py:219-329 | recording a submission keeps it |
| TurnInvariant.RejectKeeps | backend/src/literature_agent/application/agent_artifact_service.py:331-395 | recording a rejection keeps it |
| TurnInvariant.ClaimNeedsFreshSight | backend/src/literature_agent/application/run_execution_service.py:260-300 | an unlocked claim commits if and only if the status is as expected and nothing was appended to the run since it was read: the unique event number turns a status test into a version test |
| TurnInvariant.ExtendsFits | backend/src/literature_agent/domain/run.py:39-63 | appending events together with a legal status change keeps the shape of the log: no closing event before the end, exactly one that matches the final status |
| TurnTheorems.LiveTurnHoldsSession | backend/src/literature_agent/application/agent_session_service.py:388-398 | in every reachable state a turn that has not ended holds its session, hence a session has at most one such turn |
| TurnTheorems.LateCallbackFreesNoLiveTurn | backend/src/literature_agent/application/agent_turn_lifecycle_service.py:34-51 | a release for an ended turn, however late or repeated, never frees the session of a live turn and touches no other session |
| TurnTheorems.CommitsFindTheirSession | backend/src/literature_agent/application/agent_turn_executor.py:188-197 | the success and cancellation commits are never refused because another run holds the session |
| TurnTheorems.EndedTurnsNeverBlock | backend/src/literature_agent/application/agent_session_service.py:388-398 | when all turns of a session have ended, the next message is never refused as busy |
| TurnTheorems.OwnerCanAlwaysEnd | backend/src/literature_agent/application/run_service.py:195-247 | a live turn is never stuck: in every reachable state its owner ends it with at most two cancellations, and the session is then not busy |
| TurnTheorems.TranscriptsOrdered | backend/src/literature_agent/application/agent_turn_executor.py:236-253 | message sequences are 1, 2, ...; an answer directly follows the message of its own turn; no other two messages share a turn |
| TurnTheorems.AnsweredExactlyWhenSucceeded | backend/src/literature_agent/application/agent_turn_executor.py:198-253 | a turn has an assistant message if and only if it succeeded; its citations and its single claim set go together |
| TurnTheorems.LogsAndBudgetsAgree | backend/src/literature_agent/application/agent_usage_service.py:417-444 | every log is exactly 1..counter-1; the n-th budget event reports n reservations; their number is what the ledger holds, within its limits |
| TurnTheorems.ArtifactLimitsHold | backend/src/literature_agent/application/agent_artifact_service.py:58-59 | in every reachable state a turn has at most 8 artifacts of at most 50 MiB together, and a candidate is committed if and only if it has its one artifact |
| TurnTheorems.OneOutcome | backend/src/literature_agent/application/agent_turn_executor.py:323-342 | the log records the outcome of the status once and no other; two closing events occur only as run_cancelled directly followed by agent_turn_cancelled |
| TurnTheorems.NothingWithoutSuccess | backend/src/literature_agent/application/agent_turn_executor.py:586-630 | a turn that is not SUCCEEDED has no answer, claim set, artifact, staged or committed candidate or success event |
| TurnTheorems.ResultsAppearAtSuccess | backend/src/literature_agent/application/agent_turn_executor.py:236-357 | all of these appear together in the one transaction that makes the turn SUCCEEDED, which only the result commit can be, and its events are exactly the binding, one staged event for each reported content, one committed event for each artifact and the success |
| TurnTheorems.EveryRunEvolves | backend/src/literature_agent/infrastructure/persistence/run_repository.py:80-102 | over any further run logs, transcripts and receipts only grow and what an ended turn produced is final |
| TurnTheorems.StatusTableRespected | backend/src/literature_agent/domain/run.py:39-63 | every status change of every transaction is one of the table, so the three final statuses are never left |
| TurnEnd.EndedLogIsFinalIff | backend/src/literature_agent/infrastructure/persistence/browser_control_repository.py:137-163 | the log of an ended turn is final over all further runs of transactions if and only if no external call is in flight, no browser control is anchored to the turn, no sandbox in use is held by it, and no worker that may take one is still executing it |
| TurnEnd.FinalFromNowOnIff | backend/src/literature_agent/application/browser_control_service.py:378-392 | the same from some time on when clocks do not go back: a lease that has run out is no threat any more |
| TurnEnd.OnlyLateWritersAppend | backend/src/literature_agent/application/mcp_tool_execution_service.py:166-207 | a single transaction appends to an ended turn if and only if it reports the failure of an external call still in flight, or begins or ends a browser control anchored to the turn |
| TurnEnd.NeverClaimedIsFinal | backend/src/literature_agent/application/browser_control_service.py:189-203 | a turn that ended before any worker took it is never appended to again |
| TurnEnd.ManualControlExcludesTurns | backend/src/literature_agent/application/browser_control_service.py:124-136 | while somebody drives the browser by hand every turn of the session has ended, in every reachable state |
| TurnEnd.AlwaysAnchored | backend/src/literature_agent/infrastructure/persistence/sandbox_workspace_repository.py:52-96 | leases, controls and tool calls belong to claimed runs of their session, calls were permitted by the policy, and a fencing token fixes the holder a control is anchored to |
| TurnEnd.SomethingCanFollowTheEnd | backend/src/literature_agent/application/browser_control_service.py:186-205 | "nothing is appended after a terminal status" is false: a turn that ran in the sandbox and failed is followed by the event of its owner taking over the browser |
| TurnEnd.SandboxGrows | backend/src/literature_agent/application/browser_control_service.py:107-209 | a sandbox in use of an ended turn can always lead to another event, even past another live turn of the session |
| TurnEnd.StragglerGrows | backend/src/literature_agent/infrastructure/agent/sandbox_workspace.py:274-426 | a worker still executing can take the sandbox for a turn that has ended, since taking it never looks at the status |
| TurnFences.SuccessNeedsItsFences | backend/src/literature_agent/application/agent_artifact_publisher.py:33-74 | in every reachable state an accepted result that can be staged commits if and only if every validated candidate was recorded under the fence of the sandbox the turn still holds |
| TurnFences.FenceLostIff | backend/src/literature_agent/infrastructure/persistence/agent_repository.py:542-566 | a step loses the fence of a turn if and only if it takes the sandbox for another turn or anew, marks it dirty, or retires it |
| TurnFences.LosingIsFinal | backend/src/literature_agent/infrastructure/persistence/sandbox_workspace_repository.py:52-96 | a fence that is lost never becomes current again, over every further run |
| TurnTheorems.StaleLookNeverClaims | backend/src/literature_agent/application/run_execution_service.py:260-300 | once anything was appended no worker ever moves the run on the strength of an earlier read |
| TurnTheorems.ClaimedByOneWorker | backend/src/literature_agent/application/run_execution_service.py:260-300 | of all workers that looked at a queued run, one claims it and the others never do, even after retries |
| TurnTheorems.StatusAloneIsNotEnough | backend/src/literature_agent/application/outbox_dispatch_service.py:126-168 | comparing the status alone would let an old read claim again after a failed attempt was requeued; only the event number stops it |
| TurnTheorems.OneRunPerKey | backend/src/literature_agent/application/agent_session_service.py:333-343 | all successful answers for one owner and key name one run, also when the receipt was read before the first post committed |
| TurnTables.RepeatedPostIsAnswered | backend/src/literature_agent/application/agent_session_service.py:333-343 | the same message under a key that was posted is answered with its run at any later time, another message under it with a conflict, and neither writes anything |
| TurnTables.NewPostAnswered | backend/src/literature_agent/application/agent_session_service.py:344-470 | a message under a new key is posted if and only if its owner sees the session, no check raises, nobody drives the browser and every turn of the session has ended; each refusal has its own condition |
| TurnTables.PostAdds | backend/src/literature_agent/application/agent_session_service.py:471-583 | a post adds exactly its run, queued with two events and an unused budget, and its receipt |
| TurnTables.OnlyPostsAdd | backend/src/literature_agent/application/agent_session_service.py:344-583 | nothing else adds a run or a receipt, and a session is added exactly by its creation |
| TurnMoves.EveryTurnMovesExactly | backend/src/literature_agent/application/agent_turn_executor.py:151-357 | in every reachable state each transaction moves each turn for exactly the listed reasons: who claims, cancels, fails, requeues or ends it, which events it then writes and which rows it changes |
| TurnSessions.EverySessionMovesExactly | backend/src/literature_agent/infrastructure/persistence/agent_repository.py:117-161 | in every reachable state each transaction leaves each session with exactly the holder and transcript that follow from who posts, answers, cancels, calls back or takes the browser |
| TurnTables.WorkersMoveExactly | backend/src/literature_agent/application/run_execution_service.py:260-300 | a worker executes a run from the claim that succeeds, on a look that shows the run as it is, until it leaves |
| TurnTables.ControlsMoveExactly | backend/src/literature_agent/application/browser_control_service.py:107-296 | each transaction begins, closes or leaves the session's browser control, with exactly these rows |
| TurnTables.LeasesMoveExactly | backend/src/literature_agent/infrastructure/persistence/sandbox_workspace_repository.py:52-96 | each transaction takes, dirties, retires or leaves the sandbox lease; the fencing token rises unless the holder keeps what it holds |
| TurnTables.TakingAgainIsQuiet | backend/src/literature_agent/application/browser_control_service.py:166-172 | taking the browser again under the same key while the control lasts changes nothing |
| TurnAnswers.LateResult | backend/src/literature_agent/application/agent_turn_executor.py:172-187 | a result that meets a cancelled turn ends it with exactly the two closing events and frees its session, whatever it says; in every other status but RUNNING it changes nothing |
| TurnAnswers.AnswerIsLogged | backend/src/literature_agent/application/agent_turn_executor.py:236-357 | a delivered answer is the next message, frees the session, and its events are the binding, one for each reported content, one for each artifact, and the success, in this order |
| TurnAnswers.RejectionIsLogged | backend/src/literature_agent/application/agent_artifact_service.py:361-392 | a rejection of new content is recorded with its event while the turn is RUNNING, and repeating it changes nothing |
| TurnAnswers.SubmissionIsLogged | backend/src/literature_agent/application/agent_artifact_service.py:219-329 | a submission of new content is recorded with its event if and only if the turn is RUNNING and has room, and repeating it changes nothing |
| TurnAnswers.SettledCallsAreFinal | backend/src/literature_agent/application/mcp_tool_execution_service.py:80-96 | a tool call that succeeded or failed for good stays as it is over every further run |
| TurnAnswers.FinishedCallIsRemembered | backend/src/literature_agent/application/mcp_tool_execution_service.py:80-83 | a call that finished is answered with its result at any later time and never made again |
| TurnAnswers.BrokenCallBeginsAgain | backend/src/literature_agent/application/mcp_tool_execution_service.py:90-109 | a call whose attempt failed for the time being begins again as the next attempt |
| TurnAnswers.TakenControlIsGood | backend/src/literature_agent/application/browser_control_service.py:186-209 | whoever takes the browser gets a control that is in force, matches the sandbox as it is, is signed for the caller and lasts five minutes at most |
| TurnAnswers.ControlFitsUntil | backend/src/literature_agent/application/browser_control_service.py:378-400 | a control stops matching its sandbox if and only if the sandbox is taken away from it |
| TurnTheorems.ReceiptsAlwaysMatch | backend/src/literature_agent/application/agent_session_service.py:573-582 | receipts and runs correspond one to one, with the owner of the receipt |
| TurnServices.AgentSessionService.PostMessage | backend/src/literature_agent/application/agent_session_service.py:306-583 | the statements in their order compute exactly the post step; its claim of the session always succeeds |
| TurnServices.AgentTurnExecutor.CommitResult | backend/src/literature_agent/application/agent_turn_executor.py:151-357 | the executor's loops and statements compute exactly the result step, and no event number collides |
| TurnServices.AgentTurnExecutor.CommitCancellationInSession | backend/src/literature_agent/application/agent_turn_executor.py:586-630 | the two events, the status and the release compute exactly the cancellation step and never raise |
| TurnServices.AgentTurnExecutor.CommitCancellation | backend/src/literature_agent/application/agent_turn_executor.py:565-584 | the cancellation transaction, also when it finds the run already cancelled |
| TurnServices.AddSuccessEvents | backend/src/literature_agent/application/agent_turn_executor.py:272-342 | the counter advanced through the loops numbers the success events without gap |
| TurnServices.AgentTurnLifecycleService.ReleaseIfTerminal | backend/src/literature_agent/application/agent_turn_lifecycle_service.py:34-51 | the callback computes exactly the release step |
| TurnServices.AgentArtifactService.RecordCandidate | backend/src/literature_agent/application/agent_artifact_service.py:219-329 | recording a submission computes exactly its step and reply |
| TurnServices.AgentArtifactService.RecordRejection | backend/src/literature_agent/application/agent_artifact_service.py:331-395 | recording a rejection computes exactly its step |
| ControlServices.BrowserControlService.Start | backend/src/literature_agent/application/browser_control_service.py:107-209 | the statements compute exactly the step: release, sandbox check, closing a control that is no longer good, and the new one with its events |
| ControlServices.BrowserControlService.Get | backend/src/literature_agent/application/browser_control_service.py:211-250 | asking closes a control that is out of date and answers with what is stored |
| ControlServices.BrowserControlService.End | backend/src/literature_agent/application/browser_control_service.py:252-296 | ending computes exactly its step and answers with what is stored |
| ControlServices.McpToolExecutionService.Begin | backend/src/literature_agent/application/mcp_tool_execution_service.py:58-116 | the statements compute exactly the step and its answer; a known result is given again without a change |
| ControlServices.McpToolExecutionService.Succeed | backend/src/literature_agent/application/mcp_tool_execution_service.py:118-164 | the result is stored with its event exactly when the call is in flight and the turn RUNNING |
| ControlServices.McpToolExecutionService.Fail | backend/src/literature_agent/application/mcp_tool_execution_service.py:166-207 | the failure is stored with its event exactly when the call is in flight, whatever the status of the turn |
| Store.Transaction.AppendEvent | backend/src/literature_agent/infrastructure/persistence/browser_control_repository.py:137-163 | appends with the number the row has under its lock and never looks at the status |
| Store.Transaction.CurrentFences | backend/src/literature_agent/infrastructure/persistence/agent_repository.py:542-566 | the fence of the session's sandbox if it is in use and held by the run |
| Store.Transaction.TryClaimActiveTurn | backend/src/literature_agent/infrastructure/persistence/agent_repository.py:117-132 | takes a session that nobody holds and says whether it did |
| Store.Transaction.ReleaseActiveTurn | backend/src/literature_agent/infrastructure/persistence/agent_repository.py:134-149 | frees a session only from the run that holds it and says whether it did |
| Store.Transaction.AllocateMessageSequence | backend/src/literature_agent/infrastructure/persistence/agent_repository.py:151-161 | hands out the session's counter and raises it |
| Store.Transaction.AddEvent | backend/src/literature_agent/infrastructure/persistence/models.py:1061-1061 | an event is taken if and only if its number is free in the run |
| Store.Transaction.UpdateStatus | backend/src/literature_agent/infrastructure/persistence/run_repository.py:80-102 | moves the status and counter if and only if the status is the expected one |
| Reconciliation.ReconcileOrExecute | backend/src/literature_agent/application/agent_turn_executor.py:381-461 | the first input reaches the runtime exactly when it does not know the turn and the run is RUNNING, once and first; a result is collected exactly when the latest report in scope offers it; otherwise the failure names what the latest report said and is one to try again after exactly if that may pass |
| LedgerTheorems.EveryRunKeeps | backend/src/literature_agent/application/agent_usage_service.py:81-245 | after any calls of any workers the counters equal the reservations held and stay within their limits, no signature exceeds the loop limit, reservations imply a started turn with its deadline, totals are the sums of what was recorded (null exactly when nothing was), and every tool row satisfies its status's field rule and the output limit |
| LedgerTheorems.ApplyKeeps | backend/src/literature_agent/application/agent_usage_service.py:62-350 | each single request keeps that |
| LedgerTheorems.RecordKeepsTotals | backend/src/literature_agent/application/agent_usage_service.py:125-163 | recording part of a call's tokens, in any order, adds exactly the newly known part to the totals |
| LedgerTheorems.TotalStep | backend/src/literature_agent/application/agent_usage_service.py:468-471 | the optional addition keeps the total equal to the sum over all calls |
| LedgerTheorems.ReservationsCounted | backend/src/literature_agent/application/agent_usage_service.py:81-123 | the counters rise by one exactly for an accepted reservation, which needs a RUNNING turn |
| LedgerTheorems.DuplicatesAreInvisible | backend/src/literature_agent/application/agent_usage_service.py:98-101 | a repetition of an accepted request at any later point, matching or conflicting, leaves the final ledger as if it had not been made |
| LedgerTheorems.AcceptedIsAbsorbed | backend/src/literature_agent/application/agent_usage_service.py:197-225 | what an accepted request leaves behind makes its repetitions stutter |
| LedgerReplay.AllDuplicatesAreInvisible | backend/src/literature_agent/application/agent_usage_service.py:98-101 | a run with any number of repetitions of accepted requests, at any places, ends in the ledger of the run without them |
| LedgerReplay.MatchingRepetitionIsRecognised | backend/src/literature_agent/application/agent_usage_service.py:197-216 | while the turn still takes such requests, a matching repetition at any later point of any run is recognised and answered as the first time, and the ledger stays as it is |
| LedgerReplay.ContradictionIsRefused | backend/src/literature_agent/application/agent_usage_service.py:197-216 | a repetition with other contents is refused at any later point, with the conflict of its kind whenever it gets as far as the comparison |
| LedgerReplay.ModelCallsGrantedUpToTheLimit | backend/src/literature_agent/application/agent_usage_service.py:81-123 | in every reachable ledger a new model call is granted if and only if fewer distinct calls are held than the limit |
| LedgerReplay.ToolCallsGrantedUpToTheLimits | backend/src/literature_agent/application/agent_usage_service.py:217-245 | a new tool call is granted if and only if fewer calls are held than the limit and fewer of its signature than the loop limit |
| LedgerAnswers.ClockStartsOnce | backend/src/literature_agent/application/agent_usage_service.py:62-79 | the first start sets start and deadline, later ones find the clock running until the deadline |
| LedgerAnswers.ReservationsWrite | backend/src/literature_agent/application/agent_usage_service.py:105-123 | a granted reservation adds its row, counts it, and starts the clock if nothing has |
| LedgerAnswers.RefusedReservations | backend/src/literature_agent/application/agent_usage_service.py:81-196 | each refusal of a reservation that is not for lack of budget has exactly its condition |
| LedgerAnswers.UsageTakenIff | backend/src/literature_agent/application/agent_usage_service.py:125-163 | a usage report is taken if and only if it contradicts nothing and adds something, and fills in just what was open |
| LedgerAnswers.ClaimGrantedIff | backend/src/literature_agent/application/agent_usage_service.py:247-270 | a tool call is claimed if and only if it is reserved and the deadline has not come |
| LedgerAnswers.SuccessTakenIff | backend/src/literature_agent/application/agent_usage_service.py:272-312 | a running tool call succeeds if and only if its result fits, at any time from its start, with size, hash, excerpt and duration stored |
| LedgerAnswers.FailureTakenIff | backend/src/literature_agent/application/agent_usage_service.py:314-350 | a running tool call fails if and only if the error fits, whatever the status of its turn |
| LedgerAnswers.ReportsNeedARunningCall | backend/src/literature_agent/application/agent_usage_service.py:272-350 | a report for a call that does not run changes nothing and is refused by its reason |
| LedgerAnswers.ClosedTurnRefuses | backend/src/literature_agent/application/agent_usage_service.py:446-456 | outside RUNNING every request but a failure report is refused for the status |
| LedgerAnswers.ClaimedCallFinishes | backend/src/literature_agent/application/agent_usage_service.py:247-312 | whatever requests come between a claim and the first report of its end, a result that fits is taken under the reserved request with the time since the claim |
| LedgerTheorems.ClaimedAtMostOnce | backend/src/literature_agent/application/agent_usage_service.py:247-270 | a tool call is claimed for execution at most once over all workers and retries |
| LedgerTheorems.EveryRunEvolves | backend/src/literature_agent/domain/agent_usage.py:155-165 | start and deadline are fixed at the first start, reservations and their requests stay, tool calls never move back, a final result is kept for ever |
| LedgerTheorems.OneRankAtATime | backend/src/literature_agent/domain/agent_usage.py:297-358 | a tool call moves one step at a time: reserved, running, finished |
| LedgerTheorems.NothingLate | backend/src/literature_agent/application/agent_usage_service.py:446-456 | at or after the deadline, or outside RUNNING, nothing is newly reserved or claimed |
| LedgerTheorems.FrozenOutsideRunning | backend/src/literature_agent/application/agent_usage_service.py:352-368 | while the run is not RUNNING only failure reports can change the ledger |
| UsageService.AgentUsageService.StartTurn | backend/src/literature_agent/application/agent_usage_service.py:62-79 | the transaction computes exactly its ledger step and answer |
| UsageService.AgentUsageService.ReserveModelCall | backend/src/literature_agent/application/agent_usage_service.py:81-123 | likewise, with the budget event |
| UsageService.AgentUsageService.RecordModelUsage | backend/src/literature_agent/application/agent_usage_service.py:125-163 | likewise, with the totals |
| UsageService.AgentUsageService.ReserveToolCall | backend/src/literature_agent/application/agent_usage_service.py:165-245 | likewise, with the loop limit and the budget event |
| UsageService.AgentUsageService.StartToolCall | backend/src/literature_agent/application/agent_usage_service.py:247-270 | likewise, for the claim |
| UsageService.AgentUsageService.SucceedToolCall | backend/src/literature_agent/application/agent_usage_service.py:272-312 | likewise, for a result |
| UsageService.AgentUsageService.FailToolCall | backend/src/literature_agent/application/agent_usage_service.py:314-350 | likewise, for a failure, at any status |
| UsageService.AgentUsageService.SaveWithBudgetEvent | backend/src/literature_agent/application/agent_usage_service.py:417-444 | the budget event carries the new counters and its number is always free |
| ArtifactTheorems.SubmitKeeps | backend/src/literature_agent/application/agent_artifact_service.py:267-304 | a submission keeps at most 8 reviewed candidates and 50 MiB, distinct keys, and artifacts matching the committed ones |
| ArtifactTheorems.RejectKeeps | backend/src/literature_agent/application/agent_artifact_service.py:361-395 | a rejection keeps the same |
| ArtifactTheorems.NothingLeftStaged | backend/src/literature_agent/application/agent_artifact_service.py:297-304 | no submission or rejection leaves a staged candidate behind |
| ArtifactTheorems.StageAllKeeps | backend/src/literature_agent/application/agent_turn_executor.py:254-259 | staging any number of reported candidates without a budget check keeps the limits, which count reviewed ones |
| ArtifactTheorems.PublishKeeps | backend/src/literature_agent/application/agent_artifact_publisher.py:33-74 | publication keeps one artifact for each committed candidate, at most 8 and 50 MiB |
| ArtifactTheorems.PublishAgain | backend/src/literature_agent/application/agent_artifact_publisher.py:45-50 | publishing again changes nothing and returns the same artifacts, whatever the fences are by then |
| ArtifactTheorems.PublishedExactly | backend/src/literature_agent/application/agent_artifact_publisher.py:33-74 | what is returned is exactly the artifacts of the turn, those of the reviewed candidates; staged and rejected ones are untouched |
| ArtifactTheorems.NewSubmissionRecordedIff | backend/src/literature_agent/application/agent_artifact_service.py:284-304 | a new submission is recorded if and only if number and total size with it stay within the limits, and otherwise changes nothing |
| ArtifactTheorems.ResubmissionIsUnchanged | backend/src/literature_agent/application/agent_artifact_service.py:267-276 | submitting what was recorded once more, under its own key or as the same content under a fresh one, is answered from the row and changes nothing |
| ArtifactAnswers.NewRejectionIsRecorded | backend/src/literature_agent/application/agent_artifact_service.py:361-383 | new content is entered as rejected, whatever the limits |
| ArtifactAnswers.KnownRejectedIff | backend/src/literature_agent/application/agent_artifact_service.py:371-374 | a row that is there is rejected if and only if it is this submission's own and still staged |
| ArtifactAnswers.RejectionIsFinal | backend/src/literature_agent/application/agent_artifact_service.py:277-280 | rejected content is never accepted in this turn, and rejecting it again changes nothing |
| ArtifactAnswers.KnownSubmission | backend/src/literature_agent/application/agent_artifact_service.py:267-320 | a submission that meets a row is answered, recorded or refused by exactly what the row is |
| ArtifactAnswers.StagedUnlessClash | backend/src/literature_agent/application/agent_turn_executor.py:254-259 | a report is staged unless one of its candidates shares identifier or content with a row that describes something else; earlier rows stay, every content is then described, and nothing unreported is added |
| ArtifactAnswers.RequestedInOrder | backend/src/literature_agent/application/agent_turn_executor.py:151-170 | the deduplicated report keeps the order of the first reports |
| ArtifactAnswers.ArtifactsInOrder | backend/src/literature_agent/application/agent_artifact_publisher.py:33-74 | artifacts are listed in the order of their candidates |
| ArtifactTheorems.RequestedOnceEach | backend/src/literature_agent/application/agent_turn_executor.py:151-171 | the result's candidates are kept once for each reported fact, in the order of their first report, and none is lost |
| Artifacts.Locate | backend/src/literature_agent/infrastructure/persistence/agent_repository.py:470-517 | where get-or-add finds a candidate: by identifier, then by content, or nowhere; a found row has the same content |
| ArtifactServices.ArtifactRows.GetOrAddCandidate | backend/src/literature_agent/infrastructure/persistence/agent_repository.py:470-517 | the insert that ignores conflicts |
| ArtifactServices.ArtifactRows.SaveCandidate | backend/src/literature_agent/infrastructure/persistence/agent_repository.py:568-594 | the compare-and-set on the stage |
| ArtifactServices.ArtifactRows.AddArtifactIfAbsent | backend/src/literature_agent/infrastructure/persistence/agent_repository.py:596-653 | at most one artifact for each candidate |
| ArtifactServices.Deduplicate | backend/src/literature_agent/application/agent_turn_executor.py:151-170 | the loop drops exactly the repeated contents of the runtime's report |
| ArtifactServices.StageCandidates | backend/src/literature_agent/application/agent_turn_executor.py:254-259 | the loop stages all or reports that one was in conflict |
| ArtifactServices.PublishForSuccess | backend/src/literature_agent/application/agent_artifact_publisher.py:33-74 | the loop computes exactly the publication; it can only fail on a lost fence |
| EventStream.AlwaysExact | backend/src/literature_agent/api/runs.py:240-258 | for every interleaving of writers with the two reads, what was sent is exactly the log after the cursor up to the stream's own, in order, without gap or repeat |
| EventStream.ClosesOnlyWhenDone | backend/src/literature_agent/api/runs.py:256-258 | when the stream closes, everything in the log at its last read was sent, and what it misses later was written late |
| EventStream.ClosesInTime | backend/src/literature_agent/api/runs.py:256-258 | once the run was seen ended and nothing more is written, it closes after exactly floor(remaining / 500) + 1 rounds |
| EventStream.OtherOrderLosesTheEnd | backend/src/literature_agent/api/runs.py:246-251 | reading the events before the status could close the stream without the event that ended the run |
| EventStream.Follow | backend/src/literature_agent/api/runs.py:227-269 | the generator's loops compute the stream over the rounds it gets to read |
| EventStream.StepExact | backend/src/literature_agent/api/runs.py:248-258 | one round keeps the output exact whatever was appended since the last one |
| EventStream.PageIsSlice | backend/src/literature_agent/infrastructure/persistence/event_repository.py:64-80 | a page behind a cursor is the next stretch of an ascending log, and a page that is not full is its end |
| TurnStreams.LaterReadFollows | backend/src/literature_agent/api/runs.py:246-248 | two reads of an agent turn with any transactions between them are as the stream needs: the log grew, an ended status stayed, only late events followed it |
| TurnStreams.TurnStreamsAdvance | backend/src/literature_agent/api/runs.py:240-265 | hence every stream over an agent turn satisfies the stream theorems |
| TurnStreams.PageClosesExactlyAtTheEnd | web/src/runs/runStatus.ts:11-21 | a page that has caught up with a turn's log is closed if and only if the turn has ended |
| EventStore.FoldKeepsEach | web/src/runs/eventStore.ts:24-34 | the fold keeps each delivered event once, ascending, with the greatest sequence as cursor, closed exactly when a closing event came |
| EventStore.DeliveryOrderIsInvisible | web/src/runs/eventStore.ts:24-34 | order and repetition of deliveries make no difference to the folded state |
| EventStore.ReconnectsAreExact | web/src/runs/useRunEvents.ts:31-54 | across any reconnects from any received identifier, so with frames coming again, and with drops at any frame, the page holds exactly the subscribed events of a beginning of the log that ends with the first closing event |
| EventStore.AnyDeliveryOfAPart | web/src/runs/eventStore.ts:24-34 | any duplicated or reordered delivery of a part of the log folds to that part, sorted |
| EventStore.SecondClosingEventUnseen | web/src/runs/useRunEvents.ts:36-44 | after a cancellation by the executor the page never receives agent_turn_cancelled |
| EventStore.ResumesBehindLastFrame | backend/src/literature_agent/api/runs.py:293-308 | reconnecting with the identifier of the last frame continues right behind it; the identifier is always accepted |
| Timeline.GroupMessagesByTurn | web/src/agent/turnTimeline.ts:9-28 | the map and the list share group objects, and pushing into them yields the grouping, with the active turn's empty group if it has none |
| Timeline.GroupingKeepsOrderIff | web/src/agent/turnTimeline.ts:9-28 | flattening the groups gives back the messages if and only if each turn's messages stand together |
| Timeline.GroupsHoldTheirTurns | web/src/agent/turnTimeline.ts:15-23 | each group holds all messages of its turn in their order |
| Timeline.TimelineShowsTheTranscript | web/src/agent/turnTimeline.ts:9-28 | for every transcript the protocol can produce, the page's groups flatten to it |
| Timeline.MergeRunEvents | web/src/agent/turnTimeline.ts:31-36 | the result is ascending and holds, for each number, the last event set under it |
| Timeline.MergeIsSortedUnion | web/src/agent/turnTimeline.ts:31-36 | when both lists come from one log the result is their sorted union |
| Timeline.LiveOverrides | web/src/agent/turnTimeline.ts:31-36 | a live event replaces the stored one with its number |
| Attachments.EveryRunKeeps | backend/src/literature_agent/application/agent_attachment_service.py:58-149 | under any interleaving of uploads, deletions and posts, down to single statements and row locks, rows, bytes, answers and locks stay consistent |
| Attachments.ReferencedNeverDeleted | backend/src/literature_agent/application/agent_attachment_service.py:134-149 | an attachment a message refers to is available with its bytes, then and at every later time |
| Attachments.OneAttachmentPerKey | backend/src/literature_agent/application/agent_attachment_service.py:58-123 | all successful answers for one owner and key name one attachment with one content, stored before it was registered |
| Attachments.AnswerUsableIff | backend/src/literature_agent/application/agent_attachment_service.py:80-123 | a successful answer of any of the three transactions names a usable attachment if and only if the row under the caller's key, where there is one, has not been deleted; it is what that row says |
| Attachments.DeletedKeyIsUsedUp | backend/src/literature_agent/application/agent_attachment_service.py:80-123 | once that row is deleted, every later successful answer for the owner and key, in every run, names a deleted attachment |
| Attachments.ReplayNamesTheDeleted | backend/src/literature_agent/application/agent_attachment_service.py:84-88 | the input: once an unreferenced attachment is deleted, repeating its upload is answered with the deleted one |
| Attachments.MarkKeeps | backend/src/literature_agent/infrastructure/persistence/agent_attachment_repository.py:162-178 | a row that nobody refers to and nobody has locked can be deleted |
| Attachments.SomeoneCanGoOn | backend/src/literature_agent/infrastructure/persistence/agent_attachment_repository.py:146-151 | because posts lock rows in identifier order, at any point of any run some transaction under way can go on: they never wait for each other in a circle |
| AttachmentAnswers.EveryoneCanFinish | backend/src/literature_agent/infrastructure/persistence/agent_attachment_repository.py:146-178 | from any state of any run whose posts ask in identifier order, the transactions under way can all be brought to an end by their own steps |
| AttachmentAnswers.TakenKeyAnswers | backend/src/literature_agent/application/agent_attachment_service.py:80-123 | a key that is taken is answered with its row if the request matches and with a conflict otherwise, and nothing else changes |
| AttachmentAnswers.FreeKeyGoesOn | backend/src/literature_agent/application/agent_attachment_service.py:80-123 | under a free key the upload goes on and its insert makes the row |
| AttachmentAnswers.UploadSucceeds | backend/src/literature_agent/application/agent_attachment_service.py:58-123 | an upload that nobody disturbs stores bytes and row, and repeating it is answered with that row |
| AttachmentAnswers.PostRefersIff | backend/src/literature_agent/infrastructure/persistence/agent_attachment_repository.py:130-160 | a post whose rows nobody holds refers to all of its attachments if all are usable and to none otherwise, and leaves no lock |
| AttachmentService.AgentAttachmentService.StartUpload | backend/src/literature_agent/application/agent_attachment_service.py:68-99 | the first transaction computes exactly its step |
| AttachmentService.AgentAttachmentService.StoreContent | backend/src/literature_agent/application/agent_attachment_service.py:100-103 | the storage write, outside any transaction |
| AttachmentService.AgentAttachmentService.RecheckKey | backend/src/literature_agent/application/agent_attachment_service.py:104-115 | the second transaction up to its insert computes exactly its step |
| AttachmentService.AgentAttachmentService.InsertAndAnswer | backend/src/literature_agent/infrastructure/persistence/agent_attachment_repository.py:45-76 | the insert that yields to a conflict, and the answer from the row with the key, compute exactly their step whatever was committed since the recheck |
| AttachmentService.AgentAttachmentService.Delete | backend/src/literature_agent/application/agent_attachment_service.py:134-149 | deletes if and only if the attachment is available and unreferenced |
| ArxivImportTheorems.EveryRunKeeps | backend/src/literature_agent/application/arxiv_import_service.py:435-639 | over any commits each owner and content has one canonical version, stored first, with at most one ingestion run and one outbox entry; dependency targets are distinct; bound sources have their version dependency and ready ones a satisfied chunk-set dependency; logs are dense |
| ArxivImportTheorems.RegisterKeeps | backend/src/literature_agent/application/arxiv_import_service.py:435-639 | registration keeps that |
| ArxivImportTheorems.BindKeeps | backend/src/literature_agent/application/arxiv_import_service.py:554-626 | binding a source keeps the review consistent and adds exactly the dependencies its version calls for: the version, and its chunk set once ready or else its own ingestion run |
| ArxivImportTheorems.KnownContentIsReused | backend/src/literature_agent/application/arxiv_import_service.py:470-473 | content the owner already has adds no version, run or outbox entry and binds the source to the version that is there |
| ArxivImportTheorems.ConfirmationRejectsExactlyTheOpen | backend/src/literature_agent/application/arxiv_import_service.py:665-696 | a confirmed cancellation leaves no open candidate, changes no other source and happens once |
| ArxivImportTheorems.CountersConserveSources | backend/src/literature_agent/application/arxiv_import_service.py:242-330 | imported + failed + rejected is the number of sources passed, ready is at most imported, and counted bytes never exceed the larger of the start and the budget, over any script |
| ArxivImportTheorems.OneSourceCounts | backend/src/literature_agent/application/arxiv_import_service.py:242-330 | one source adds one to exactly one counter, or the loop ends |
| ArxivImportTheorems.UndisturbedSummaryIsExact | backend/src/literature_agent/application/arxiv_import_service.py:324-330 | when nobody interferes, the summary's counters are exactly the statuses in the store |
| ArxivImportTheorems.ImportedMeans | backend/src/literature_agent/application/arxiv_import_service.py:464-465 | a source counted as imported is importing or ready in the store if and only if nobody had failed or rejected it meanwhile |
| ArxivImportTheorems.FailedMeans | backend/src/literature_agent/application/arxiv_import_service.py:716-745 | a source counted as failed is failed in the store if and only if nobody had bound or rejected it meanwhile |
| ArxivImportTheorems.DisturbedSummaryCanLie | backend/src/literature_agent/application/arxiv_import_service.py:464-465 | in reachable worlds the loop can count as imported an open source that has failed, as failed one that was imported, and as imported a source it had read as importing and whose ingestion has failed since |
| ArxivImportTheorems.CompletedOnce | backend/src/literature_agent/application/arxiv_import_service.py:345-433 | a completed import is never completed or announced again, and its log has exactly one completion event |
| ArxivImportTheorems.SummaryAccountsForAll | backend/src/literature_agent/application/arxiv_import_service.py:208-343 | over any interference, a call that completes has imported + failed + rejected equal to the sources at its start, ready at most imported, and bytes within the larger of what was bound and the budget |
| ArxivImportTheorems.OnlyOneCallEmits | backend/src/literature_agent/application/arxiv_import_service.py:345-433 | of all calls for a review, whatever is committed between them, at most one emits the completion |
| ArxivAnswers.FirstCompletion | backend/src/literature_agent/application/arxiv_import_service.py:378-432 | the first completion covers the sources there are, announces itself, and ends the import stage if and only if all are settled and some are ready |
| ArxivAnswers.CompletionIsRepeated | backend/src/literature_agent/application/arxiv_import_service.py:356-433 | after a completion another one is answered that it is done if and only if the review still has the covered sources, and conflicts otherwise, at any later time |
| ArxivAnswers.RepeatedImport | backend/src/literature_agent/application/arxiv_import_service.py:208-343 | a later call that gets to its end completes without announcing it if the sources are still the covered ones and fails otherwise |
| ArxivAnswers.RetryCompletes | backend/src/literature_agent/application/arxiv_import_service.py:208-343 | the undisturbed retry of a completed import changes nothing, counts what the store says and completes |
| ArxivAnswers.UndisturbedDownload | backend/src/literature_agent/application/arxiv_import_service.py:260-322 | a passing error ends the call and leaves the source open, a lasting one or a spent budget fails the source, and stored content is registered |
| ArxivAnswers.ReviewStatusMovesExactly | backend/src/literature_agent/application/run_service.py:195-247 | every status change of a review is one of the table, for exactly the listed causes, and each cause moves it |
| ArxivAnswers.StageMovesExactly | backend/src/literature_agent/application/arxiv_import_service.py:396-421 | each commit moves the stage of a review for exactly the listed causes |
| ArxivSources.EverySourceMovesExactly | backend/src/literature_agent/application/review_dependency_service.py:213-417 | in every reachable state each commit leaves each source with exactly the status that follows from who rejects, fails, binds or readies it |
| ArxivSources.ReconciledSources | backend/src/literature_agent/application/review_dependency_service.py:246-312 | one reconciliation settles each source by what is known of its own version, whatever the order and the other sources |
| ArxivSources.ReconciledDependencies | backend/src/literature_agent/application/review_dependency_service.py:246-315 | a dependency on a version follows the sources of that version, one on an ingestion run follows the run, and decided ones stay |
| ArxivSources.RegistrationBindsIff | backend/src/literature_agent/application/arxiv_import_service.py:464-639 | an open source is bound where there is a version to bind, ready exactly when that version has a chunk set |
| ArxivSources.NothingBinds | backend/src/literature_agent/application/arxiv_import_service.py:470-550 | otherwise nothing changes, and the reply says whether the paper is archived |
| ArxivSources.RegistrationWrites | backend/src/literature_agent/application/arxiv_import_service.py:554-626 | a binding adds exactly the dependencies its version calls for, satisfied when it is ready, one event, and for known content only the paper's place in the project |
| ArxivSources.EveryReviewLogMovesExactly | backend/src/literature_agent/application/review_dependency_service.py:290-417 | in every reachable state each commit writes exactly the events that follow from what it does to the review |
| ArxivImportTheorems.ImportKeeps | backend/src/literature_agent/application/arxiv_import_service.py:242-323 | the loop, interrupted or repeated at any point, keeps library and reviews consistent |
| ArxivImportTheorems.SearchKeeps | backend/src/literature_agent/application/arxiv_import_service.py:102-206 | the first search writes exactly its candidates and its key, any later one changes nothing and is a replay or a conflict by its key, and the review stays consistent |
| ArxivImportTheorems.ReconciledKeeps | backend/src/literature_agent/application/review_dependency_service.py:213-417 | the dependency reconciler keeps a review consistent: a source becomes ready only with a satisfied dependency on its chunk set, and targets stay distinct |
| ArxivReviews.ClosedIff | backend/src/literature_agent/application/run_service.py:195-247 | a commit leaves an open candidate in a cancelled review that had none if and only if it cancels it directly or reclaims it while it has one, or is its first search after the end; and it clears the last one if and only if it reconciles the review or fails its only open source |
| ArxivReviews.OpenIff | backend/src/literature_agent/application/run_service.py:195-247 | over any run of commits a cancelled review holds an open candidate if and only if some commit left one and no later one cleared it |
| ArxivReviews.CancelledImportIsClosedIff | backend/src/literature_agent/application/arxiv_import_service.py:641-696 | a call that ends cancelled leaves the review CANCELLED, and with an open candidate if and only if among the commits made meanwhile one left it and no later one cleared it; such a commit is never the import's own |
| ArxivReviews.ReconciliationCloses | backend/src/literature_agent/application/review_dependency_service.py:222-332 | one reconciliation of a review that is cancelled or about to be rejects all open candidates |
| ArxivReviews.ReconciledStaysClosed | backend/src/literature_agent/application/review_dependency_service.py:222-332 | a cancelled review that was searched and has been reconciled holds no open candidate at any later time |
| ArxivReviews.CancellationLeavesOpen | backend/src/literature_agent/application/run_service.py:213-222 | the input: a review that waits for a retry is cancelled at once and keeps its open candidate until it is reconciled |
| ArxivSummary.SummaryAgainstStore | backend/src/literature_agent/application/arxiv_import_service.py:242-343 | when a call completes, each of its three counters is right if and only if the sources counted wrongly in one way make up for those counted wrongly in the other |
| ArxivSummary.RowDecides | backend/src/literature_agent/application/arxiv_import_service.py:251-330 | source by source: which counter disagrees with the store follows exactly from what the store said when the source was counted and whether its ingestion failed since |
| ArxivSummary.SnapshotIsWrongIff | backend/src/literature_agent/application/arxiv_import_service.py:253-256 | a source the call had read as importing is counted wrongly if and only if its ingestion has failed by the time the call completes |
| ArxivImportTheorems.NewContentIsAdded | backend/src/literature_agent/application/arxiv_import_service.py:471-531 | new content becomes one canonical version of a paper in the project with exactly one ingestion run and outbox entry, and the source waits for both |
| ArxivImportService.ArxivProjectImportService.ImportSources | backend/src/literature_agent/application/arxiv_import_service.py:208-343 | the loop with its variables computes exactly the import over any interference, and its summary accounts for every source, ready ones among the imported, and bytes within the bound |
| ArxivImportService.ArxivProjectImportService.RegisterDownload | backend/src/literature_agent/application/arxiv_import_service.py:435-639 | the registration's statements compute exactly its step and reply |
| ArxivImportService.ArxivProjectImportService.CompleteImport | backend/src/literature_agent/application/arxiv_import_service.py:345-433 | the completion computes exactly its step |
| ArxivImportService.ArxivProjectImportService.ConfirmCancelIfRequested | backend/src/literature_agent/application/arxiv_import_service.py:641-696 | the loop over the sources computes exactly the confirmation |
| ArxivImportService.ArxivProjectImportService.CountBytes | backend/src/literature_agent/application/arxiv_import_service.py:219-235 | the starting bytes count each bound version once |
| ArxivImportService.ArxivProjectImportService.ReconcileRun | backend/src/literature_agent/application/review_dependency_service.py:213-417 | the loop over the sources, the dependencies on ingestion runs and the end of the run compute exactly the reconciliation |
| Outline.NextOutlineSection | web/src/reviews/reviewResults.ts:165-177 | the loop ends with the first free key, with a suffix from n+1 to 2n+1, and appending keeps keys distinct |
| Outline.Pigeonhole | web/src/reviews/reviewResults.ts:169-170 | no more consecutive keys can be taken than there are sections, which is why the loop ends |
| Outline.LongestSearch | web/src/reviews/reviewResults.ts:169-170 | the bound 2n+1 is met for every n |
| Outline.DecimalInjective | web/src/reviews/reviewResults.ts:170-172 | different suffixes give different keys |
| Outline.MoveOutlineSection | web/src/reviews/reviewResults.ts:151-163 | the swap in the copy computes the move, and an impossible move changes nothing |
| Outline.MoveIsUndone | web/src/reviews/reviewResults.ts:151-163 | a move is a permutation, keeps keys distinct and is undone by the opposite move |
| Outline.MoveAffectsNeighboursOnly | web/src/reviews/reviewResults.ts:151-163 | the two neighbours change places and every other section stays |
| Outline.OutlineDraftIssues | web/src/reviews/reviewResults.ts:112-142 | the pushed issues are the global ones followed by those of each section |
| Outline.NoIssueIff | web/src/reviews/reviewResults.ts:112-142 | a draft has no issue if and only if it is well formed |
| Outline.EachIssueReported | web/src/reviews/reviewResults.ts:112-142 | an issue is reported if and only if the draft has that fault |
| Outline.NewSectionNeedsTitleAndPurpose | web/src/reviews/reviewResults.ts:112-177 | a section added to a well-formed draft leaves exactly the two issues to fill in, and the count if the draft was full |
| ReviewResults.OutlineSections | web/src/reviews/reviewResults.ts:79-100 | reads all rows if every one is valid and nothing otherwise |
| ReviewResults.OutlineRoundTrip | web/src/reviews/reviewResults.ts:79-100 | what was written reads back the same and nothing else can be read from it |
| ReviewResults.MatrixRows | web/src/reviews/reviewResults.ts:179-203 | reads all rows if every one is valid and nothing otherwise |
| ReviewResults.MatrixRoundTrip | web/src/reviews/reviewResults.ts:179-203 | what was written reads back the same, whatever other fields come with it |
| ReviewResults.SectionResult | web/src/reviews/reviewResults.ts:205-269 | reads a section if and only if all of it is valid |
| ReviewResults.SectionRoundTrip | web/src/reviews/reviewResults.ts:205-269 | a written section is accepted if and only if it keeps every promise of the page, and reads back unchanged |
| ReviewResults.CollectTerms | web/src/reviews/reviewResults.ts:243-260 | with the set of seen terms, all rows are kept if and only if all are valid and no term repeats |
| LibraryMerge.OneCanonicalEach | backend/migrations/versions/c84f2d7a91e6_新增个人文献库与_project_收录.py:103-166 | exactly one version of each owner and content is canonical afterwards: parsed if any of its group was, and the earliest of those |
| LibraryMerge.NothingIsRemoved | backend/migrations/versions/c84f2d7a91e6_新增个人文献库与_project_收录.py:159-175 | no paper, version or idempotency row is removed; only the flag and the mark change |
| LibraryMerge.OneStepIff | backend/migrations/versions/c84f2d7a91e6_新增个人文献库与_project_收录.py:168-175 | merge marks have length one if and only if the papers they lead to hold no duplicate |
| LibraryMerge.AlwaysOneStepIff | backend/migrations/versions/c84f2d7a91e6_新增个人文献库与_project_收录.py:103-175 | however the database picks its rows, marks have length one if and only if in the tables before no duplicate shares its paper with the first of a partition that has duplicates |
| LibraryMerge.MergeMarksPointHome | backend/migrations/versions/c84f2d7a91e6_新增个人文献库与_project_收录.py:168-175 | with one version for each paper, marks have length one and lead to the canonical version's paper |
| LibraryMerge.MembershipIsKept | backend/migrations/versions/c84f2d7a91e6_新增个人文献库与_project_收录.py:129-157 | with one version for each paper, a project has a canonical paper if and only if it owned some paper of its group, and it selects that paper's canonical version |
| LibraryMerge.ChoiceExists | backend/migrations/versions/c84f2d7a91e6_新增个人文献库与_project_收录.py:103-175 | for any tables and any way of deciding ties there are rows that the statements can pick, so every theorem about the merge speaks of a migration that can happen |
| LibraryMerge.SelfMergeIsPossible | backend/migrations/versions/c84f2d7a91e6_新增个人文献库与_project_收录.py:168-175 | without that hypothesis a paper can be merged into itself |
| LibraryMerge.KeysNameCanonical | backend/migrations/versions/c84f2d7a91e6_新增个人文献库与_project_收录.py:204-221 | an idempotency row names a canonical version of the same content and the paper it belongs to |
| LibraryMigration.Migration.Upgrade | backend/migrations/versions/c84f2d7a91e6_新增个人文献库与_project_收录.py:103-221 | the statements in their order compute exactly the merged tables |
| LibraryMigration.Migration.MergeTable | backend/migrations/versions/c84f2d7a91e6_新增个人文献库与_project_收录.py:103-128 | one pass over the table finds each duplicate and the first value of its partition |

## Left out

- Storage, queue, HTTP, sandbox, browser and model runtimes: only what they promise is modelled (the gateway stays within
  the remaining bytes or fails, the runtime reports a state). Their outcomes are parameters of the steps.
- Hashing, identifiers and JSON: a hash or derived identifier is modelled by what it covers, so it is injective, and a
  request fingerprint is an opaque value.
- Clocks: every call brings an arbitrary integer time. Heartbeats, polling delays, notifications, logging and metrics
  affect latency only.
- Owner and project scope: a session's owner is checked; the other scope comparisons, which raise when rows were tampered
  with, are folded into the request's refusal flags (posting) or left out (budget closure drift).
- Contents of messages, context, policy and binding snapshots: the limits and tool contracts of the policy are modelled,
  and whether citations, bindings and the workspace snapshot are accepted is one flag of the result.
- The index references that posting collects in a loop are a flag of the request: their absence refuses the post.
- Attempts and their heartbeats: a worker is inside an execution from its claim until it leaves; a crash is the failure
  policy applied at any time while the run is RUNNING, or the reconciler's cancellation while it is CANCEL_REQUESTED.
- Outbox delivery beyond requeueing: which job is delivered when is arbitrary.
- Agent turns in WAITING_INPUT or WAITING_DEPENDENCY: the status table has them, but no transaction on turns enters them.
- `create_run`, `start_run`, `complete_run` and `fail_run` of the generic run service are not steps: turns never use them.
- Streams of review runs: the stream theorems take "nothing but late events after the end" as a hypothesis and it is
  proved for agent turns only.
- TurnFences.FenceLostIff: the fence a worker records with a submission is the one it was given; the submission does not
  compare it with the lease, and neither does the model.
- Review runs: claims, requeueing and recovery are one step each here (`TurnProtocol` has the unlocked reads); sources fixed
  when the review is created are ready from the start, never move, and are left out; the stages behind the evidence matrix
  are one stage; the waiting step's own row and the idempotency of a submitted selection are not modelled.
- ArxivImportService.ArxivProjectImportService.ReconcileRun: whether a project still selects a version, and how ingestion
  and indexing have ended, are parameters of the step.
- ArxivImportService.ArxivProjectImportService.RegisterDownload: does not update the title of a paper it meets again.
- Paper titles, chunk-set revisions and per-project ingestion details: a version has at most one ready chunk set.
- Views of a browser control (claiming, releasing and checking a viewer's ticket): they write no event.
- TurnEnd.AlwaysAnchored: the lease a worker reads without a lock before it takes the sandbox is not kept apart from the
  row; the fencing token it compares fixes holder and generation, and what else it made of the read is a choice of the step.
  Which worker may report a tool call is left open, as in the services.
- TurnServices.AgentSessionService.PostMessage: attachment references, index references, snapshots and profiles are refusal
  flags and nothing is written for them.
- TurnServices.AgentTurnExecutor.CommitResult: does not write binding rows, claims or citations, only whether there is a
  claim set, because no property here looks into them.
- Attachments.SomeoneCanGoOn: takes the identifier order of the locking query as a rank on identifiers.
- EventStore.ResumesBehindLastFrame: what Python's `int` accepts is a parameter (a number, or malformed); blanks and
  underscores inside a header are not modelled.
- ReviewResults.SectionResult: lengths count characters, not UTF-16 units.
- Outline.OutlineDraftIssues: lengths count characters, not UTF-16 units.
- The downgrade of the migration, and the indexes and constraints it creates.
- `visibleDimensionKeys`, `outlineDraftDirty` and the labels: they would add one-line members only.
- React pages, routers and worker wiring.
