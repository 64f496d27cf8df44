# Verification of the interview backend

This project models the parts of the interview backend whose correctness depends on unbounded data or on whole runs,
and proves what they guarantee. Tables are sequences or maps of rows, transactions happen completely or not at all,
and every call that can fail (database, cache, queue, agent) has its outcome handed in as a parameter, so a theorem
over all parameters covers every mix of failures. Times count microseconds, identifiers are integers, scores are real
numbers.

Objects that the program updates in place are classes here (`LiveServer.Server`, `LiveServer.Client`,
`Evaluation.SessionStore`, `Registry.Server`, `TurnNumbers.TurnService`, `DefaultResume.ResumeService`,
`Inactivity.Client`). Their methods say what they mean to a caller and which invariants they keep, and are proved
equal to functions on values; the theorems over runs are about those functions.

## What is proved, and what is not true of the program

**Listing sessions** (`Ordering`, `SessionPaging`, `CursorQueries`, `PagingRefinement`, `PagingBack`, `PagingAnswers`,
`PagingWitnesses`). The cursor listing refines the listing by page number, as a client sees it that follows the next
and prev cursors of the pages it is answered (`PagingAnswers`). A cursor carries its time cut to whole seconds.
Following the next cursor equals the numbered pages exactly when behind every page boundary on the way the next row
lies below the cut cursor, and going back from a row shows the rows before it exactly when the next older row does not
lie above the cut cursor. Both conditions fail exactly for neighbours in one second, unless the older has the lower id
and sits on the whole second (`PagingRefinement.SplitsSecond`). With one session per second the chain lists every
session once and ends after the announced number of pages, and following prev cursors from any row shows every row
before it once. Otherwise sessions can be skipped; two concrete listings show it. A requested limit is converted to 32
bits, so that one of 2^32 divides by zero.

**Chat history** (`ChatHistory`, `EvaluatedHistory`, `TurnNumbers`). The pager that reads back and the pager that
reads forward end after the same number of pages with the same complete history. Joined with evaluations the history
has the same turns on the same pages, because an evaluation and its improvement are stored once and together. Turn
numbers are always unique and positive. They are increasing as long as the counter key is not lost while turns exist
and every number read from the table is written back; the exact condition for one step allows more. A write-back with
a short time to live makes the loss possible, and a concrete run then stores turn 2 after turn 3.

**The live session** (`LiveSession`, `LiveServer`, `SessionRuns`, `StageLedger`, `LedgerSteps`, `HandOff`,
`Provenance`, `Outcomes`, `SessionFates`). Any number of connections, sessions and queued tasks take steps in any
order. In orderly runs the stage rows, the session row and the live connection always agree, whatever transactions and
cache writes fail. A connection hands the end of its session off exactly once if it closes unfinished, and otherwise
never. A session is called completed only after the agent said so.

Four things do not hold in general, and for each the exact condition is proved, step by step and over runs, for every
event and every mix of failures. Ledger and agreement survive any step but the setup of a second live connection and
certain stage changes of a connection being closed (`LedgerSteps.WholeStep`, with `StageLedger.TwoConnectionsBreak`).
A completed session stays completed exactly when neither the monitor writes its status nor an end with another status
is carried out (`SessionFates.CompletedStep`); a completed interview becomes cancelled when its connection drops
before the user confirms (`HandOff.CompletedThenDropped`). A finalized session stays finalized exactly when no
connection reopens it and no end with a failing call is carried out, but for a fallback whose failure is not written
either (`SessionFates.FinalizedStep`); coming back and leaving again makes it "ongoing" with nothing queued
(`HandOff.ReconnectUnfinalizes`). An ongoing session always has an open connection or a queued end exactly when no
step strands it, and there are four ways to do that (`SessionFates.StrandingCauses`). Connecting to a session that is
over queues its end again, and the worker that takes it up evaluates the last stage once more when it has scored turns
(`EvaluationRuns.ReconnectEndsAgain`).

**The registry and the monitor** (`Registry`, `Inactivity`). At the granularity of single locks the index of sessions
by user is right on every interleaving, a session has an entry exactly when an admission of it is not followed by the
end of one of its disconnects, and once all connections are gone both maps are empty. That a session has one
connection at most fails exactly when a disconnect removes the entry of a newer connection, which a concrete run
reaches. The monitor warns a client at the first tick of a silence that finds three minutes of it, and times it out at
the first that finds six minutes, on an open connection and at no other time.

**Evaluation** (`SessionRecords`, `Evaluation`, `Finalization`, `EvaluationRuns`, `LastTurns`, `TriggerBound`,
`Scores`, `Decimal`). Finalizing is all or failed. Over every run of handlers, workers and turn scoring, stages keep
position, id and phrase, flags are never unset and evaluations only appended. When a stage ends, its last turn is
cached; scoring the turn the cache names evaluates the stage, whether it is evaluated already or not. In orderly runs
this happens once per stage at most, so an ended stage gets at most one evaluation besides the one that sets its flag
(`TriggerBound.EndedStageBound`), and at most one in all exactly when that scoring does not find it evaluated
(`EvaluationRuns.EvaluatedOnceIff`). A run without any failure reaches two: the session is finalized before its last
turn is scored (`TriggerBound.SecondEvaluationHappens`). A stage ended by a connection that remembers no turn of the
user gets the interviewer's own turn as its last, because the lookup names the new phrase and no speaker
(`LastTurns.LookupFindsOwnTurn`). The overall score lies in range and within 0.01 of the mean of the raw scores.

**Files, frames, resumes, stages, rubrics** (`FileNames`, `AudioFrames`, `ResumeFetch`, `DefaultResume`, `Stages`,
`Rubrics`). A chosen file name is new for every list exactly when its base has no line break. Audio frames round-trip,
and those forwarded in either direction carry the audio unchanged, exactly when the header leaves room for its length
in 32 bits. The concurrent fetch equals a sequential one and no sender ever blocks. Switching the default resume keeps
the table and the cache right exactly when it is rolled back, or names the user's own resume and leaves no stale copy
in the cache; the service checks neither that the resume exists nor whose it is. The validated stages have one
canonical order. Every rubric row lands in exactly one group.

## Model

| member | source | states |
|---|---|---|
| SessionPaging.ListWithCursor | internal/services/interview_session.go:943-1122 | Refuses an unknown page type, fails on a page size that is 0 in 32 bits and on negative bounds, and otherwise answers the specified page, whose next cursor is its last session and whose prev cursor, given only to a cursor, its first |
| SessionPaging.LimitHonoured | internal/services/interview_session.go:961-994 | A requested limit of 1 or more is the size of the page answered if and only if it, with the increment for going back, fits 32 bits; exactly the multiples of 2^32 divide by zero |
| SessionPaging.FetchSessions | internal/services/interview_session.go:997-1097 | The first-page query or the cursor query with its row loops, and the reversal for going back, give the sessions of the specification |
| SessionPaging.CollectRows | internal/services/interview_session.go:1063-1090 | Going back leaves out exactly the row the cursor came from; going forward keeps all rows |
| SessionPaging.ReverseInPlace | internal/services/interview_session.go:1093-1097 | The two-index swap loop yields the reversed page |
| SessionPaging.ListWithJumpPagination | internal/services/interview_session.go:1124-1226 | Fails on a page size that is 0 in 32 bits and on negative bounds, and otherwise answers the specified page, whose next cursor is its last session and whose prev cursor, given only to a page number, its first |
| Ordering.OrderDescSorts | internal/db/sqlc/interview_session.sql.go:313-334 | Ordering rows with distinct keys gives a strictly descending permutation of them |
| Ordering.DescendingUnique | internal/db/sqlc/interview_session.sql.go:388-427 | A strictly ordered listing is determined by its rows, so every query of the same rows agrees on their order |
| CursorQueries.ListingShape | internal/db/sqlc/interview_session.sql.go:313-334 | The listing holds, once each and newest first, exactly the user's finalized sessions that are not deleted and match the search, as many as the count query counts |
| CursorQueries.NextRows | internal/db/sqlc/interview_session.sql.go:388-427 | The forward cursor query reads the stretch of the one listing just behind the cursor |
| CursorQueries.PrevRows | internal/db/sqlc/interview_session.sql.go:388-427 | The backward cursor query reads, in reverse, the stretch of the one listing just before the cursor |
| PagingRefinement.FollowNextIsChain | internal/services/interview_session.go:1035-1120 | Following next cursors through the service is following them through the listing |
| PagingRefinement.BelowStartAt | internal/utils/format.go:33-35 | A cursor cut to seconds leads to the row after its own if and only if that row lies below the cut cursor; it never leads back |
| PagingRefinement.BoundaryCondition | internal/utils/format.go:33-35 | Both conditions, for going forward and back, say of the two neighbours: not the same second, unless the older has the lower id and sits on the whole second |
| PagingRefinement.NextChainIsJump | internal/services/interview_session.go:943-1226 | Pages reached by next cursors equal the numbered pages up to page k if and only if behind every boundary crossed the next row lies below the cursor cut to seconds |
| PagingRefinement.OnePerSecondIsClean | internal/utils/format.go:33-35 | With at most one matching session per second the next row lies below the cut cursor at every boundary |
| PagingRefinement.ChainListsEverything | internal/services/interview_session.go:985-994 | With one session per second the chain shows every numbered page, together every matching session once in order, then an empty page, and ends after ceil(count / page size) pages |
| PagingRefinement.PageIndex | internal/services/interview_session.go:990-991 | A page index is below the announced total exactly when the page starts inside the listing |
| PagingRefinement.PrevFromRow | internal/services/interview_session.go:993-1097 | Going back from any row, the first included, shows the run of rows just before it if and only if the next older row does not lie above the cursor cut to seconds |
| PagingRefinement.PrevUndoesNext | internal/services/interview_session.go:993-1097 | Going back from page k + 1 ends with page k and has one extra row at most; it is exactly page k unless its first row sits on a whole second and k > 1 |
| PagingRefinement.OnePerSecondIsQuiet | internal/utils/format.go:33-35 | With at most one matching session per second going back always works |
| PagingBack.PrevChainShowsAll | internal/services/interview_session.go:993-1120 | With one session per second, following prev cursors from any row shows every row before it once, in order, then an empty page, and stops |
| PagingBack.PagesBackBound | internal/services/interview_session.go:990-995 | From the first row of page k + 1 the way back has k pages at most |
| PagingAnswers.AnswersAgree | internal/services/interview_session.go:943-1226 | Pages answered to a client that follows the next cursor of each answer equal the pages answered by number up to page k if and only if behind every boundary crossed the next row lies below the cut cursor |
| PagingAnswers.NumberedShows | internal/services/interview_session.go:1124-1226 | The page answered for a number shows its stretch of the listing by id, text and time in whole seconds, and announces page size and number of pages |
| PagingAnswers.AnswersListEverything | internal/services/interview_session.go:943-1122 | With one session per second a client that follows the next cursors of the answers is shown the listing cut into the announced number of pages, then an empty page without a next cursor |
| PagingAnswers.PrevAnswersShowAll | internal/services/interview_session.go:993-1120 | With one session per second a client that follows the prev cursors of the answers from a page is shown every row before it once, in order, then an empty page without a prev cursor |
| PagingAnswers.ThereAndBack | internal/services/interview_session.go:1105-1119 | From page k + 1, reached by number or by following next cursors, the prev cursors show every row before it on k pages at most |
| PagingAnswers.PrevUndoesNumbered | internal/services/interview_session.go:1105-1119 | The prev cursor answered with page k + 1 leads to a page that ends with page k, with one extra row exactly when its row sits on a whole second and k > 1 |
| PagingAnswers.Defaults | internal/services/interview_session.go:961-974 | No page type is "next", others than the two are refused, no limit is 20, and no page number is page 1 without a prev cursor |
| PagingAnswers.BackFromNowhere | internal/services/interview_session.go:993-1097 | Asked for without a cursor, the page before is the first page with one row more, read backwards |
| PagingWitnesses.NextLosesASession | internal/utils/format.go:33-35 | Two sessions in one second on pages of one: the next cursor never shows the second of them |
| PagingWitnesses.PrevShowsALaterPage | internal/utils/format.go:33-35 | Going back from a session shows an older one of the same second instead of the newer page |
| ChatHistory.GetChatHistoryBySessionToken | internal/services/interview_session.go:681-780 | The array filled from its end is the page read back, oldest turn first, with the first turn number as cursor |
| ChatHistory.BackwardPageFrom | internal/db/sqlc/interview_turns.sql.go:124-130 | Reading back from a turn gives the page-size turns before it in the ascending history |
| ChatHistory.ForwardPageFrom | internal/db/sqlc/interview_turns.sql.go:212-224 | Reading forward from a turn gives the page-size turns after it in the ascending history |
| ChatHistory.PagersAgree | internal/services/interview_session.go:681-780 | Both pagers stop after the same number of pages and assemble the same history: every turn once, ascending |
| EvaluatedHistory.GetChatHistoryWithEvaluation | internal/services/interview_session.go:1390-1524 | The joined rows read forward from a turn number, or an error exactly when an overall or criterion score on the page is below 0 or above 5, with the last turn number as cursor |
| EvaluatedHistory.OneRowIff | internal/db/sqlc/interview_turns.sql.go:10-55 | The join has one row for a turn if and only if it has at most one evaluation and at most one improved sentence |
| EvaluatedHistory.SentencesOnce | internal/db/sqlc/interview_turns.sql.go:10-55 | Grouping leaves every improved sentence of a turn once |
| EvaluatedHistory.StoreStores | internal/repositories/evaluation_scores.go:51-110 | The transaction stores evaluation and improvement exactly when its statements work, the turn has no evaluation and all scores are in range |
| EvaluatedHistory.RightHolds | internal/repositories/evaluation_scores.go:51-110 | Over every run of scoring transactions, failed ones included, each turn has one evaluation in range with one improved sentence, or neither |
| EvaluatedHistory.HistoryIsPlain | internal/db/sqlc/interview_turns.sql.go:10-55 | After any such run the history with evaluations can be read; its pages have the turns and the cursor of the plain pages, each turn with its own evaluation and improved sentence or none |
| TurnNumbers.TurnService.IncreaseMaxTurnNo | internal/services/interview_session.go:503-528 | No number only when neither counter nor table answers; while the counter is ahead, the number handed out is above all stored ones and the counter stays ahead |
| TurnNumbers.TurnService.LargestNumber | internal/db/sqlc/interview_turns.sql.go:319-323 | The largest stored number, 0 for none |
| TurnNumbers.TurnService.CreateSessionTurn | internal/services/interview_session.go:384-479 | One turn more is stored exactly on success, under the number handed out |
| TurnNumbers.StepStores | internal/services/interview_session.go:384-479 | While the counter is ahead a turn is stored, under a number above all others, if and only if counter or table gives a number and the turn's times and statement work |
| TurnNumbers.NumbersHold | internal/db/migration/004_interview_table.up.sql:24-37 | Turn numbers stay unique and positive over every run, lost counter keys included |
| TurnNumbers.StepKeepsAhead | internal/services/interview_session.go:503-528 | One step keeps numbers increasing with the counter ahead unless, exactly, it loses the key while turns exist, or an unapplied increment with a counter not above the stored numbers ends in a stored turn whose number was read from the table and not written back |
| TurnNumbers.NumbersIncrease | internal/services/interview_session.go:503-528 | Stored turn numbers are strictly increasing over every run without such a step |
| TurnNumbers.NumbersRun | internal/services/interview_session.go:503-528 | Over every run numbers increase with the counter ahead throughout if and only if no such step occurs |
| TurnNumbers.WrittenBackIncreases | internal/services/interview_session.go:503-528 | Stored numbers are strictly increasing over every run that writes every number from the table back and loses no key while turns exist |
| TurnNumbers.CounterNumberIsNext | internal/infras/database/redis.go:93-101 | A number from the counter comes after all stored ones if and only if the counter was not behind |
| TurnNumbers.LostKeyDisorders | internal/services/interview_session.go:517-525 | A concrete run with a lost key stores turn 2 after turn 3 |
| TurnNumbers.StoredTurnsPage | internal/services/interview_session.go:681-780 | Whatever happens to the counter key, both pagers serve the stored turns completely and in order |
| LiveServer.Server.HandleConnection | internal/infras/websocket/server.go:196-283 | A connection left open has its session ongoing in both columns and agrees with its stage pair; a closed one has handed off unless it had loaded a finalized session; ledgers stay right |
| LiveServer.Client.Load | internal/infras/websocket/server.go:225-230 | The copy in memory agrees with the session row, and is finalized exactly when the row is |
| LiveServer.Server.InitClient | internal/infras/websocket/server.go:285-328 | A failed agent start closes the connection and hands off; otherwise nothing changes |
| LiveSession.SecondDisconnect | internal/infras/websocket/server.go:494-502 | A second disconnect changes nothing |
| LiveServer.Server.DisconnectClient | internal/infras/websocket/server.go:494-557 | The second call changes nothing; the first closes the connection and, unless it is finalized, logs one hand-off, whose end is queued or, when publishing fails, carried out at once |
| LiveServer.Server.EndInterviewSession | internal/infras/websocket/server.go:517-526 | The fallback changes the one session named, leaves queue and log alone, and ends it as specified |
| LiveServer.Server.SendInterviewerResp | internal/infras/websocket/server_logic.go:388-527 | A connection still open has stored the response's turn and is in the stage it names, and its session row says the same; a closed one keeps its copy; ledgers, agreement and the hand-off log stay right |
| LiveServer.Server.ChangeClientStage | internal/infras/websocket/server_logic.go:465-517 | Row and connection are in the new stage together, or the connection is closed and its copy left as it was |
| LiveServer.Server.UpdateCurrentState | internal/services/interview_session.go:1557-1613 | On success the new stage has started and the last turn of the old one is cached; otherwise no cached turn changes |
| LiveServer.Server.CreateInterviewStateTx | internal/repositories/interview_state.go:33-74 | Starts the new stage, last, open and current, under an id not used before, or changes nothing |
| LiveServer.Server.EndOldCreateNewStateTx | internal/repositories/interview_state.go:76-133 | Ends exactly the old stage with its last turn and starts the new one, last, open and current, under an id not used before, or changes nothing |
| LiveServer.Server.SendInterviewCompleted | internal/infras/websocket/server_logic.go:596-616 | On a connection still open its own session is completed and the connection knows it; while the connection does not know it nothing becomes completed; ledgers and the hand-off log stay right |
| LiveServer.Server.SendUserFullTranscript | internal/infras/websocket/server_logic.go:303-386 | A connection still open remembers the turn, whose new row comes last and whose scoring is published; stage copy, ledgers and the hand-off log stay right and nothing becomes completed |
| LiveServer.Server.CreateSessionTurn | internal/services/interview_session.go:384-479 | A turn stored is the newest of its phrase; a refused one changes nothing |
| LiveServer.Server.CalculateTurnScore | internal/services/evaluation.go:240-375 | A published turn not evaluated before gets its evaluation, its stage a phrase evaluation exactly when the cache names the turn and evaluating works, and the cached turn goes once looked at; otherwise nothing changes |
| LiveServer.Server.UpdateSession | internal/infras/websocket/server_logic.go:277-301 | On success one end of its own session is queued, the connection is finalized and rows and log stay; otherwise the connection is closing and no more finalized than before |
| LiveServer.Server.EndByUser | internal/infras/websocket/server_logic.go:247-257 | Nothing becomes completed; a connection still open has queued exactly one cancelled end and is finalized |
| LiveServer.Server.CompleteByUser | internal/infras/websocket/server_logic.go:259-275 | Without the agent's word the connection closes and nothing becomes completed; a connection still open has it and has queued exactly one completed end |
| LiveServer.Server.TimeOutClient | internal/infras/websocket/server.go:447-458 | Closes a connected connection, queues its timed-out end unless finalized and leaves the row timed out when that write works; changes nothing on another |
| LiveServer.Server.ConsumeEndInterviewSession | internal/infras/queue/consumer/consumer.go:136-174 | A task that meets no failure leaves its session finalized with the task's status; ledgers stay right and no hand-off is logged |
| StageLedger.FirstStageLedger | internal/repositories/interview_state.go:33-74 | Adding a first stage keeps the ledger if and only if the session had no stage |
| StageLedger.NextStageLedger | internal/repositories/interview_state.go:76-133 | Moving on keeps the ledger if and only if the stage ended was the current one and the phrases differ |
| StageLedger.EndRowTouches | internal/db/sqlc/interview_state.sql.go:94-98 | Ending a stage by id changes no other session |
| StageLedger.FirstStageKeeps | internal/services/interview_session.go:1527-1555 | A committed first stage is the current pair; a failed one leaves it; all ledgers stay right |
| StageLedger.NextStageKeeps | internal/services/interview_session.go:1557-1613 | A committed next stage is the current pair; a failed one leaves it; all ledgers stay right |
| StageLedger.ChangeKeeps | internal/infras/websocket/server_logic.go:465-517 | After a stage change, including a failed cache write after the commit, a connection that is still open agrees with its session row |
| StageLedger.HandlerKeeps | internal/infras/websocket/server_logic.go:247-527 | No handler touches another session, and each keeps ledgers and agreement |
| StageLedger.ConnectKeeps | internal/infras/websocket/server.go:196-258 | A connection that stays open starts in agreement with its session row |
| StageLedger.WorkerKeeps | internal/services/interview_session.go:869-941 | Ending, finalizing and scoring leave stages, current pairs and agreement as they are |
| StageLedger.LedgerHolds | internal/infras/websocket/server_logic.go:465-517 | Over every orderly run: no stage and no current pair, or exactly the last stage open and current; neighbours differ; live connections agree; one per session |
| StageLedger.InvAtStart | internal/db/migration/020_create_phrase_evaluation.up.sql:1-38 | Sessions without stages satisfy the invariant |
| StageLedger.TwoConnectionsBreak | internal/infras/websocket/server_logic.go:466-480 | Two live connections of one session that both see the first stage leave its two last stages open, one per connection, so the ledger fails |
| LedgerSteps.WholeStep | internal/infras/websocket/server.go:196-258 | In any world, orderly or not, a step keeps ledgers, agreement and one live connection per session, if and only if it neither sets up a second live connection nor commits a stage change of a closing connection whose session has a live one or is in another stage |
| LedgerSteps.WholeRun | internal/infras/websocket/server_logic.go:465-517 | Over every run, orderly or not, they hold throughout if and only if no step does so |
| LedgerSteps.OrderlyDoesNotBreak | internal/infras/websocket/server.go:182-194 | Orderly steps never do so |
| LedgerSteps.WholeAtStart | internal/db/migration/020_create_phrase_evaluation.up.sql:1-38 | Sessions without stages satisfy what these steps keep |
| StageLedger.FinalizingTwiceDuplicates | internal/db/sqlc/interview_state.sql.go:57-63 | Finalizing a session twice stores exactly two evaluations of the current stage when it has scored turns |
| HandOff.LogMeansHandOff | internal/infras/websocket/server.go:504-527 | A logged hand-off is a queued end or, when publishing failed, an end carried out; without one a disconnect has no effect on rows or queue |
| HandOff.HandlerMoves | internal/infras/websocket/server_logic.go:247-627 | A handler logs a hand-off exactly when it closes an open connection that is not finalized |
| HandOff.ConnectMoves | internal/infras/websocket/server.go:196-258 | A connection that fails while set up has handed off unless it had loaded a finalized session |
| HandOff.InvHolds | internal/infras/websocket/server.go:494-557 | Over every run open connections have not handed off, and closed ones have once unless finalized |
| HandOff.HandOffOnce | internal/infras/websocket/server.go:494-557 | Over every run a connection hands off exactly once if it closes while not finalized, and otherwise not at all |
| HandOff.UserEndedNoHandOff | internal/infras/websocket/server_logic.go:277-301 | Once the user ended the session on an open connection that connection never hands off |
| HandOff.UserEndThenNoHandOff | internal/infras/websocket/server_logic.go:277-301 | The user's successful end queues one end with the right status, and over every later run the connection hands off no other |
| HandOff.ReconnectUnfinalizes | internal/infras/websocket/server.go:225-233 | Coming back to a finalized session and leaving leaves it ongoing with nothing queued; an unfinalized one is handed off |
| HandOff.TaskFinalizes | internal/infras/queue/consumer/consumer.go:136-174 | A queued end that meets no failure gives the session its status, finalizes it and settles every stage |
| HandOff.CompletedThenDropped | internal/infras/websocket/server.go:504-527 | A completed interview whose connection drops before the user confirms becomes cancelled |
| Outcomes.HandlerOutcome | internal/infras/websocket/server_logic.go:247-627 | A handler closes its connection exactly on its failure guards, and then hands off the session with what it has written until then |
| Outcomes.StepStatuses | internal/infras/websocket/server.go:494-557 | For every event and every mix of failures, the status and the finalize status of every session after a step |
| SessionFates.CompletedStep | internal/infras/websocket/server.go:494-528 | A completed session stays completed in a step if and only if neither the monitor writes its status nor an end with another status is carried out up to its status write |
| SessionFates.CompletedRun | internal/infras/websocket/server.go:494-528 | A completed session stays completed throughout a run if and only if no step does so |
| SessionFates.FinalizedStep | internal/infras/websocket/server.go:225-233 | A finalized session stays finalized in a step if and only if no connection reopens it and no end is carried out in which a call fails, other than a fallback whose failure is not written either |
| SessionFates.FinalizedRun | internal/infras/websocket/server.go:225-233 | A finalized session stays finalized throughout a run if and only if no step does so |
| SessionFates.TendedStep | internal/infras/websocket/server.go:494-557 | After a step an ongoing session has an open connection or a queued end, if and only if the step does not leave it ongoing while closing its last connection and queueing nothing, or taking its last task |
| SessionFates.StrandingCauses | internal/infras/websocket/server.go:225-258 | A tended session is stranded only by the close of a finalized connection, a failed setup after reopening, an end on the spot whose failure is not written, or a last task dropped before marking |
| SessionFates.TendedRun | internal/infras/websocket/server.go:494-557 | Over every run an ongoing session always has an open connection or a queued end if and only if no step strands it |
| Provenance.DisconnectCompletes | internal/infras/websocket/server.go:504-527 | A disconnect brings "completed" up only when called with that status |
| Provenance.HandlerCompletes | internal/infras/websocket/server_logic.go:259-301 | A handler brings "completed" up only for its own session and only on the agent's word, now or before |
| Provenance.ConnectCompletes | internal/infras/websocket/server.go:203-223 | Connecting brings "completed" up only for a session already completed |
| Provenance.WorkerCompletes | internal/services/interview_session.go:921-928 | Workers bring "completed" up only from queued work that says so |
| Provenance.CompletedOnlyByAgent | internal/infras/websocket/server_logic.go:596-616 | Over all runs a session is completed, by row, queued work or connection, only if its agent's interview_completed was handled earlier |
| Registry.Server.HandleConnection | internal/infras/websocket/server.go:182-194 | Admits a connection exactly when the session's entry is not connected, enters it for the session and lists the session for its user, and changes nothing else |
| Registry.Server.ReadFailed | internal/infras/websocket/server.go:355-361 | A read error leaves both maps alone; exactly the entries of that connection can be taken over from then on, and exclusivity stays |
| Registry.Server.StartDisconnect | internal/infras/websocket/server.go:494-502 | Only the first caller goes on, with the connection closing and no longer connected; both maps stay |
| Registry.Server.Unregister | internal/infras/websocket/server.go:530-538 | The session's entry goes, whoever it belongs to; its user's set loses exactly that session and disappears when empty; every other set stays |
| Registry.IndexHolds | internal/infras/websocket/server.go:182-194 | On every interleaving a session has an entry exactly when its owner's set lists it, and no set is empty |
| Registry.EntryIff | internal/infras/websocket/server.go:182-194 | On every interleaving a session has an entry if and only if some admission of it is not followed by the end of a disconnect of a connection of that session |
| Registry.AllGone | internal/infras/websocket/server.go:530-538 | Once every connection has finished its disconnect both maps are empty, whatever the interleaving was |
| Registry.ExclusiveMeansOne | internal/infras/websocket/server.go:182-187 | When every connected connection is the registered one a session has one at most |
| Registry.ExclusiveStep | internal/infras/websocket/server.go:530-538 | A step ends that exclusivity if and only if a disconnect removes the entry of another connected connection |
| Registry.ExclusiveRun | internal/infras/websocket/server.go:530-538 | A run keeps exclusivity throughout if and only if no disconnect does so |
| Registry.TwoConnectionsAtOnce | internal/infras/websocket/server.go:355-361 | A concrete interleaving admits a third connection beside the second |
| Inactivity.Client.ReadMessage | internal/infras/websocket/server.go:364-367 | No tick of the three minutes after a message has any effect; warnings and timeouts so far stay |
| Inactivity.Client.MonitorTick | internal/infras/websocket/server.go:423-459 | One pass of the monitor: nothing once the connection is closed; a warning only when none is out; a timeout always with a warning |
| Inactivity.Client.MarkClosed | internal/infras/websocket/server.go:421-429 | Once the connection is closed or closing no tick has any effect |
| Inactivity.LastIsLastHeard | internal/infras/websocket/server.go:364-367 | The activity time is the time of the last message, or of connecting |
| Inactivity.TimesOutExactly | internal/infras/websocket/server.go:447-458 | The client is timed out at the first tick that finds six minutes of silence on an open connection and at no other time |
| Inactivity.WarnsOncePerSilence | internal/infras/websocket/server.go:434-445 | Warnings come after at least three minutes of silence, and between two of them there is a message |
| Inactivity.WarnsExactly | internal/infras/websocket/server.go:434-445 | The client is warned at the first tick of each silence that finds three minutes of it on an open connection not timed out, and at no other time |
| Inactivity.TimeoutWarned | internal/infras/websocket/server.go:434-458 | A client that is timed out was warned in the same silence |
| Inactivity.TimeoutBound | internal/constants/session.go:49-52 | With ticks every ten seconds the silence before a timeout is at least 6 minutes and less than 6 minutes and 10 seconds |
| Evaluation.SessionStore.CalculateEvaluationInOldState | internal/services/evaluation.go:377-475 | One stage: nothing without scored turns, an error without effect on any failure, else the evaluation with its flag |
| Evaluation.SessionStore.CreatePhraseEvaluationTx | internal/repositories/evaluation_scores.go:204-257 | Stores evaluation and flag together, or neither when a statement fails or the stage is missing |
| Evaluation.SessionStore.FinalizeSessionFailed | internal/services/evaluation.go:516-522 | No column but the finalize status changes, and a session is left finalized only when the write fails |
| Evaluation.SessionStore.FinalizeSessionPhraseEvaluation | internal/services/evaluation.go:477-514 | The loop over unprocessed stages with its failure exits has the effect of the recursive specification |
| Evaluation.SessionStore.EndInterviewSession | internal/services/interview_session.go:869-941 | Ending a session: when the writes work it has the status asked for and, from the rows' own scores, an overall score in hundredths within 0.01 of their mean; "failed" on every failing exit |
| Finalization.UnprocessedIs | internal/db/sqlc/interview_state.sql.go:57-63 | The stages picked up are exactly those not ended or not evaluated |
| Finalization.CalculateAllIs | internal/services/evaluation.go:491-505 | The loop stores the evaluations of exactly the stages before the first failing one that have scored turns, each with its flag |
| Finalization.AllPass | internal/services/evaluation.go:491-505 | All stages pass if and only if no call made for any of them fails |
| Finalization.FinalizeIs | internal/services/evaluation.go:477-514 | A finalization changes nothing but the finalize status and stored evaluations with their flags |
| Finalization.FinalizeAllOrFailed | internal/services/evaluation.go:477-514 | "Finalized" is written if and only if no call fails, and then every unprocessed stage is evaluated with its phrase evaluation or had no scored turns; otherwise the status is "failed", or unchanged if that write fails |
| Finalization.FinalizedExactly | internal/services/evaluation.go:477-514 | A finalization that succeeds stores an evaluation for exactly the stages not ended or not evaluated that have a turn with criterion scores, and flags exactly those |
| Finalization.FinalizeAgain | internal/db/sqlc/interview_state.sql.go:57-63 | Finalizing again changes nothing if and only if no open stage has scored turns |
| Finalization.EndAllOrFailed | internal/services/interview_session.go:869-941 | Ending succeeds if and only if no call fails; then status, score, "finalized" and settled stages, otherwise "failed" unless every attempt to write it fails |
| Finalization.EndedScore | internal/services/interview_session.go:885-926 | For rows that hold what is stored for raw scores in range, only a failing call keeps the score from being written; it is in range, in hundredths and within 0.01 of the mean of the raw scores |
| Finalization.EndedScoreOfNone | internal/services/interview_session.go:885-926 | Without evaluations the score written is 0 |
| Finalization.EndedOnceStep | internal/db/sqlc/interview_state.sql.go:114-118 | An attempt to end a session stores an evaluation of an ended stage exactly when it sets its flag, and only one |
| Finalization.OpenStageAdded | internal/db/sqlc/interview_state.sql.go:57-63 | A finalization without failures stores exactly one evaluation of an open stage with scored turns |
| EvaluationRuns.StagesOnlyGrow | internal/services/evaluation.go:377-514 | Over every run of handlers, workers and turn scoring stages keep position, id and phrase, ended and evaluated flags are never taken back and evaluations only appended |
| EvaluationRuns.StepLaw | internal/services/evaluation.go:362-368 | One step adds an evaluation of an ended stage exactly when its flag is set, and one more exactly when it scores the cached last turn of a stage evaluated already |
| EvaluationRuns.EndedStageCount | internal/services/evaluation.go:340-514 | Over every run an ended stage gets exactly one evaluation with its flag and one for every scoring of its cached last turn that finds it evaluated already |
| EvaluationRuns.EvaluatedOnceIff | internal/services/evaluation.go:340-514 | Over every run an ended stage is evaluated at most once if and only if no scoring of its cached last turn finds it evaluated already |
| EvaluationRuns.ReconnectEndsAgain | internal/infras/websocket/server.go:203-223 | Connecting to a session that is over queues its end again, finalized or not; the worker finalizes it again, with one more evaluation of the current stage when it has scored turns |
| LastTurns.NewestTurnIs | internal/db/sqlc/interview_turns.sql.go:299-305 | The lookup of a last turn yields the newest turn stored under the phrase, none without one |
| LastTurns.LookupFindsOwnTurn | internal/db/sqlc/interview_turns.sql.go:299-305 | The lookup of a last turn always finds the turn of the response being handled |
| LastTurns.TurnInvHolds | internal/services/interview_session.go:1596-1605 | Over every orderly run turns are published once, and cached or remembered turns that were spoken in a stage that has ended are the last turn of that stage |
| TriggerBound.TriggerScoresLast | internal/services/evaluation.go:333-368 | A triggered evaluation scores the last turn of its stage, which was not scored before |
| TriggerBound.TriggeredOnce | internal/services/evaluation.go:333-375 | Over every orderly run the scoring of turns evaluates a stage at most once, and never after its last turn is scored |
| TriggerBound.EndedStageBound | internal/services/evaluation.go:333-514 | Over every orderly run an ended stage gets at most one evaluation besides the one that sets its flag, and none once its last turn is scored |
| TriggerBound.LateScoring | internal/services/evaluation.go:362-368 | A session finalized while the last turn of an ended stage waits to be scored evaluates that stage twice |
| TriggerBound.SecondEvaluationHappens | internal/services/evaluation.go:333-375 | A run of nine steps from a new session, orderly and without a failure, ends with two evaluations of the first stage |
| Decimal.ParsePrint | internal/utils/file.go:46-70 | A number printed in decimal reads back as itself |
| Scores.ParseFixed2 | internal/utils/format.go:210-219 | Two printed decimals read back as the hundredths they came from |
| Scores.TrimLossless | internal/utils/format.go:213-216 | Cutting trailing zeros and a trailing dot does not change the number |
| Scores.StoredHundredths | internal/services/evaluation.go:312-312 | A score in range is formatted to, and stored as, its nearest hundredth |
| Scores.OverallScore | internal/services/interview_session.go:885-926 | The averaging loop gives the rounded mean, 0 for no scores, and an error exactly when a text is not a number |
| Scores.OverallFails | internal/services/interview_session.go:893-907 | There is no overall score if and only if some text is not a number |
| Scores.OverallIsHundredths | internal/services/interview_session.go:907-912 | The overall score is the whole number of hundredths nearest to the mean of the texts |
| Scores.RoundsToNearest | internal/utils/format.go:210-223 | Both roundings give the nearest integer, a tie going to the even one or away from zero |
| Scores.PipelineBound | internal/services/interview_session.go:885-926 | Formatting, storing, parsing, averaging and rounding end between 0 and 5 and within 0.01 of the true mean |
| Scores.RoundFloatError | internal/utils/format.go:221-223 | Rounding a criterion average in range errs by half a hundredth at most |
| FileNames.GenerateUniqueFilename | internal/utils/file.go:14-71 | Returns the name itself when it is free, else the base with the least free positive number |
| FileNames.CollectSuffixes | internal/utils/file.go:36-54 | The numbers the existing names take up |
| FileNames.SortedSuffixes | internal/utils/file.go:57-61 | The numbers in ascending order, each once |
| FileNames.NextSuffix | internal/utils/file.go:63-68 | The least positive number not among them |
| FileNames.MatchIsPattern | internal/utils/file.go:12-12 | A name matches the pattern in one way only, the one the scan finds |
| FileNames.SplitName | internal/utils/file.go:15-16 | A name is its base followed by its extension |
| FileNames.NumberedParts | internal/utils/file.go:38-41 | A numbered name has the same extension and the numbered base |
| FileNames.NumberedTakes | internal/utils/file.go:44-49 | A numbered name takes its own number up when its base has no line break |
| FileNames.TakenIff | internal/utils/file.go:36-54 | A file takes a positive number if and only if its name is the base, without line break, a space character, that number in parentheses and the extension |
| FileNames.SuffixWithinCount | internal/utils/file.go:63-68 | On a conflict the number is at most the length of the list |
| FileNames.ChosenClashes | internal/utils/file.go:14-71 | The chosen name is in the list if and only if there was a conflict, the base has a line break and number 1 exists |
| FileNames.FreshIffNoLineBreak | internal/utils/file.go:14-71 | The chosen name is new for every list if and only if the base has no line break |
| FileNames.NamesStayDistinct | internal/services/interview_session.go:178-215 | Over any run of sequential uploads, failed ones included, a user's file names stay pairwise distinct |
| AudioFrames.Copy | internal/infras/websocket/client.go:194-196 | Copies as many bytes as both sides have and leaves the rest |
| AudioFrames.EncodeFrame | internal/infras/websocket/client.go:188-196 | The payload filled by three copies is the length, the header and the audio, or slicing panics |
| AudioFrames.DecodeFrame | internal/infras/websocket/client_callback.go:94-122 | Too short, header too large, out of range, or the two parts |
| AudioFrames.DecodeEncode | internal/infras/websocket/server_logic.go:553-558 | Decoding an encoded frame gives both parts back if and only if header length + 4 fits 32 bits |
| AudioFrames.EncodeDecode | internal/infras/websocket/server_logic.go:100-143 | Re-encoding an accepted frame gives the original bytes |
| AudioFrames.DecodePanics | internal/infras/websocket/server_logic.go:107-114 | Decoding goes out of range for exactly the frames of at least 4 GiB whose length field wraps the index |
| AudioFrames.BigEndian | internal/infras/websocket/client.go:188-192 | The length field has its most significant byte first |
| AudioFrames.RelayKeepsAudio | internal/infras/websocket/server_logic.go:100-151 | The agent gets the user's audio unchanged, under the relay's own session and current segment, if and only if the header sent leaves room for its length in 32 bits |
| AudioFrames.RelayIsSafe | internal/infras/websocket/server_logic.go:100-151 | Under 4 GiB the relay panics if and only if a frame passes every check and the header sent has a length within 4 below a multiple of 2^32 |
| AudioFrames.ForwardingHappens | internal/infras/websocket/server_logic.go:100-151 | For every header and audio there are a codec, a relay and a frame that is forwarded |
| AudioFrames.RelayCases | internal/infras/websocket/server_logic.go:100-151 | The outcome for every frame: sent on under the relay's own header, ignored exactly when short, oversized or without an agent, a panic exactly when decoding panics, refused otherwise |
| AudioFrames.RelayToUserCases | internal/infras/websocket/client_callback.go:94-122 | The outcome for every frame of the agent: sent on as encoded, refused for another session, ignored when short, oversized or unreadable |
| AudioFrames.RelayToUserKeepsAudio | internal/infras/websocket/client_callback.go:94-122 | The user gets the interviewer's audio unchanged, under the session's own header, if and only if that header leaves room for its length in 32 bits |
| AudioFrames.RelayToUserIsSafe | internal/infras/websocket/server_logic.go:529-570 | Under 4 GiB this relay panics if and only if a readable frame of the session has a header with a length within 4 below a multiple of 2^32 |
| ResumeFetch.Reached | internal/services/resume.go:118-176 | In every state of every interleaving each message is unsent, in its channel or received |
| ResumeFetch.NoSenderBlocks | internal/services/resume.go:118-156 | No sender ever waits, not even after a canceled return |
| ResumeFetch.NoDeadlock | internal/services/resume.go:158-176 | Until there is an answer some step is possible |
| ResumeFetch.Terminates | internal/services/resume.go:158-176 | Every execution ends after at most eight steps |
| ResumeFetch.JoinIsSequential | internal/services/resume.go:116-181 | An answer comes after exactly two messages; it is an error if and only if some fetch failed, and then one of theirs; otherwise it is the pair a sequential fetch gives |
| ResumeFetch.Join | internal/services/resume.go:158-181 | The counting loop over the arriving messages: canceled as soon as a select notices it, the first error when some fetch failed, otherwise the pair in either order |
| DefaultResume.ResumeService.GetDefaultResume | internal/repositories/resume.go:103-116 | Finds the user's default, or none |
| DefaultResume.ResumeService.StoreUpload | internal/services/interview_session.go:192-215 | The resume is stored for its user if and only if every call works and its id is new, as default if and only if the user has none; everything else stays |
| DefaultResume.ResumeService.ListResume | internal/services/resume.go:86-196 | Shows the cached default or else the one in the table, and caches it |
| DefaultResume.ResumeService.SwitchDefaultResume | internal/services/resume.go:284-343 | Unsets the known default and sets the new one in one transaction that the unique index may refuse, then deletes the cached copy |
| DefaultResume.CommitsWhen | internal/db/migration/003_resume_table.up.sql:17-19 | The unique index accepts a switch if and only if the new id does not exist, is the user's own or already a default |
| DefaultResume.SwitchKeepsGood | internal/repositories/resume.go:118-140 | A switch keeps every user's one default and the cache right if and only if it is rolled back, or names the user's own resume and leaves no stale copy |
| DefaultResume.UploadKeepsGood | internal/services/interview_session.go:192-215 | An upload that works adds exactly its resume, default if and only if it is the user's first; one that fails changes nothing; the table stays right |
| DefaultResume.GoodHolds | internal/services/resume.go:284-343 | Over any run of uploads, listings, expiries and proper switches each user with resumes has exactly one default, and every listing shows it, cached or not |
| DefaultResume.GoodRun | internal/services/resume.go:284-343 | Over any run table and cache stay right throughout if and only if no switch commits to a resume that is not the user's own or leaves a stale copy |
| DefaultResume.StaleCacheBlocks | internal/services/resume.go:298-330 | With a stale cached default every switch to another own resume is refused |
| DefaultResume.ListThenExpire | internal/services/resume.go:86-196 | A listing that works leaves in the cache what it shows; after an expiry it shows the table's default |
| DefaultResume.LastUpdatedAt | internal/services/resume.go:231-258 | The latest update among the default and the listed resumes, none for no resumes |
| Stages.ValidateSelectedStages | internal/services/interview_session.go:367-382 | Refuses if and only if some stage is invalid, and otherwise gives a canonical order |
| Stages.SortSlice | internal/services/interview_session.go:377-379 | A permutation sorted by rank |
| Stages.CanonicalIsUnique | internal/constants/session.go:72-79 | The canonical order does not depend on the order of the selection or on the sorting used |
| Stages.FourInOrder | internal/constants/session.go:63-79 | A complete selection comes back as Experience, Project, Technical, Behavioral |
| Stages.Idempotent | internal/services/interview_session.go:367-382 | Validating a validated selection changes nothing |
| Rubrics.GroupRows | internal/services/evaluation.go:187-216 | One rubric for every id in the rows, with its criteria in row order and the name of its first row |
| Rubrics.ListRubrics | internal/services/evaluation.go:218-222 | Every rubric once, in whatever order the map yields |
| Rubrics.GroupingConserves | internal/services/evaluation.go:187-222 | Every row lands in exactly one group |

## Left out

- SessionPaging.ListWithCursor: cursors that do not parse, unauthenticated callers and failing queries, which end in an error before any paging; the handler in front of it replaces a limit of 0 or less by the default.
- SessionPaging.ListWithJumpPagination: an offset product too large for the 64-bit arithmetic of the database.
- SessionPaging.FetchSessions: the text search is one arbitrary predicate shared by the listings and the count, and columns besides id, owner, creation time and filter flags are one opaque text.
- ChatHistory.PagersAgree: turn numbers from 2^31 on, which the 32-bit cursor of the program cannot carry.
- EvaluatedHistory.GetChatHistoryWithEvaluation: the JSON form of the evaluation column, a column that is no JSON object (shown as no evaluation), and the texts and colours of scores.
- TurnNumbers.NumbersIncrease: turns of one session numbered concurrently; one turn is created after the other.
- LiveSession: interleavings inside one message handler, and the admission test of a connection, which the registry models at lock granularity; segment mappings, pending-score counters, messages shown to users, and the cached last message: the phrase a user's turn is stored under is any.
- LiveServer.Server.SendInterviewerResp: parsing of times with storing the turn, and caching the message with flagging the conversation as started, are one outcome each, because all their failures close the connection alike.
- LiveServer.Server.CalculateTurnScore: the limit on retries; a published task may be delivered any number of times. Publishing or caching that takes effect although an error is reported.
- LastTurns.LookupFindsOwnTurn: clocks that run backwards; the newest turn by creation time is the one inserted last.
- LiveServer.Server.CompleteByUser: a message that cannot be parsed is one that names another session, since both close the connection.
- HandOff.HandOffOnce: whether a queued task is lost by the queue itself.
- Evaluation.SessionStore.FinalizeSessionPhraseEvaluation: other writers during the loop; the turn evaluations it reads do not change while it works. Soft deletion of stages and evaluations, which no statement of the program performs.
- Scores.PipelineBound: binary rounding of 64-bit and 32-bit floating point; exponents, signs other than a minus and special values in parsed numbers.
- Scores.RoundFloatError: averages outside 0 to 5, which the stored scores rule out.
- FileNames.NamesStayDistinct: uploads of one user that run at the same time, between which the list of names is stale.
- AudioFrames.RelayKeepsAudio: the JSON codec of headers, which is a parameter; that it reads the header sent back is a condition of the last clause only.
- ResumeFetch.JoinIsSequential: the goroutines and channels are a transition system and not a program, since the language has no goroutines; only the receiving loop is a method.
- DefaultResume.ResumeService.ListResume: a cached value that cannot be decoded, which the program treats like a missing one.
- DefaultResume.GoodHolds: a cache deletion that runs later than the switch it belongs to, other than not at all.
- Rubrics.ListRubrics: the percentage and colour derived from a criterion's weight; a criterion is one opaque value.
- Inactivity.TimeoutBound: delayed or dropped ticks.
- HTTP handlers, authentication, object storage, tokens, time zones, colours and display formats: single branches or foreign calls.
