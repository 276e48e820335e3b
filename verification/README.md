# A model of dwo's sessions, streams, repositories and adapters

This project models, in Dafny, the parts of dwo that have to be right under every interleaving, every
failure and every input, and proves what they promise.

* **Session actor and event stream.** One actor owns a session: its phase, active turn, manual
  compaction, pending permission, waiting close, expiry deadline and a numbered broadcast. `SessionActor`
  holds each handler as a function on the session's state; `Actor` holds the actor itself, a class whose
  methods are proved to do exactly that; `SessionRuns`, `SessionEmissions`, `SessionHistory` and
  `SessionStream` prove what every run keeps; `SessionReplies` says what each request is answered, `SessionNews`
  what the broadcast tells, `TurnEnds` how the end of a turn is told, `CancelledTurns` what becomes of one that is
  told to stop, `SessionCloses` who gets an answer to a close, and `SessionExpiry` when an idle session waits for
  its deletion.
  `Subscription` is the bounded queue in front of a subscriber that drops streamed text when it is full and
  repays it with one summary; `EndToEnd` puts actor, snapshot, queue and client together. `TurnTask` is what
  runs a turn, `Steering` joins it with the actor, `Permission` is the gate for confirmations. `Following` is
  a client that keeps a value of its own by following the broadcast: `Tools` its list of tool calls,
  `PermissionView` the request it shows as waiting.
* **Terminal cache.** `TerminalCache` is the byte-retaining cache with four budgets, its eviction loop and
  its drop counts; `TerminalStatus` says what its views tell and which of them go.
* **Repositories.** `Store` says what a repository promises and holds the in-memory one, `StoreHistory` what that
  means for a history of operations; `Disk` is the directory tree with the file-system calls as functions; `Scan`
  the search of a restart; `Repository` the repository on disk; `Transcript` the append-only file with its repair
  of a torn last line.
* **Texts.** `Fences` balances code fences across the chunks of a message and builds a fence nothing can
  close; `Splitting` cuts texts into messages and sends them; `Text` holds the string functions they use.
* **Send now.** `DeferredCancel` is the protocol of deferred cancels and prompt waiters of the ACP v1
  adapter, as a state machine over the stretches of code between await points; `AcpAdapter` holds its state
  and methods, `PromptAnswers` goes back from every answer to its cause.
* **Replay.** `Replay` shows a loading client the terminals of a session; `ReplayedTerminals` says what it shows
  and closes after any run of the actor.

`Events` and `Common` hold what the others share.

## How to read it

Code that changes state is a class, and each method's contract ties the new state to a function of the old
one; the theorems are lemmas about those functions and about runs of them. What the model cannot know is a
parameter: whether a save or an append succeeds, what time it is, which ids are fresh, what the model and the
tools reply, how full a queue is, in which order tasks run and directory entries are read. A theorem that
holds for every value of these holds for every behaviour of the world they stand for.

Six assumptions are made explicit as predicates: ids handed out are fresh (`FreshTurns`, `FreshRequests`,
`FreshTerminals`, `FreshOpens`), an active session keeps the date it is filed under (`Fair`), the actor handles
the messages of a run before it stops (`Handled`), and a JSON record is written without raw newlines (section 7
of RFC 8259) or white space around it, reads back, and no text that parses is the beginning of another
(`Lawful`); a terminal that exits does not report itself as running (`HonestExits`), and the end of a turn is
reported by its own task (`ReportedByTask`).
Section 4.5 of CommonMark 0.31.2 describes the fences that `Fences` scans for in the source's own, simpler way.

Eleven things the code does that a reader may not expect are stated as theorems:

* expiry looks at turns only, so a due session is deleted while its manual compaction runs
  (`ExpiryCanCutACompaction`);
* if the record of a finished step cannot be appended, a client shows the old step until the next delta; the
  exact condition is in `SnapshotAndStreamGiveTheState`;
* a transcript whose last record lacks its newline is accepted, and the next append makes the file unreadable;
  the exact condition is in `LoadAppendLoad`;
* a chunk that fills the limit goes over it when balancing adds a fence line (`SentChunksStandAlone`);
* a cut inside a line can lose a fence or make one that is not there, in ordinary lines too
  (`HardCutsCanLoseAFence`, `HardCutsCanMakeAFence`); `CutInsideALine` says exactly when it does neither;
* an interruption empties the actor's list of calls while a client goes on showing them, and a call that had
  ended can start again (`AnEndedCallCanRestart`); `ClientSeesTheTools` has the exact condition;
* a cancel takes a waiting permission away without telling anyone (`ClientSeesThePending`), and after one a
  second close leaves the first without an answer (`ASecondCloseDropsTheFirst`);
* a prompt that fails after it has cleared the deadline leaves an ephemeral session that expiry never deletes
  (`IdleSessionsAwaitDeletion`, `LostDeadlinesNeverCome`);
* a session saved after a restart in another time zone can get a second directory, and then comes back after it
  has been deleted (`UnfairSaveShows`);
* a prompt accepted after a turn's last drain is never read by it (`AcceptedPromptsAreReadOrQueued`);
* a prompt the daemon rejects can take away the waiter of another, accepted prompt (`RejectionDropsAnother`).

`dafny verify dfyconfig.toml` checks the project; nothing here runs the program it models.

## Model

| member | source | states |
|---|---|---|
| Events.ApplyDelta | crates/dwo-agent-service/src/events.rs:411-453 | after a delta there is an active step, of the delta's turn, step id and revision, whatever was there before |
| Subscription.Forwarder.ApplyStepDelta | crates/dwo-agent-service/src/events.rs:411-453 | a text delta moves the active step as specified and says so; any other payload leaves it alone |
| Subscription.Forwarder.UpdateStepCheckpoint | crates/dwo-agent-service/src/events.rs:481-519 | a finished message moves the step on or empties it, a turn's end clears its own step, anything else leaves it |
| Subscription.Forwarder.TrySendStepSnapshot | crates/dwo-agent-service/src/events.rs:461-479 | exactly one summary of the active step enters the queue, and only if there is a step and the queue has room |
| Subscription.Forwarder.Handle | crates/dwo-agent-service/src/events.rs:344-402 | one received event, for any state of the queue: skip, deliver, drop and owe, or repay the debt first, or end |
| Subscription.Forwarder.Feed | crates/dwo-agent-service/src/events.rs:331-408 | the loop over a whole source ends in the state of the specified pump, for every schedule of queue states |
| Subscription.CoalescedStreamRebuildsTheState | crates/dwo-agent-service/src/events.rs:331-519 | for every schedule of queue-full moments, the client that folds what is delivered has the transcript and terminal output of the whole stream, and the whole state whenever no summary is owed |
| Subscription.DeliveryIsOrderedAndComplete | crates/dwo-agent-service/src/events.rs:341-404 | delivered numbers increase and exceed the watermark; no event but a delta is dropped or reordered before the end; an owed summary always has a step to send |
| Subscription.DebtIsRepaid | crates/dwo-agent-service/src/events.rs:361-401 | the first event that finds room, of whatever kind, leaves the client in the state of the whole stream |
| Subscription.EndsExactlyWhen | crates/dwo-agent-service/src/events.rs:344-402 | the loop ends exactly when the broadcast lags or closes, or a send finds the subscriber gone |
| Subscription.NothingAfterAGap | crates/dwo-agent-service/src/events.rs:391-401 | once the receiver lagged, or the broadcast closed, the loop has ended, and what is delivered is what was delivered before |
| Subscription.LaggingLeavesNoGap | crates/dwo-agent-service/src/events.rs:341-401 | for a receiver that may miss any stretches and for every schedule: what is delivered, but for deltas and summaries, is a beginning of what was broadcast past the watermark, without a gap |
| TerminalCache.TerminalViewCache.ObserveEvent | crates/dwo-agent-service/src/session.rs:502-618 | the deque after an event is the specified one, for every event |
| TerminalCache.TerminalViewCache.ObserveOpened | crates/dwo-agent-service/src/session.rs:505-559 | an opened terminal is cached at the young end, after evictions that make room, unless it is cached already or its own metadata is over the budget |
| TerminalCache.TerminalViewCache.ObserveOutput | crates/dwo-agent-service/src/session.rs:560-594 | output moves the view to the young end, appends, drops what exceeds the view's budget, then settles the total |
| TerminalCache.TerminalViewCache.ObserveExited | crates/dwo-agent-service/src/session.rs:595-610 | an exit is noted on its view, which moves to the young end |
| TerminalCache.TerminalViewCache.TrimExcess | crates/dwo-agent-service/src/session.rs:580-593 | the excess over the total budget is taken from the oldest views on |
| TerminalCache.ObserveKeepsBudgets | crates/dwo-agent-service/src/session.rs:502-613 | per-terminal bytes, total bytes, count and metadata stay in budget and ids distinct, for every event from every such state |
| TerminalCache.EvictKeepsBudgets | crates/dwo-agent-service/src/session.rs:518-548 | the eviction loop ends, with room for the new terminal, and keeps only views that were there |
| TerminalCache.EvictSparesRunning | crates/dwo-agent-service/src/session.rs:518-548 | a running terminal is evicted only when it must be: every exited one is gone by then, and the running ones alone leave no room for the new one |
| TerminalCache.AppendCounts | crates/dwo-agent-service/src/session.rs:568-579 | dropped plus retained grows by exactly what arrived, and what is retained is the end of what was retained and arrived |
| TerminalCache.JustWrittenIsSpared | crates/dwo-agent-service/src/session.rs:560-594 | the view just written is the youngest and loses nothing to the total budget |
| TerminalCache.CacheIsSound | crates/dwo-agent-service/src/session.rs:502-618 | over every history of fresh terminals: each view's dropped plus retained is its stream's length, the retained bytes are the stream's suffix, budgets hold, and views stand in order of last use |
| TerminalStatus.ViewsTellTheLog | crates/dwo-agent-service/src/session.rs:505-610 | over every history of fresh opens a cached view carries the tool call, command and directory of the last opening, and the status and exit code of the last exit since, or says that it runs |
| TerminalStatus.RunningMeansNoExit | crates/dwo-agent-service/src/session.rs:595-610 | with honest exit statuses a cached view runs exactly if its terminal has not exited since it was opened |
| TerminalStatus.ExitedGoFirst | crates/dwo-agent-service/src/session.rs:518-548 | no terminal that runs is evicted while one that has exited stays cached |
| TerminalStatus.OpeningCaches | crates/dwo-agent-service/src/session.rs:505-559 | an opening makes its terminal cached exactly if its own metadata is within its budget |
| TerminalStatus.OnlyOpeningsEvict | crates/dwo-agent-service/src/session.rs:502-618 | a view goes only for an opening for which there is no room |
| TerminalStatus.EvictTakesTheOldest | crates/dwo-agent-service/src/session.rs:530-547 | evictions take exited terminals, oldest first, and running ones, oldest first, only when no exited one is left |
| TerminalStatus.EvictStopsInTime | crates/dwo-agent-service/src/session.rs:518-548 | and stop as soon as there is room |
| TerminalStatus.SettleTakesTheExcess | crates/dwo-agent-service/src/session.rs:580-593 | exactly what is over the total budget goes, and a view loses bytes only when all older ones have lost theirs |
| SessionRuns.HandleKeepsInv | crates/dwo-agent-service/src/session.rs:821-2142 | every request and event keeps the control invariant below |
| SessionRuns.RunsKeepInv | crates/dwo-agent-service/src/session.rs:731-768 | in every reachable state: never a turn and a manual compaction together; idle iff neither; a permission pending iff the phase waits for it, and then of the active turn; a close waits only while something is being stopped; an ephemeral session with a turn has no deadline |
| Actor.SessionTask.BroadcastEvent | crates/dwo-agent-service/src/session.rs:2286-2293 | a broadcast takes the next number |
| Actor.SessionTask.RecordEvent | crates/dwo-agent-service/src/session.rs:2263-2284 | a record that could be appended is broadcast and kept, one that could not is neither |
| Actor.SessionTask.Stop | crates/dwo-agent-service/src/session.rs:755-767 | the end of the loop cancels what is running and rejects a waiting permission |
| Actor.SessionTask.CheckPrompt | crates/dwo-agent-service/src/session.rs:908-960 | why a prompt is refused before anything changes |
| Actor.SessionTask.Ask | crates/dwo-agent-service/src/session.rs:908-1106 | a prompt is refused, steered into the active turn, or starts one, and a pending deadline is cleared |
| Actor.SessionTask.SteerActive | crates/dwo-agent-service/src/session.rs:969-997 | a prompt during a turn is recorded and queued for it, in order |
| Actor.SessionTask.Begin | crates/dwo-agent-service/src/session.rs:999-1106 | a prompt without a turn announces itself, then the turn it starts |
| Actor.SessionTask.Cancel | crates/dwo-agent-service/src/session.rs:1162-1185 | cancels the expected turn or the compaction and rejects a waiting permission; otherwise changes nothing |
| Actor.SessionTask.Compact | crates/dwo-agent-service/src/session.rs:1447-1531 | a manual compaction starts only from idle |
| Actor.SessionTask.Keep | crates/dwo-agent-service/src/session.rs:1355-1367 | a kept session is no longer ephemeral and has no deadline; the answer says whether anything had to change; a failed save changes nothing |
| Actor.SessionTask.Unload | crates/dwo-agent-service/src/session.rs:1412-1445 | when idle closes at once and answers with the outcome of the last save; otherwise stops what runs and keeps the response for its end; a close under way refuses another |
| Actor.SessionTask.RespondPermission | crates/dwo-agent-service/src/session.rs:1392-1410 | only the pending request of the active turn is answered, and the turn runs on |
| Actor.SessionTask.OnDelta | crates/dwo-agent-service/src/session.rs:1537-1584 | a delta of the active turn is broadcast with the next revision; any other is dropped |
| Actor.SessionTask.OnStepEnded | crates/dwo-agent-service/src/session.rs:1585-1652 | a finished or interrupted message opens the next step and is recorded |
| Actor.SessionTask.ProjectToolCall | crates/dwo-agent-service/src/events.rs:521-551 | a report of a call changes the list of calls, and asks for a record, only as specified |
| Actor.SessionTask.OnToolChanged | crates/dwo-agent-service/src/session.rs:1672-1683 | a changed call of the active turn is recorded; an unchanged one is not |
| Actor.SessionTask.OnToolsInterrupted | crates/dwo-agent-service/src/session.rs:1684-1703 | every unfinished call is reported once with the interrupting status, and none stays active |
| Actor.SessionTask.OnToolDone | crates/dwo-agent-service/src/session.rs:1704-1723 | a call's result is recorded and the call taken off the list |
| Actor.SessionTask.OnTelemetry | crates/dwo-agent-service/src/session.rs:1724-1809 | terminal telemetry is cached whether or not a turn is active, and announced |
| Actor.SessionTask.OnTurnDone | crates/dwo-agent-service/src/session.rs:1810-1877 | the turn's end frees the session, rejects a waiting permission, sets the deadline, is broadcast, and lets a waiting close go on: it is answered with the outcome of the last save and the actor stops |
| Actor.SessionTask.ApplyCompactionResult | crates/dwo-agent-service/src/session.rs:2021-2123 | the result of the current compaction is recorded, frees the session and lets a waiting close go on; a stale one is ignored |
| Actor.SessionTask.OnPermissionAsked | crates/dwo-agent-service/src/session.rs:2125-2142 | a request of the active turn replaces the one before it; one of another turn is rejected |
| Actor.SessionTask.Expire | crates/dwo-agent-service/src/session.rs:769-819 | only a due ephemeral session is deleted; a stale alarm sets the timer again |
| Actor.SessionTask.Receive | crates/dwo-agent-service/src/session.rs:821-2020 | every message is handled as specified |
| Actor.SessionTask.Serve | crates/dwo-agent-service/src/session.rs:731-768 | a whole run of the actor's loop ends in the state of the specified run |
| SessionReplies.PromptIsAccepted | crates/dwo-agent-service/src/session.rs:908-1106 | a prompt is accepted exactly if the session is neither closing nor cancelling nor compacting, has not done its work, takes its images, all that has to be saved is saved and a running turn still reads; or if it only asks a running turn to go on |
| SessionReplies.PromptIsRefused | crates/dwo-agent-service/src/session.rs:908-997 | which error each other prompt gets, in order, and when it changes nothing |
| SessionReplies.ReceiptsAreTrue | crates/dwo-agent-service/src/session.rs:969-1106 | a receipt names the turn that runs and the record that was made of a user's prompt, the only one made |
| SessionReplies.RequestsAreAnswered | crates/dwo-agent-service/src/session.rs:1162-1531 | cancel, compact, keep, respond and unload: when each succeeds, with which effect, and with which error it changes nothing |
| SessionReplies.StaleMessagesChangeNothing | crates/dwo-agent-service/src/session.rs:1533-1877 | what is reported of a turn that is not active, or of a compaction that is not running, changes nothing |
| CancelledTurns.StoppedTurnsTakeNoPrompt | crates/dwo-agent-service/src/session.rs:917-928 | over every run: from an accepted cancel or a close until the turn ends or a late permission request moves the phase, nothing is sent into the turn, and neither transcript nor broadcast gets a prompt |
| CancelledTurns.OnlyTheToldAreCancelled | crates/dwo-agent-service/src/session.rs:1162-1185 | over every run the active turn or compaction is cancelled exactly if it has been told to stop since it started |
| CancelledTurns.CompactionsAreReported | crates/dwo-agent-service/src/session.rs:2021-2105 | over every run a compaction is recorded as cancelled exactly if it was told to stop, else as completed or failed as it came out |
| TurnEnds.EndsTellTheirOutcomes | crates/dwo-agent-service/src/session.rs:1837-1847 | over every run the ends in the broadcast are, one by one, those of the messages that ended the active turn, each completed, cancelled or failed exactly if its message says so |
| TurnEnds.EndsTellWhatWasPlayed | crates/dwo-agent-service/src/turn.rs:203-225 | and exactly if the script of the turn's task played to that; completed only after a reply without tools before whose drain no prompt came |
| TurnEnds.CompletionIsRemembered | crates/dwo-agent-service/src/session.rs:1818-1826 | over every run a session has done its work exactly if a turn has completed while it was ephemeral |
| SessionNews.NewsSaysWhatHappened | crates/dwo-agent-service/src/session.rs:1585-1809 | over every run the news of finished messages, terminals, permissions, starts and closing is, one by one and in order, what the messages reported |
| SessionNews.PromptsAreAnnounced | crates/dwo-agent-service/src/session.rs:969-1106 | what a prompt makes the actor broadcast: itself, the settings that it moves, the start of its turn |
| SessionNews.EntriesAreAnnounced | crates/dwo-agent-service/src/session.rs:1447-1531 | what a compaction that begins or ends and a touched file add to the broadcast |
| SessionNews.RejectionsNameTheirCause | crates/dwo-agent-service/src/permission.rs:96-132 | why a waiting request is rejected is what happened: cancelled, finished, closed or replaced |
| SessionNews.FinishedMessagesKeepTheirIds | crates/dwo-agent-service/src/session.rs:1585-1652 | the message that finishes a step carries the ids under which the step was streamed, and its own text |
| SessionHistory.NothingWaitsInTheEnd | crates/dwo-agent-service/src/session.rs:755-767 | whatever stops the actor leaves nothing running, no timer armed and no request undecided |
| SessionEmissions.HandleSends | crates/dwo-agent-service/src/session.rs:2263-2293 | what a message makes the actor broadcast is appended, numbered on without a gap, and its recorded part is appended to the transcript |
| SessionHistory.RunsAreBracketed | crates/dwo-agent-service/src/session.rs:1070-1085 | over every run the broadcast passes the bracket automaton, and its bracket is the active turn |
| SessionHistory.NumbersAreContiguous | crates/dwo-agent-service/src/session.rs:2286-2293 | the k-th broadcast event carries number k, counted from 1 |
| SessionHistory.EndsMatchStarts | crates/dwo-agent-service/src/session.rs:1810-1853 | every turn is ended as often as it was started, but for the one still running |
| SessionHistory.DeltasLieInside | crates/dwo-agent-service/src/session.rs:1537-1584 | every delta lies after the start of its own turn with no start or end in between |
| SessionHistory.DeltasAdvance | crates/dwo-agent-service/src/session.rs:1537-1652 | within a turn, (step id, revision) of the deltas increases strictly, lexicographically |
| SessionHistory.TurnsStartOnce | crates/dwo-agent-service/src/session.rs:1070-1085 | with fresh turn ids no turn is ever started twice |
| SessionHistory.EachTurnEndsOnce | crates/dwo-agent-service/src/session.rs:1810-1853 | a turn is ended exactly once if it was started and is no longer active, and never otherwise |
| SessionHistory.TimerDeletesOnlyDueSessions | crates/dwo-agent-service/src/session.rs:790-819 | an alarm deletes exactly the sessions whose deadline has come, none of them with a turn, and changes nothing else |
| SessionHistory.DeadlineHasACause | crates/dwo-agent-service/src/session.rs:1822-1826 | over every run a deadline is the one the run began with, or was set by the end of a turn, a grace period ahead, and not touched since |
| SessionHistory.DeletionWaitsForTheGrace | crates/dwo-agent-service/src/session.rs:790-819 | over every run expiry deletes a session only by an alarm a grace period or more after the end of a turn, or at the deadline the run began with, and never during a turn |
| SessionExpiry.IdleSessionsAwaitDeletion | crates/dwo-agent-service/src/session.rs:961-966 | over every run an idle ephemeral session has no deadline exactly when it has had none since the run began, or since a prompt cleared it and then failed, with no turn ended after that |
| SessionExpiry.LostDeadlinesNeverCome | crates/dwo-agent-service/src/session.rs:790-819 | a session that has lost its deadline is never deleted by expiry as long as no further turn ends |
| SessionHistory.KeptSessionsAreNeverDeleted | crates/dwo-agent-service/src/session.rs:769-819 | over every run a session that is not ephemeral is never deleted by expiry and never becomes ephemeral |
| SessionHistory.KeepingIsForGood | crates/dwo-agent-service/src/session.rs:1355-1367 | once a keep is saved no run deletes the session by expiry or makes it ephemeral again |
| SessionHistory.ExpiryCanCutACompaction | crates/dwo-agent-service/src/session.rs:790-819 | the guard looks at turns only: a run in which expiry deletes a session while its manual compaction runs |
| SessionHistory.RequestsAreDecidedOnce | crates/dwo-agent-service/src/permission.rs:96-132 | over every run with fresh request ids no request is decided twice |
| SessionHistory.LeavingTheGateDecides | crates/dwo-agent-service/src/session.rs:1392-1410 | whatever takes a request off the gate decides it at that moment, and allows it only if it is an allowing answer with its id |
| SessionHistory.TurnEndsRejectTheWaiting | crates/dwo-agent-service/src/session.rs:2125-2142 | cancelling, finishing or closing the turn, or a newer request, rejects the waiting one |
| SessionHistory.AllowedWasAnswered | crates/dwo-agent-service/src/session.rs:1392-1410 | over every run, an allowing decision goes back to an accepted answer that named the request while its turn was active |
| PermissionView.ClientSeesThePending | crates/dwo-agent-service/src/session.rs:2125-2142 | over every run a client that starts from the snapshot and follows the broadcast shows the pending request exactly when no cancel has taken one away that nothing has told it of since; while it lags none is pending, the one it shows is of the active turn, and an answer to it is refused |
| PermissionView.CancelLeavesTheRequestShown | crates/dwo-agent-service/src/session.rs:1162-1185 | the lag occurs: a cancel takes the request away without a broadcast |
| SessionCloses.ClosesAreAccountedFor | crates/dwo-agent-service/src/session.rs:1412-1445 | over every run each request to close has been answered once, or its waiting response was dropped once, or it still waits: the counts add up |
| SessionCloses.CloseIsAnsweredOnce | crates/dwo-agent-service/src/session.rs:1867-1873 | no close is answered twice; when the actor has stopped, one is answered iff its response was never dropped: by another close in its place, by the last handle going, or by expiry |
| SessionCloses.ASecondCloseDropsTheFirst | crates/dwo-agent-service/src/session.rs:1437-1438 | a cancel between two requests to close makes the second take the first one's place |
| Permission.AllowedMeansAnswered | crates/dwo-agent-service/src/permission.rs:35-83 | a confirmation is allowed iff it saw no cancellation and its one decision was an allowing answer |
| Permission.PermissionState.Register | crates/dwo-agent-service/src/permission.rs:96-103 | a new request rejects the one it replaces |
| Permission.PermissionState.Respond | crates/dwo-agent-service/src/permission.rs:105-126 | only the pending id is taken and decided; any other answer leaves the gate as it was |
| Permission.PermissionState.Reject | crates/dwo-agent-service/src/permission.rs:128-132 | whatever is pending is rejected |
| Permission.PermissionState.Refuse | crates/dwo-agent-service/src/permission.rs:85-94 | a request that never got to the gate is rejected |
| SessionStream.HandleReplica | crates/dwo-agent-service/src/session.rs:1533-1877 | whatever the message, a client that folds the broadcast keeps up with the actor's transcript, step and terminal output |
| SessionStream.SnapshotAndStreamGiveTheState | crates/dwo-agent-service/src/session.rs:823-834 | a snapshot at any watermark and for any cursor, with the part of the transcript the client holds already, and the broadcast after it, give the actor's transcript; its active step iff no record of a finished step was lost since the last delta |
| SessionStream.NoLossNoLag | crates/dwo-agent-service/src/session.rs:2263-2284 | when every such record is kept, the step agrees at every moment |
| SessionStream.LostRecordLags | crates/dwo-agent-service/src/session.rs:2263-2284 | a lost record does make a client show the old step, until the next delta |
| SessionStream.RunKeepsCacheSound | crates/dwo-agent-service/src/session.rs:1724-1763 | over every run the actor's terminal cache is sound for the telemetry it received |
| SessionStream.TerminalBytesAreContinuous | crates/dwo-agent-service/src/session.rs:1724-1763 | for any cursor, a snapshot's bytes of a terminal and the output broadcast after its watermark are the terminal's stream from the dropped offset on: no gap, no overlap, nothing newer in the snapshot |
| SessionStream.ResubscribingSendsTheRest | crates/dwo-agent-service/src/session.rs:2208-2213 | over every run, subscribing with the cursor of an earlier snapshot sends exactly what has been recorded since |
| EndToEnd.SubscriberRebuildsTheSession | crates/dwo-agent-service/src/session.rs:193-212 | actor, snapshot, lossy queue and client together: what is delivered gives the actor's transcript, and its active step whenever nothing is owed and no record lost, for every run, watermark, cursor and schedule |
| EndToEnd.DeliveredEqualsBroadcast | crates/dwo-agent-service/src/events.rs:331-404 | what a live subscription delivers folds to the same client as the broadcast past the snapshot |
| EndToEnd.SubscriberHasEveryTerminalByte | crates/dwo-agent-service/src/session.rs:823-834 | the same for terminal bytes, for any cursor, even while a summary is owed |
| EndToEnd.SubscriberSeesToolsAndPermission | crates/dwo-agent-service/src/session.rs:2208-2247 | the same for the tool calls, but those gone astray, and for the pending permission, but for a cancel untold |
| EndToEnd.LaggingSubscribersSeeNoGap | crates/dwo-agent-service/src/events.rs:331-404 | actor, snapshot and a receiver that may lag, for every run, cursor and schedule: what is delivered but for deltas and summaries is a beginning of the later broadcast, the client's transcript one of the actor's, and after a gap the stream has ended |
| Tools.ClientSeesTheTools | crates/dwo-agent-service/src/session.rs:1672-1723 | over every run a client that follows the broadcast shows the actor's calls at every moment exactly when no change and no result of a call goes unrecorded and no interruption takes calls off the actor's list |
| Tools.EntriesAgreeOffAstray | crates/dwo-agent-service/src/session.rs:1672-1723 | and call by call: an entry agrees unless an unrecorded change, an unrecorded result or an interruption parted it and nothing recorded has mended it since; a new turn starts with none |
| Tools.ReportsAreTaken | crates/dwo-agent-service/src/events.rs:521-551 | a report becomes the entry of its call, name and input with it, but that an ended call keeps its status; no other entry changes |
| Tools.EndedStaysEnded | crates/dwo-agent-service/src/events.rs:521-555 | over every run a call that has ended stays ended, whatever is reported of it, exactly as long as neither its result nor an interruption nor the end of its turn takes it off |
| Tools.LateReports | crates/dwo-agent-service/src/events.rs:521-555 | a late report that a call is under way changes the call exactly unless its status is one of the four that end it, and changes no other call |
| Tools.AnEndedCallCanRestart | crates/dwo-agent-service/src/session.rs:1684-1703 | an interruption makes the actor forget an ended call: a later report starts it afresh |
| Tools.InterruptionEndsEverything | crates/dwo-agent-service/src/session.rs:1684-1703 | after an interruption a client in step shows nothing running exactly when the record of every unfinished call was saved |
| TurnTask.SteeringIsFifo | crates/dwo-agent-service/src/turn.rs:118-127 | over a whole turn, for every script of failures and arrivals: the drained batches are, in order and without loss or repetition, what was sent up to the last drain; the turn completes only after a drain that found nothing |
| TurnTask.OutcomesHaveCauses | crates/dwo-agent-service/src/turn.rs:203-225 | over a whole turn: it ends cancelled exactly if the first trouble of its last round is a cancellation, failed exactly if it is a failure, completed exactly if there is none |
| TurnTask.RequestsLeaveNothingQueued | crates/dwo-agent-service/src/model_request.rs:48-208 | every request and every renewed one is made with nothing left in the queue |
| TurnTask.CompletesOnAnUnansweredReply | crates/dwo-agent-service/src/turn.rs:275-304 | over a whole turn: it completes only in a round whose reply has no tools and before whose drain no message came, and no earlier round ended it |
| TurnTask.Execution.TakeSteerMessages | crates/dwo-agent-service/src/turn.rs:118-127 | the drained batch is the whole queue, in order, and the queue is empty after |
| TurnTask.Execution.Settle | crates/dwo-agent-service/src/turn.rs:153-159 | the batch is in the context even if the checkpoint fails; it says go on iff something came |
| TurnTask.Execution.RequestModel | crates/dwo-agent-service/src/model_request.rs:48-208 | across all retries the queue is drained as specified |
| TurnTask.Execution.ApplyReply | crates/dwo-agent-service/src/turn.rs:275-304 | after a reply another round follows iff there were tools or messages |
| TurnTask.Execution.RunRound | crates/dwo-agent-service/src/turn.rs:203-225 | one round of the loop |
| TurnTask.Execution.RunLoop | crates/dwo-agent-service/src/turn.rs:203-225 | the loop ends in the specified state with the specified outcome |
| Steering.PlayIsBeats | crates/dwo-agent-service/src/turn.rs:203-225 | whatever the script of a turn, it does to its channel just the arrivals and drains in the order it names them |
| Steering.SteeredIsSent | crates/dwo-agent-service/src/session.rs:984-991 | while a turn is active, the prompts the actor has accepted into it are, in order, what its channel has received, whatever else the actor handles |
| Steering.AcceptedPromptsAreReadOrQueued | crates/dwo-agent-service/src/session.rs:969-997 | actor and turn together, for every interleaving and script: the prompts accepted into a turn are, in order, those drained into its batches, then those queued, then those accepted after its last step; when it completes, one goes unread exactly if it was accepted after the last drain |
| Store.MemoryRepository.SaveRecord | crates/dwo-agent-service/src/repository.rs:51-62 | a saved record is there, with its transcript as it was or empty |
| Store.MemoryRepository.Remove | crates/dwo-agent-service/src/repository.rs:82-86 | record, transcript and archive mark go together |
| Store.MemoryRepository.MoveToArchive | crates/dwo-agent-service/src/repository.rs:88-94 | only a known session is archived |
| Store.MemoryRepository.MoveBack | crates/dwo-agent-service/src/repository.rs:96-101 | true iff the session is known |
| Store.MemoryRepository.AppendEvent | crates/dwo-agent-service/src/repository.rs:121-136 | an event is appended to a known session's transcript, and refused otherwise |
| Store.MemoryRepository.Select | crates/dwo-agent-service/src/repository.rs:68-80 | the active, or the archived, sessions, each once, most recently updated first |
| Store.MemoryRepository.Serve | crates/dwo-agent-service/src/repository.rs:49-147 | every operation changes the store and answers as specified |
| StoreHistory.AnswersTellTheHistory | crates/dwo-agent-service/src/repository.rs:49-147 | over every sequence of operations: what is loaded was saved last and not deleted since, a transcript holds what was appended since, and archived is what was archived and not taken back |
| StoreHistory.ListsTellTheHistory | crates/dwo-agent-service/src/repository.rs:68-80 | and a list holds exactly the sessions that this says are there, archived or not as it is asked for |
| Store.ForgettingSimulates | crates/dwo-agent-service/src/repository.rs:162-219 | a store without working directories goes through the same states and gives the same answers |
| Scan.ScanSessionDirs | crates/dwo-agent-service/src/repository.rs:297-317 | from any tree, in any order of directory entries: the scan ends and finds exactly the session directories reachable without entering a session or the archive |
| Disk.PruneRestores | crates/dwo-agent-service/src/repository.rs:359-373 | after a session has left, pruning leaves no empty date directory, and every session where it was |
| Disk.SavingStores | crates/dwo-agent-service/src/repository.rs:378-405 | saving keeps disk and bookkeeping consistent and does to the sessions what the store prescribes |
| Disk.SavingNeedsTheSameDate | crates/dwo-agent-service/src/repository.rs:385-387 | a save leaves a second directory of the session behind exactly when the record's date is another than the one the session is filed under |
| Disk.DeletingLeavesTheOldDirectory | crates/dwo-agent-service/src/repository.rs:505-517 | and deleting it then leaves the disk just as it was before that save, with the session on it |
| Disk.MovingStores | crates/dwo-agent-service/src/repository.rs:434-481 | archiving and unarchiving: the rename is possible, the session changes base, empty directories go, and the store changes as prescribed; an id is archived iff its path is under the archive root |
| Disk.MoveIsPossible | crates/dwo-agent-service/src/repository.rs:443-451 | the directory moved has no subdirectory, its new parent exists and its new place is free |
| Disk.DeletingStores | crates/dwo-agent-service/src/repository.rs:505-517 | the same for deleting |
| Disk.AppendingStores | crates/dwo-agent-service/src/repository.rs:519-543 | the same for appending to a transcript |
| Repository.FsRepository.Open | crates/dwo-agent-service/src/repository.rs:247-272 | a repository opened on what another left behind has its path map, its archived set and its sessions |
| Repository.FsRepository.SaveRecord | crates/dwo-agent-service/src/repository.rs:378-405 | writes the record where an archived session is, else under its date; fails, changing nothing, exactly when that is no date; does as the store prescribes whenever a known session is saved where it is |
| Repository.FsRepository.LoadRecord | crates/dwo-agent-service/src/repository.rs:407-414 | the record on disk, if the session is known |
| Repository.FsRepository.Select | crates/dwo-agent-service/src/repository.rs:416-432 | the active, or the archived, sessions, each once, most recently updated first |
| Repository.FsRepository.RemoveEmptyDateDirectories | crates/dwo-agent-service/src/repository.rs:359-373 | the loop upwards is the specified pruning |
| Repository.FsRepository.MoveToArchive | crates/dwo-agent-service/src/repository.rs:434-456 | as the store prescribes, also when repeated |
| Repository.FsRepository.MoveBack | crates/dwo-agent-service/src/repository.rs:458-481 | as the store prescribes, also when repeated |
| Repository.FsRepository.Remove | crates/dwo-agent-service/src/repository.rs:505-517 | as the store prescribes |
| Repository.FsRepository.AppendEvent | crates/dwo-agent-service/src/repository.rs:519-543 | as the store prescribes |
| Repository.FsRepository.ReadTranscript | crates/dwo-agent-service/src/repository.rs:545-591 | the events appended, in order; the file is left as it was |
| Repository.FsRepository.Serve | crates/dwo-agent-service/src/repository.rs:376-592 | every operation changes the sessions on disk and answers as the store prescribes |
| Repository.SideBySide | crates/dwo-agent-service/src/repository.rs:247-592 | for every sequence of operations and of restarts, each in any time zone, in which no active session is saved under another date than the one it is filed under: the repository on disk gives the answers of the one in memory, but for working directories |
| Repository.UnfairSaveShows | crates/dwo-agent-service/src/repository.rs:274-287 | and only then: after any such sequence a save that breaks the condition fails on disk alone, or deleting the session and restarting brings it back on disk and not in memory |
| Transcript.TornTailIsRepaired | crates/dwo-agent-service/src/repository.rs:553-590 | n records and a beginning of one more: the n are read, the last iff its JSON is complete; a torn one is cut off so that the file is exactly the encoding of what was read |
| Transcript.LoadsWhatWasAppended | crates/dwo-agent-service/src/repository.rs:519-590 | what was appended is what is loaded, and the file stays |
| Transcript.ForeignLines | crates/dwo-agent-service/src/repository.rs:545-568 | a line that holds no record is skipped exactly when it is all white space of these four kinds, and otherwise makes the file unreadable |
| Transcript.RepairThenAppend | crates/dwo-agent-service/src/repository.rs:569-590 | after a repair, appending and loading go on as if the torn record had never been begun |
| Transcript.LoadAppendLoad | crates/dwo-agent-service/src/repository.rs:570-572 | for any readable file: what is appended after a load is read by the next iff the load left no unterminated record; else the file can no longer be read |
| Transcript.StripBlanks | crates/dwo-agent-service/src/repository.rs:594-602 | the loops strip white space, and only that, from both ends |
| Transcript.File.Append | crates/dwo-agent-service/src/repository.rs:530-542 | the record and a newline are appended |
| Transcript.File.LoadEvents | crates/dwo-agent-service/src/repository.rs:545-591 | the events, or a failure, and the file afterwards, are the specified ones, for any bytes |
| Fences.OpeningsAreGenuine | crates/dwo-channels/src/markdown.rs:61-83 | what is parsed from a line can be written back |
| Fences.ReopeningGivesItBack | crates/dwo-channels/src/markdown.rs:97-101 | the line written to reopen a fence parses to the very fence |
| Fences.ClosingCloses | crates/dwo-channels/src/markdown.rs:85-95 | the closing line written is one the scanner closes at |
| Fences.BalancedChunksStandAlone | crates/dwo-channels/src/markdown.rs:30-59 | every output is the chunk with a text before and after it, ends closed when scanned on its own, and hands on a state that can be reopened |
| Fences.ScanAtLineCut | crates/dwo-channels/src/markdown.rs:40-51 | a cut after a newline does not disturb the scan |
| Fences.CutInsideALine | crates/dwo-channels/src/markdown.rs:40-51 | a cut inside a line, in any state, leaves the scan as it is exactly when a condition on what the two halves and the whole line open and close holds |
| Fences.InStepIffEveryCutIsHarmless | crates/dwo-channels/src/markdown.rs:30-59 | for any chunks: the state handed on is in step with the whole text after every cut exactly when every cut meets that condition in its line, and is then one scan of the whole text |
| Fences.ThreadIsOneScan | crates/dwo-channels/src/markdown.rs:30-59 | when every cut falls after a newline, the state handed from chunk to chunk is one scan of the whole text |
| Fences.FenceState.BalanceFences | crates/dwo-channels/src/markdown.rs:30-59 | the loop gives the specified output and state |
| Fences.NoLineCloses | crates/dwo-channels/src/render.rs:320-333 | no line of any content closes the fence made for it |
| Fences.ContentIsOneBlock | crates/dwo-channels/src/render.rs:320-333 | from the opening line on the scanner is in the same block after every line of the content |
| Fences.FencedIsBalanced | crates/dwo-channels/src/render.rs:320-333 | a fenced text passes through balancing unchanged and leaves nothing open |
| Fences.MakeFenced | crates/dwo-channels/src/render.rs:320-333 | the counting loop makes the specified fence |
| Fences.OpeningsAreTheseLines | crates/dwo-channels/src/markdown.rs:61-83 | a line opens a fence exactly if it is up to three spaces, three or more of the character, and a rest without it |
| Fences.ClosingsAreTheseLines | crates/dwo-channels/src/markdown.rs:85-95 | a line closes a fence exactly if it holds nothing but its character, at least as often as it was opened with, and white space around it |
| Fences.FencesAreNoLonger | crates/dwo-channels/src/render.rs:320-333 | a fence made for a content is three long or one longer than some run in it |
| Splitting.CutIsBest | crates/dwo-channels/src/render.rs:15-25 | the cut is at the last blank line that leaves the chunk at least half full, and at the limit when there is none |
| Splitting.SplitLosesNothing | crates/dwo-channels/src/render.rs:10-32 | the chunks concatenate to the text |
| Splitting.ChunkSizes | crates/dwo-channels/src/render.rs:10-32 | no chunk is empty or over the limit, and only the last may be less than half full |
| Splitting.FewChunks | crates/dwo-channels/src/render.rs:10-32 | so their number is bounded by the length over half the limit |
| Splitting.ChunksEndAtTheBestCut | crates/dwo-channels/src/render.rs:15-27 | each chunk but the last ends at the best cut of what was left |
| Splitting.SplitMessage | crates/dwo-channels/src/render.rs:10-32 | the loop ends, with the specified chunks, also for a limit of zero |
| Splitting.RemainderIsTrimmed | crates/dwo-channels/src/weixin.rs:432-436 | what is left starts and ends with a visible character and the piece cut off is not blank |
| Splitting.TrimmingKeepsTheVisible | crates/dwo-channels/src/weixin.rs:420-444 | every visible character is sent, in order, and none is added |
| Splitting.LogicalMessageIsKept | crates/dwo-channels/src/weixin.rs:420-444 | the same for any text, counting the first trim |
| Splitting.TrimmedChunks | crates/dwo-channels/src/weixin.rs:432-442 | every message is trimmed, not empty, within the limit |
| Splitting.FewTrimmedChunks | crates/dwo-channels/src/weixin.rs:420-444 | their number is bounded as above |
| Splitting.SplitLogicalMessage | crates/dwo-channels/src/weixin.rs:420-444 | the loop, whose test for an empty chunk never skips one |
| Splitting.SentChunksStandAlone | crates/dwo-channels/src/telegram.rs:522-528 | each message sent for a text holds its chunk in one piece and renders on its own; a full chunk makes a message over the limit exactly when a fence is open at either end of it |
| Splitting.SoftCutsKeepTheFences | crates/dwo-channels/src/telegram.rs:522-528 | if every window has a blank line to cut at, the fences seen while sending are those of the whole text |
| Splitting.SendingInStep | crates/dwo-channels/src/telegram.rs:522-528 | while sending any text in step after every cut exactly when each cut of the splitting meets the condition in its line |
| Splitting.HardCutsCanLoseAFence | crates/dwo-channels/src/telegram.rs:522-528 | for every limit of three or more a text that is cut inside its opening fence: the fence is lost |
| Splitting.HardCutsCanMakeAFence | crates/dwo-channels/src/telegram.rs:522-528 | and one that is cut inside an ordinary line: a fence is seen that is not there |
| Splitting.SendChunks | crates/dwo-channels/src/telegram.rs:522-528 | split, balance, send: the messages are the specified ones |
| DeferredCancel.EveryCancelResolvesOnce | crates/dwo-acp/src/lib.rs:896-937 | however the adapter's tasks interleave: no deferred cancel is resolved twice, and once timers have run out and prompts have their verdicts every one has been resolved |
| DeferredCancel.FatesHaveCauses | crates/dwo-acp/src/acp_v1.rs:434-565 | each step resolves at most one cancel, for one of five reasons: sent by its own timer, dropped by a local command, replaced by an accepted prompt, forwarded because that prompt was rejected, or never spawned; and asks the daemon accordingly |
| DeferredCancel.DaemonIsAskedOnce | crates/dwo-acp/src/acp_v1.rs:487-500 | over every run the daemon is asked to cancel once for every cancel sent or forwarded and for every /cancel, and never else |
| DeferredCancel.PendingLeavesOnlyByItsOwn | crates/dwo-acp/src/lib.rs:173-184 | a pending cancel leaves only by its own timer, its own failed spawn or a prompt on its session: an old timer never removes a newer cancel |
| DeferredCancel.EveryPromptIsAnsweredOnce | crates/dwo-acp/src/acp_v1.rs:514-555 | no prompt is answered twice; one that waits has its completion or is the one the next completion of its session goes to |
| DeferredCancel.RejectionDropsAnother | crates/dwo-acp/src/acp_v1.rs:526-541 | a rejected prompt takes another prompt's waiter away exactly when its own completion came first and another has been registered since |
| DeferredCancel.AnAcceptedPromptCanBeDropped | crates/dwo-acp/src/acp_v1.rs:526-555 | a reachable state in which an accepted prompt is answered with an error for that reason |
| PromptAnswers.EveryAnswerHasItsCause | crates/dwo-acp/src/acp_v1.rs:406-570 | over every interleaving each answer goes back to the event that gave it: a prompt that waited was told cancelled, end of turn or an error exactly as the one event that took its waiter says; any other as its preparation, registration, command, turn check or verdict says |
| PromptAnswers.CancelsThatGoOnTell | crates/dwo-acp/src/lib.rs:896-903 | whenever a first or a repeated cancel goes on, the prompt that waits on its session is told that it was cancelled |
| PromptAnswers.MailHasItsCause | crates/dwo-acp/src/lib.rs:1245-1249 | one event, and only one, takes a prompt's waiter, and the prompt has its completion, or its dropped sender |
| PromptAnswers.EveryPromptIsOnItsWay | crates/dwo-acp/src/acp_v1.rs:451-513 | /status and /cancel are never sent, and /resume only after a check that found no turn |
| AcpAdapter.PendingCancels.Schedule | crates/dwo-acp/src/lib.rs:150-158 | a cancel is scheduled unless one is pending |
| AcpAdapter.PendingCancels.Consume | crates/dwo-acp/src/lib.rs:160-171 | the pending cancel, if any, is taken away |
| AcpAdapter.PendingCancels.FinishCancel | crates/dwo-acp/src/lib.rs:173-184 | this very cancel is removed and no newer one |
| AcpAdapter.Adapter.CancelArrives | crates/dwo-acp/src/lib.rs:896-900 | defers the cancel; a second one while it is pending adds none and goes on to tell the waiting prompt |
| AcpAdapter.Adapter.RepeatProceeds | crates/dwo-acp/src/lib.rs:897-900 | the rest of a second cancel completes the waiting prompt and nothing else |
| AcpAdapter.Adapter.CancelProceeds | crates/dwo-acp/src/lib.rs:903-937 | the waiting prompt is told before the timer starts; a failed spawn takes the cancel back |
| AcpAdapter.Adapter.TimerElapses | crates/dwo-acp/src/lib.rs:920-931 | the cancel is sent iff it is still the pending one |
| AcpAdapter.Adapter.PromptArrives | crates/dwo-acp/src/acp_v1.rs:434-436 | an ordinary prompt takes over the pending cancel, a local command drops it |
| AcpAdapter.Adapter.RejectPrompt | crates/dwo-acp/src/acp_v1.rs:557-565 | a rejected prompt forwards the cancel it holds, and is answered |
| AcpAdapter.Adapter.EnlistPrompt | crates/dwo-acp/src/acp_v1.rs:514-525 | a prompt is registered unless its session has one |
| AcpAdapter.Adapter.PromptSubmitted | crates/dwo-acp/src/acp_v1.rs:526-541 | accepted: the cancel is replaced; else the waiter is removed and the prompt rejected |
| AcpAdapter.Adapter.CompletePromptOf | crates/dwo-acp/src/lib.rs:1245-1249 | the session's waiter gets the completion |
| AcpAdapter.Adapter.Serve | crates/dwo-acp/src/acp_v1.rs:406-555 | every stretch of the code does what the protocol says |
| ReplayedTerminals.CachedRunIffLive | crates/dwo-agent-service/src/session.rs:1724-1763 | over every run with honest exit statuses a cached view says that it runs exactly if its terminal is live |
| ReplayedTerminals.RunningGoLast | crates/dwo-agent-service/src/session.rs:518-548 | over every such run a live terminal is evicted only if all that stays cached is live |
| ReplayedTerminals.ReplayShowsTheCache | crates/dwo-acp/src/lib.rs:2322-2374 | a replay shows each cached terminal with its bytes, how many are missing, and whether it runs |
| ReplayedTerminals.LiveIsOpenedNotExited | crates/dwo-agent-service/src/session.rs:1724-1763 | over every run the live terminals are exactly those opened in it and not exited since |
| ReplayedTerminals.ExitsInTranscript | crates/dwo-agent-service/src/session.rs:1764-1809 | over every run the transcript has an exit exactly if it had it before, or one was reported and its record saved |
| ReplayedTerminals.ReplayCloses | crates/dwo-acp/src/lib.rs:2425-2453 | over every run of the actor a replay of its snapshot closes exactly the terminals that the transcript names and the cache does not hold, that the run did not open or saw exit, and for which no exit was in the transcript before or has been saved since |
| ReplayedTerminals.OnlyLostExitsAreClosed | crates/dwo-acp/src/lib.rs:2425-2453 | a terminal the run opened is closed by a replay only if the record of an exit of it was lost |
| Replay.ReplayTerminals | crates/dwo-acp/src/lib.rs:2312-2453 | retained terminals are shown from their own bytes, in order; of all others named in the transcript each is shown once, with its streamed bytes or, if there are none, what was polled, never both, and then closed iff it neither exited nor lives; nothing else is sent |
| Replay.ReadEntry | crates/dwo-acp/src/lib.rs:2375-2424 | one transcript event moves the tables to what the longer transcript says of every terminal |

## Left out

- Input and output: files, sockets and the daemon's replies are parameters (did it succeed, what came back). A failed rename or removal half way through an archive, unarchive or delete is not modelled, nor is a crash between the files of one save.
- Time, task scheduling and locks: the current time is a parameter, the actor handles one message at a time, and an operation of the repository on a session is one step, as its lock makes it.
- A time zone that changes while the process runs: the calendar is fixed from one restart to the next.
- Counters that saturate at the largest 64-bit number: numbers are unbounded.
- Message ids that `apply_step_delta` and `update_step_checkpoint` invent: two steps are compared without an id whose text is empty.
- Configuration, workspace, todo, questionnaire, title and notification handlers of the actor: what they record and broadcast is one message of the model, with any such payloads; they change nothing the theorems speak of.
- The outcome of deleting an expired session: a session counts as deleted once the repository was asked.
- The renewed request after a context overflow inside a turn: it drains the same queue and is one of the retries of a round.
- The deadline on disk: `SessionExpiry` follows the running actor; what a restart reads back is not part of this model.
- Base64 of terminal bytes (section 4 of RFC 4648), token counts, compaction itself, model replies and tool execution: library or host code.
- The order of two sessions with the same time of update in a list: any order is allowed.
- Rename of a directory that has subdirectories: the repository never asks for one, which is proved where it renames.
- `compaction_prompt_completion` and the ACP schema conversions: mapping of shapes, with easy claims only.
- Death of a client connection in the middle of a grace period: the deferred cancel dies with it unsent; the model follows a live connection, and a failed spawn.
- Network clients, chat platforms, installers and the host process: third-party calls.
