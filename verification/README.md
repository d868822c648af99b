# A verified model of gobrowse's durable terminal service and five of its algorithms

The project models, in Dafny 4.11, the parts of the repository whose correctness spans several functions or a whole
run. `dafny verify dfyconfig.toml` checks everything.

**The terminal service of `gobrowse-sandboxd`.** `OutputLog` and `Journal` are the SQLite journal: a chunked,
cursor-addressed output log per terminal, and two ledgers that grant each protocol mutation and each input once.
`Replay` is the process-local replay cache. `Requests` composes both as `handle_line` does, for terminal mutations and for
filesystem changes, which use the cache alone: connections interleave at every step, the journal may fail at every step, a connection may be cancelled where it awaits (which runs its drop
guard) and the daemon may restart between any two steps. `Inputs` does the same for `PodmanRuntime::input`.
`Lifecycle` interleaves the start call, the monitor, the output drain and any number of terminate calls, timeouts and
cleanups of one session. `Registry` is the session accounting. `Recovery` is the pause and resume protocol around a
filesystem change, with its durable record, crashes and startup reconciliation.

**The five algorithms.** `AtomicWrite` and `TreeCopy` are the publication of a file and the bounded recursive copy of
`filesystem.rs`; `ProviderStream` is the streaming parser of `chat.rs`; `RateLimiter`, `Chunker` and `ContextBuilder`
are the files of those names or, for the chunker, `library.rs`.

Objects that the source changes in place are classes (`TerminalJournal`, `ReplayCache`, `Session`, `SessionRegistry`,
`Stream`, `RateLimiter`, `Volume`, `CopyBudget`, `Workspace`), and its loops are loops. Every method is tied to a
function of the old state, and the properties are proved of those functions. Concurrent protocols are state machines:
`Next` is one atomic step, `After` the state after a sequence of steps, a step whose guard does not hold changes
nothing, and the theorems hold for every sequence. What the outside world decides (system call results, Podman
answers, time, cancellation, crashes) is a parameter of the step.

## What is assumed

- Fingerprints and digests of requests and inputs are collision-free; a SQLite transaction and the write of a recovery
  record are each one step. A transaction that reports an error has not committed: in particular `complete_mutation`
  never stores a response and fails. The write and the removal of a recovery record may take effect and fail.
- `Recovery`: one pause owner per workspace is in flight at a time. The theorems on paused containers carry the
  condition `NeverLeaky`: no pause command takes effect and yet counts as failed after other containers of the same
  call were paused. `NeverLeakyIsExact` says that nothing weaker would do, and `LeakyRunLosesAContainer` is a run.
- `RateLimiter`: the clock is read before the tables are locked; the times of checks and prunes are taken not to
  decrease in the order in which these are applied.
- `AtomicWrite`: other processes rename entries onto or away from the workspace name at any time, but do not write
  into files and do not reach into the private staging directory.
- `ProviderStream`: UTF-8 and JSON decoding are arbitrary functions, except that no bytes are the empty text.

## Where the code differs from what one would expect

- A provider stream yields exactly one verdict (an error, or `Completed`, after which nothing comes), but the verdict
  is not always last: when a closed response ends in an unterminated event that has no text, does not finish and
  carries usage or tool calls, the error comes first and those events follow. `OneVerdict` says exactly when,
  `QueueFollowsTheError` and `UsageFollowsAnError` show such responses.
- `patch` succeeds without having displaced anything when the target is renamed away between the reading of its digest
  and the existence probe: it then publishes onto a free name. `PatchIsCompareAndSwap` says that it is a
  compare-and-swap exactly when that probe found the target, `PatchOfVanishedTarget` is the other case.
- The second `begin` probe of a waiting duplicate in `handle_line` may itself claim a slot and drop the decision. The
  slot then has no owner, and until the daemon restarts its request is answered by conflicts or not at all
  (`OrphanIsNeverAnswered`). `OrphanIsExact`: a slot is in that state if and only if, since the last restart, such a
  probe of its request was told to execute. `ProbeCanOrphanASlot` is a run.
- A filesystem change that carries the request id of a completed terminal mutation has no row in the journal: after a
  restart it executes and answers its own result (`FilesystemAnswersItself`).
- A `patch` or `write` can destroy a file or folder that may be served and that it was not asked to replace, in four
  ways: a refused exchange cannot be undone (a fault, or the name was emptied meanwhile), and what it displaced is
  discarded; it is undone over an entry that another process had just put on the name, which is discarded; it is
  undone, but the check of the name then fails, by a fault or for what it sees, and containment removes what has the
  name by then; or the check after a placement on a free name fails, and containment removes what has the name.
  `LossIsExact` gives the exact condition. The first, second and fourth need no fault and one rename right behind the
  publication (`LossWithoutFault`, `LossByContainment`); `LossByFailedCheck` shows the third.
- A staged file whose mode cannot be set stays in the staging directory, as no branch removes it (`FailedStaging`).
- The stored record of a terminal can go back from TERMINATING to RUNNING before its final state is settled: by the
  write of a state that the monitor read earlier, after the output drain panicked, and by no other step
  (`RecordIsRevivedExactlyByStaleWrite`, `TerminatingRecordCanReadRunning`).
- A final state that is in the journal is not final: a termination, a cleanup that gives up and a failed start may
  still write TERMINATING, UNRECOVERABLE or TERMINATED over it, and nothing else does
  (`SettledRecordChangesExactlyByLateWrite`); `SettledRecordCanReadTerminating` is a run from EXITED.

## Model

| member | source | states |
|---|---|---|
| `Replay.ReplayCache.Begin` | crates/gobrowse-sandboxd/src/replay.rs:51-86 | the decision and the new map and queue for every request, and that the queue still lists exactly the keys, once each, within the capacity |
| `Replay.ReplayCache.Position` | crates/gobrowse-sandboxd/src/replay.rs:63-71 | the search finds the oldest completed entry, or none |
| `Replay.ReplayCache.Complete` | crates/gobrowse-sandboxd/src/replay.rs:88-107 | only a pending entry with the same fingerprint is completed; everything else stays |
| `Replay.AfterIsValid` | crates/gobrowse-sandboxd/src/replay.rs:51-107 | after any calls the queue is a duplicate-free listing of exactly the keys and within the capacity |
| `Replay.FullMeansAllPending` | crates/gobrowse-sandboxd/src/replay.rs:63-71 | Full is answered if and only if the request is new and all slots are pending |
| `Replay.EvictsOldestComplete` | crates/gobrowse-sandboxd/src/replay.rs:63-74 | whatever disappears was the oldest completed entry of a full cache |
| `Replay.DecisionIsExact` | crates/gobrowse-sandboxd/src/replay.rs:51-86 | by the slot of its id a request is told to wait, the stored answer, a conflict, that the cache is full, or to execute, each if and only if; only the last changes the cache, and claims the slot |
| `Replay.EveryEntryIsExplained` | crates/gobrowse-sandboxd/src/replay.rs:51-107 | in every history an entry was claimed once, and a cached answer is the one of the first matching completion after that claim |
| `Replay.PendingIsNeitherEvictedNorGrantedAgain` | crates/gobrowse-sandboxd/src/replay.rs:51-107 | until a matching completion a claimed slot survives every call and is not granted again |
| `OutputLog.AppendRefines` | crates/gobrowse-sandboxd/src/journal.rs:263-305 | an append extends the stream by the accepted prefix; how much is accepted, and when the log stops being complete |
| `OutputLog.AckRefines` | crates/gobrowse-sandboxd/src/journal.rs:355-379 | an acknowledgement succeeds exactly up to the end, with the error otherwise, raises the low mark, and discards no byte at or above it |
| `OutputLog.ReadIsSlice` | crates/gobrowse-sandboxd/src/journal.rs:307-353 | a read returns exactly the slice of the stream from the larger of cursor and acknowledged mark, bounded by the room |
| `OutputLog.EveryHistoryIsFaithful` | crates/gobrowse-sandboxd/src/journal.rs:263-379 | in every history chunks tile the stream, the stream is a prefix of what was offered, below the cap, and nothing was dropped while the log is complete |
| `OutputLog.HistoryOnlyGrows` | crates/gobrowse-sandboxd/src/journal.rs:263-379 | stream and marks only grow; an incomplete log stays incomplete and stores no more |
| `OutputLog.ReaderGetsEveryByteOnce` | crates/gobrowse-sandboxd/src/journal.rs:307-379 | a reader that follows the cursor and acknowledges only what it read has every byte once, in order, also with restarts and output failures in between |
| `OutputLog.FetchMakesProgress` | crates/gobrowse-sandboxd/src/journal.rs:307-353 | each fetch brings as many bytes as fit, until the end of the stream |
| `Journal.InsertChunks` | crates/gobrowse-sandboxd/src/journal.rs:281-289 | the insertion loop adds the accepted bytes cut into bounded rows, and ends at the new cursor |
| `Journal.CollectRows` | crates/gobrowse-sandboxd/src/journal.rs:326-346 | the collection loop yields what the rows hold from the start on, within the room, or reports a damaged row |
| `Journal.TerminalJournal.BeginStart` | crates/gobrowse-sandboxd/src/journal.rs:143-183 | a terminal id is granted once; the same start again is recognised, another one conflicts |
| `Journal.TerminalJournal.SetRunning` | crates/gobrowse-sandboxd/src/journal.rs:185-205 | only a record that is STARTING or RUNNING becomes RUNNING |
| `Journal.TerminalJournal.SetState` | crates/gobrowse-sandboxd/src/journal.rs:207-244 | the state is replaced unconditionally, the completeness flag only when given |
| `Journal.TerminalJournal.AppendOutput` | crates/gobrowse-sandboxd/src/journal.rs:263-305 | one transaction is one append to the output log, or nothing |
| `Journal.TerminalJournal.ReadOutput` | crates/gobrowse-sandboxd/src/journal.rs:307-353 | one read of the output log, with the next cursor, or the error |
| `Journal.TerminalJournal.AckOutput` | crates/gobrowse-sandboxd/src/journal.rs:355-379 | one acknowledgement of the output log, or the error and no change |
| `Journal.TerminalJournal.BeginInput` | crates/gobrowse-sandboxd/src/journal.rs:386-429 | an input is granted once; afterwards replayed, conflicting or of unknown outcome |
| `Journal.TerminalJournal.CompleteInput` | crates/gobrowse-sandboxd/src/journal.rs:431-452 | only a pending input becomes applied |
| `Journal.TerminalJournal.MarkInputUnknown` | crates/gobrowse-sandboxd/src/journal.rs:454-465 | only a pending input becomes unknown |
| `Journal.TerminalJournal.BeginMutation` | crates/gobrowse-sandboxd/src/journal.rs:467-524 | a request id is granted once; afterwards answered from its row, conflicting or of unknown outcome |
| `Journal.TerminalJournal.CompleteMutation` | crates/gobrowse-sandboxd/src/journal.rs:526-542 | a response is stored once, over a pending row only |
| `Journal.TerminalJournal.ReconcileRestart` | crates/gobrowse-sandboxd/src/journal.rs:544-568 | the answer is exactly the recoverable terminals; each of them is lost with an incomplete log and its other columns kept, each pending input is unknown with its fingerprint kept, no other row differs, and nothing recoverable or pending is left |
| `Journal.SelectRecoverable` | crates/gobrowse-sandboxd/src/journal.rs:547-555 | the selection collects exactly the recoverable terminals |
| `Journal.MarkLost` | crates/gobrowse-sandboxd/src/journal.rs:556-561 | the first update changes exactly the selected rows, in three columns |
| `Journal.MarkPendingUnknown` | crates/gobrowse-sandboxd/src/journal.rs:562-565 | the second update changes exactly the pending inputs, in their status |
| `Journal.StartedAtMostOnce` | crates/gobrowse-sandboxd/src/journal.rs:143-183 | over all calls and restarts a terminal id is granted at most once, and has a record exactly when it was |
| `Journal.StartAnswersAreExact` | crates/gobrowse-sandboxd/src/journal.rs:143-183 | after any calls and restarts a start is granted if and only if it is the first with a possible size; then Existing if and only if workspace and fingerprint are those of the first, Conflict if and only if not |
| `Journal.InputAnswersAreExact` | crates/gobrowse-sandboxd/src/journal.rs:386-465 | after any calls and restarts an input is granted if and only if it is new; then the same bytes get the count of the application that ended them first, or an unknown outcome, and other bytes a conflict |
| `Journal.InputNeedsTerminal` | crates/gobrowse-sandboxd/src/journal.rs:386-429 | an input for a terminal without a record never gets a row |
| `Journal.MutationAnswersAreExact` | crates/gobrowse-sandboxd/src/journal.rs:467-542 | after any calls a request is granted if and only if its id is new; then the same operation gets the first response stored, or an unknown outcome, and another one a conflict |
| `Journal.OnlySetStateRestoresRunning` | crates/gobrowse-sandboxd/src/journal.rs:185-244 | through any later calls and restarts without an explicit set_state of it, a record that reads neither STARTING nor RUNNING never reads so again |
| `Journal.LogFollowsHistory` | crates/gobrowse-sandboxd/src/journal.rs:207-379 | in every history of the journal the log of a terminal is the output log after the calls that concern it, as long as no call sets the completeness flag |
| `Journal.EveryLogIsFaithful` | crates/gobrowse-sandboxd/src/journal.rs:207-379 | hence tiling, prefix, cap and completeness hold of every log of the journal |
| `Requests.DispatchedAtMostOnce` | crates/gobrowse-sandboxd/src/daemon.rs:334-401 | in every run, over all daemon lives, a request id is dispatched at most once, and only with its durable row |
| `Requests.ClaimedBeforeDispatch` | crates/gobrowse-sandboxd/src/daemon.rs:341-362 | whoever is about to dispatch alone holds the pending replay slot and the pending row |
| `Requests.RowsAndAnswersPersist` | crates/gobrowse-sandboxd/src/journal.rs:467-542 | rows are never deleted, completed rows never change, answers given stay given |
| `Requests.StoredResponseIsFinal` | crates/gobrowse-sandboxd/src/daemon.rs:339-399 | after a response is stored every later answer to a terminal mutation with that id is that response or a refusal |
| `Requests.SlotDecidesAnswer` | crates/gobrowse-sandboxd/src/daemon.rs:339-399 | in every run, by the slot of its id: the same operation is answered exactly the stored response or waits, another one a conflict; a new id is refused if and only if all slots are pending, and else owns its slot |
| `Requests.WaiterComesBack` | crates/gobrowse-sandboxd/src/daemon.rs:388-398 | a waiting duplicate sleeps if and only if its second look finds the slot still pending; awake, or else at once, it begins anew; cancelled, it leaves no trace |
| `Requests.RowDecidesAnswer` | crates/gobrowse-sandboxd/src/daemon.rs:346-381 | in every run the owner of a slot executes if and only if the journal works and has no row; with a row the answer is the stored response, an unknown outcome or a conflict, and no row changes |
| `Requests.ExecutionIsAnswered` | crates/gobrowse-sandboxd/src/daemon.rs:353-379 | what the runtime answers reaches client, row and slot; if the row cannot be written, client and slot get an unknown outcome and the row stays pending |
| `Requests.DroppedCallFillsSlot` | crates/gobrowse-sandboxd/src/daemon.rs:341-347 | a call dropped while it executes leaves an exceeded deadline in its slot and its row pending, and answers nobody |
| `Requests.StoredResponseIsReplayed` | crates/gobrowse-sandboxd/src/daemon.rs:348-380 | after every run, once restarted, the operation of a completed row is answered its response from the row, without a second dispatch |
| `Requests.FilesystemAnswersItself` | crates/gobrowse-sandboxd/src/daemon.rs:402-443 | after every run, once restarted, a filesystem change with that id executes, answers its own result and leaves the rows alone |
| `Requests.OrphanStays` | crates/gobrowse-sandboxd/src/daemon.rs:388-398 | a pending slot without an owner survives every step but a restart, and adds only conflicts to the answers of its request |
| `Requests.OrphanStepIsExact` | crates/gobrowse-sandboxd/src/daemon.rs:388-398 | after a step a slot has no owner if and only if it had none and the step was no restart, or the step is a second probe of that request that was told to execute |
| `Requests.OrphanIsExact` | crates/gobrowse-sandboxd/src/daemon.rs:388-398 | in every run a slot has no owner if and only if a second probe of that request was told to execute since the last restart |
| `Requests.OrphanIsNeverAnswered` | crates/gobrowse-sandboxd/src/daemon.rs:376-399 | until a restart whoever asks for such a request is answered by a conflict or not at all |
| `Requests.ProbeCanOrphanASlot` | crates/gobrowse-sandboxd/src/daemon.rs:388-398 | a run in which the second probe leaves such a slot |
| `Inputs.WrittenAtMostOnce` | crates/gobrowse-sandboxd/src/runtime.rs:1671-1737 | for each terminal and input id at most one write to the PTY is ever begun |
| `Inputs.AcceptedMeansWritten` | crates/gobrowse-sandboxd/src/runtime.rs:1671-1737 | an acceptance, replayed or not, follows a completed write of those bytes and reports their number |
| `Inputs.LedgerDecidesAnswer` | crates/gobrowse-sandboxd/src/runtime.rs:1671-1700 | in every run, by the row of its key: a new input is granted, the applied bytes are accepted as a replay with their number, the bytes of any other row are of unknown outcome, other bytes conflict, and a failing ledger says so |
| `Inputs.UndisturbedInputIsAccepted` | crates/gobrowse-sandboxd/src/runtime.rs:1700-1737 | a granted input that meets no failure is written once, applied and accepted |
| `Inputs.StoppedSessionIsReported` | crates/gobrowse-sandboxd/src/runtime.rs:1671-1737 | a session that is not running is reported so, before the grant without a trace, after it with the outcome marked unknown |
| `Inputs.AcceptedIsReplayed` | crates/gobrowse-sandboxd/src/runtime.rs:1671-1737 | in every continuation, restarts included, an input once accepted is accepted again as a replay for the same bytes, and a conflict for others |
| `Inputs.CancelAndCrashLose` | crates/gobrowse-sandboxd/src/runtime.rs:1671-1737 | a crash at any moment from the grant until the row is applied loses the input, also after the write finished; so does cancelling a call that waits or writes |
| `Inputs.FailuresLose` | crates/gobrowse-sandboxd/src/runtime.rs:1671-1737 | a failed write, and a completion that the journal refuses, make the call mark its input, after which it is lost whether or not the mark is stored |
| `Inputs.LostForever` | crates/gobrowse-sandboxd/src/journal.rs:386-465 | a lost input is never written again and never reported as accepted |
| `Inputs.LostAnswersUnknown` | crates/gobrowse-sandboxd/src/journal.rs:397-414 | asking again with the same bytes answers that the outcome is unknown |
| `Lifecycle.Session.Transition` | crates/gobrowse-sandboxd/src/runtime.rs:351-380 | the state a transition leaves behind, and that it reports a change exactly when there is one |
| `Lifecycle.Session.ClaimTermination` | crates/gobrowse-sandboxd/src/runtime.rs:397-404 | the claim succeeds exactly when nobody holds it |
| `Lifecycle.Session.ReleaseTermination` | crates/gobrowse-sandboxd/src/runtime.rs:442-446 | dropping the claim releases it |
| `Lifecycle.Session.BeginTermination` | crates/gobrowse-sandboxd/src/runtime.rs:382-395 | a session that is not terminal is marked and becomes terminating; a terminal one is left alone |
| `Lifecycle.UninterruptedBegin` | crates/gobrowse-sandboxd/src/runtime.rs:382-395 | the three interleavable steps, run in one go, are that call |
| `Lifecycle.RecordFollowsJournal` | crates/gobrowse-sandboxd/src/journal.rs:185-244 | the stored state in this model moves as the journal moves the record, exit code, reason and completeness are stored as given, and no other record moves |
| `Lifecycle.LifecycleOnlyGoesForward` | crates/gobrowse-sandboxd/src/runtime.rs:351-380 | in every interleaving a terminal state is final, Starting and Running are never come back to, and Running is entered at most once; Terminating and Unrecoverable may alternate |
| `Lifecycle.OneCleanupHoldsTheClaim` | crates/gobrowse-sandboxd/src/runtime.rs:1201-1217 | at most one cleanup attempt holds the termination claim |
| `Lifecycle.TerminalIsDeserved` | crates/gobrowse-sandboxd/src/runtime.rs:1523-1574 | a terminal state comes after registry completion, Terminated only if asked for, and a successful cleanup has seen one |
| `Lifecycle.FinalStateIsTheDecision` | crates/gobrowse-sandboxd/src/runtime.rs:1548-1572 | in every run a session that has ended is Terminated if and only if termination was requested when the monitor decided, and a step that settles the record settles it as that state |
| `Lifecycle.RequestedEndsTerminated` | crates/gobrowse-sandboxd/src/runtime.rs:1548-1572 | termination requested before that decision means, in every continuation, never Exited, and a record settled as TERMINATED |
| `Lifecycle.QuietStartRuns` | crates/gobrowse-sandboxd/src/runtime.rs:1575-1668 | an undisturbed start ends with a running session and record |
| `Lifecycle.QuietRequestIsRecorded` | crates/gobrowse-sandboxd/src/runtime.rs:1845-1857 | an undisturbed terminate call marks session and record as terminating |
| `Lifecycle.DeadlineIsRecorded` | crates/gobrowse-sandboxd/src/runtime.rs:1242-1253 | a cleanup at its deadline makes session and record unrecoverable |
| `Lifecycle.FailedDrainTerminates` | crates/gobrowse-sandboxd/src/runtime.rs:1507-1519 | a failed drain requests termination and records the state |
| `Lifecycle.CancelledStartIsCleanedUp` | crates/gobrowse-sandboxd/src/runtime.rs:433-440 | a cancelled start requests termination and leaves the session to a background cleanup |
| `Lifecycle.CleanupIsFollowedUp` | crates/gobrowse-sandboxd/src/runtime.rs:1623-1658 | what follows a cleanup: a failed start forgets an ended session and records TERMINATED, and others leave an unfinished one to the background |
| `Lifecycle.ExitedStartSucceeds` | crates/gobrowse-sandboxd/src/runtime.rs:1581-1613 | a start whose command has exited normally succeeds and leaves the record EXITED |
| `Lifecycle.EndedSessionIsLeftAlone` | crates/gobrowse-sandboxd/src/runtime.rs:1845-1849 | a terminate call changes nothing of an ended session |
| `Lifecycle.BackgroundEndsWithSession` | crates/gobrowse-sandboxd/src/runtime.rs:1276-1283 | in every run a background cleanup ends only when the session has ended |
| `Lifecycle.CancelledCleanupIsGuarded` | crates/gobrowse-sandboxd/src/runtime.rs:1623-1636 | a start cancelled while it cleans up drops its guard |
| `Lifecycle.AttemptTakesFreeClaim` | crates/gobrowse-sandboxd/src/runtime.rs:1201-1217 | an attempt takes a free claim and gives it back, and is over without one or once the session has ended |
| `Lifecycle.OneBackgroundCleanup` | crates/gobrowse-sandboxd/src/runtime.rs:1269-1284 | in every interleaving at most one background cleanup runs, and the flag says whether one does |
| `Lifecycle.SettledRecordIsNeverRunningAgain` | crates/gobrowse-sandboxd/src/runtime.rs:1561-1572 | once the final state reached the journal the record never reads STARTING or RUNNING again |
| `Lifecycle.RecordIsRevivedExactlyByStaleWrite` | crates/gobrowse-sandboxd/src/runtime.rs:1533-1539 | in every run a record that reads neither STARTING nor RUNNING comes to read so if and only if the step is the monitor's write, after a panicked drain, of a RUNNING it read before |
| `Lifecycle.TerminatingRecordCanReadRunning` | crates/gobrowse-sandboxd/src/runtime.rs:1533-1539 | a run in which that write turns TERMINATING into RUNNING |
| `Lifecycle.SettledRecordChangesExactlyByLateWrite` | crates/gobrowse-sandboxd/src/runtime.rs:1223-1250 | once the final state is settled a step changes the record if and only if a termination, a cleanup that gives up or a failed start writes another state of its own, and to that state |
| `Lifecycle.SettledRecordCanReadTerminating` | crates/gobrowse-sandboxd/src/runtime.rs:1845-1857 | a run in which a late terminate call turns a settled EXITED into TERMINATING |
| `Lifecycle.LateSetRunningRespectsOthers` | crates/gobrowse-sandboxd/src/journal.rs:185-205 | a late set_running changes only a record that is still STARTING |
| `Registry.SessionRegistry.Reserve` | crates/gobrowse-sandboxd/src/runtime.rs:465-485 | a reservation within both limits raises both counters, otherwise nothing changes |
| `Registry.SessionRegistry.Release` | crates/gobrowse-sandboxd/src/runtime.rs:491-498 | both counters lose one, and a workspace counter at zero goes |
| `Registry.SessionRegistry.Complete` | crates/gobrowse-sandboxd/src/runtime.rs:487-504 | a known session is released, retained, and the oldest retained ones beyond the limit are forgotten |
| `Registry.SessionRegistry.Expire` | crates/gobrowse-sandboxd/src/runtime.rs:499-503 | the loop forgets exactly the oldest sessions beyond the retention limit |
| `Registry.SessionRegistry.RemoveCompleted` | crates/gobrowse-sandboxd/src/runtime.rs:506-509 | the session goes and with it every place it has in the queue; every other session and queue entry stays |
| `Registry.RetainOthers` | crates/gobrowse-sandboxd/src/runtime.rs:508 | the loop keeps exactly the other ids, in order, and distinct ids stay distinct |
| `Registry.SessionRegistry.CancelReservation` | crates/gobrowse-sandboxd/src/runtime.rs:511-522 | a known session goes and is released |
| `Registry.AccountingIsExact` | crates/gobrowse-sandboxd/src/runtime.rs:448-523 | in every interleaving the counters are the true counts, both limits hold, retained ids are distinct and bounded, and the sessions are exactly the unfinished and the retained ones |
| `Registry.ReservationIsExact` | crates/gobrowse-sandboxd/src/runtime.rs:465-485 | in every run a start gets its session if and only if fewer than both limits run, in all and in its workspace, by true count |
| `Registry.NewestAreRetained` | crates/gobrowse-sandboxd/src/runtime.rs:487-504 | a completed session is retained behind the earlier ones; only the oldest go, and exactly as many as exceed the limit |
| `Registry.NeverSaturates` | crates/gobrowse-sandboxd/src/runtime.rs:487-522 | whenever a session is cancelled or completed both counters it lowers are positive |
| `Recovery.EveryPausedContainerIsNamed` | crates/gobrowse-sandboxd/src/runtime.rs:1287-1385 | in every run without a leaky pause, at every moment, hence at every crash, each paused container is named by the stored record of its workspace |
| `Recovery.ClearedMeansRunning` | crates/gobrowse-sandboxd/src/runtime.rs:1340-1385 | in such a run a workspace without a record has no paused container |
| `Recovery.ReconciliationEndsClean` | crates/gobrowse-sandboxd/src/runtime.rs:1895-1932 | startup lists the records, removes the containers and clears what it listed; when it lets the daemon serve no managed container and no record is left |
| `Recovery.ClearingMeetsNoConflict` | crates/gobrowse-sandboxd/src/filesystem.rs:842-858 | while the listed records are cleared the next one is there with its operation, so only a failing disk ends the start |
| `Recovery.PausedItemsArePaused` | crates/gobrowse-sandboxd/src/runtime.rs:1287-1331 | in every run, while a pause goes on and while its change runs: its items are all the containers of the listing, and each item dealt with was found paused and is so still unless it vanished since |
| `Recovery.OnlyNewContainersRun` | crates/gobrowse-sandboxd/src/runtime.rs:1287-1338 | while a filesystem change runs, a container of its workspace runs only if it appeared after the listing |
| `Recovery.PauseAndResumeRoundTrip` | crates/gobrowse-sandboxd/src/runtime.rs:1287-1385 | for any number of containers, when everything works, a pause ends with exactly those paused and recorded, and its end leads back to the state before |
| `Recovery.RecoveryComesFirst` | crates/gobrowse-sandboxd/src/runtime.rs:1287-1292 | a record left by an earlier pause is resumed and cleared before a new pause goes on |
| `Recovery.EarlyFailureLeaves` | crates/gobrowse-sandboxd/src/runtime.rs:1291-1314 | a pause that fails before its first container, or finds none, gives up and pauses nothing |
| `Recovery.OnlyOwnRecordIsCleared` | crates/gobrowse-sandboxd/src/filesystem.rs:842-858 | a record goes only by a resume of its own operation or by a start that listed it |
| `Recovery.ServesOnlyAfterStart` | crates/gobrowse-sandboxd/src/runtime.rs:1895-1932 | after a crash the daemon serves only once it was, since, without any container or record |
| `Recovery.UnresolvedIsRetried` | crates/gobrowse-sandboxd/src/runtime.rs:1347-1385 | an unresolved resume is tried three times, then given up with the record kept |
| `Recovery.QuietStartServes` | crates/gobrowse-sandboxd/src/runtime.rs:1895-1932 | from every state after a crash a start in which everything works ends serving, without container or record |
| `Recovery.NeverLeakyIsExact` | crates/gobrowse-sandboxd/src/runtime.rs:1287-1385 | a run never leaks if and only if after each of its steps no continuation without a leak forgets a paused container |
| `Recovery.LeakForgets` | crates/gobrowse-sandboxd/src/runtime.rs:1316-1331 | after every leaky pause, undoing the pause can clear the record of a container that is still paused |
| `Recovery.LeakyRunLosesAContainer` | crates/gobrowse-sandboxd/src/runtime.rs:1287-1385 | a run from the start that ends with a paused container and no record |
| `ProviderStream.Stream.Line` | crates/gobrowse-server/src/chat.rs:438-447 | one complete line is cut off the buffer and parsed |
| `ProviderStream.Stream.Flush` | crates/gobrowse-server/src/chat.rs:462-480 | the last line or event of a closed response yields an event, a completion or an error |
| `ProviderStream.Stream.Turn` | crates/gobrowse-server/src/chat.rs:431-487 | one turn of the loop, in the order of its branches |
| `ProviderStream.Stream.Next` | crates/gobrowse-server/src/chat.rs:428-488 | the loop ends, and one poll takes the first of the remaining outputs and leaves the rest |
| `ProviderStream.TurnGoesDown` | crates/gobrowse-server/src/chat.rs:431-487 | every turn decreases completion, remaining chunks, buffer, event data and queue, lexicographically |
| `ProviderStream.PendingComesFirst` | crates/gobrowse-server/src/chat.rs:432-437 | queued events come out before anything else, and after completion nothing else does |
| `ProviderStream.PayloadShape` | crates/gobrowse-server/src/chat.rs:490-584 | the events of a line hold no verdict, unless the line finishes the response and its last event completes it |
| `ProviderStream.RunIsFold` | crates/gobrowse-server/src/chat.rs:428-488 | the buffering machine yields the fold over the newline-split whole, from any quiet state |
| `ProviderStream.SmallResponsesArriveWhole` | crates/gobrowse-server/src/chat.rs:450-457 | up to 4 MiB the delivered bytes are all bytes before the first transport failure |
| `ProviderStream.ChunkingIsIrrelevant` | crates/gobrowse-server/src/chat.rs:428-488 | two ways of cutting the same bytes, even inside a character, give the same events and errors |
| `ProviderStream.OneVerdict` | crates/gobrowse-server/src/chat.rs:428-488 | exactly one completion or error, nothing after a completion, and exactly when something follows an error |
| `ProviderStream.ResponseSaysItsPayloads` | crates/gobrowse-server/src/chat.rs:428-584 | for every decoder of either dialect and however cut: per payload its text, its usage and its tool calls, in order, then the verdict (completion by the last payload or `[DONE]`, an error for a payload that cannot be decoded, a broken or a closed response), and nothing of what follows; an event may have any number of `data:` lines, joined by newlines |
| `ProviderStream.QueueFollowsTheError` | crates/gobrowse-server/src/chat.rs:428-488 | for every decoder, a response that ends with the line of an event that only queues yields an error and then the queue, however it is cut |
| `ProviderStream.UsageFollowsAnError` | crates/gobrowse-server/src/chat.rs:473-480 | for every ASCII payload with usage, without text and not finishing, its `data:` line alone, as bytes, yields an error and then what it queues |
| `RateLimiter.Retain` | crates/gobrowse-server/src/rate_limiter.rs:33 | the slots that begin in the window stay, in order |
| `RateLimiter.Sum` | crates/gobrowse-server/src/rate_limiter.rs:45 | the total of the counts |
| `RateLimiter.Hit` | crates/gobrowse-server/src/rate_limiter.rs:30-47 | the slots after one hit, and that the answer compares their total with the limit |
| `RateLimiter.RateLimiter.CheckKey` | crates/gobrowse-server/src/rate_limiter.rs:75-86 | one bucket is hit, made anew when missing or differently configured; no other changes |
| `RateLimiter.RateLimiter.CheckGlobal` | crates/gobrowse-server/src/rate_limiter.rs:89-99 | the same for the global table |
| `RateLimiter.RateLimiter.Prune` | crates/gobrowse-server/src/rate_limiter.rs:102-117 | a bucket stays exactly when it has slots in its window, with those slots, in both tables, and no check from then on can tell the difference |
| `RateLimiter.RetainBuckets` | crates/gobrowse-server/src/rate_limiter.rs:105-109 | the loop over one table keeps exactly the live slots of the buckets that have some |
| `RateLimiter.SlotsCountHits` | crates/gobrowse-server/src/rate_limiter.rs:30-47 | in every run with prunes anywhere, the live slots of a bucket count exactly its checks by second |
| `RateLimiter.CountIsBracketed` | crates/gobrowse-server/src/rate_limiter.rs:30-47 | the compared number lies between the checks of the window less 999 ms and those of the whole window |
| `RateLimiter.CountsStayBelowChecks` | crates/gobrowse-server/src/rate_limiter.rs:36-45 | in any run a bucket counts no more than the checks made of it, so 32 bits suffice for fewer than 2^32 of them |
| `RateLimiter.NoBurst` | crates/gobrowse-server/src/rate_limiter.rs:75-117 | an interval of the window less 999 ms holds at most `limit` allowed checks |
| `RateLimiter.BoundIsTight` | crates/gobrowse-server/src/rate_limiter.rs:30-47 | one millisecond more and two hits pass a limit of one, for every window |
| `RateLimiter.PruningChangesNoDecision` | crates/gobrowse-server/src/rate_limiter.rs:102-117 | runs with the same checks get the same answers wherever prunes are made |
| `Chunker.CharIndices` | crates/gobrowse-core/src/library.rs:191 | the byte offset of every character |
| `Chunker.CutChunk` | crates/gobrowse-core/src/library.rs:199-211 | one chunk, with its offsets read from the index |
| `Chunker.ChunkText` | crates/gobrowse-core/src/library.rs:184-218 | the loop ends, and chunk k is the text from k times the step on, up to the chunk that reaches the end |
| `Chunker.StartIsAMultiple` | crates/gobrowse-core/src/library.rs:197-215 | chunk k starts at k times the maximum less the overlap |
| `Chunker.ChunkSizes` | crates/gobrowse-core/src/library.rs:198-211 | ordinals are consecutive, chunks non-empty and within the maximum, estimates rounded up |
| `Chunker.NeighboursOverlap` | crates/gobrowse-core/src/library.rs:212-215 | neighbours share exactly the overlap |
| `Chunker.OffsetsSliceTheBody` | crates/gobrowse-core/src/library.rs:199-210 | offsets fall on character boundaries and cut out the bytes of exactly that text |
| `Chunker.Utf8IsInjective` | crates/gobrowse-core/src/library.rs:204 | bytes determine the text, so the cut has one reading |
| `Chunker.RebuildsTheBody` | crates/gobrowse-core/src/library.rs:184-218 | the first chunk and the later ones without their overlap rebuild the text |
| `Chunker.ChunkingIsUnique` | crates/gobrowse-core/src/library.rs:184-218 | a text has one chunking |
| `ContextBuilder.SortedSorts` | crates/gobrowse-core/src/context.rs:41-47 | the sorted candidates are a permutation, in order |
| `ContextBuilder.SortedIsStable` | crates/gobrowse-core/src/context.rs:41-47 | candidates of equal rank keep their order |
| `ContextBuilder.BuildContext` | crates/gobrowse-core/src/context.rs:40-66 | the loop computes the greedy choice over the sorted candidates |
| `ContextBuilder.RanksDescend` | crates/gobrowse-core/src/context.rs:41-47 | in the sorted candidates required ones come first, then priorities fall, then identifiers rise |
| `ContextBuilder.AtMostIsLexicographic` | crates/gobrowse-core/src/context.rs:46 | identifiers are compared as texts |
| `ContextBuilder.BuiltIsGreedy` | crates/gobrowse-core/src/context.rs:48-59 | along the ranks a candidate is selected if and only if it is required or fits next to what was selected before it |
| `ContextBuilder.NothingLostOrDuplicated` | crates/gobrowse-core/src/context.rs:48-65 | every candidate is selected or omitted, once, and the total is the saturated sum of the selected estimates |
| `ContextBuilder.RequiredComeFirst` | crates/gobrowse-core/src/context.rs:51-59 | exactly the required candidates come first, and the total is within budget if and only if they alone are |
| `ContextBuilder.OmittedWouldNotFit` | crates/gobrowse-core/src/context.rs:52-58 | an omitted candidate is optional and would not fit next to the final total |
| `ContextBuilder.InputOrderIsIrrelevant` | crates/gobrowse-core/src/context.rs:40-66 | with distinct identifiers the input order does not matter |
| `AtomicWrite.Volume.LookAtTarget` | crates/gobrowse-sandboxd/src/filesystem.rs:597-608 | the first look at the target, with each refusal |
| `AtomicWrite.Volume.LookAtContent` | crates/gobrowse-sandboxd/src/filesystem.rs:610-617 | the digest of the target is compared before anything is staged |
| `AtomicWrite.Volume.Look` | crates/gobrowse-sandboxd/src/filesystem.rs:597-617 | both looks, in order |
| `AtomicWrite.Volume.CreateStaged` | crates/gobrowse-sandboxd/src/filesystem.rs:972-993 | the staged file is created, given its mode and written, with what each failure leaves behind |
| `AtomicWrite.Volume.CheckStaged` | crates/gobrowse-sandboxd/src/filesystem.rs:631-639 | the staged file is verified or discarded |
| `AtomicWrite.Volume.DiscardStaged` | crates/gobrowse-sandboxd/src/filesystem.rs:1278-1296 | best-effort removal of the staged name |
| `AtomicWrite.Volume.ProbeAndStage` | crates/gobrowse-sandboxd/src/filesystem.rs:619-639 | the existence probe, then the staging |
| `AtomicWrite.Volume.ExchangeNames` | crates/gobrowse-sandboxd/src/filesystem.rs:642-651 | the exchange swaps both names or changes neither |
| `AtomicWrite.Volume.PlaceStaged` | crates/gobrowse-sandboxd/src/filesystem.rs:705-714 | a rename without replacement needs a free name |
| `AtomicWrite.Volume.ValidateExchange` | crates/gobrowse-sandboxd/src/filesystem.rs:652-654 | the new file must hold the name before the displaced entry is judged |
| `AtomicWrite.Volume.LookAtDisplaced` | crates/gobrowse-sandboxd/src/filesystem.rs:655-683 | the displaced entry must be a plain file with the expected digest |
| `AtomicWrite.Volume.Restore` | crates/gobrowse-sandboxd/src/filesystem.rs:684-702 | a refused exchange is undone, or contained |
| `AtomicWrite.Volume.Contain` | crates/gobrowse-sandboxd/src/filesystem.rs:1350-1358 | the workspace name is moved away and removed |
| `AtomicWrite.Volume.ReplaceTarget` | crates/gobrowse-sandboxd/src/filesystem.rs:641-703 | the branch for an existing target |
| `AtomicWrite.Volume.CreateTarget` | crates/gobrowse-sandboxd/src/filesystem.rs:704-722 | the branch for a missing target |
| `AtomicWrite.Volume.SyncDirectories` | crates/gobrowse-sandboxd/src/filesystem.rs:723-724 | both directories are synchronised, or the call fails after publishing |
| `AtomicWrite.Volume.AtomicWrite` | crates/gobrowse-sandboxd/src/filesystem.rs:584-726 | the whole call, under any interference and faults; a success answers the digest of the new content |
| `AtomicWrite.Volume.PatchFile` | crates/gobrowse-sandboxd/src/filesystem.rs:354-369 | a malformed digest is refused before anything is looked at |
| `AtomicWrite.SuccessIsOneSwap` | crates/gobrowse-sandboxd/src/filesystem.rs:584-726 | under any interference and faults a success changed the name once: by exchange for a plain file of the expected content, or by taking a free name |
| `AtomicWrite.SuccessMadeEveryCall` | crates/gobrowse-sandboxd/src/filesystem.rs:584-726 | under any interference a success made every system call of its branch, both synchronisations included, and none failed but, at most, the existence probe |
| `AtomicWrite.NothingStaysBehind` | crates/gobrowse-sandboxd/src/filesystem.rs:584-726 | under any renames by others, as long as no call fails nothing stays under a private name |
| `AtomicWrite.ContentIsJudged` | crates/gobrowse-sandboxd/src/filesystem.rs:610-617 | content is judged by what is there at that moment: gone, unsafe, too large or different entries are refused as such |
| `AtomicWrite.QuietPublicationAnswers` | crates/gobrowse-sandboxd/src/filesystem.rs:641-714 | left alone, a refused exchange answers what is wrong with the displaced entry, and a placement onto a taken name conflicts and changes nothing |
| `AtomicWrite.FailedStaging` | crates/gobrowse-sandboxd/src/filesystem.rs:972-993 | staging that fails answers an I/O error and leaves its file behind if and only if the change of its mode failed |
| `AtomicWrite.DigestsAreHex` | crates/gobrowse-sandboxd/src/filesystem.rs:361-367 | the accepted digests are exactly the lower-case texts of thirty-two bytes |
| `AtomicWrite.WrittenDigestIsAccepted` | crates/gobrowse-sandboxd/src/filesystem.rs:350-369 | left alone, the next patch accepts the digest that a write answered, and any other digest is a conflict |
| `AtomicWrite.QuietRefusalIsExact` | crates/gobrowse-sandboxd/src/filesystem.rs:591-617 | left alone, a write or patch is refused with the error of what is wrong, in the source's order |
| `AtomicWrite.PatchIsCompareAndSwap` | crates/gobrowse-sandboxd/src/filesystem.rs:354-369 | a successful patch displaced the expected content if and only if its probe found the target |
| `AtomicWrite.PatchOfVanishedTarget` | crates/gobrowse-sandboxd/src/filesystem.rs:619 | a target renamed away just before the probe makes patch succeed onto a free name |
| `AtomicWrite.RefusalIsAccountedFor` | crates/gobrowse-sandboxd/src/filesystem.rs:584-726 | under any interference and faults a refusal left the name alone, left its exchange or placement standing, took the new file back, exchanged the original with another process's entry, or moved the name out of the workspace, with the errors each may answer |
| `AtomicWrite.RollBackIsExact` | crates/gobrowse-sandboxd/src/filesystem.rs:684-702 | a roll back destroys a servable entry if and only if it cannot exchange back and the removal works, or it exchanges back over another entry and the removal works, or its check fails and containment of a servable entry works |
| `AtomicWrite.LossIsExact` | crates/gobrowse-sandboxd/src/filesystem.rs:584-726 | under any interference and faults a whole call destroys a servable entry other than its new file if and only if it replaces it as asked, or the roll back of its refused exchange meets one of its three cases, or the check after its placement fails and containment of that entry works |
| `AtomicWrite.TakenIsAccountedFor` | crates/gobrowse-sandboxd/src/filesystem.rs:584-726 | under any interference and faults what a call takes off the name it puts back, keeps under a private name or unlinks; it keeps or unlinks nothing else but its new file; and no followed name leads to what lost its last name |
| `AtomicWrite.LossWithoutFault` | crates/gobrowse-sandboxd/src/filesystem.rs:652-701 | without a fault, one rename right after the exchange destroys the original if it empties the name, and otherwise the entry it puts there if that may be served |
| `AtomicWrite.LossByContainment` | crates/gobrowse-sandboxd/src/filesystem.rs:715-721 | without a fault or an exchange, a file put on the name right after the placement is destroyed and the call is refused |
| `AtomicWrite.LossByFailedCheck` | crates/gobrowse-sandboxd/src/filesystem.rs:684-702 | a patch that finds another file's content in what it displaced takes its own file back, and destroys that file when the check after it fails |
| `AtomicWrite.QuietPublishOver` | crates/gobrowse-sandboxd/src/filesystem.rs:641-703 | left alone, an exchange stands exactly for a matching plain file, and is otherwise undone or contained |
| `AtomicWrite.QuietWrite` | crates/gobrowse-sandboxd/src/filesystem.rs:584-726 | left alone, a write succeeds exactly when it may, then changes the target only, and a refusal changes nothing |
| `AtomicWrite.QuietPatch` | crates/gobrowse-sandboxd/src/filesystem.rs:354-369 | left alone, a patch succeeds exactly on a plain file of the expected content, and a refusal changes nothing |
| `TreeCopy.CopyBudget.CountEntry` | crates/gobrowse-sandboxd/src/filesystem.rs:1020-1027 | one entry is charged, refused or not, and refused beyond the limit |
| `TreeCopy.CopyBudget.CountFile` | crates/gobrowse-sandboxd/src/filesystem.rs:1029-1040 | an entry and then its bytes are charged, and refused beyond either limit |
| `TreeCopy.CopyOne` | crates/gobrowse-sandboxd/src/filesystem.rs:1217-1273 | one entry is copied, or the refusal |
| `TreeCopy.CopyInto` | crates/gobrowse-sandboxd/src/filesystem.rs:1205-1276 | the loop over a directory computes the recursive copy and the spent budget |
| `TreeCopy.Validate` | crates/gobrowse-sandboxd/src/filesystem.rs:1160-1203 | the loop computes the recursive validation and the scanned count |
| `TreeCopy.DirectoryIsExact` | crates/gobrowse-sandboxd/src/filesystem.rs:1205-1276 | a directory is copied if and only if it is safe and within depth, entry, file and total limits; the budget is charged the true counts |
| `TreeCopy.ValidationIsExact` | crates/gobrowse-sandboxd/src/filesystem.rs:1160-1203 | a tree is accepted if and only if it is safe and within depth and entry limits |
| `TreeCopy.CopiedModeIsSafe` | crates/gobrowse-sandboxd/src/filesystem.rs:1009-1011 | a copied file is read by all, written by its owner, executable as it was, and carries no other bit |
| `TreeCopy.DirectoryRefusal` | crates/gobrowse-sandboxd/src/filesystem.rs:1205-1276 | a refused copy reports an unsafe entry only if there is one, and an exceeded limit only if one is |
| `TreeCopy.CopyRefusalsAreExact` | crates/gobrowse-sandboxd/src/filesystem.rs:449-536 | the refusals of a copy, by cause, in the order in which they are met |
| `TreeCopy.CopiesAreValid` | crates/gobrowse-sandboxd/src/filesystem.rs:1043-1062 | the validation after a copy never rejects it |
| `TreeCopy.CopyHasTheSameEntries` | crates/gobrowse-sandboxd/src/filesystem.rs:1205-1276 | every path leads to the same kind of entry with the same content in the copy, or fails in the same way |
| `TreeCopy.Workspace.Stage` | crates/gobrowse-sandboxd/src/filesystem.rs:464-506 | the source is copied into the staging area, or the refusal |
| `TreeCopy.Workspace.CheckPublished` | crates/gobrowse-sandboxd/src/filesystem.rs:1043-1062 | an entry is checked again, a directory with its tree |
| `TreeCopy.Workspace.Copy` | crates/gobrowse-sandboxd/src/filesystem.rs:449-536 | nothing stays staged, and a refusal leaves the workspace as it was |
| `TreeCopy.CopyIsExact` | crates/gobrowse-sandboxd/src/filesystem.rs:449-536 | a copy succeeds if and only if source, destination and limits allow it; then the destination holds the copy, and without it the workspace is what it was |

## Left out

- Requests.StoredResponseIsFinal: excludes answers to filesystem changes with the same id (`FilesystemAnswersItself`), and does not promise that a waiting duplicate is ever answered, because it may not be (`OrphanIsNeverAnswered`); only safety is stated.
- Requests.DispatchedAtMostOnce: covers terminal mutations. A filesystem change has no row and runs again once its slot is evicted or the daemon restarts; what it does to files is not part of `Requests`. Requests that change nothing bypass cache and journal and are left out.
- Recovery.EveryPausedContainerIsNamed: holds for runs without a leaky pause (the condition is exact) and with one pause owner per workspace; overlapping owners after a cancelled caller are not modelled.
- Lifecycle.SettledRecordIsNeverRunningAgain: excludes STARTING and RUNNING only, because `set_state` is unconditional; which steps change a settled record is `SettledRecordChangesExactlyByLateWrite`.
- RateLimiter.Hit: counts and times are unbounded; `CountsStayBelowChecks` says when 32-bit counts suffice, and the 64-bit product of the window and 1000 is taken not to overflow.
- RateLimiter.NoBurst: needs a clock that does not go back and one window and limit per bucket.
- ProviderStream.ChunkingIsIrrelevant: is stated up to 4 MiB, as beyond it the error falls where the chunk that crosses the limit ends.
- AtomicWrite.SuccessIsOneSwap: follows one name; interference below the parent directory and writers into open files are not modelled.
- AtomicWrite.LossIsExact: counts files with one name and folders that may be served; a removal that fails removes nothing, so a folder removed in part is not modelled.
- AtomicWrite.QuietWrite: a crash in the middle of a write and the order in which directories reach the disk are not modelled.
- TreeCopy.CopyIsExact: is without interference and I/O faults; a directory lists a new entry last, and directory modes other than the copied one are kept as they are.
- TreeCopy.CopyInto: the copied entry always has a fresh name in the destination, because names in a directory are distinct.
- Podman argument lists, process spawning, PTY and termios handling, sockets, `openat2` flags, real clocks and timeouts: their results are parameters.
- SHA-256, base64, serde and JSON decoding: their results are parameters or stand for their inputs.
- `move_entry`, `delete`, `mkdir`, `search` and `list` of `filesystem.rs`: they reuse the walks and renames modelled here.
- A crash inside the write of a recovery record: the write is one step.
- `set_size`, resize, interrupt, kill, process listing and network attestation: single calls without state of their own.
- `rank_fusion`, skill success rates, the authorization matrix, SQL handlers of the server, configuration and the web interfaces: little structure to prove.
