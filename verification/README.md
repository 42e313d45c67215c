# tikdown-rs, verified

A Dafny model of the parts of tikdown-rs that several processes share and where a mistake would lose or
duplicate work: the backfill protocol, the download pacer, the life of a video row with its archive entry,
and the error classifier, the cookie canonicaliser, the network monitor and the in-memory windows.

## How it is built

**Backfill** (`BackfillProtocol`, `BackfillInvariant`, `BackfillTheorems`, `BackfillRun`, `BackfillOps`).
Account rows, one cross-process slot and the video table are changed by any number of actors. One committed
SQL statement, or one answer from the outside world, is one atomic step. `BackfillProtocol` gives the run as
a program with a counter (`Execute`) and everybody else's statements (`React`); a behaviour is any
interleaving, with cancellation, crash and process kill among the steps. `BackfillInvariant` proves an
inductive invariant, `BackfillTheorems` what follows from it. `BackfillRun` is `run_backfill` again as the
imperative program it is, against real columns that may change at every await; each of its statements is
proved to be the protocol's step, so the theorems hold of the program. `BackfillOps` does the same for queue,
cancel, the collector and the startup passes, which read the row and later write it.

**Pacing** (`IsoTime`, `Pacing`). The cooldown slot is a text column compared as text. `IsoTime` proves that
the fixed-width UTC millisecond form (ISO 8601; the sortability condition in section 5.1 of RFC 3339) orders
as time does; `Pacing` bounds the rate of grants for any processes and clock readings, and gives the waiting
loop a termination measure.

**Videos and archive** (`Videos`, `VideoResults`, `VideoCrashes`, `Archive`, `Text`). `Videos` proves conservation between the
two tables and agreement with the archive over every history of passes, with the engine, the integrity check and
the feed as arbitrary answers. `VideoResults` says what a pass comes to for one row and for one account. `VideoCrashes` cuts every pass into its single writes and proves the same with any
pass cancelled or killed between two of them. `Archive` proves that the text file refines a plain list of ids
through crashes.

**The halves together** (`VideoArchive`, `VideoProtocol`). `VideoArchive` ties the set of ids the catalogue edits to
the text file, and carries what the tables promise about the archive through kills inside the file's rewrite.
`VideoProtocol` shows that the passes of the catalogue are actors of the backfill protocol, and that a run's steps
on an entry are the catalogue's backfill of it.

**Smaller components**: `Errors` (ordered classifier with digit redaction), `Cookies` (canonical Netscape
text), `Network` (online/offline state machine), `Windows` (pruned sliding windows). `Prelude` and `VideoStatus`
hold shared types and the code-point order on text.

Verify with `dafny verify dfyconfig.toml`.

## Where the code and its documentation differ

The model follows the code.

- Cancelling is documented as refused on terminal states. The status is read first and written later without a
  condition, so a completed backfill can still become 'cancelled' (`CancelCanLandOnCompleted`); the exact set
  of steps that leave 'completed' is `CompletedIsLeftBy`.
- The transition to monitoring is described as sharing the commit of completion; it is a commit of its own,
  conditional on 'completed', and starting the monitor shares that second commit.
- `run_backfill` is documented to return the account's status. It does exactly under the condition of
  `ReturnedStatusIsTheRows`; a crash answers 'failed' over a queued row (`CrashAnswersFailed`), a row lost to
  another process's startup is answered 'cancelled' while it is queued (`ReconcileCanTakeTheRow`), a row
  cancelled after its completion is answered 'completed' (`CancelCanLandOnCompleted`), and a run cancelled after
  its completion answers 'paused' or 'queued' over a completed row (`CancelledRunHidesCompletion`). Nothing ever
  writes 'failed' to a row (`NobodyWritesFailed`).
- A breaker pause is said never to be collected. The collector tests needs_review on the row it read, not in its
  conditional write, so a reading from before the flag still requeues the row (`StaleReadingEscapesReview`);
  `ReviewHoldsOffCollectors` gives the exact condition.
- The canonical cookie text is said to hold the header exactly once. It does exactly under the condition of
  `HeaderOnceIff`; a cookie string with a line break before a header line repeats it (`HeaderCanRepeat`).
- The archive is described as append-only. An add appends (`AddOnlyAppends`); a remove rewrites the file, and
  the old content is the start of the new one exactly when no complete line holds the id (`AppendOnlyIffAbsent`).
- The rewrite's staging is meant to survive a crash at any point. A crash before it leaves the id listed, and a
  crash while the staged file is being written publishes the torn text at the next start: `CrashIsInvisible`
  gives the exact condition, `UnstagedDeathUndoesNothing` and `TornStagingLosesIds` the two failing families.
- `retry_failed` says retry_count is kept. The retry keeps it; the attempt that follows writes its base count, 0,
  and so keeps it exactly when it was 0 (`RetryCountSurvivesIffBase`).
- `reconcile_stale_backfills` is described as requeueing rows orphaned by a crash. It requeues every row in
  'backfilling', a live run's in another process included (`ReconcileTakesLiveRows`).

## Model

| member | source | states |
|---|---|---|
| `BackfillTheorems.OneBackfillAtATime` | src/tikdown_rs/services/backfill.py:690-710 | in every reachable state of any interleaving: a 'backfilling' row owns the slot, at most one account is 'backfilling', at most one run is between acquire and release |
| `BackfillTheorems.ReleaseLeavesNoBackfilling` | src/tikdown_rs/services/backfill.py:886-889 | no run gives up the slot while any row is still 'backfilling', and it gives up only its own |
| `BackfillTheorems.OnlyTheHolderEnters` | src/tikdown_rs/services/backfill.py:102-115 | a row enters 'backfilling' only from 'queued', by the conditional write of the run that owns the slot |
| `BackfillTheorems.KilledRunKeepsTheSlot` | src/tikdown_rs/services/backfill.py:303-320 | after a kill the slot stays owned by the dead run in every later state, and nobody else gets in: safety, not progress |
| `BackfillTheorems.OnlyQueueLeavesCancelled` | src/tikdown_rs/services/backfill_ops.py:71-81 | one step leaves 'cancelled' if and only if it is queue's write |
| `BackfillTheorems.CancelIsNeverLost` | src/tikdown_rs/services/backfill_ops.py:84-111 | a committed cancel stands in every later state until an operator queues the account again, whatever the runs, the collector and the reconciliations do |
| `BackfillTheorems.CompletedIsLeftBy` | src/tikdown_rs/services/backfill_ops.py:60-81 | 'completed' is left by a step if and only if that step is the unconditional write of queue or cancel |
| `BackfillTheorems.LateStatementWritesNothing` | src/tikdown_rs/services/backfill.py:178-196 | a marked run whose row is no longer 'backfilling' changes no status, cursor, done or total and announces no completion |
| `BackfillTheorems.LeftRowIsFrozen` | src/tikdown_rs/services/backfill.py:178-236 | once the row has left 'backfilling', it does not come back while that run lasts, and its cursor, done and total stay put whoever moves |
| `BackfillTheorems.AtMostOneLateDownload` | src/tikdown_rs/services/backfill.py:532-560 | over its whole life a run begins at most one download while its row is not 'backfilling' |
| `BackfillTheorems.LateCountsLateDownloads` | src/tikdown_rs/services/backfill.py:446-458 | the counter behind the previous bound grows exactly when a download begins while the row is not 'backfilling' |
| `BackfillTheorems.SettledMeansTerminal` | src/tikdown_rs/services/backfill.py:438-488 | an entry counts as settled only in a step that finds its row terminal or commits it as terminal |
| `BackfillTheorems.CompletedRunCoveredItsScope` | src/tikdown_rs/services/backfill.py:532-608 | a run that announces or returns 'completed' settled exactly the listed entries not behind one dated strictly before its cursor snapshot; undated entries do not stop it, nor does any date without a snapshot |
| `BackfillTheorems.SettledSoFar` | src/tikdown_rs/services/backfill.py:532-608 | while the row is still 'backfilling', the settled entries are exactly those passed, and none of them stands behind the boundary |
| `BackfillTheorems.RefusedAtTheSlot` | src/tikdown_rs/services/backfill.py:690-710 | a run without a cookie, or that finds the slot taken, raises and touches nothing |
| `BackfillTheorems.RunGetsUnderWay` | src/tikdown_rs/services/backfill.py:690-735 | with a cookie, the slot free and the row queued, the slot becomes the run's, the row 'backfilling' without a stale reason, and the start is announced |
| `BackfillTheorems.ListingIsCounted` | src/tikdown_rs/services/backfill.py:736-745 | the entries are the listing, and its length the total while the row is still the run's; otherwise the run ends cancelled |
| `BackfillTheorems.LastStatementCompletes` | src/tikdown_rs/services/backfill.py:611-634 | past its last entry a run completes and announces the row if it is still its own; otherwise it ends and announces 'cancelled' |
| `BackfillTheorems.SnapshotIsTheCursor` | src/tikdown_rs/services/backfill.py:746-753 | the snapshot and the starting count are what the row holds at that statement, and the snapshot joins the account's |
| `BackfillTheorems.CancelStopsTheRun` | src/tikdown_rs/services/backfill.py:532-541 | a cancel committed while a run stands between two entries stops it there: until the account is queued again it takes up no entry, writes no video and announces no completion |
| `BackfillTheorems.OutagePauses` | src/tikdown_rs/services/backfill.py:548-560 | an outage noticed before an entry pauses the row for the network and ends the run, or passes the entry over when the row was lost |
| `BackfillTheorems.InterruptedRowIsUnwedged` | src/tikdown_rs/services/backfill.py:647-687 | a cancelled task leaves a row still its own paused for the disk while downloads are paused, else for the network while offline, else queued |
| `BackfillTheorems.CompletionStartsMonitoring` | src/tikdown_rs/services/backfill.py:239-269 | the run's last statement makes a completed history row that asked for it a monitored one, and starts the monitor; any other row it leaves |
| `BackfillTheorems.DoneAccounting` | src/tikdown_rs/services/backfill.py:575-606 | however a run stands or ends, backfill_done has grown by its terminal commits or by exactly one fewer; by exactly that number when it returns 'completed'; backfill_total is the length of its listing |
| `BackfillTheorems.OwedIsTheLastCommit` | src/tikdown_rs/services/backfill.py:594-606 | the missing one is the last commit: owed from a terminal commit until a progress write succeeds |
| `BackfillTheorems.SnapshotsNeverDecrease` | src/tikdown_rs/services/backfill.py:749-753 | an account's cursor snapshots never decrease from run to run, and its cursor never falls behind any of them |
| `BackfillTheorems.CursorMovesToTheEntryDate` | src/tikdown_rs/services/backfill.py:594-606 | only a progress write moves the cursor, to the date of the entry just handled, never behind the snapshot; undated entries leave it alone |
| `BackfillTheorems.ReturnedStatusIsTheRows` | src/tikdown_rs/services/backfill.py:765-885 | the status a run returns is its row's own if and only if the deciding statement finds the row still 'backfilling' and is not the crash handler's, or the row has that status already |
| `BackfillTheorems.NobodyWritesFailed` | src/tikdown_rs/services/backfill.py:868-885 | a row is 'failed' only if it was so from the start: nothing writes that status |
| `BackfillTheorems.ReconcileTakesLiveRows` | src/tikdown_rs/services/backfill.py:303-320 | the startup reconciliation takes the row of a live run as well; the run keeps its place and the slot |
| `BackfillTheorems.PausesAreCoherent` | src/tikdown_rs/services/backfill.py:199-236 | in every reachable state a pause reason implies 'paused', and 'paused' without a reason implies needs_review |
| `BackfillTheorems.ReviewHoldsOffCollectors` | src/tikdown_rs/services/backfill.py:357-386 | under any interleaving, a collector requeues an account that waits for a review if and only if it read the row before the flag went up, has held that reading since, and its conditional write lands |
| `BackfillTheorems.BreakerPauseHolds` | src/tikdown_rs/services/backfill.py:199-215 | a breaker trip pauses the row and the account and asks for a review; at any later time, under any interleaving, only a collector's reading from before the trip can requeue it |
| `BackfillTheorems.ModeFlipsOnlyOnCompletion` | src/tikdown_rs/services/backfill.py:239-269 | mode changes only to 'monitor', only over a 'completed' row that asked for it, and the same commit starts the monitor |
| `BackfillInvariant.BehaviourInv` | src/tikdown_rs/services/backfill.py:765-889 | the inductive invariant behind the theorems holds in every state of every behaviour |
| `BackfillInvariant.StepKeeps` | src/tikdown_rs/services/backfill.py:765-889 | every statement of every actor keeps the invariant |
| `BackfillInvariant.ExecuteIsLawful` | src/tikdown_rs/services/backfill.py:415-644 | what one statement of a run may write, stated without its body: coherent rows, guarded entry, cursor not behind the snapshot, slot taken and freed in order |
| `BackfillInvariant.ReactIsGentle` | src/tikdown_rs/services/backfill_ops.py:47-111 | no statement of queue, cancel, collector or reconciliation touches cursor, done or total, or enters 'backfilling' |
| `BackfillInvariant.CoveredByDate` | src/tikdown_rs/services/backfill.py:564-573 | covering the scope means settling, by the dates alone, exactly the entries not behind one dated strictly before the snapshot |
| `BackfillInvariant.Scope` | src/tikdown_rs/services/backfill.py:564-573 | the number of entries before the first strictly older dated one |
| `BackfillRun.Database.AcquireBackfillSlot` | src/tikdown_rs/models/backfill_slot.py:33-53 | wins exactly when the slot is free, and then owns it |
| `BackfillRun.Database.ReleaseBackfillSlot` | src/tikdown_rs/models/backfill_slot.py:56-65 | clears the slot exactly when the caller owns it |
| `BackfillRun.Database.AcquireRunSlot` | src/tikdown_rs/services/backfill.py:690-710 | cookie gate, then the slot: one protocol step, continuing only if both passed |
| `BackfillRun.Database.ReadGateStatus` | src/tikdown_rs/services/backfill.py:798-806 | the run goes on only if the account is there and 'queued' |
| `BackfillRun.Database.MarkBackfilling` | src/tikdown_rs/services/backfill.py:102-115 | queued to 'backfilling' and the stale pause reason cleared, or the run ends |
| `BackfillRun.Database.SetTotal` | src/tikdown_rs/services/backfill.py:118-133 | the total is written only over a row still 'backfilling'; otherwise the run ends cancelled |
| `BackfillRun.Database.ReadSnapshot` | src/tikdown_rs/services/backfill.py:746-753 | the snapshot, the moving cursor and done are what the row holds |
| `BackfillRun.Database.GetOrCreatePendingVideo` | src/tikdown_rs/services/backfill.py:136-175 | a missing video becomes a pending row, a known one keeps its status; answers whether it was terminal |
| `BackfillRun.Database.PersistProgress` | src/tikdown_rs/services/backfill.py:178-196 | cursor and done are written together, only over a row still 'backfilling' |
| `BackfillRun.Database.PauseForBreaker` | src/tikdown_rs/services/backfill.py:199-215 | paused with needs_review and no reason, or cancelled when the row was lost |
| `BackfillRun.Database.PauseForNetwork` | src/tikdown_rs/services/backfill.py:218-236 | paused for the network, or the entry is passed over when the row was lost |
| `BackfillRun.Database.MarkCompleted` | src/tikdown_rs/services/backfill.py:620-634 | 'completed' only over a row still 'backfilling' |
| `BackfillRun.Database.TransitionToMonitor` | src/tikdown_rs/services/backfill.py:239-269 | fires exactly on a completed history row that asked for monitoring |
| `BackfillRun.Database.EnterEntry` | src/tikdown_rs/services/backfill.py:532-573 | status re-read, outage gate, boundary: the run ends, passes the entry over, stops at the boundary or works on it |
| `BackfillRun.Database.RunBackfillVideo` | src/tikdown_rs/services/backfill.py:415-503 | look up, pace, download, one terminal commit, of which the breaker is told, a failure or a success; the run ends here only by interruption or when the breaker then stands no longer |
| `BackfillRun.Database.RunBackfillLoop` | src/tikdown_rs/services/backfill.py:506-608 | the loop keeps its own cursor and counter equal to those of the protocol run, and ends at the finalizing statement or with the run's ending |
| `BackfillRun.Database.PrepareBackfillLoop` | src/tikdown_rs/services/backfill.py:713-762 | mark, list, total and snapshot lead to the head of the loop, or the run ends |
| `BackfillRun.Database.FinalizeBackfill` | src/tikdown_rs/services/backfill.py:611-644 | completes and then transitions, or ends cancelled |
| `BackfillRun.Database.HandleCancellation` | src/tikdown_rs/services/backfill.py:647-687 | a cancellation is released with 'paused' or 'queued', as the protocol's unwedging statement decides |
| `BackfillRun.Database.HandleCrash` | src/tikdown_rs/services/backfill.py:868-885 | a crash returns 'failed' while the row goes back to 'queued' |
| `BackfillRun.Database.RunBackfill` | src/tikdown_rs/services/backfill.py:765-889 | one whole call under any interference: having won the slot, whether it returns or raises, it leaves the slot free and the row not 'backfilling'; not having won it, as without a cookie, it raises; returning 'completed' means that it settled exactly the entries not behind one dated strictly before its snapshot, that every commit is counted, and that nothing it told the breaker made it trip |
| `BackfillRun.Database.HandleEntry` | src/tikdown_rs/services/backfill.py:532-606 | one round: the run ends, stops at the boundary, or reaches the next head with the cursor and counter advanced |
| `BackfillRun.Database.constructor` | src/tikdown_rs/services/backfill.py:765-889 | a clean database is a valid start |
| `BackfillRun.LegalIsBehaviour` | src/tikdown_rs/services/backfill.py:765-889 | a history recorded by the programs is a behaviour of the protocol |
| `BackfillRun.OthersLeaveRunAlone` | src/tikdown_rs/services/backfill.py:765-889 | a step of anybody else leaves a run's locals as they are |
| `BackfillRun.BackfillBreaker.Record` | src/tikdown_rs/services/backfill.py:82-90 | counts definitive failures with an auth marker in their own message; trips exactly when the trailing run of them has reached the threshold |
| `BackfillRun.BackfillBreaker.Reset` | src/tikdown_rs/services/backfill.py:92-94 | a success ends the trailing run |
| `BackfillOps.QueueBackfill` | src/tikdown_rs/services/backfill_ops.py:47-81 | refused only on the 'backfilling' it read; otherwise the row ends 'queued' without a reason, whatever happened between read and write |
| `BackfillOps.CancelBackfill` | src/tikdown_rs/services/backfill_ops.py:84-111 | refused only on the terminal status it read; otherwise the row ends 'cancelled', whatever happened between read and write |
| `BackfillOps.CancelCanLandOnCompleted` | src/tikdown_rs/services/backfill_ops.py:93-111 | from every quiet database with the row queued, for any account, run and operation, there is a behaviour in which a completed backfill falls to a cancel that read it earlier, while the run answers 'completed' |
| `BackfillOps.ReconcileCanTakeTheRow` | src/tikdown_rs/services/backfill.py:620-634 | and one in which another process's startup takes the row and the run announces and answers 'cancelled' over a queued row |
| `BackfillOps.CrashAnswersFailed` | src/tikdown_rs/services/backfill.py:868-885 | and one in which a crashed run answers 'failed' over a queued row |
| `BackfillOps.CancelledRunHidesCompletion` | src/tikdown_rs/services/backfill.py:647-687 | and one in which a run cancelled between its completing write and the transition answers 'paused' or 'queued', as the cause has it, over a completed row |
| `BackfillOps.StaleReadingEscapesReview` | src/tikdown_rs/services/backfill.py:357-386 | from every quiet database with the row paused for the network there is a behaviour in which a collector requeues the row although the review flag went up after it read it |
| `BackfillOps.Flip` | src/tikdown_rs/services/backfill.py:357-386 | one protocol step; the row passes exactly if it was queued when read, or no review is pending, the cause is gone and the row is still paused |
| `BackfillOps.CollectRow` | src/tikdown_rs/services/backfill.py:355-393 | a row is reported exactly if it passes its conditional write and then finds the slot free, in the states in which the two statements were taken |
| `BackfillOps.CollectQueuedBackfills` | src/tikdown_rs/services/backfill.py:323-393 | in order of id, exactly the rows read as queued, or read as paused without a review for a cause then gone and found still paused by their write, that find the slot free; of these the paused ones become queued, and no other row is written |
| `BackfillOps.CandidateOnColumns` | src/tikdown_rs/services/backfill.py:357-386 | one candidate on its columns: a disk pause stands while downloads were paused when read, a network pause while offline, any pause under review |
| `BackfillOps.ReconcileStaleBackfills` | src/tikdown_rs/services/backfill.py:303-320 | exactly the 'backfilling' rows go back to 'queued', and the count is theirs |
| `BackfillOps.ReconcilePendingMonitorTransitions` | src/tikdown_rs/services/backfill.py:272-300 | every selected transition is replayed, and the count is of those still due at their turn |
| `BackfillOps.OthersLeaveOpsAlone` | src/tikdown_rs/services/backfill_ops.py:60-81 | between its read and its write, nobody else moves an operation |
| `IsoTime.IsoOrder` | src/tikdown_rs/core/pacing.py:35-38 | the text order of two renderings is the order of the instants floored to the millisecond, and they are equal exactly on the same millisecond |
| `IsoTime.ParseRendered` | src/tikdown_rs/core/pacing.py:94 | reading a rendering back gives the instant floored to the millisecond |
| `IsoTime.Iso8601IsFaithful` | src/tikdown_rs/core/pacing.py:35-38 | the column's format is a faithful codec: order and reading back together |
| `IsoTime.DateOrder` | src/tikdown_rs/core/pacing.py:35-38 | calendar order is day order, leap years included |
| `IsoTime.IsoShape` | src/tikdown_rs/core/pacing.py:35-38 | the column's text, field by field: YYYY-MM-DDTHH:MM:SS.mmm+00:00 |
| `IsoTime.PaddedDigit` | src/tikdown_rs/core/pacing.py:35-38 | every digit of a field is the decimal one, with leading zeros |
| `IsoTime.NextDay` | src/tikdown_rs/core/pacing.py:35-38 | day numbers follow the calendar day by day, across months and years |
| `Pacing.StoredIsSlot` | src/tikdown_rs/models/download_pacing_state.py:32-56 | through every history of attempts the text column is the numeric slot on the millisecond grid |
| `Pacing.TextGrants` | src/tikdown_rs/models/download_pacing_state.py:46-54 | the UPDATE's text comparison grants exactly when the numeric slot is due |
| `Pacing.SlotNeverDecreases` | src/tikdown_rs/core/pacing.py:82-104 | for any processes and any clock readings the stored slot never decreases |
| `Pacing.GrantsAreSpaced` | src/tikdown_rs/core/pacing.py:82-104 | any two winning reservations are at least MIN*1000 ms apart |
| `Pacing.SlotIsTheLastWin` | src/tikdown_rs/core/pacing.py:97-100 | the slot is the last win plus its draw: between MIN and MAX seconds after it |
| `Pacing.RateIsBounded` | src/tikdown_rs/core/pacing.py:82-104 | with MIN > 0 any span of W ms holds at most W/(MIN*1000)+1 grants |
| `Pacing.FastPathAgrees` | src/tikdown_rs/core/pacing.py:89-100 | the read-only check reports a wait exactly when the compare-and-set on the same value would lose, and the wait is the slot minus the reading |
| `Pacing.PacingState.ReserveDownloadSlot` | src/tikdown_rs/models/download_pacing_state.py:32-56 | wins exactly when the slot is due, and then stores the floored new slot |
| `Pacing.ClaimMeans` | src/tikdown_rs/models/download_pacing_state.py:46-54 | what one compare-and-set does to the column, the slot and the count of wins |
| `Pacing.DownloadPacer.ReadWait` | src/tikdown_rs/core/pacing.py:91-96 | zero exactly when the slot is due, otherwise the remaining wait |
| `Pacing.DownloadPacer.ReserveNextSlot` | src/tikdown_rs/core/pacing.py:82-104 | every win is accounted for, this call's exactly when it answers 'go'; the slot then runs from its reading; without a rival's win a due slot is never reported busy; overflow only at the end of the calendar |
| `Pacing.DownloadPacer.Acquire` | src/tikdown_rs/core/pacing.py:106-112 | returns with exactly one win of its own, or at the end of the calendar; without rivals within ceil(wait/5 s)+1 rounds; terminates as long as rivals win finitely often |
| `Videos.HistoryIsSound` | src/tikdown_rs/services/videos.py:343-378 | over every history of non-overlapping monitor cycles, backfill steps and retry passes: bytes equal the downloaded sizes, commits and outcome events agree one to one, skipped rows stay archived, video ids stay unique |
| `Videos.ConservedIffFresh` | src/tikdown_rs/services/videos.py:343-367 | a downloaded commit conserves bytes if and only if the row was not downloaded before: the exact cost of overlapping runs |
| `Videos.PersistKeeps` | src/tikdown_rs/services/videos.py:320-378 | one terminal commit over a row not yet downloaded keeps all of that |
| `Videos.AttemptMeans` | src/tikdown_rs/services/videos.py:381-488 | one attempt makes exactly one commit and one matching event, on its own row, with the verdict read off the outside answers alone; only its own archive entry moves |
| `Videos.AttemptLeaves` | src/tikdown_rs/services/videos.py:509-550 | the stored category, the event's category and id, and the disk pause are those of the cause, read off the outside answers; a skipped row's id is archived |
| `Videos.DegradedIsUnarchived` | src/tikdown_rs/services/videos.py:414-422 | a degraded response leaves its id out of the archive, so that a retry can download it again |
| `Videos.AttemptKeeps` | src/tikdown_rs/services/monitor.py:299-341 | an attempt on a row that is neither downloaded nor skipped keeps the invariant |
| `Videos.FallbackStartsUnarchived` | src/tikdown_rs/core/download_engine/ytdlp_engine.py:205-237 | the chain's answer is that of the first call that is not a plain failure, or of the last; a fallback always starts with the id out of the archive; a timeout adds one zombie and no fallback |
| `Videos.PassMeans` | src/tikdown_rs/services/monitor.py:297-342 | a pass makes exactly one commit per selected row, in order, each with its row's own verdict |
| `Videos.PassRow` | src/tikdown_rs/services/monitor.py:297-342 | each selected row ends at its verdict, every other row is untouched |
| `Videos.NoPendingLeft` | src/tikdown_rs/services/monitor.py:264-342 | with the gates open no row of the account is left pending |
| `Videos.SelectIsComplete` | src/tikdown_rs/services/monitor.py:282-295 | the selection misses no matching row |
| `Videos.DiscoverAllMeans` | src/tikdown_rs/services/monitor.py:189-230 | every listed id ends up with a row and exactly one; known rows unchanged, new ones pending rows of the account |
| `Videos.DiscoverAllAnnounces` | src/tikdown_rs/services/monitor.py:190-230 | the new rows are announced one by one in order and nothing else is; each carries an entry of the listing with its duration fact |
| `Videos.CheckedOnlyWhenCompleted` | src/tikdown_rs/services/monitor.py:152-187 | a check less than 30 s after the last one does nothing; last_check_at moves exactly on a completed check; needs_review is raised exactly by an auth failure of the listing, and a failed listing adds no row |
| `Videos.Active` | src/tikdown_rs/services/monitor.py:393-408 | the selected accounts are exactly those in monitor mode, not paused and not under review, each once, in order of id |
| `Videos.BackfillVideoKeeps` | src/tikdown_rs/services/backfill.py:415-503 | the backfill's video step keeps the invariant; a terminal row is passed over |
| `Videos.RetryRow` | src/tikdown_rs/services/backfill_ops.py:146-169 | exactly the transient and integrity failures of the chosen accounts become pending, and none of them is still archived |
| `Videos.RequeueAllFailures` | src/tikdown_rs/services/backfill_ops.py:157-169 | each requeued row is one failure less, which is what the count counts |
| `Videos.RetryCountSurvivesIffBase` | src/tikdown_rs/services/videos.py:343-351 | a retry keeps retry_count; the attempt after it keeps it if and only if it was the base count already |
| `Videos.RetryKeeps` | src/tikdown_rs/services/backfill_ops.py:114-170 | a retry pass keeps the invariant and makes no terminal commit |
| `Videos.Catalogue.PersistTerminal` | src/tikdown_rs/services/videos.py:320-378 | row, byte count, commit and event move together |
| `Videos.Catalogue.HandleDownloadResult` | src/tikdown_rs/services/videos.py:381-488 | the integrity outcomes: downloaded, skipped with a dedupe entry, degraded with the entry discarded, missing, or raised before any write; an unknown row raises |
| `Videos.Catalogue.PersistDownloadFailure` | src/tikdown_rs/services/videos.py:491-550 | failed, stored as definitive or transient exactly if so classified, uncategorised for a local or informational cause; a local failure also pauses downloads |
| `Videos.Catalogue.Download` | src/tikdown_rs/core/download_engine/ytdlp_engine.py:170-238 | the format loop computes the chain's answer and archive effect |
| `Videos.Catalogue.AttemptRow` | src/tikdown_rs/services/monitor.py:298-341 | the status reached is the verdict |
| `Videos.Catalogue.DownloadAccountPendings` | src/tikdown_rs/services/monitor.py:236-342 | gates in order; the counts are the commits made |
| `Videos.Catalogue.DiscoverNewVideos` | src/tikdown_rs/services/monitor.py:128-233 | the count is the number of inserted rows |
| `Videos.Catalogue.RunMonitorCycleOnce` | src/tikdown_rs/services/monitor.py:345-438 | totals equal the commits and inserts made, and the account count is the number of accounts in monitor mode that are neither paused nor waiting for a review |
| `Videos.Catalogue.AttemptBackfillEntry` | src/tikdown_rs/services/backfill.py:415-503 | one terminal commit exactly when the row was not terminal |
| `Videos.Catalogue.RetryFailedVideos` | src/tikdown_rs/services/backfill_ops.py:114-170 | the count is the drop in failed rows |
| `VideoResults.AttemptResult` | src/tikdown_rs/services/videos.py:381-550 | the row an attempt leaves, read off the outside answers: its status, its category for each kind of failure, the bytes of a download, and the disk pause |
| `VideoResults.RetryTakesIff` | src/tikdown_rs/services/backfill_ops.py:146-169 | end to end: a retry of its account makes the row pending if and only if its attempt failed transiently or delivered a bad file |
| `VideoResults.AttemptAnnounces` | src/tikdown_rs/services/videos.py:299-378 | the events of an attempt: a disk pause if the disk was full, then its outcome, with the id unless an error was raised |
| `VideoResults.ClosedGateDownloadsNothing` | src/tikdown_rs/services/monitor.py:264-281 | a closed gate of an account attempts no row; a missing cookie stops the monitor |
| `VideoResults.ClosedGateStopsTheCycle` | src/tikdown_rs/services/monitor.py:365-391 | so do the gates before a whole cycle |
| `VideoResults.OthersAreLeftAlone` | src/tikdown_rs/services/monitor.py:393-408 | a cycle touches neither the columns nor the rows of an account that is not in monitor mode, is paused or waits for a review, and adds none to it |
| `VideoResults.MonitoredAreChecked` | src/tikdown_rs/services/monitor.py:393-438 | with the gates open a cycle checks every other account: a due, completed listing sets last_check_at and leaves a row for every listed id; none of its rows stays pending unless a gate closed or the disk filled up |
| `VideoCrashes.CutHistoryIsDurable` | src/tikdown_rs/services/videos.py:343-378 | over every history of non-overlapping passes, each cancelled or killed after any of its statements: bytes equal the downloaded sizes, video ids are unique, skipped rows are archived |
| `VideoCrashes.CutPassIsDurable` | src/tikdown_rs/services/videos.py:367-378 | a cut pass leaves at most its last commit without its event |
| `VideoCrashes.PassIsItsStatements` | src/tikdown_rs/services/monitor.py:345-438 | every pass is the run of its single statements, each allowed where it comes, each commit followed by its event |
| `VideoCrashes.PrefixKeeps` | src/tikdown_rs/services/videos.py:343-378 | every prefix of allowed statements leaves the promises intact |
| `VideoCrashes.AtMostOneUnannounced` | src/tikdown_rs/services/videos.py:367-377 | stopped anywhere, all commits but at most the last one are announced |
| `VideoCrashes.FetchingIs` | src/tikdown_rs/core/download_engine/ytdlp_engine.py:205-237 | the format chain as single archive edits |
| `VideoArchive.StoppedHistoryRests` | src/tikdown_rs/core/archive.py:74-112 | over every history of passes, each stopped between two statements or killed inside a remove, the archive file as read back lists every skipped row, unless a kill tears the staged text |
| `VideoArchive.DeathKeepsSkipped` | src/tikdown_rs/core/archive.py:99-112 | after a death inside a remove every skipped row is still listed if and only if the staged text was not torn or each of their ids stands in the part that was staged |
| `VideoArchive.UntornIsAllOrNothing` | src/tikdown_rs/core/archive.py:99-112 | outside that window the next process finds the id removed, or still there, and nothing else touched |
| `VideoArchive.EmptyStagingForgetsAll` | src/tikdown_rs/core/archive.py:103-106 | dying at the first staged byte keeps the promise only if no row is skipped |
| `VideoArchive.StatementStaysLinked` | src/tikdown_rs/core/archive.py:53-112 | one edit of the catalogue's set of ids is one add or remove of the file, and they keep saying the same |
| `VideoArchive.StatementsAreNamed` | src/tikdown_rs/services/videos.py:381-488 | every id a pass writes into the archive or the table is one the feed or the table gave it |
| `VideoProtocol.PassExtendsBehaviour` | src/tikdown_rs/services/monitor.py:365-433 | every pass of the video services, cut anywhere, continues a behaviour of the backfill protocol into another: the backfill theorems hold across it |
| `VideoProtocol.StatementIsAct` | src/tikdown_rs/services/videos.py:320-378 | each allowed statement of a pass is one act the protocol has for its other actors, or nothing to it, in any state the two describe alike |
| `VideoProtocol.StatementsAreActs` | src/tikdown_rs/services/videos.py:320-378 | statement by statement, a pass is a sequence of acts the protocol allows, and both end in one database |
| `VideoProtocol.SettleIsCommit` | src/tikdown_rs/services/backfill.py:461-488 | a run's terminal commit is the catalogue's: the same write, counted once in `driven` and once in the commits |
| `VideoProtocol.LookUpIsInsert` | src/tikdown_rs/services/backfill.py:136-175 | a run's look-up passes a terminal row over or leaves an open row, inserted if it was missing |
| `VideoProtocol.KnownEntryIsBackfillVideo` | src/tikdown_rs/services/backfill.py:438-445 | a run leaves a terminal row as it is and settles the entry, as the catalogue's backfill does |
| `VideoProtocol.OpenEntryIsBackfillVideo` | src/tikdown_rs/services/backfill.py:438-488 | a run that handles an open entry undisturbed leaves the video table as the catalogue's backfill does, and `driven` grows by the catalogue's one commit |
| `Archive.ArchiveRefinesList` | src/tikdown_rs/core/archive.py:22-114 | over every history of adds, removes and removes cut short before or after the writing of the staged file, the file is a plain list of ids |
| `Archive.AddAppends` | src/tikdown_rs/core/archive.py:53-67 | add appends one id to the list if and only if no unfinished text waits at the end of the file |
| `Archive.RemoveRefinesList` | src/tikdown_rs/core/archive.py:85-114 | after a remove the list is the filtered list, and the id is gone, if and only if the unfinished last line does not hold the id |
| `Archive.KeptIds` | src/tikdown_rs/core/archive.py:89-98 | the kept lines hold the filtered ids, plus the id on an unfinished last line |
| `Archive.RewriteReadsBack` | src/tikdown_rs/core/archive.py:103-112 | reading the rewritten file shows exactly the kept lines, verbatim and in order |
| `Archive.FoundIffPresent` | src/tikdown_rs/core/archive.py:90-100 | true exactly when a complete line holds the id |
| `Archive.CrashIsInvisible` | src/tikdown_rs/core/archive.py:33-43 | death at any point, then a fresh construction, equals a finished remove if and only if there was nothing to remove, or the staged file had been opened and was not cut short |
| `Archive.UnstagedDeathUndoesNothing` | src/tikdown_rs/core/archive.py:88-103 | dying before the staging leaves the id listed and nothing to recover |
| `Archive.AppendOnlyIffAbsent` | src/tikdown_rs/core/archive.py:99-112 | after a remove the old content is the start of the new one if and only if no complete line holds the id |
| `Archive.TornStagingLosesIds` | src/tikdown_rs/core/archive.py:103-106 | the one failing window loses every other id when it strikes at the first byte |
| `Archive.EntryParses` | src/tikdown_rs/core/archive.py:45-51 | an entry appended to any text parses to its id, unless the text is a comment |
| `Archive.LineParses` | src/tikdown_rs/core/archive.py:45-51 | both line formats: the last word is the id, whatever stands before it, unless the line is a comment |
| `Archive.DownloadArchive.Add` | src/tikdown_rs/core/archive.py:53-67 | the file grows by one entry; nothing else changes |
| `Archive.DownloadArchive.Remove` | src/tikdown_rs/core/archive.py:69-114 | the two files after a remove that finishes or dies at any point, and its answer |
| `Archive.DownloadArchive.KeepLines` | src/tikdown_rs/core/archive.py:90-98 | the loop keeps exactly the lines to keep and reports whether it dropped one |
| `Archive.DownloadArchive.constructor` | src/tikdown_rs/core/archive.py:25-43 | a leftover staged file is published |
| `Errors.RedactionAddsNoMatch` | src/tikdown_rs/core/errors.py:40-61 | for every text, a rule matches the redacted text only if it matched the original, the status-code arm included |
| `Errors.LongRunsDoNotMatter` | src/tikdown_rs/core/errors.py:57-61 | swapping one maximal digit run of 15 or more for another never changes the category |
| `Errors.RedactedHasNoLongRun` | src/tikdown_rs/core/errors.py:57-61 | after redaction no 15 digits stand in a row |
| `Errors.ShortRunsStay` | src/tikdown_rs/core/errors.py:57-61 | a text without 15 digits in a row is left as it is |
| `Errors.WordsSurvive` | src/tikdown_rs/core/errors.py:57-61 | a marker without digits outlives redaction |
| `Errors.GroupIsLeftmost` | src/tikdown_rs/core/errors.py:49-55 | the status group is that of the leftmost match, as many digits as there are, and none exactly when the pattern matches nowhere |
| `Errors.RulesSpelledOut` | src/tikdown_rs/core/errors.py:63-107 | the category of a redacted text, marker by marker, in the order in which they are looked for |
| `Errors.WhenDefinitive` | src/tikdown_rs/core/errors.py:73-107 | 'definitive' holds exactly when rule 2 or rule 4 matches and no earlier rule does |
| `Errors.RedactedMarker` | src/tikdown_rs/core/errors.py:40-46 | a marker found after redaction was there before |
| `Errors.RedactedGroup` | src/tikdown_rs/core/errors.py:49-55 | the status code found after redaction is the one found before, unless that was a long run |
| `Errors.ClassifyText` | src/tikdown_rs/core/errors.py:142-149 | of a lower-cased text, redacted, the first matching rule decides, otherwise transient |
| `Errors.ClassifyException` | src/tikdown_rs/core/errors.py:110-149 | the texts of the whole cause chain, joined, lower-cased and redacted, are matched in order; an IP block anywhere in the chain makes it transient, and without one a login marker anywhere in it makes it definitive |
| `Errors.MentionedIsJoined` | src/tikdown_rs/core/errors.py:131-141 | a marker in the text or the repr of any exception of the chain is in the text that is classified, and a marker of one word only if it is there |
| `Errors.CollectParts` | src/tikdown_rs/core/errors.py:131-139 | the walk collects str and repr of every exception of the cause chain once, and ends on cycles |
| `Errors.ChainIsWhole` | src/tikdown_rs/core/errors.py:131-139 | the chain it walks holds every reachable cause, without repeats |
| `Cookies.IdempotentIffTame` | src/tikdown_rs/core/cookie_parser.py:116-129 | canonicalising a canonical text again changes nothing if and only if every newline-separated piece of its body is a break-free line that is neither blank nor the header |
| `Cookies.NetscapeIsIdempotent` | src/tikdown_rs/core/cookie_parser.py:116-129 | idempotent on every Netscape text |
| `Cookies.CookieStringIsIdempotent` | src/tikdown_rs/core/cookie_parser.py:102-113 | idempotent on cookie strings whose names and values have no line breaks |
| `Cookies.JsonIsIdempotent` | src/tikdown_rs/core/cookie_parser.py:81-99 | idempotent on JSON lists whose fields have no line breaks |
| `Cookies.DetectIs` | src/tikdown_rs/core/cookie_parser.py:45-56 | JSON by its opening bracket, Netscape by its magic first line or by any data line, otherwise a cookie string |
| `Cookies.DataLineIs` | src/tikdown_rs/core/cookie_parser.py:45-56 | a data line does not start with '#' and has seven tab-separated fields |
| `Cookies.KeptAre` | src/tikdown_rs/core/cookie_parser.py:127-130 | a Netscape text keeps exactly its lines that are neither blank nor the header |
| `Cookies.CanonRereads` | src/tikdown_rs/core/cookie_parser.py:45-56 | a canonical text is detected as Netscape whatever its body; its first line is the header and the rest are the lines of the body, read again |
| `Cookies.HeaderOnceIff` | src/tikdown_rs/core/cookie_parser.py:116-130 | the canonical text has the header as its first line and on no later one if and only if no piece of a body line is a header |
| `Cookies.CanonicalHasOneHeader` | src/tikdown_rs/core/cookie_parser.py:116-130 | so it has for every Netscape text, and for cookie strings and JSON cookies without line breaks in their fields |
| `Cookies.HeaderCanRepeat` | src/tikdown_rs/core/cookie_parser.py:116-130 | a cookie string with a line break before a header line becomes a text with the header twice |
| `Cookies.PairsRoundTrip` | src/tikdown_rs/core/cookie_parser.py:102-113 | splitting the canonical text of a break-free cookie string into fields gives the stripped pairs back in order |
| `Cookies.CookieStringReads` | src/tikdown_rs/core/cookie_parser.py:102-113 | a text of name=value segments joined by semicolons stands for its stripped pairs, in order |
| `Cookies.PairParses` | src/tikdown_rs/core/cookie_parser.py:105-109 | a segment is split at its first '=' into stripped halves |
| `Cookies.JsonLineSplits` | src/tikdown_rs/core/cookie_parser.py:59-99 | a JSON cookie is read back from its seven fields, defaults filled in and the expiry clamped to the ceiling |
| `Cookies.PairLineSplits` | src/tikdown_rs/core/cookie_parser.py:59-78 | a pair's line has seven fields exactly when the pair is tab-free |
| `Cookies.WarnsIffMissing` | src/tikdown_rs/core/cookie_parser.py:151-164 | the sid_tt warning is raised if and only if no pair has that name and a tab-free value |
| `Cookies.CookieStringToLines` | src/tikdown_rs/core/cookie_parser.py:102-113 | the loop writes one line per pair |
| `Cookies.JsonToLines` | src/tikdown_rs/core/cookie_parser.py:81-99 | the loop writes one line per cookie, or raises on a missing name |
| `Cookies.SplitOfJoin` | src/tikdown_rs/core/cookie_parser.py:59-78 | splitting a join gives the parts back exactly when none holds the separator |
| `Network.OwedAlternate` | src/tikdown_rs/core/network_monitor.py:89-114 | over every probe history the events strictly alternate, offline first, and the last is an offline one exactly while offline |
| `Network.BlipsAreSilent` | src/tikdown_rs/core/network_monitor.py:107-113 | failures below the threshold owe no event |
| `Network.OfflineMeans` | src/tikdown_rs/core/network_monitor.py:107-113 | offline means that the last `threshold` probes failed, and the last one whatever the threshold |
| `Network.NetworkMonitor.ProbeOnce` | src/tikdown_rs/core/network_monitor.py:89-114 | offline exactly after `threshold` failures in a row, with the availability event, the stamp and the announced events in step; the online event carries the length of the outage |
| `Windows.PruneTwice` | src/tikdown_rs/bot/security.py:119-126 | pruning at an earlier instant loses nothing for a later one |
| `Windows.RecentCounts` | src/tikdown_rs/bot/security.py:119-126 | an open window holds one entry per instant younger than its length, a closed one also those just as old |
| `Windows.SecurityGuard.RecordUnauthorized` | src/tikdown_rs/bot/security.py:119-126 | the burst count is the user's attempts less than 300 s old over the whole history, and a burst is five of them |
| `Windows.SecurityGuard.Throttle` | src/tikdown_rs/bot/security.py:128-135 | throttled exactly when an accepted command of the chat is less than 2 s old; accepted ones stay 2 s apart |
| `Windows.SecurityGuard.Check` | src/tikdown_rs/bot/security.py:101-117 | authorization decides between the two, and nothing else is recorded |
| `Windows.ContentionWindow.RecordDbLockedError` | src/tikdown_rs/core/db.py:79-92 | counts exactly the messages that are lock errors |
| `Windows.ContentionWindow.DbBusyCount5Min` | src/tikdown_rs/core/db.py:95-100 | the count is the number of lock errors at most 300 s old over the whole history |
| `Windows.RecentIsSuffix` | src/tikdown_rs/core/db.py:95-100 | on sorted instants popping expired heads leaves exactly the window |
| `Text.SplitOfLines` | src/tikdown_rs/core/archive.py:88 | splitting the concatenation of proper lines gives the lines back |
| `Text.StripIs` | src/tikdown_rs/core/archive.py:48 | stripping recovers a core that neither starts nor ends with whitespace |

## Left out

- A feed listing is given as `run_backfill` keeps it, without the entries that have no id.
- Accounts added or removed while a run is in flight: account rows are fixed for a behaviour.
- The breaker's trip is an arbitrary answer in the protocol and the breaker's own answer in the program, over arbitrary exception texts.
- Handler and finally statements are taken to succeed, at most one cancellation reaches a run, and it reaches the try block; `on_event` does not raise and the engine raises no ConfigurationError.
- A cancellation that arrives after a run's deciding commit, while that commit's session closes, still reaches the source's try block; here a decided run goes straight on to release its slot.
- Liveness after a killed process and completeness across interrupted runs: the code guarantees neither.
- Overlapping passes on one video row: a precondition of conservation; `ConservedIffFresh` says exactly what goes wrong.
- Videos.HistoryIsSound: rows of one pass are attempted in row order, standing for created_at order; ties of equal stamps are not modelled.
- Videos: file paths, hashes, messages and the final rename's result name are not columns of the model; an account row that disappeared before the byte update is not modelled.
- BackfillOps.CollectQueuedBackfills: the rows the SELECT returns, in order of id, are an argument that its requires pins down; evaluating the query is not modelled.
- VideoArchive.StoppedHistoryRests: ids from the feed are taken to be non-empty and free of whitespace, passes do not overlap, and an append to the archive file is one write.
- Archive appends by other processes racing with `remove`, and encoding errors: the code does not guarantee the first.
- Archive.DownloadArchive.Remove: file replacement and unlink are single effects; only the two file writes can be torn.
- Pacing: instants are integer microseconds, so the rounding of floating-point seconds is not modelled; the end of the calendar (year 9999) is an `Overflow` result where Python raises.
- Pacing.DownloadPacer.Acquire: rivals win finitely often, because nothing bounds how often another process may win the slot.
- Errors: lower-casing is any given function on text, for the chain one that does not look across the separator of the joined parts (as str.lower does not), and a digit is any class of characters with the ten ASCII digits and without the letters, the space and the angle brackets that the markers use; exception texts are given strings.
- Cookies: json.loads is a given list of cookie objects; the temporary file writer is not modelled.
- Network: the probe is a given answer, and rounding the outage to whole seconds is not modelled.
- Windows: clock readings are real numbers and do not decrease, as time.monotonic promises.
- Telegram wiring, the CLI, HTML, pagination, retention, disk watermarks, status views, export, the static site, configuration, migrations and SQLAlchemy: input, output and reporting around the logic modelled here.
- core/backoff.py: nothing calls it.
