/**
 The backfill protocol as a state machine: one committed SQL statement (or one oracle answer from the
 network, the engine or the operator) is one atomic step, and any actor may take the next step.

 `Advance` is the program of one `run_backfill` call, read statement by statement; `React` holds the
 statements of everybody else: queue, cancel, the collector, the startup reconciliations and the
 writers of neighbouring columns.
 */
module BackfillProtocol {
  import opened Prelude
  import V = VideoStatus

  // ---------------------------------------------------------------- rows

  datatype Status = Idle | Queued | Backfilling | Paused | Completed | Failed | Cancelled
  datatype Reason = Disk | Network
  datatype Mode = History | Monitor

  datatype Account = Account(
    status: Status,
    reason: Option<Reason>,       // backfill_pause_reason
    needsReview: bool,
    paused: bool,
    mode: Mode,
    monitorAfter: bool,           // monitor_after_backfill
    cursor: Option<string>,
    total: nat,
    done: nat)

  /** The slot's owner column: 'backfill:<id>' or 'collect'. */
  datatype Owner = Run(account: int) | Collector

  /** One listed feed entry; an absent upload date is "". */
  datatype Entry = Entry(id: string, date: string)

  // ---------------------------------------------------------------- one run

  datatype Result = Returned(status: Status) | Raised

  datatype Event = StartedEvent | CompletedEvent | CancelledEvent | PausedEvent(reason: Reason) | NoCookiesEvent

  /** Where a run stands: the statement it executes next. */
  datatype Pc =
    | Start                               // before the slot is taken
    | Gate | Mark | Listing | Total | Snapshot
    | Head | Probe | NetPause | Lookup | Download | Downloading
    | Trip | Progress(isNew: bool)
    | Finalize | Transition
    | Cancelling | Unwedge(cause: Option<Reason>) | Crashing
    | Release(result: Result)
    | Ended(result: Result)
    | Dead(held: bool)                    // process killed; `held`: it owned the slot

  /** The locals of a run, followed by a history of what it did. */
  datatype Worker = Worker(
    account: int,
    pc: Pc,
    entries: seq<Entry>,
    i: nat,
    scope: Option<string>,                // the cursor snapshot
    moving: Option<string>,
    done: nat,
    snapped: bool,                        // the snapshot has been taken
    startDone: nat,                       // backfill_done at the snapshot
    settled: set<nat>,                    // entries found terminal or committed to a terminal state by this run
    driven: nat,                          // terminal commits made by this run, one per entry
    owed: bool,                           // the last of them is not yet counted in backfill_done
    late: nat,                            // downloads begun while the row was not 'backfilling'
    events: seq<Event>,
    won: bool)                            // the slot has been won

  function NewWorker(a: int): Worker {
    Worker(a, Start, [], 0, None, None, 0, false, 0, {}, 0, false, 0, [], false)
  }

  // ---------------------------------------------------------------- the other actors

  /** A two-phase operation between its read and its write. */
  datatype Op =
    | QueuePending(account: int)
    | CancelPending(account: int)
    | Collecting(account: int, read: Account, diskResolved: bool)
    | ProbingSlot
    | HoldingSlot

  datatype State = State(
    accounts: map<int, Account>,
    slot: Option<Owner>,
    videos: map<string, V.Status>,
    downloadsPaused: bool,
    monitorRunning: bool,
    workers: map<int, Worker>,
    ops: map<int, Op>,
    snaps: map<int, seq<Option<string>>>) // every cursor snapshot taken, per account, oldest first

  datatype Move =
    | Acquire(cookie: bool)
    | ReadGate | MarkRow | ListFeed(listed: seq<Entry>) | PersistTotal | TakeSnapshot
    | ReadStatus | ProbeNetwork(online: bool) | PauseForNetwork
    | LookUpVideo | StartDownload | Settle(outcome: V.Status, tripped: bool)
    | PauseForBreaker | PersistProgress
    | FinalizeRow | FireTransition
    | CancelTask | FindCause(online: bool) | UnwedgeRow
    | CrashTask | RequeueRow
    | ReleaseSlot
    | Kill

  datatype Act =
    | StartRun(w: int, a: int)
    | QueueRead(o: int, a: int) | QueueWrite(o: int)
    | CancelRead(o: int, a: int) | CancelWrite(o: int)
    | CollectRead(o: int, a: int) | CollectFlip(o: int, online: bool)
    | CollectAcquire(o: int) | CollectRelease(o: int)
    | ReconcileStale
    | ReplayTransition(a: int)
    | SetDownloadsPaused(b: bool)
    | SetMonitorRunning(b: bool)
    | FlagForReview(a: int)
    | SetAccountPaused(a: int, b: bool)
    | WriteVideo(id: string, v: V.Status)

  datatype Step = Advances(w: int, move: Move) | Reacts(act: Act)

  // ---------------------------------------------------------------- column helpers

  function Row(accounts: map<int, Account>, a: int): Option<Account> {
    if a in accounts then Some(accounts[a]) else None
  }

  predicate RowIs(row: Option<Account>, s: Status) {
    row.Some? && row.value.status == s
  }

  /** The loop's boundary test: dated, and strictly older than the snapshot. */
  predicate Older(e: Entry, scope: Option<string>) {
    e.date != "" && scope.Some? && scope.value != "" && Before(e.date, scope.value)
  }

  /** `b` is `a` or a cursor not older than it; an absent cursor is the oldest. */
  predicate AtLeast(a: Option<string>, b: Option<string>) {
    a.Some? ==> b.Some? && !Before(b.value, a.value)
  }

  /** A pause reason belongs to a pause, and a pause without one waits for a manual review. */
  predicate Coherent(row: Account) {
    && (row.reason.Some? ==> row.status == Paused)
    && (row.status == Paused && row.reason.None? ==> row.needsReview)
  }

  /** UPDATE ... SET mode = 'monitor' ... WHERE mode = 'history' AND monitor_after_backfill = 1 AND status = 'completed'. */
  predicate TransitionFires(row: Option<Account>) {
    row.Some? && row.value.mode == History && row.value.monitorAfter && row.value.status == Completed
  }

  function Monitored(row: Account): Account {
    row.(mode := Monitor, monitorAfter := false)
  }

  // ---------------------------------------------------------------- the run, statement by statement

  /** What one statement of a run can see of the database. */
  datatype View = View(row: Option<Account>, slot: Option<Owner>, video: Option<V.Status>, downloadsPaused: bool)

  /** What one statement of a run does: the run's new locals, and what is written. */
  datatype Effect = Effect(
    worker: Worker,
    row: Option<Account> := None,         // the account row's new content, if written
    slot: Option<Option<Owner>> := None,  // the slot's new owner, if written
    video: Option<V.Status> := None,       // the current entry's new video status, if written
    snap: bool := false,                  // the cursor snapshot is taken
    activates: bool := false)             // daemon_state.monitor_running = 1 in the same commit

  /** The program points inside `run_backfill`'s try block, where a cancellation or a crash may strike. */
  predicate InTry(pc: Pc) {
    match pc
    case Start => false
    case Cancelling => false
    case Unwedge(_) => false
    case Crashing => false
    case Release(_) => false
    case Ended(_) => false
    case Dead(_) => false
    case _ => true
  }

  predicate Holding(pc: Pc) {
    pc != Start && !pc.Ended? && pc != Dead(false)
  }

  predicate MoveEnabled(k: Worker, row: Option<Account>, m: Move) {
    match m
    case Acquire(_) => k.pc == Start
    case ReadGate => k.pc == Gate
    case MarkRow => k.pc == Mark
    case ListFeed(_) => k.pc == Listing
    case PersistTotal => k.pc == Total
    case TakeSnapshot => k.pc == Snapshot && row.Some?
    case ReadStatus => k.pc == Head && row.Some?
    case ProbeNetwork(_) => k.pc == Probe && k.i < |k.entries|
    case PauseForNetwork => k.pc == NetPause
    case LookUpVideo => k.pc == Lookup && k.i < |k.entries|
    case StartDownload => k.pc == Download
    case Settle(outcome, tripped) =>
      k.pc == Downloading && k.i < |k.entries| && V.Terminal(outcome) && (tripped ==> outcome == V.Failed)
    case PauseForBreaker => k.pc == Trip
    case PersistProgress => k.pc.Progress? && k.i < |k.entries|
    case FinalizeRow => k.pc == Finalize
    case FireTransition => k.pc == Transition
    case CancelTask => InTry(k.pc)
    case FindCause(_) => k.pc == Cancelling
    case UnwedgeRow => k.pc.Unwedge?
    case CrashTask => InTry(k.pc)
    case RequeueRow => k.pc == Crashing
    case ReleaseSlot => k.pc.Release?
    case Kill => !k.pc.Ended? && !k.pc.Dead?
  }

  /** Early return with the 'cancelled' event: a conditional write found the row changed. */
  function Lost(k: Worker): Worker {
    k.(pc := Release(Returned(Cancelled)), events := k.events + [CancelledEvent])
  }

  /** One statement of `run_backfill`. Each UPDATE guarded by a status writes only if the row still has it. */
  function Execute(k: Worker, view: View, m: Move): Effect
    requires MoveEnabled(k, view.row, m)
  {
    var live := RowIs(view.row, Backfilling);
    match m
    case Acquire(cookie) =>
      if !cookie then Effect(k.(pc := Ended(Raised), events := k.events + [NoCookiesEvent]))
      else if view.slot.Some? then Effect(k.(pc := Ended(Raised)))
      else Effect(k.(pc := Gate, won := true), slot := Some(Some(Run(k.account))))
    case ReadGate =>
      Effect(k.(pc := if RowIs(view.row, Queued) then Mark else Release(Raised)))
    case MarkRow =>
      if RowIs(view.row, Queued)
      then Effect(k.(pc := Listing, events := k.events + [StartedEvent]),
                  row := Some(view.row.value.(status := Backfilling, reason := None)))
      else Effect(k.(pc := Release(Raised)))
    case ListFeed(listed) =>
      Effect(k.(pc := Total, entries := listed))
    case PersistTotal =>
      if live then Effect(k.(pc := Snapshot), row := Some(view.row.value.(total := |k.entries|)))
      else Effect(Lost(k))
    case TakeSnapshot =>
      var row := view.row.value;
      Effect(k.(pc := Head, i := 0, scope := row.cursor, moving := row.cursor, done := row.done,
                snapped := true, startDone := row.done), snap := true)
    case ReadStatus =>
      if k.i >= |k.entries| then Effect(k.(pc := Finalize))
      else if view.row.value.status == Cancelled then Effect(Lost(k))
      else Effect(k.(pc := Probe))
    case ProbeNetwork(online) =>
      if !online then Effect(k.(pc := NetPause))
      else Effect(k.(pc := if Older(k.entries[k.i], k.scope) then Finalize else Lookup))
    case PauseForNetwork =>
      if live
      then Effect(k.(pc := Release(Returned(Paused)), events := k.events + [PausedEvent(Network)]),
                  row := Some(view.row.value.(status := Paused, reason := Some(Network))))
      else Effect(k.(pc := Head, i := k.i + 1))
    case LookUpVideo =>
      if view.video.Some? && V.Terminal(view.video.value)
      then Effect(k.(pc := Progress(false), settled := k.settled + {k.i}))
      else Effect(k.(pc := Download), video := if view.video.Some? then None else Some(V.Pending))
    case StartDownload =>
      Effect(k.(pc := Downloading, late := if live then k.late else k.late + 1))
    case Settle(outcome, tripped) =>
      Effect(k.(pc := if tripped then Trip else Progress(true), settled := k.settled + {k.i}, driven := k.driven + 1, owed := true),
             video := Some(outcome))
    case PauseForBreaker =>
      if live
      then Effect(k.(pc := Release(Returned(Paused))),
                  row := Some(view.row.value.(status := Paused, needsReview := true, paused := true)))
      else Effect(k.(pc := Release(Returned(Cancelled))))
    case PersistProgress =>
      var date := k.entries[k.i].date;
      var moving := if date != "" then Some(date) else k.moving;
      var done := if k.pc.isNew then k.done + 1 else k.done;
      if live
      then Effect(k.(pc := Head, i := k.i + 1, moving := moving, done := done, owed := false),
                  row := Some(view.row.value.(cursor := moving, done := done)))
      else Effect(Lost(k.(moving := moving, done := done)))
    case FinalizeRow =>
      if live
      then Effect(k.(pc := Transition, events := k.events + [CompletedEvent]),
                  row := Some(view.row.value.(status := Completed)))
      else Effect(Lost(k))
    case FireTransition =>
      Effect(k.(pc := Release(Returned(Completed))),
             row := if TransitionFires(view.row) then Some(Monitored(view.row.value)) else None,
             activates := TransitionFires(view.row))
    case CancelTask =>
      Effect(k.(pc := Cancelling))
    case FindCause(online) =>
      Effect(k.(pc := Unwedge(if view.downloadsPaused then Some(Disk) else if !online then Some(Network) else None)))
    case UnwedgeRow =>
      var cause := k.pc.cause;
      var status := if cause.Some? then Paused else Queued;
      Effect(k.(pc := Release(Returned(status)),
                events := k.events + if cause.Some? then [PausedEvent(cause.value)] else []),
             row := if live then Some(view.row.value.(status := status, reason := cause)) else None)
    case CrashTask =>
      Effect(k.(pc := Crashing))
    case RequeueRow =>
      Effect(k.(pc := Release(Returned(Failed))),
             row := if live then Some(view.row.value.(status := Queued)) else None)
    case ReleaseSlot =>
      Effect(k.(pc := Ended(k.pc.result)),
             slot := if view.slot == Some(Run(k.account)) then Some(None) else None)
    case Kill =>
      Effect(k.(pc := Dead(k.pc != Start)))
  }

  function CurrentVideo(s: State, k: Worker): Option<V.Status> {
    if k.i < |k.entries| && k.entries[k.i].id in s.videos then Some(s.videos[k.entries[k.i].id]) else None
  }

  function Seen(s: State, k: Worker): View {
    View(Row(s.accounts, k.account), s.slot, CurrentVideo(s, k), s.downloadsPaused)
  }

  /** The database after run `w` has written `effect`. */
  function Commit(s: State, w: int, effect: Effect): State
    requires w in s.workers
  {
    var k := s.workers[w];
    s.(workers := s.workers[w := effect.worker],
       accounts := if effect.row.Some? then s.accounts[k.account := effect.row.value] else s.accounts,
       slot := if effect.slot.Some? then effect.slot.value else s.slot,
       videos := if effect.video.Some? && k.i < |k.entries| then s.videos[k.entries[k.i].id := effect.video.value] else s.videos,
       monitorRunning := s.monitorRunning || effect.activates,
       snaps := if effect.snap && k.account in s.snaps
                then s.snaps[k.account := s.snaps[k.account] + [effect.worker.scope]] else s.snaps)
  }

  function Advance(s: State, w: int, m: Move): State
    requires w in s.workers && MoveEnabled(s.workers[w], Row(s.accounts, s.workers[w].account), m)
  {
    Commit(s, w, Execute(s.workers[w], Seen(s, s.workers[w]), m))
  }

  // ---------------------------------------------------------------- everybody else's statements

  /** The collector's decision on the row it read: not waiting for a review, and the cause of the pause is gone. */
  predicate Resumes(op: Op, online: bool)
    requires op.Collecting?
  {
    && !op.read.needsReview
    && (op.read.reason == Some(Disk) ==> op.diskResolved)
    && (op.read.reason == Some(Network) ==> online)
  }

  /** The conditional paused -> queued write finds the row still paused. */
  predicate Flips(s: State, op: Op, online: bool)
    requires op.Collecting?
  {
    op.read.status == Paused && Resumes(op, online) && RowIs(Row(s.accounts, op.account), Paused)
  }

  /** SET backfill_status = 'queued', backfill_pause_reason = NULL. */
  function Requeued(row: Account): Account {
    row.(status := Queued, reason := None)
  }

  predicate ActEnabled(s: State, act: Act) {
    match act
    case StartRun(w, _) => w !in s.workers
    case QueueRead(o, a) => o !in s.ops && a in s.accounts
    case QueueWrite(o) => o in s.ops && s.ops[o].QueuePending? && s.ops[o].account in s.accounts
    case CancelRead(o, a) => o !in s.ops && a in s.accounts
    case CancelWrite(o) => o in s.ops && s.ops[o].CancelPending? && s.ops[o].account in s.accounts
    case CollectRead(o, a) => o !in s.ops && a in s.accounts
    case CollectFlip(o, _) => o in s.ops && s.ops[o].Collecting?
    case CollectAcquire(o) => o in s.ops && s.ops[o].ProbingSlot?
    case CollectRelease(o) => o in s.ops && s.ops[o].HoldingSlot?
    case FlagForReview(a) => a in s.accounts
    case SetAccountPaused(a, _) => a in s.accounts
    case _ => true
  }

  /** The account rows after the statement. */
  function ReactRows(s: State, act: Act): map<int, Account>
    requires ActEnabled(s, act)
  {
    var rows := s.accounts;
    match act
    case QueueWrite(o) =>
      rows[s.ops[o].account := Requeued(rows[s.ops[o].account])]
    case CancelWrite(o) =>
      rows[s.ops[o].account := rows[s.ops[o].account].(status := Cancelled, reason := None)]
    case CollectFlip(o, online) =>
      if Flips(s, s.ops[o], online) then rows[s.ops[o].account := Requeued(rows[s.ops[o].account])] else rows
    case ReconcileStale =>
      map a | a in rows :: if rows[a].status == Backfilling then rows[a].(status := Queued) else rows[a]
    case ReplayTransition(a) =>
      if TransitionFires(Row(rows, a)) then rows[a := Monitored(rows[a])] else rows
    case FlagForReview(a) =>
      rows[a := rows[a].(needsReview := true)]
    case SetAccountPaused(a, b) =>
      rows[a := rows[a].(paused := b)]
    case _ =>
      rows
  }

  /** Where the two-phase operations stand after the statement. */
  function ReactOps(s: State, act: Act): map<int, Op>
    requires ActEnabled(s, act)
  {
    match act
    case QueueRead(o, a) =>
      if s.accounts[a].status == Queued || s.accounts[a].status == Backfilling then s.ops else s.ops[o := QueuePending(a)]
    case QueueWrite(o) =>
      s.ops - {o}
    case CancelRead(o, a) =>
      if s.accounts[a].status == Completed || s.accounts[a].status == Failed then s.ops else s.ops[o := CancelPending(a)]
    case CancelWrite(o) =>
      s.ops - {o}
    case CollectRead(o, a) =>
      if s.accounts[a].status == Queued || s.accounts[a].status == Paused
      then s.ops[o := Collecting(a, s.accounts[a], !s.downloadsPaused)] else s.ops
    case CollectFlip(o, online) =>
      if s.ops[o].read.status != Paused || Flips(s, s.ops[o], online) then s.ops[o := ProbingSlot] else s.ops - {o}
    case CollectAcquire(o) =>
      if s.slot.Some? then s.ops - {o} else s.ops[o := HoldingSlot]
    case CollectRelease(o) =>
      s.ops - {o}
    case _ =>
      s.ops
  }

  function ReactSlot(s: State, act: Act): Option<Owner> {
    match act
    case CollectAcquire(_) => if s.slot.Some? then s.slot else Some(Collector)
    case CollectRelease(_) => if s.slot == Some(Collector) then None else s.slot
    case _ => s.slot
  }

  function React(s: State, act: Act): State
    requires ActEnabled(s, act)
  {
    State(ReactRows(s, act),
          ReactSlot(s, act),
          if act.WriteVideo? then s.videos[act.id := act.v] else s.videos,
          if act.SetDownloadsPaused? then act.b else s.downloadsPaused,
          if act.SetMonitorRunning? then act.b
          else s.monitorRunning || (act.ReplayTransition? && TransitionFires(Row(s.accounts, act.a))),
          if act.StartRun? then s.workers[act.w := NewWorker(act.a)] else s.workers,
          ReactOps(s, act),
          s.snaps)
  }

  // ---------------------------------------------------------------- runs of the whole system

  predicate Enabled(s: State, step: Step) {
    match step
    case Advances(w, m) => w in s.workers && MoveEnabled(s.workers[w], Row(s.accounts, s.workers[w].account), m)
    case Reacts(act) => ActEnabled(s, act)
  }

  function Next(s: State, step: Step): State
    requires Enabled(s, step)
  {
    match step
    case Advances(w, m) => Advance(s, w, m)
    case Reacts(act) => React(s, act)
  }

  /** A quiet database: no run in flight, the slot free, no row left in 'backfilling'. */
  ghost predicate Init(s: State) {
    && s.workers == map[] && s.ops == map[] && s.slot == None
    && s.snaps.Keys == s.accounts.Keys
    && (forall a :: a in s.accounts ==> s.snaps[a] == [] && s.accounts[a].status != Backfilling && Coherent(s.accounts[a]))
  }

  /** states[0], steps[0], states[1], ... is an interleaving of any number of actors. */
  ghost predicate Behaviour(states: seq<State>, steps: seq<Step>) {
    && |states| == |steps| + 1
    && Init(states[0])
    && forall n :: 0 <= n < |steps| ==> Enabled(states[n], steps[n]) && states[n + 1] == Next(states[n], steps[n])
  }
}
