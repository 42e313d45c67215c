/** The inductive invariant of the backfill protocol: every step of every actor keeps it. */
module BackfillInvariant {
  import opened Prelude
  import opened BackfillProtocol

  // ---------------------------------------------------------------- cursor order

  lemma AtLeastTransitive(a: Option<string>, b: Option<string>, c: Option<string>)
    requires AtLeast(a, b) && AtLeast(b, c)
    ensures AtLeast(a, c)
  {
    if a.Some? {
      if Before(c.value, a.value) {
        BeforeTotal(b.value, c.value);
        if Before(b.value, c.value) {
          BeforeTransitive(b.value, c.value, a.value);
        }
        assert false;
      }
    }
  }

  lemma AtLeastReflexive(a: Option<string>)
    ensures AtLeast(a, a)
  {
    if a.Some? { BeforeIrreflexive(a.value); }
  }

  ghost predicate Ascending(snaps: seq<Option<string>>) {
    forall m, n :: 0 <= m < n < |snaps| ==> AtLeast(snaps[m], snaps[n])
  }

  /** The snapshots of an account ascend, and its cursor is at least the last one. */
  ghost predicate CursorOk(snaps: seq<Option<string>>, cursor: Option<string>) {
    && Ascending(snaps)
    && (snaps != [] ==> AtLeast(snaps[|snaps| - 1], cursor))
  }

  // ---------------------------------------------------------------- what one run knows

  /** The loop's program points. */
  predicate InLoop(pc: Pc) {
    pc == Head || pc == Finalize || InEntry(pc)
  }

  /** The points at which the current entry is still open. */
  predicate InEntry(pc: Pc) {
    pc == Probe || pc == NetPause || PastBoundary(pc)
  }

  /** The points at which the current entry has passed the boundary test. */
  predicate PastBoundary(pc: Pc) {
    pc == Lookup || pc == Download || pc == Downloading || EntrySettled(pc)
  }

  /** The points at which the current entry has been found or driven to a terminal state. */
  predicate EntrySettled(pc: Pc) {
    pc == Trip || pc.Progress?
  }

  predicate Marking(pc: Pc) {
    pc == Mark || pc == Listing || pc == Total || pc == Snapshot
  }

  predicate BeforeSnapshot(pc: Pc) {
    pc == Start || pc == Gate || Marking(pc)
  }

  /** Points only reached once the row is known not to be 'backfilling' and will not be again under this run. */
  predicate RowLeft(pc: Pc) {
    pc == Gate || pc == Mark || pc == Transition || pc.Release?
  }

  /** How many entries precede the first one strictly older than the snapshot: all of them, if there is none. */
  function Scope(entries: seq<Entry>, scope: Option<string>): (n: nat)
    ensures n <= |entries|
    ensures forall j :: 0 <= j < n ==> !Older(entries[j], scope)
    ensures n < |entries| ==> Older(entries[n], scope)
  {
    if entries == [] || Older(entries[0], scope) then 0 else 1 + Scope(entries[1..], scope)
  }

  /** The first `n` entries, and no others, were found in a terminal state or driven to one by this run. */
  ghost predicate Settled(settled: set<nat>, n: nat) {
    forall j: nat :: j in settled <==> j < n
  }

  ghost predicate InScope(entries: seq<Entry>, scope: Option<string>, n: nat) {
    n <= |entries| && forall j: nat :: j < n ==> !Older(entries[j], scope)
  }

  /** Exactly the entries in scope were found terminal or driven to a terminal commit by this run. */
  ghost predicate Covered(k: Worker) {
    k.snapped && Settled(k.settled, Scope(k.entries, k.scope))
  }

  /** No entry up to the `j`-th is dated strictly before the snapshot; undated entries never are, nor is any without a snapshot. */
  ghost predicate NoneOlder(entries: seq<Entry>, scope: Option<string>, j: nat) {
    forall i :: 0 <= i <= j < |entries| ==>
      entries[i].date == "" || scope.None? || scope.value == "" || !Before(entries[i].date, scope.value)
  }

  /** The settled entries, by the dates: those not behind one that is dated strictly before the snapshot. */
  ghost predicate SettledByDate(k: Worker) {
    forall j: nat :: j in k.settled <==> j < |k.entries| && NoneOlder(k.entries, k.scope, j)
  }

  lemma CoveredByDate(k: Worker)
    requires Covered(k)
    ensures SettledByDate(k)
  {
    var n := Scope(k.entries, k.scope);
    forall j: nat
      ensures j < n <==> j < |k.entries| && NoneOlder(k.entries, k.scope, j)
    {
      if j < n {
        assert forall i :: 0 <= i <= j ==> !Older(k.entries[i], k.scope);
      } else if j < |k.entries| {
        assert Older(k.entries[n], k.scope);
      }
    }
  }

  predicate ReturnsCompleted(pc: Pc) {
    pc == Transition || pc == Release(Returned(Completed)) || pc == Ended(Returned(Completed))
  }

  /** Done accounting: what is persisted, plus the one commit still owed, is what the run drove. */
  ghost predicate Accounted(row: Account, k: Worker) {
    row.done + (if k.owed then 1 else 0) == k.startDone + k.driven
  }

  /** The facts about the loop's own variables; `row` is the account's current row. */
  ghost predicate LoopOk(row: Account, k: Worker) {
    && k.snapped
    && k.done == row.done && k.moving == row.cursor
    && k.i <= |k.entries|
    && (InEntry(k.pc) ==> k.i < |k.entries|)
    && (PastBoundary(k.pc) ==> !Older(k.entries[k.i], k.scope))
    && k.owed == (k.pc == Trip || k.pc == Progress(true))
    && k.late <= 1
    && (k.late == 1 ==> k.pc == Downloading || k.pc == Trip || k.pc == Progress(true))
    && (row.status == Backfilling ==>
          && k.late == 0
          && Settled(k.settled, if EntrySettled(k.pc) then k.i + 1 else k.i)
          && InScope(k.entries, k.scope, k.i)
          && (k.pc == Finalize && k.i < |k.entries| ==> Older(k.entries[k.i], k.scope)))
  }

  /** The moving cursor and the persisted one never fall behind the snapshot. */
  ghost predicate CursorsOk(row: Option<Account>, k: Worker) {
    k.snapped ==>
      && AtLeast(k.scope, k.moving)
      && (Holding(k.pc) && row.Some? ==> AtLeast(k.scope, row.value.cursor))
  }

  /** A run that announced completion covered its scope, and no other run returns 'completed'. */
  ghost predicate CompletedOk(k: Worker) {
    && (ReturnsCompleted(k.pc) ==> CompletedEvent in k.events)
    && (CompletedEvent in k.events ==> Covered(k))
    && (CompletedEvent in k.events ==> ReturnsCompleted(k.pc) || !(InTry(k.pc) || k.pc == Start))
  }

  /** The run has written backfill_total and still owns the slot. */
  predicate Totalled(k: Worker) {
    k.pc == Snapshot || (k.snapped && Holding(k.pc))
  }

  ghost predicate WorkerOk(row: Option<Account>, k: Worker) {
    && (RowLeft(k.pc) ==> !RowIs(row, Backfilling))
    && (BeforeSnapshot(k.pc) ==> !k.snapped)
    && (!k.snapped ==> k.driven == 0 && !k.owed && k.late == 0 && k.settled == {})
    && (Marking(k.pc) ==> row.Some?)
    && (Holding(k.pc) || (k.pc.Ended? && k.pc.result.Returned?) ==> k.won)
    && (k.won ==> k.pc != Start)
    && k.late <= 1
    && (k.snapped && Holding(k.pc) ==>
          && row.Some?
          && Accounted(row.value, k))
    && (row.Some? && Totalled(k) ==> row.value.total == |k.entries|)
    && (InLoop(k.pc) ==> row.Some? && LoopOk(row.value, k))
    && (k.pc == Transition || k.pc == Release(Returned(Completed)) ==> !k.owed)
  }

  ghost predicate RunOk(row: Option<Account>, k: Worker) {
    WorkerOk(row, k) && CursorsOk(row, k) && CompletedOk(k)
  }

  // ---------------------------------------------------------------- the whole system

  /** Rows are coherent, and a row in 'backfilling' is guarded by the slot. */
  ghost predicate RowsOk(s: State) {
    forall a :: a in s.accounts ==>
      && Coherent(s.accounts[a])
      && (s.accounts[a].status == Backfilling ==> s.slot == Some(Run(a)))
  }

  ghost predicate CursorHistoryOk(s: State) {
    && s.snaps.Keys == s.accounts.Keys
    && (forall a :: a in s.accounts ==> CursorOk(s.snaps[a], s.accounts[a].cursor))
    && (forall w :: w in s.workers && Holding(s.workers[w].pc) && s.workers[w].snapped ==> LastSnap(s, s.workers[w]))
  }

  ghost predicate LastSnap(s: State, k: Worker) {
    k.account in s.snaps && s.snaps[k.account] != [] && s.snaps[k.account][|s.snaps[k.account]| - 1] == k.scope
  }

  /** A run between acquire and release owns the slot, and there is at most one. */
  ghost predicate SlotOk(s: State) {
    && (forall w :: w in s.workers && Holding(s.workers[w].pc) ==> s.slot == Some(Run(s.workers[w].account)))
    && (forall v, w :: v in s.workers && w in s.workers && Holding(s.workers[v].pc) && Holding(s.workers[w].pc) ==> v == w)
  }

  ghost predicate RunsOk(s: State) {
    forall w :: w in s.workers ==> RunOk(Row(s.accounts, s.workers[w].account), s.workers[w])
  }

  ghost predicate Inv(s: State) {
    RowsOk(s) && CursorHistoryOk(s) && SlotOk(s) && RunsOk(s)
  }

  // ---------------------------------------------------------------- frames

  /** A run's facts survive any write that leaves its row's progress alone and does not enter 'backfilling'. */
  lemma WorkerStable(row: Option<Account>, row': Option<Account>, k: Worker)
    requires RunOk(row, k)
    requires row.Some? == row'.Some?
    requires row.Some? ==>
      && row'.value.cursor == row.value.cursor
      && row'.value.done == row.value.done
      && row'.value.total == row.value.total
      && (row'.value.status == Backfilling ==> row.value.status == Backfilling)
    ensures RunOk(row', k)
  {
  }

  /** A run that does not hold the slot knows nothing about its row. */
  lemma IdleWorkerStable(row: Option<Account>, row': Option<Account>, k: Worker)
    requires RunOk(row, k) && !Holding(k.pc)
    ensures RunOk(row', k)
  {
  }

  // ---------------------------------------------------------------- a run's own statement

  function After(view: View, effect: Effect): Option<Account> {
    if effect.row.Some? then effect.row else view.row
  }

  ghost predicate Ready(k: Worker, view: View, m: Move) {
    MoveEnabled(k, view.row, m) && WorkerOk(view.row, k) && (m.Acquire? && view.slot.None? ==> !RowIs(view.row, Backfilling))
  }

  ghost predicate Kept(k: Worker, view: View, m: Move)
    requires MoveEnabled(k, view.row, m)
  {
    WorkerOk(After(view, Execute(k, view, m)), Execute(k, view, m).worker)
  }

  lemma OwnStepGates(k: Worker, view: View, m: Move)
    requires Ready(k, view, m)
    requires m.Acquire? || m.ReadGate? || m.MarkRow?
    ensures Kept(k, view, m)
  {
  }

  lemma OwnStepListing(k: Worker, view: View, m: Move)
    requires Ready(k, view, m)
    requires m.ListFeed? || m.PersistTotal?
    ensures Kept(k, view, m)
  {
  }

  lemma OwnStepSnapshot(k: Worker, view: View, m: Move)
    requires Ready(k, view, m)
    requires m.TakeSnapshot?
    ensures Kept(k, view, m)
  {
  }

  lemma OwnStepHead(k: Worker, view: View, m: Move)
    requires Ready(k, view, m)
    requires m.ReadStatus?
    ensures Kept(k, view, m)
  {
  }

  lemma OwnStepProbe(k: Worker, view: View, m: Move)
    requires Ready(k, view, m)
    requires m.ProbeNetwork?
    ensures Kept(k, view, m)
  {
  }

  lemma OwnStepNetPause(k: Worker, view: View, m: Move)
    requires Ready(k, view, m)
    requires m.PauseForNetwork?
    ensures Kept(k, view, m)
  {
  }

  lemma SettledGrows(settled: set<nat>, i: nat)
    ensures Settled(settled, i) ==> Settled(settled + {i}, i + 1)
  {
  }

  lemma ScopeGrows(entries: seq<Entry>, scope: Option<string>, i: nat)
    requires i < |entries| && !Older(entries[i], scope)
    ensures InScope(entries, scope, i) ==> InScope(entries, scope, i + 1)
  {
  }

  lemma OwnStepLookUp(k: Worker, view: View, m: Move)
    requires Ready(k, view, m)
    requires m.LookUpVideo?
    ensures Kept(k, view, m)
  {
    SettledGrows(k.settled, k.i);
  }

  lemma OwnStepDownload(k: Worker, view: View, m: Move)
    requires Ready(k, view, m)
    requires m.StartDownload?
    ensures Kept(k, view, m)
  {
  }

  lemma OwnStepSettle(k: Worker, view: View, m: Move)
    requires Ready(k, view, m)
    requires m.Settle?
    ensures Kept(k, view, m)
  {
    SettledGrows(k.settled, k.i);
  }

  lemma OwnStepTrip(k: Worker, view: View, m: Move)
    requires Ready(k, view, m)
    requires m.PauseForBreaker?
    ensures Kept(k, view, m)
  {
  }

  lemma OwnStepProgressSaved(k: Worker, view: View, m: Move)
    requires Ready(k, view, m) && RowIs(view.row, Backfilling)
    requires m.PersistProgress?
    ensures Kept(k, view, m)
  {
    ScopeGrows(k.entries, k.scope, k.i);
  }

  lemma OwnStepProgressLost(k: Worker, view: View, m: Move)
    requires Ready(k, view, m) && !RowIs(view.row, Backfilling)
    requires m.PersistProgress?
    ensures Kept(k, view, m)
  {
    var e := Execute(k, view, m);
    assert e.worker.pc == Release(Returned(Cancelled)) && e.row.None?;
  }

  lemma OwnStepProgress(k: Worker, view: View, m: Move)
    requires Ready(k, view, m)
    requires m.PersistProgress?
    ensures Kept(k, view, m)
  {
    if RowIs(view.row, Backfilling) {
      OwnStepProgressSaved(k, view, m);
    } else {
      OwnStepProgressLost(k, view, m);
    }
  }

  lemma OwnStepFinalize(k: Worker, view: View, m: Move)
    requires Ready(k, view, m)
    requires m.FinalizeRow?
    ensures Kept(k, view, m)
  {
  }

  lemma OwnStepFire(k: Worker, view: View, m: Move)
    requires Ready(k, view, m)
    requires m.FireTransition?
    ensures Kept(k, view, m)
  {
  }

  lemma OwnStepHandlers(k: Worker, view: View, m: Move)
    requires Ready(k, view, m)
    requires m.UnwedgeRow? || m.RequeueRow?
    ensures Kept(k, view, m)
  {
  }

  lemma OwnStepInterrupted(k: Worker, view: View, m: Move)
    requires Ready(k, view, m)
    requires m.CancelTask? || m.CrashTask? || m.Kill?
    ensures Kept(k, view, m)
  {
    assert !InLoop(Execute(k, view, m).worker.pc);
  }

  lemma OwnStepOut(k: Worker, view: View, m: Move)
    requires Ready(k, view, m)
    requires m.FindCause? || m.ReleaseSlot?
    ensures Kept(k, view, m)
  {
    assert !InLoop(Execute(k, view, m).worker.pc);
  }

  lemma OwnStep(k: Worker, view: View, m: Move)
    requires Ready(k, view, m)
    ensures Kept(k, view, m)
  {
    match m
    case ListFeed(_) => OwnStepListing(k, view, m);
    case PersistTotal => OwnStepListing(k, view, m);
    case TakeSnapshot => OwnStepSnapshot(k, view, m);
    case ReadStatus => OwnStepHead(k, view, m);
    case ProbeNetwork(_) => OwnStepProbe(k, view, m);
    case PauseForNetwork => OwnStepNetPause(k, view, m);
    case LookUpVideo => OwnStepLookUp(k, view, m);
    case StartDownload => OwnStepDownload(k, view, m);
    case Settle(_, _) => OwnStepSettle(k, view, m);
    case PauseForBreaker => OwnStepTrip(k, view, m);
    case PersistProgress => OwnStepProgress(k, view, m);
    case FinalizeRow => OwnStepFinalize(k, view, m);
    case FireTransition => OwnStepFire(k, view, m);
    case UnwedgeRow => OwnStepHandlers(k, view, m);
    case RequeueRow => OwnStepHandlers(k, view, m);
    case ReleaseSlot => OwnStepOut(k, view, m);
    case CancelTask => OwnStepInterrupted(k, view, m);
    case FindCause(_) => OwnStepOut(k, view, m);
    case CrashTask => OwnStepInterrupted(k, view, m);
    case Kill => OwnStepInterrupted(k, view, m);
    case _ => OwnStepGates(k, view, m);
  }

  lemma OwnStepCursors(k: Worker, view: View, m: Move)
    requires Ready(k, view, m) && CursorsOk(view.row, k)
    ensures CursorsOk(After(view, Execute(k, view, m)), Execute(k, view, m).worker)
  {
    if m.TakeSnapshot? {
      AtLeastReflexive(view.row.value.cursor);
    } else if m.PersistProgress? {
      var date := k.entries[k.i].date;
      assert !Older(k.entries[k.i], k.scope);
      assert date != "" ==> AtLeast(k.scope, Some(date));
    } else {
      assert Execute(k, view, m).worker.moving == k.moving;
    }
  }

  lemma FinalizeAnnounces(k: Worker, view: View, m: Move)
    requires Ready(k, view, m) && CompletedOk(k) && CompletedEvent !in k.events && m.FinalizeRow?
    ensures CompletedOk(Execute(k, view, m).worker)
  {
    var k' := Execute(k, view, m).worker;
    if RowIs(view.row, Backfilling) {
      assert Scope(k.entries, k.scope) == k.i;
      assert k'.pc == Transition && CompletedEvent in k'.events;
    } else {
      assert k'.events == k.events + [CancelledEvent] && k'.pc == Release(Returned(Cancelled));
    }
  }

  predicate BeforeLoop(m: Move) {
    m.Acquire? || m.ReadGate? || m.MarkRow? || m.ListFeed? || m.PersistTotal? || m.TakeSnapshot?
  }

  predicate InsideLoop(m: Move) {
    || m.ReadStatus? || m.ProbeNetwork? || m.PauseForNetwork? || m.LookUpVideo? || m.StartDownload? || m.Settle?
    || m.PauseForBreaker? || m.PersistProgress?
  }

  predicate Unannounced(k: Worker) {
    CompletedEvent !in k.events && !ReturnsCompleted(k.pc)
  }

  lemma NoneAnnouncedBeforeLoop(k: Worker, view: View, m: Move)
    requires MoveEnabled(k, view.row, m) && Unannounced(k) && BeforeLoop(m)
    ensures Unannounced(Execute(k, view, m).worker)
  {
  }

  lemma NoneAnnouncedInsideLoop(k: Worker, view: View, m: Move)
    requires MoveEnabled(k, view.row, m) && Unannounced(k) && InsideLoop(m)
    ensures Unannounced(Execute(k, view, m).worker)
  {
  }

  lemma NoneAnnouncedAfterLoop(k: Worker, view: View, m: Move)
    requires MoveEnabled(k, view.row, m) && Unannounced(k) && !BeforeLoop(m) && !InsideLoop(m) && !m.FinalizeRow?
    ensures Unannounced(Execute(k, view, m).worker)
  {
  }

  /** Only the conditional 'completed' write makes a run announce completion, and it finds the whole scope settled. */
  lemma OwnStepAnnounces(k: Worker, view: View, m: Move)
    requires Ready(k, view, m) && CompletedOk(k) && CompletedEvent !in k.events
    ensures CompletedOk(Execute(k, view, m).worker)
  {
    if m.FinalizeRow? {
      FinalizeAnnounces(k, view, m);
    } else if BeforeLoop(m) {
      NoneAnnouncedBeforeLoop(k, view, m);
    } else if InsideLoop(m) {
      NoneAnnouncedInsideLoop(k, view, m);
    } else {
      NoneAnnouncedAfterLoop(k, view, m);
    }
  }

  /** After the announcement nothing is listed, snapshotted or settled any more. */
  lemma OwnStepAnnounced(k: Worker, view: View, m: Move)
    requires MoveEnabled(k, view.row, m) && CompletedOk(k) && CompletedEvent in k.events
    ensures CompletedOk(Execute(k, view, m).worker)
  {
    var k' := Execute(k, view, m).worker;
    assert k' == k.(pc := k'.pc, events := k'.events) && k.events <= k'.events;
    assert CompletedEvent in k'.events;
  }

  /** What every statement of a run owes to the rest of the system. */
  ghost predicate Lawful(k: Worker, view: View, e: Effect) {
    && e.worker.account == k.account
    && RunOk(After(view, e), e.worker)
    && (e.row.Some? ==>
          && view.row.Some? && Holding(k.pc)
          && (Coherent(view.row.value) ==> Coherent(e.row.value))
          && (e.row.value.status == Backfilling ==> view.row.value.status == Backfilling || k.pc == Mark)
          && (e.row.value.cursor == view.row.value.cursor || (k.snapped && AtLeast(k.scope, e.row.value.cursor))))
    && (Holding(e.worker.pc) ==> Holding(k.pc) || e.slot == Some(Some(Run(k.account))))
    && (e.slot.Some? ==> e.row.None? && (Takes(k, view, e) || Frees(k, view, e)))
    && (if e.snap then e.row.None? && view.row.Some? && e.worker.scope == view.row.value.cursor && Holding(k.pc)
        else e.worker.scope == k.scope && e.worker.snapped == k.snapped)
  }

  predicate Takes(k: Worker, view: View, e: Effect) {
    view.slot.None? && e.slot == Some(Some(Run(k.account))) && !e.worker.snapped
  }

  predicate Frees(k: Worker, view: View, e: Effect) {
    Holding(k.pc) && !Holding(e.worker.pc) && e.slot == Some(None) && !RowIs(view.row, Backfilling)
  }

  lemma ExecuteIsLawful(k: Worker, view: View, m: Move)
    requires Ready(k, view, m) && RunOk(view.row, k)
    ensures Lawful(k, view, Execute(k, view, m))
  {
    OwnStep(k, view, m);
    OwnStepCursors(k, view, m);
    if CompletedEvent in k.events {
      OwnStepAnnounced(k, view, m);
    } else {
      OwnStepAnnounces(k, view, m);
    }
    ExecuteKeepsContract(k, view, m);
    if m.PersistProgress? && RowIs(view.row, Backfilling) {
      assert CursorsOk(After(view, Execute(k, view, m)), Execute(k, view, m).worker);
    }
  }

  ghost predicate Contract(k: Worker, view: View, m: Move)
    requires MoveEnabled(k, view.row, m)
  {
    var e := Execute(k, view, m);
    && e.worker.account == k.account
    && (e.row.Some? ==>
          && view.row.Some? && Holding(k.pc)
          && (Coherent(view.row.value) ==> Coherent(e.row.value))
          && (e.row.value.status == Backfilling ==> view.row.value.status == Backfilling || k.pc == Mark)
          && (e.row.value.cursor == view.row.value.cursor || (m.PersistProgress? && RowIs(view.row, Backfilling))))
    && (Holding(e.worker.pc) ==> Holding(k.pc) || e.slot == Some(Some(Run(k.account))))
    && (e.slot.Some? ==> e.row.None? && (Takes(k, view, e) || Frees(k, view, e)))
    && (if e.snap then e.row.None? && view.row.Some? && e.worker.scope == view.row.value.cursor && Holding(k.pc)
        else e.worker.scope == k.scope && e.worker.snapped == k.snapped)
  }

  lemma BeforeLoopKeepsContract(k: Worker, view: View, m: Move)
    requires Ready(k, view, m) && BeforeLoop(m)
    ensures Contract(k, view, m)
  {
  }

  lemma InsideLoopKeepsContract(k: Worker, view: View, m: Move)
    requires Ready(k, view, m) && InsideLoop(m)
    ensures Contract(k, view, m)
  {
  }

  lemma AfterLoopKeepsContract(k: Worker, view: View, m: Move)
    requires Ready(k, view, m) && !BeforeLoop(m) && !InsideLoop(m)
    ensures Contract(k, view, m)
  {
  }

  lemma ExecuteKeepsContract(k: Worker, view: View, m: Move)
    requires Ready(k, view, m)
    ensures Contract(k, view, m)
  {
    if BeforeLoop(m) {
      BeforeLoopKeepsContract(k, view, m);
    } else if InsideLoop(m) {
      InsideLoopKeepsContract(k, view, m);
    } else {
      AfterLoopKeepsContract(k, view, m);
    }
  }

  // ---------------------------------------------------------------- every lawful commit keeps the invariant

  ghost predicate CommitReady(s: State, w: int, e: Effect) {
    Inv(s) && w in s.workers && Lawful(s.workers[w], Seen(s, s.workers[w]), e)
  }

  lemma CommitKeepsRuns(s: State, w: int, e: Effect)
    requires CommitReady(s, w, e)
    ensures RunsOk(Commit(s, w, e))
  {
    var k, s' := s.workers[w], Commit(s, w, e);
    forall v | v in s'.workers ensures RunOk(Row(s'.accounts, s'.workers[v].account), s'.workers[v]) {
      if v == w {
        assert Row(s'.accounts, k.account) == After(Seen(s, k), e);
      } else if !Holding(s.workers[v].pc) {
        IdleWorkerStable(Row(s.accounts, s.workers[v].account), Row(s'.accounts, s.workers[v].account), s.workers[v]);
      }
    }
  }

  lemma CommitKeepsSlot(s: State, w: int, e: Effect)
    requires CommitReady(s, w, e)
    ensures SlotOk(Commit(s, w, e))
  {
  }

  lemma CommitKeepsRows(s: State, w: int, e: Effect)
    requires CommitReady(s, w, e)
    ensures RowsOk(Commit(s, w, e))
  {
  }

  lemma CommitKeepsCursorOrder(s: State, w: int, e: Effect, a: int)
    requires CommitReady(s, w, e) && a in Commit(s, w, e).accounts
    ensures var s' := Commit(s, w, e); a in s'.snaps && CursorOk(s'.snaps[a], s'.accounts[a].cursor)
  {
    var k := s.workers[w];
    if a == k.account {
      if e.snap {
        AscendingExtended(s.snaps[a], s.accounts[a].cursor);
      } else if e.row.Some? && e.row.value.cursor != s.accounts[a].cursor {
        assert LastSnap(s, k);
      }
    }
  }

  lemma CommitKeepsLastSnap(s: State, w: int, e: Effect, v: int)
    requires CommitReady(s, w, e) && v in s.workers
    requires Holding(Commit(s, w, e).workers[v].pc) && Commit(s, w, e).workers[v].snapped
    ensures LastSnap(Commit(s, w, e), Commit(s, w, e).workers[v])
  {
    var k := s.workers[w];
    if v != w || !e.snap {
      assert LastSnap(s, s.workers[v]);
    }
  }

  lemma CommitKeepsCursors(s: State, w: int, e: Effect)
    requires CommitReady(s, w, e)
    ensures CursorHistoryOk(Commit(s, w, e))
  {
    var s' := Commit(s, w, e);
    forall a | a in s'.accounts ensures a in s'.snaps && CursorOk(s'.snaps[a], s'.accounts[a].cursor) {
      CommitKeepsCursorOrder(s, w, e, a);
    }
    forall v | v in s'.workers && Holding(s'.workers[v].pc) && s'.workers[v].snapped ensures LastSnap(s', s'.workers[v]) {
      CommitKeepsLastSnap(s, w, e, v);
    }
    assert s'.snaps.Keys == s'.accounts.Keys;
  }

  lemma AscendingExtended(snaps: seq<Option<string>>, cursor: Option<string>)
    requires CursorOk(snaps, cursor)
    ensures CursorOk(snaps + [cursor], cursor)
  {
    AtLeastReflexive(cursor);
    forall m | 0 <= m < |snaps| ensures AtLeast(snaps[m], cursor) {
      if m < |snaps| - 1 {
        AtLeastTransitive(snaps[m], snaps[|snaps| - 1], cursor);
      }
    }
  }

  lemma AdvanceKeeps(s: State, w: int, m: Move)
    requires Inv(s) && Enabled(s, Advances(w, m))
    ensures Inv(Advance(s, w, m))
  {
    var k := s.workers[w];
    ExecuteIsLawful(k, Seen(s, k), m);
    var e := Execute(k, Seen(s, k), m);
    CommitKeepsRuns(s, w, e);
    CommitKeepsSlot(s, w, e);
    CommitKeepsRows(s, w, e);
    CommitKeepsCursors(s, w, e);
  }

  // ---------------------------------------------------------------- everybody else's steps

  /** What no other actor does: touch a run's progress columns, enter 'backfilling', or take a run's slot. */
  ghost predicate Bystander(s: State, s': State) {
    && s'.workers == s.workers && s'.snaps == s.snaps
    && s'.accounts.Keys == s.accounts.Keys
    && (s'.slot == s.slot || (s.slot == None && s'.slot == Some(Collector)) || (s.slot == Some(Collector) && s'.slot == None))
    && forall a :: a in s.accounts ==> GentleWrite(s.accounts[a], s'.accounts[a])
  }

  predicate GentleWrite(row: Account, row': Account) {
    && row'.cursor == row.cursor && row'.done == row.done && row'.total == row.total
    && (row'.status == Backfilling ==> row.status == Backfilling)
    && (Coherent(row) ==> Coherent(row'))
  }

  lemma ReactIsGentle(s: State, act: Act)
    requires ActEnabled(s, act)
    ensures ReactRows(s, act).Keys == s.accounts.Keys
    ensures forall a :: a in s.accounts ==> GentleWrite(s.accounts[a], ReactRows(s, act)[a])
  {
    match act
    case CollectFlip(o, online) =>
      if Flips(s, s.ops[o], online) {
        assert GentleWrite(s.accounts[s.ops[o].account], ReactRows(s, act)[s.ops[o].account]);
      }
    case _ =>
  }

  lemma BystanderKeeps(s: State, s': State)
    requires Inv(s) && Bystander(s, s')
    ensures Inv(s')
  {
    forall w | w in s'.workers ensures RunOk(Row(s'.accounts, s'.workers[w].account), s'.workers[w]) {
      WorkerStable(Row(s.accounts, s.workers[w].account), Row(s'.accounts, s.workers[w].account), s.workers[w]);
    }
    assert CursorHistoryOk(s') by {
      forall w | w in s'.workers && Holding(s'.workers[w].pc) && s'.workers[w].snapped ensures LastSnap(s', s'.workers[w]) {
        assert LastSnap(s, s.workers[w]);
      }
    }
  }

  lemma StartRunKeeps(s: State, w: int, a: int)
    requires Inv(s) && w !in s.workers
    ensures Inv(React(s, StartRun(w, a)))
  {
    var s' := React(s, StartRun(w, a));
    assert RunOk(Row(s'.accounts, a), NewWorker(a));
    forall v | v in s'.workers && Holding(s'.workers[v].pc) && s'.workers[v].snapped ensures LastSnap(s', s'.workers[v]) {
      assert LastSnap(s, s.workers[v]);
    }
  }

  lemma ReactKeeps(s: State, act: Act)
    requires Inv(s) && ActEnabled(s, act) && !act.StartRun?
    ensures Inv(React(s, act))
  {
    ReactIsGentle(s, act);
    BystanderKeeps(s, React(s, act));
  }

  // ---------------------------------------------------------------- all reachable states

  lemma StepKeeps(s: State, step: Step)
    requires Inv(s) && Enabled(s, step)
    ensures Inv(Next(s, step))
  {
    match step
    case Advances(w, m) => AdvanceKeeps(s, w, m);
    case Reacts(StartRun(w, a)) => StartRunKeeps(s, w, a);
    case Reacts(act) => ReactKeeps(s, act);
  }

  lemma {:induction false} BehaviourInv(states: seq<State>, steps: seq<Step>, n: nat)
    requires Behaviour(states, steps) && n < |states|
    ensures Inv(states[n])
  {
    if n > 0 {
      BehaviourInv(states, steps, n - 1);
      StepKeeps(states[n - 1], steps[n - 1]);
    }
  }
}
