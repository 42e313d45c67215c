/** What the backfill protocol guarantees over every interleaving of its actors. */
module BackfillTheorems {
  import opened Prelude
  import V = VideoStatus
  import opened BackfillProtocol
  import opened BackfillInvariant

  // ---------------------------------------------------------------- mutual exclusion

  /** At most one account is 'backfilling', its slot is taken by it, and at most one run is between acquire and release. */
  lemma OneBackfillAtATime(states: seq<State>, steps: seq<Step>, n: nat)
    requires Behaviour(states, steps) && n < |states|
    ensures var s := states[n];
      && (forall a :: a in s.accounts && s.accounts[a].status == Backfilling ==> s.slot == Some(Run(a)))
      && (forall a, b | a in s.accounts && b in s.accounts ::
            s.accounts[a].status == Backfilling && s.accounts[b].status == Backfilling ==> a == b)
      && (forall v, w | v in s.workers && w in s.workers ::
            Holding(s.workers[v].pc) && Holding(s.workers[w].pc) ==> v == w)
  {
    BehaviourInv(states, steps, n);
  }

  /** No run gives the slot back while its row is still 'backfilling', and it gives back its own slot. */
  lemma ReleaseLeavesNoBackfilling(states: seq<State>, steps: seq<Step>, n: nat, w: int)
    requires Behaviour(states, steps) && n < |steps| && steps[n] == Advances(w, ReleaseSlot)
    ensures states[n].slot == Some(Run(states[n].workers[w].account)) && states[n + 1].slot == None
    ensures var s' := states[n + 1]; forall a :: a in s'.accounts ==> s'.accounts[a].status != Backfilling
  {
    BehaviourInv(states, steps, n);
    ReleaseStep(states[n], w);
    BehaviourInv(states, steps, n + 1);
    FreeSlotMeansQuiet(states[n + 1]);
  }

  lemma ReleaseStep(s: State, w: int)
    requires Inv(s) && Enabled(s, Advances(w, ReleaseSlot))
    ensures s.slot == Some(Run(s.workers[w].account)) && Next(s, Advances(w, ReleaseSlot)).slot == None
  {
    var k := s.workers[w];
    assert SlotOk(s) && Holding(k.pc);
    ReleaseFreesOwnSlot(k, Seen(s, k));
  }

  lemma ReleaseFreesOwnSlot(k: Worker, view: View)
    requires MoveEnabled(k, view.row, ReleaseSlot)
    ensures Execute(k, view, ReleaseSlot).slot == if view.slot == Some(Run(k.account)) then Some(None) else None
  {
  }

  lemma FreeSlotMeansQuiet(s: State)
    requires RowsOk(s) && s.slot == None
    ensures forall a :: a in s.accounts ==> s.accounts[a].status != Backfilling
  {
  }

  /** A row enters 'backfilling' only from 'queued', by its own run's conditional write under the slot. */
  lemma OnlyTheHolderEnters(states: seq<State>, steps: seq<Step>, n: nat, a: int)
    requires Behaviour(states, steps) && n < |steps| && a in states[n].accounts
    requires states[n].accounts[a].status != Backfilling
    requires RowIs(Row(states[n + 1].accounts, a), Backfilling)
    ensures states[n].accounts[a].status == Queued && states[n].slot == Some(Run(a))
    ensures steps[n].Advances? && steps[n].move == MarkRow && states[n].workers[steps[n].w].account == a
  {
    var s := states[n];
    BehaviourInv(states, steps, n);
    match steps[n]
    case Reacts(act) => ReactIsGentle(s, act);
    case Advances(w, m) =>
      var k := s.workers[w];
      ExecuteIsLawful(k, Seen(s, k), m);
  }

  /** A killed run that owned the slot owns it forever: nothing in the protocol takes it back. */
  lemma {:induction false} KilledRunKeepsTheSlot(states: seq<State>, steps: seq<Step>, n: nat, m: nat, w: int)
    requires Behaviour(states, steps) && n <= m < |states|
    requires w in states[n].workers && states[n].workers[w].pc == Dead(true)
    ensures w in states[m].workers && states[m].workers[w] == states[n].workers[w]
    ensures states[m].slot == Some(Run(states[n].workers[w].account))
    ensures forall v :: v in states[m].workers && Holding(states[m].workers[v].pc) ==> v == w
  {
    if n < m {
      KilledRunKeepsTheSlot(states, steps, n, m - 1, w);
      assert states[m - 1].workers[w] == states[m].workers[w] && w in states[m].workers by {
        DeadStep(states[m - 1], steps[m - 1], w);
      }
    }
    BehaviourInv(states, steps, m);
  }

  lemma DeadStep(s: State, step: Step, w: int)
    requires Enabled(s, step) && w in s.workers && s.workers[w].pc.Dead?
    ensures w in Next(s, step).workers && Next(s, step).workers[w] == s.workers[w]
  {
  }

  // ---------------------------------------------------------------- cancellation

  predicate QueuesUp(s: State, step: Step, a: int) {
    step.Reacts? && step.act.QueueWrite? && step.act.o in s.ops && s.ops[step.act.o] == QueuePending(a)
  }

  predicate CancelsIt(s: State, step: Step, a: int) {
    step.Reacts? && step.act.CancelWrite? && step.act.o in s.ops && s.ops[step.act.o] == CancelPending(a)
  }

  lemma OnlyQueueLeavesCancelled(s: State, step: Step, a: int)
    requires Inv(s) && Enabled(s, step) && RowIs(Row(s.accounts, a), Cancelled)
    ensures RowIs(Row(Next(s, step).accounts, a), Cancelled) <==> !QueuesUp(s, step, a)
  {
    match step
    case Reacts(act) =>
      ReactIsGentle(s, act);
    case Advances(w, m) =>
      var k := s.workers[w];
      assert k.account == a ==> Execute(k, Seen(s, k), m).row.None?;
  }

  /** A committed cancel stays until an operator queues the account again, whatever the runs do. */
  lemma {:induction false} CancelIsNeverLost(states: seq<State>, steps: seq<Step>, n: nat, m: nat, a: int)
    requires Behaviour(states, steps) && n <= m < |states|
    requires RowIs(Row(states[n].accounts, a), Cancelled)
    requires forall j :: n <= j < m ==> !QueuesUp(states[j], steps[j], a)
    ensures RowIs(Row(states[m].accounts, a), Cancelled)
  {
    if n < m {
      CancelIsNeverLost(states, steps, n, m - 1, a);
      BehaviourInv(states, steps, m - 1);
      OnlyQueueLeavesCancelled(states[m - 1], steps[m - 1], a);
    }
  }

  /** The points a run between two entries, or past the last one, goes through without touching another entry. */
  predicate Winding(pc: Pc) {
    pc == Head || pc == Finalize || pc == Cancelling || pc.Unwedge? || pc == Crashing || pc.Release? || pc.Ended? || pc.Dead?
  }

  predicate SameWork(k: Worker, k': Worker) {
    k'.account == k.account && k'.settled == k.settled && k'.driven == k.driven && k'.late == k.late
  }

  lemma WindsDown(k: Worker, view: View, m: Move)
    requires MoveEnabled(k, view.row, m) && Winding(k.pc) && RowIs(view.row, Cancelled)
    ensures var e := Execute(k, view, m);
      && Winding(e.worker.pc) && SameWork(k, e.worker) && e.row.None? && e.video.None?
      && (CompletedEvent in e.worker.events ==> CompletedEvent in k.events)
  {
  }

  /**
   A cancel that is committed while the run stands between two entries stops it there: until an operator queues the
   account again the run takes up no further entry, writes no video and announces no completion.
   */
  lemma {:induction false} CancelStopsTheRun(states: seq<State>, steps: seq<Step>, n: nat, m: nat, w: int)
    requires Behaviour(states, steps) && n <= m < |states| && w in states[n].workers && Winding(states[n].workers[w].pc)
    requires RowIs(Row(states[n].accounts, states[n].workers[w].account), Cancelled)
    requires forall j :: n <= j < m ==> !QueuesUp(states[j], steps[j], states[n].workers[w].account)
    ensures w in states[m].workers && Winding(states[m].workers[w].pc) && SameWork(states[n].workers[w], states[m].workers[w])
    ensures CompletedEvent in states[m].workers[w].events ==> CompletedEvent in states[n].workers[w].events
  {
    if n < m {
      CancelStopsTheRun(states, steps, n, m - 1, w);
      CancelIsNeverLost(states, steps, n, m - 1, states[n].workers[w].account);
      WindsDownStep(states[m - 1], steps[m - 1], w);
    }
  }

  lemma WindsDownStep(s: State, step: Step, w: int)
    requires Enabled(s, step) && w in s.workers && Winding(s.workers[w].pc) && RowIs(Row(s.accounts, s.workers[w].account), Cancelled)
    ensures var k, t := s.workers[w], Next(s, step);
      && w in t.workers && Winding(t.workers[w].pc) && SameWork(k, t.workers[w])
      && (CompletedEvent in t.workers[w].events ==> CompletedEvent in k.events)
  {
    if step.Advances? && step.w == w {
      WindsDown(s.workers[w], Seen(s, s.workers[w]), step.move);
    }
  }

  /** 'completed' is not final: it is left exactly by the unconditional writes of queue and cancel. */
  lemma CompletedIsLeftBy(s: State, step: Step, a: int)
    requires Inv(s) && Enabled(s, step) && RowIs(Row(s.accounts, a), Completed)
    ensures RowIs(Row(Next(s, step).accounts, a), Completed) <==> !(QueuesUp(s, step, a) || CancelsIt(s, step, a))
  {
    match step
    case Reacts(act) =>
      ReactIsGentle(s, act);
    case Advances(w, m) =>
      var k := s.workers[w];
      assert k.account == a && Execute(k, Seen(s, k), m).row.Some? ==> m.FireTransition?;
  }

  // ---------------------------------------------------------------- a run whose row has left 'backfilling'

  /** The run has marked its row and still owns the slot. */
  predicate Marked(k: Worker) {
    Holding(k.pc) && k.pc != Gate && k.pc != Mark
  }

  predicate SameProgress(row: Account, row': Account) {
    row'.cursor == row.cursor && row'.done == row.done && row'.total == row.total
  }

  /** Such a run writes neither status, cursor, done nor total, and does not announce completion. */
  lemma LateStatementWritesNothing(k: Worker, view: View, m: Move)
    requires MoveEnabled(k, view.row, m) && Marked(k) && !RowIs(view.row, Backfilling)
    ensures var e := Execute(k, view, m);
      && (e.row.Some? ==> e.row.value.status == view.row.value.status && SameProgress(view.row.value, e.row.value))
      && (CompletedEvent in e.worker.events ==> CompletedEvent in k.events)
      && e.worker.account == k.account
      && e.worker.late <= k.late + 1
  {
  }

  predicate Frozen(s: State, s': State, w: int)
    requires w in s.workers && s.workers[w].account in s.accounts
  {
    var a := s.workers[w].account;
    && w in s'.workers && s'.workers[w].account == a && a in s'.accounts
    && s'.accounts[a].status != Backfilling
    && SameProgress(s.accounts[a], s'.accounts[a])
    && (CompletedEvent in s'.workers[w].events ==> CompletedEvent in s.workers[w].events)
  }

  lemma LeftRowStep(s: State, step: Step, w: int)
    requires Inv(s) && Enabled(s, step) && w in s.workers && Marked(s.workers[w])
    requires s.workers[w].account in s.accounts && s.accounts[s.workers[w].account].status != Backfilling
    ensures Frozen(s, Next(s, step), w)
  {
    var k := s.workers[w];
    match step
    case Reacts(act) =>
      ReactIsGentle(s, act);
    case Advances(v, m) =>
      if v == w {
        LateStatementWritesNothing(k, Seen(s, k), m);
      } else {
        var other := s.workers[v];
        ExecuteIsLawful(other, Seen(s, other), m);
      }
  }

  lemma FrozenTransitive(s: State, t: State, u: State, w: int)
    requires w in s.workers && s.workers[w].account in s.accounts && Frozen(s, t, w) && Frozen(t, u, w)
    ensures Frozen(s, u, w)
  {
  }

  lemma BehaviourFreezes(states: seq<State>, steps: seq<Step>, n: nat, w: int)
    requires Behaviour(states, steps) && n < |steps| && w in states[n].workers && Marked(states[n].workers[w])
    requires states[n].workers[w].account in states[n].accounts
    requires states[n].accounts[states[n].workers[w].account].status != Backfilling
    ensures Frozen(states[n], states[n + 1], w)
  {
    BehaviourInv(states, steps, n);
    LeftRowStep(states[n], steps[n], w);
  }

  lemma FrozenOneMore(states: seq<State>, steps: seq<Step>, n: nat, m: nat, w: int)
    requires Behaviour(states, steps) && n < m < |states|
    requires w in states[n].workers && states[n].workers[w].account in states[n].accounts
    requires Frozen(states[n], states[m - 1], w) && Marked(states[m - 1].workers[w])
    ensures Frozen(states[n], states[m], w)
  {
    BehaviourFreezes(states, steps, m - 1, w);
    FrozenTransitive(states[n], states[m - 1], states[m], w);
  }

  /**
   Once a marked run's row has left 'backfilling', the row does not come back while the run lasts, its
   cursor, done and total stay as they are whoever moves, and the run announces no completion.
   */
  lemma {:induction false} LeftRowIsFrozen(states: seq<State>, steps: seq<Step>, n: nat, m: nat, w: int)
    requires Behaviour(states, steps) && n <= m < |states|
    requires w in states[n].workers && Marked(states[n].workers[w])
    requires states[n].workers[w].account in states[n].accounts
    requires states[n].accounts[states[n].workers[w].account].status != Backfilling
    requires forall j :: n <= j < m ==> w in states[j].workers && Marked(states[j].workers[w])
    ensures Frozen(states[n], states[m], w)
  {
    if n < m {
      LeftRowIsFrozen(states, steps, n, m - 1, w);
      FrozenOneMore(states, steps, n, m, w);
    }
  }

  /** A run begins at most one download while its row is not 'backfilling', over its whole life. */
  lemma AtMostOneLateDownload(states: seq<State>, steps: seq<Step>, n: nat, w: int)
    requires Behaviour(states, steps) && n < |states| && w in states[n].workers
    ensures states[n].workers[w].late <= 1
  {
    BehaviourInv(states, steps, n);
    assert RunOk(Row(states[n].accounts, states[n].workers[w].account), states[n].workers[w]);
  }

  /** The history kept about entries: which are settled, how many commits were driven, which is owed, which downloads came late. */
  predicate SameBooks(k: Worker, k': Worker) {
    k'.driven == k.driven && k'.owed == k.owed && k'.late == k.late
  }

  predicate Early(m: Move) {
    || m.Acquire? || m.ReadGate? || m.MarkRow? || m.ListFeed? || m.PersistTotal? || m.TakeSnapshot?
    || m.ReadStatus? || m.ProbeNetwork? || m.PauseForNetwork?
  }

  predicate OnEntry(m: Move) {
    m.LookUpVideo? || m.StartDownload? || m.Settle? || m.PersistProgress?
  }

  lemma EarlyKeepsTheBooks(k: Worker, view: View, m: Move)
    requires MoveEnabled(k, view.row, m) && Early(m)
    ensures SameBooks(k, Execute(k, view, m).worker) && Execute(k, view, m).worker.settled == k.settled
  {
  }

  lemma EndKeepsTheBooks(k: Worker, view: View, m: Move)
    requires MoveEnabled(k, view.row, m) && !Early(m) && !OnEntry(m)
    ensures SameBooks(k, Execute(k, view, m).worker) && Execute(k, view, m).worker.settled == k.settled
  {
  }

  lemma OthersKeepTheBooks(k: Worker, view: View, m: Move)
    requires MoveEnabled(k, view.row, m) && !m.Settle? && !m.PersistProgress?
    ensures m.LookUpVideo? || Execute(k, view, m).worker.settled == k.settled
    ensures m.StartDownload? || SameBooks(k, Execute(k, view, m).worker)
    ensures Execute(k, view, m).worker.driven == k.driven && Execute(k, view, m).worker.owed == k.owed
  {
    if Early(m) {
      EarlyKeepsTheBooks(k, view, m);
    } else if !OnEntry(m) {
      EndKeepsTheBooks(k, view, m);
    }
  }

  /** `late` counts what it says: it grows exactly when the run begins a download while its row is not 'backfilling'. */
  lemma LateCountsLateDownloads(k: Worker, view: View, m: Move)
    requires MoveEnabled(k, view.row, m)
    ensures Execute(k, view, m).worker.late == k.late + (if m.StartDownload? && !RowIs(view.row, Backfilling) then 1 else 0)
  {
    if !OnEntry(m) {
      OthersKeepTheBooks(k, view, m);
    }
  }

  // ---------------------------------------------------------------- what a returned status says of the row

  /**
   The status a run decides to return is the row's own exactly when the deciding statement finds the row still
   'backfilling' and is not the crash handler's, or the row happens to have that status already. Otherwise the
   answer is about a row somebody else has taken ('cancelled', 'completed', 'paused', 'queued'), or it is the
   'failed' of a crash over a row that goes back to the queue.
   */
  lemma ReturnedStatusIsTheRows(k: Worker, view: View, m: Move, status: Status)
    requires MoveEnabled(k, view.row, m) && WorkerOk(view.row, k) && !k.pc.Release?
    requires Execute(k, view, m).worker.pc == Release(Returned(status))
    ensures RowIs(After(view, Execute(k, view, m)), status)
      <==> (RowIs(view.row, Backfilling) && !m.RequeueRow?) || RowIs(view.row, status)
  {
    if BeforeLoop(m) {
      ReturnedBeforeLoop(k, view, m, status);
    } else if InsideLoop(m) {
      ReturnedInsideLoop(k, view, m, status);
    } else {
      ReturnedAfterLoop(k, view, m, status);
    }
  }

  lemma ReturnedBeforeLoop(k: Worker, view: View, m: Move, status: Status)
    requires MoveEnabled(k, view.row, m) && WorkerOk(view.row, k) && BeforeLoop(m)
    requires Execute(k, view, m).worker.pc == Release(Returned(status))
    ensures m.PersistTotal? && status == Cancelled && !RowIs(view.row, Backfilling) && Execute(k, view, m).row.None?
  {
  }

  lemma ReturnedInsideLoop(k: Worker, view: View, m: Move, status: Status)
    requires MoveEnabled(k, view.row, m) && WorkerOk(view.row, k) && InsideLoop(m)
    requires Execute(k, view, m).worker.pc == Release(Returned(status))
    ensures if m.ReadStatus? then status == Cancelled && RowIs(view.row, Cancelled) && Execute(k, view, m).row.None?
            else if RowIs(view.row, Backfilling) then status == Paused && RowIs(Execute(k, view, m).row, Paused)
            else status == Cancelled && Execute(k, view, m).row.None?
  {
  }

  lemma ReturnedAfterLoop(k: Worker, view: View, m: Move, status: Status)
    requires MoveEnabled(k, view.row, m) && WorkerOk(view.row, k) && !BeforeLoop(m) && !InsideLoop(m) && !k.pc.Release?
    requires Execute(k, view, m).worker.pc == Release(Returned(status))
    ensures RowIs(After(view, Execute(k, view, m)), status)
      <==> (RowIs(view.row, Backfilling) && !m.RequeueRow?) || RowIs(view.row, status)
  {
  }

  /** No statement of a run writes 'failed'. */
  lemma RunsDoNotWriteFailed(k: Worker, view: View, m: Move)
    requires MoveEnabled(k, view.row, m)
    ensures !RowIs(Execute(k, view, m).row, Failed)
  {
  }

  lemma StepDoesNotWriteFailed(s: State, step: Step, a: int)
    requires Enabled(s, step) && RowIs(Row(Next(s, step).accounts, a), Failed)
    ensures RowIs(Row(s.accounts, a), Failed)
  {
    match step
    case Reacts(act) =>
    case Advances(w, m) =>
      var k := s.workers[w];
      if k.account == a && Execute(k, Seen(s, k), m).row.Some? {
        RunsDoNotWriteFailed(k, Seen(s, k), m);
      }
  }

  lemma FailedWasFailed(states: seq<State>, steps: seq<Step>, n: nat, a: int)
    requires Behaviour(states, steps) && n < |steps| && RowIs(Row(states[n + 1].accounts, a), Failed)
    ensures RowIs(Row(states[n].accounts, a), Failed)
  {
    StepDoesNotWriteFailed(states[n], steps[n], a);
  }

  /** So a row is 'failed' only if it was so from the start. */
  lemma NobodyWritesFailed(states: seq<State>, steps: seq<Step>, n: nat, a: int)
    requires Behaviour(states, steps) && n < |states| && RowIs(Row(states[n].accounts, a), Failed)
    ensures RowIs(Row(states[0].accounts, a), Failed)
  {
    var i := n;
    while i > 0
      invariant 0 <= i < |states| && RowIs(Row(states[i].accounts, a), Failed)
    {
      i := i - 1;
      FailedWasFailed(states, steps, i, a);
    }
  }

  /** The startup reconciliation requeues a live run's row as well: the run keeps the slot and its place, and has lost the row. */
  lemma ReconcileTakesLiveRows(s: State, w: int)
    requires Inv(s) && w in s.workers && InTry(s.workers[w].pc) && RowIs(Row(s.accounts, s.workers[w].account), Backfilling)
    ensures var t, k := Next(s, Reacts(ReconcileStale)), s.workers[w];
      && RowIs(Row(t.accounts, k.account), Queued)
      && w in t.workers && t.workers[w] == k && t.slot == Some(Run(k.account))
  {
    assert SlotOk(s) && Holding(s.workers[w].pc);
  }

  // ---------------------------------------------------------------- coverage

  lemma SettleSettles(k: Worker, view: View, m: Move)
    requires MoveEnabled(k, view.row, m) && m.Settle?
    ensures k.i < |k.entries| && V.Terminal(m.outcome)
    ensures Execute(k, view, m).worker.settled == k.settled + {k.i} && Execute(k, view, m).video == Some(m.outcome)
    ensures (Execute(k, view, m).worker.pc == Trip <==> m.tripped) && (m.tripped ==> m.outcome == V.Failed)
  {
  }

  lemma LookUpSettles(k: Worker, view: View)
    requires MoveEnabled(k, view.row, LookUpVideo)
    ensures k.i < |k.entries|
    ensures var e := Execute(k, view, LookUpVideo);
      && e.worker.pc != Trip
      && if view.video.Some? && V.Terminal(view.video.value) then e.worker.settled == k.settled + {k.i} && e.video.None?
      else e.worker.settled == k.settled
  {
  }

  /** An entry counts as settled only in a step that finds it terminal or commits it as terminal. */
  lemma SettledMeansTerminal(s: State, w: int, m: Move, j: nat)
    requires Enabled(s, Advances(w, m))
    requires j in Advance(s, w, m).workers[w].settled && j !in s.workers[w].settled
    ensures j == s.workers[w].i < |s.workers[w].entries|
    ensures var id := s.workers[w].entries[j].id;
      && id in Advance(s, w, m).videos && V.Terminal(Advance(s, w, m).videos[id])
      && (m.Settle? || (m.LookUpVideo? && id in s.videos && V.Terminal(s.videos[id])))
      && (Advance(s, w, m).workers[w].pc == Trip <==> m.Settle? && m.tripped)
      && (m.Settle? && m.tripped ==> Advance(s, w, m).videos[id] == V.Failed)
  {
    var k := s.workers[w];
    if m.Settle? {
      SettleSettles(k, Seen(s, k), m);
    } else if m.LookUpVideo? {
      LookUpSettles(k, Seen(s, k));
    } else {
      OthersKeepTheBooks(k, Seen(s, k), m);
    }
  }

  /**
   A run that announces or returns 'completed' settled exactly the listed entries not behind one that is dated
   strictly before its cursor snapshot: undated entries do not stop it, nor does any date when there is no snapshot.
   */
  lemma CompletedRunCoveredItsScope(states: seq<State>, steps: seq<Step>, n: nat, w: int, j: nat)
    requires Behaviour(states, steps) && n < |states| && w in states[n].workers
    requires states[n].workers[w].pc == Ended(Returned(Completed)) || CompletedEvent in states[n].workers[w].events
    ensures var k := states[n].workers[w];
      j in k.settled <==> j < |k.entries| && forall i :: 0 <= i <= j ==>
        k.entries[i].date == "" || k.scope.None? || k.scope.value == "" || !Before(k.entries[i].date, k.scope.value)
  {
    RunIsOk(states, steps, n, w);
    CoveredByDate(states[n].workers[w]);
  }

  lemma RunIsOk(states: seq<State>, steps: seq<Step>, n: nat, w: int)
    requires Behaviour(states, steps) && n < |states| && w in states[n].workers
    ensures CompletedOk(states[n].workers[w])
  {
    BehaviourInv(states, steps, n);
    assert RunOk(Row(states[n].accounts, states[n].workers[w].account), states[n].workers[w]);
  }

  /** While the row is still 'backfilling', the run has settled the entries it has passed, none of them behind the boundary. */
  lemma SettledSoFar(states: seq<State>, steps: seq<Step>, n: nat, w: int, j: nat)
    requires Behaviour(states, steps) && n < |states| && w in states[n].workers && InLoop(states[n].workers[w].pc)
    requires RowIs(Row(states[n].accounts, states[n].workers[w].account), Backfilling)
    ensures var k := states[n].workers[w];
      && (j in k.settled <==> j < k.i || (j == k.i && EntrySettled(k.pc)))
      && (j in k.settled ==> j < |k.entries| && NoneOlder(k.entries, k.scope, j))
  {
    LoopIsOk(states, steps, n, w);
    var k := states[n].workers[w];
    SettledIsInScope(states[n].accounts[k.account], k, j);
  }

  lemma LoopIsOk(states: seq<State>, steps: seq<Step>, n: nat, w: int)
    requires Behaviour(states, steps) && n < |states| && w in states[n].workers && InLoop(states[n].workers[w].pc)
    ensures var k := states[n].workers[w]; k.account in states[n].accounts && LoopOk(states[n].accounts[k.account], k)
  {
    BehaviourInv(states, steps, n);
    assert RunOk(Row(states[n].accounts, states[n].workers[w].account), states[n].workers[w]);
  }

  lemma SettledIsInScope(row: Account, k: Worker, j: nat)
    requires LoopOk(row, k) && row.status == Backfilling && InLoop(k.pc)
    ensures j in k.settled <==> j < k.i || (j == k.i && EntrySettled(k.pc))
    ensures j in k.settled ==> j < |k.entries| && NoneOlder(k.entries, k.scope, j)
  {
    if j in k.settled {
      assert forall i :: 0 <= i <= j ==> !Older(k.entries[i], k.scope);
    }
  }

  // ---------------------------------------------------------------- progress columns

  /**
   However a run ends or is interrupted, backfill_done has grown by the number of entries it drove to a
   terminal commit, or by exactly one fewer; by exactly that number when the run returns 'completed'.
   */
  lemma DoneAccounting(states: seq<State>, steps: seq<Step>, n: nat, w: int)
    requires Behaviour(states, steps) && n < |states| && w in states[n].workers
    requires Holding(states[n].workers[w].pc) && states[n].workers[w].snapped
    ensures var k, s := states[n].workers[w], states[n];
      && k.account in s.accounts
      && s.accounts[k.account].done + (if k.owed then 1 else 0) == k.startDone + k.driven
      && s.accounts[k.account].total == |k.entries|
      && (k.pc == Release(Returned(Completed)) ==> !k.owed)
  {
    BehaviourInv(states, steps, n);
    assert RunOk(Row(states[n].accounts, states[n].workers[w].account), states[n].workers[w]);
  }

  /** The missing one is the commit made last: owed from a terminal commit until its progress write succeeds. */
  lemma OwedIsTheLastCommit(k: Worker, view: View, m: Move)
    requires MoveEnabled(k, view.row, m)
    ensures var k' := Execute(k, view, m).worker;
      && k'.driven == k.driven + (if m.Settle? then 1 else 0)
      && (k'.owed <==> m.Settle? || (k.owed && !(m.PersistProgress? && RowIs(view.row, Backfilling))))
  {
    if !m.Settle? && !m.PersistProgress? {
      OthersKeepTheBooks(k, view, m);
    }
  }

  /** The cursor snapshots of an account never decrease from run to run, and the cursor never falls behind them. */
  lemma SnapshotsNeverDecrease(states: seq<State>, steps: seq<Step>, n: nat, a: int)
    requires Behaviour(states, steps) && n < |states| && a in states[n].accounts
    ensures a in states[n].snaps
    ensures forall i, j :: 0 <= i < j < |states[n].snaps[a]| ==> AtLeast(states[n].snaps[a][i], states[n].snaps[a][j])
    ensures forall i :: 0 <= i < |states[n].snaps[a]| ==> AtLeast(states[n].snaps[a][i], states[n].accounts[a].cursor)
  {
    BehaviourInv(states, steps, n);
    var snaps, cursor := states[n].snaps[a], states[n].accounts[a].cursor;
    assert CursorOk(snaps, cursor);
    forall i | 0 <= i < |snaps| ensures AtLeast(snaps[i], cursor) {
      if i < |snaps| - 1 {
        AtLeastTransitive(snaps[i], snaps[|snaps| - 1], cursor);
      }
    }
  }

  lemma OthersKeepTheCursor(k: Worker, view: View, m: Move)
    requires MoveEnabled(k, view.row, m) && !m.PersistProgress?
    ensures var e := Execute(k, view, m); e.row.Some? ==> view.row.Some? && e.row.value.cursor == view.row.value.cursor
  {
  }

  /** A progress write that reaches the row moves the cursor to the entry's date, or leaves the moving cursor there. */
  lemma ProgressMovesTheCursor(k: Worker, view: View)
    requires MoveEnabled(k, view.row, PersistProgress)
    ensures var e, date := Execute(k, view, PersistProgress), k.entries[k.i].date;
      && (e.row.Some? <==> RowIs(view.row, Backfilling))
      && (e.row.Some? ==>
            && e.row.value.cursor == (if date != "" then Some(date) else k.moving) == e.worker.moving
            && e.worker.scope == k.scope)
  {
  }

  lemma CursorStep(s: State, w: int, m: Move, a: int)
    requires Inv(s) && Enabled(s, Advances(w, m)) && a in s.accounts
    requires a in Advance(s, w, m).accounts && Advance(s, w, m).accounts[a].cursor != s.accounts[a].cursor
    ensures var k, cursor := s.workers[w], Advance(s, w, m).accounts[a].cursor;
      && m.PersistProgress? && k.account == a && s.accounts[a].status == Backfilling
      && k.i < |k.entries| && k.entries[k.i].date != "" && cursor == Some(k.entries[k.i].date)
      && AtLeast(k.scope, cursor)
  {
    var k := s.workers[w];
    assert RunOk(Row(s.accounts, k.account), k);
    if m.PersistProgress? {
      ProgressMovesTheCursor(k, Seen(s, k));
      OwnStepCursors(k, Seen(s, k), m);
    } else {
      OthersKeepTheCursor(k, Seen(s, k), m);
    }
  }

  /** Only a run's progress write moves the cursor: to the current entry's date, never behind the snapshot. */
  lemma CursorMovesToTheEntryDate(states: seq<State>, steps: seq<Step>, n: nat, a: int)
    requires Behaviour(states, steps) && n < |steps| && a in states[n].accounts
    requires a in states[n + 1].accounts && states[n + 1].accounts[a].cursor != states[n].accounts[a].cursor
    ensures steps[n].Advances? && steps[n].move == PersistProgress
    ensures var k := states[n].workers[steps[n].w];
      && k.account == a && states[n].accounts[a].status == Backfilling
      && k.i < |k.entries| && k.entries[k.i].date != ""
      && states[n + 1].accounts[a].cursor == Some(k.entries[k.i].date)
      && AtLeast(k.scope, states[n + 1].accounts[a].cursor)
  {
    BehaviourInv(states, steps, n);
    match steps[n]
    case Reacts(act) => ReactIsGentle(states[n], act);
    case Advances(w, m) => CursorStep(states[n], w, m, a);
  }

  /** A run without a cookie, or that finds the slot taken, raises and touches nothing. */
  lemma RefusedAtTheSlot(s: State, w: int, cookie: bool)
    requires Enabled(s, Advances(w, Acquire(cookie))) && (!cookie || s.slot.Some?)
    ensures var k, t := s.workers[w], Next(s, Advances(w, Acquire(cookie)));
      && t == s.(workers := t.workers) && t.workers[w].pc == Ended(Raised) && !(t.workers[w].won && !k.won)
      && t.workers[w].events == k.events + if cookie then [] else [NoCookiesEvent]
  {
  }

  /** The slot is the run's, and its row queued: the row enters 'backfilling', and the run is announced. */
  lemma RunGetsUnderWay(s: State, w: int)
    requires Enabled(s, Advances(w, Acquire(true))) && s.slot.None? && RowIs(Row(s.accounts, s.workers[w].account), Queued)
    ensures var a, t := s.workers[w].account, Next(s, Advances(w, Acquire(true)));
      && t == s.(workers := t.workers, slot := Some(Run(a))) && Enabled(t, Advances(w, ReadGate))
      && (var u := Next(t, Advances(w, ReadGate));
          && u == t.(workers := u.workers) && Enabled(u, Advances(w, MarkRow))
          && (var v := Next(u, Advances(w, MarkRow));
              && v == u.(workers := v.workers, accounts := s.accounts[a := s.accounts[a].(status := Backfilling, reason := None)])
              && v.workers[w].pc == Listing && v.workers[w].events == s.workers[w].events + [StartedEvent]))
  {
  }

  /** A row that is not queued when the gate or the mark looks at it keeps the run out. */
  lemma RefusedAtTheRow(s: State, w: int, m: Move)
    requires m == ReadGate || m == MarkRow
    requires Enabled(s, Advances(w, m)) && !RowIs(Row(s.accounts, s.workers[w].account), Queued)
    ensures var t := Next(s, Advances(w, m)); t == s.(workers := t.workers) && t.workers[w].pc == Release(Raised)
  {
  }

  /** The listing is what the feed gave, and its length the total, if the row is still the run's. */
  lemma ListingIsCounted(s: State, w: int, listed: seq<Entry>)
    requires Enabled(s, Advances(w, ListFeed(listed)))
    ensures var a, t := s.workers[w].account, Next(s, Advances(w, ListFeed(listed)));
      && t == s.(workers := t.workers) && t.workers[w].entries == listed && Enabled(t, Advances(w, PersistTotal))
      && (var u, live := Next(t, Advances(w, PersistTotal)), RowIs(Row(s.accounts, a), Backfilling);
          && u.accounts == (if live then s.accounts[a := s.accounts[a].(total := |listed|)] else s.accounts)
          && u.workers[w].entries == listed
          && u.workers[w].pc == if live then Snapshot else Release(Returned(Cancelled)))
  {
  }

  /** Past its last entry a run completes the row, if it is still its own, and announces that. */
  lemma LastStatementCompletes(s: State, w: int)
    requires Enabled(s, Advances(w, FinalizeRow))
    ensures var k, t := s.workers[w], Next(s, Advances(w, FinalizeRow));
      if RowIs(Row(s.accounts, k.account), Backfilling)
      then && t.accounts == s.accounts[k.account := s.accounts[k.account].(status := Completed)]
           && t.workers[w].pc == Transition && t.workers[w].events == k.events + [CompletedEvent]
      else && t.accounts == s.accounts
           && t.workers[w].pc == Release(Returned(Cancelled)) && t.workers[w].events == k.events + [CancelledEvent]
  {
  }

  /** The snapshot is the row's cursor at that moment, and joins the account's snapshots. */
  lemma SnapshotIsTheCursor(s: State, w: int)
    requires Inv(s) && Enabled(s, Advances(w, TakeSnapshot))
    ensures var a, t := s.workers[w].account, Next(s, Advances(w, TakeSnapshot));
      && a in s.accounts && t.accounts == s.accounts
      && t.workers[w].scope == t.workers[w].moving == s.accounts[a].cursor
      && t.workers[w].startDone == t.workers[w].done == s.accounts[a].done
      && t.workers[w].pc == Head && t.workers[w].i == 0
      && t.snaps == s.snaps[a := s.snaps[a] + [s.accounts[a].cursor]]
  {
  }

  // ---------------------------------------------------------------- pauses and the monitor transition

  /** An outage noticed before an entry pauses the row for the network and returns, if the row is still the run's. */
  lemma OutagePauses(s: State, w: int)
    requires Enabled(s, Advances(w, ProbeNetwork(false)))
    ensures var k, t := s.workers[w], Next(s, Advances(w, ProbeNetwork(false)));
      && t == s.(workers := t.workers) && Enabled(t, Advances(w, PauseForNetwork))
      && (var u := Next(t, Advances(w, PauseForNetwork));
          if RowIs(Row(s.accounts, k.account), Backfilling)
          then && u.accounts == s.accounts[k.account := s.accounts[k.account].(status := Paused, reason := Some(Network))]
               && u.workers[w].pc == Release(Returned(Paused)) && u.workers[w].events == k.events + [PausedEvent(Network)]
          else u.accounts == s.accounts && u.workers[w] == k.(pc := Head, i := k.i + 1))
  {
  }

  /** Where a cancelled task leaves a row that is still the run's: paused for the disk, or the network, or queued. */
  lemma InterruptedRowIsUnwedged(s: State, w: int, online: bool)
    requires w in s.workers && s.workers[w].pc == Cancelling && RowIs(Row(s.accounts, s.workers[w].account), Backfilling)
    ensures var a, t := s.workers[w].account, Next(s, Advances(w, FindCause(online)));
      && t == s.(workers := t.workers) && Enabled(t, Advances(w, UnwedgeRow))
      && (var u := Next(t, Advances(w, UnwedgeRow)); var row := s.accounts[a];
          u.accounts == s.accounts[a :=
            if s.downloadsPaused then row.(status := Paused, reason := Some(Disk))
            else if !online then row.(status := Paused, reason := Some(Network))
            else row.(status := Queued, reason := None)]
          && u.workers[w].pc == Release(Returned(u.accounts[a].status))
          && u.workers[w].events == s.workers[w].events
            + if u.accounts[a].reason.Some? then [PausedEvent(u.accounts[a].reason.value)] else [])
  {
  }

  /** A completed history row that asked for monitoring becomes a monitored one in the run's last statement, and the monitor starts. */
  lemma CompletionStartsMonitoring(s: State, w: int)
    requires Enabled(s, Advances(w, FireTransition))
    ensures var a, t := s.workers[w].account, Next(s, Advances(w, FireTransition));
      var due := a in s.accounts && s.accounts[a].status == Completed && s.accounts[a].mode == History && s.accounts[a].monitorAfter;
      && t.accounts == (if due then s.accounts[a := s.accounts[a].(mode := Monitor, monitorAfter := false)] else s.accounts)
      && (t.monitorRunning <==> s.monitorRunning || due)
      && t.workers[w].pc == Release(Returned(Completed))
  {
  }

  /** No statement lowers the review flag, and a collector that reads the row while it is up has seen it. */
  lemma ReviewStep(s: State, step: Step, a: int)
    requires Enabled(s, step) && a in s.accounts && s.accounts[a].needsReview
    ensures a in Next(s, step).accounts && Next(s, step).accounts[a].needsReview
    ensures forall o :: o in Next(s, step).ops && Next(s, step).ops[o].Collecting? && Next(s, step).ops[o].account == a ==>
      Next(s, step).ops[o].read.needsReview || (o in s.ops && Next(s, step).ops[o] == s.ops[o])
  {
    match step
    case Reacts(act) =>
    case Advances(w, m) => RunsKeepTheReview(s.workers[w], Seen(s, s.workers[w]), m);
  }

  lemma RunsKeepTheReview(k: Worker, view: View, m: Move)
    requires MoveEnabled(k, view.row, m)
    ensures var e := Execute(k, view, m); view.row.Some? && view.row.value.needsReview && e.row.Some? ==> e.row.value.needsReview
  {
  }

  /** From then on every collector at work on the account has seen the flag, or was at work before it went up. */
  lemma {:induction false} ReviewIsSeen(states: seq<State>, steps: seq<Step>, n: nat, m: nat, a: int, o: int)
    requires Behaviour(states, steps) && n <= m < |states| && a in states[n].accounts && states[n].accounts[a].needsReview
    ensures a in states[m].accounts && states[m].accounts[a].needsReview
    ensures o in states[m].ops && states[m].ops[o].Collecting? && states[m].ops[o].account == a ==>
      states[m].ops[o].read.needsReview || (o in states[n].ops && states[m].ops[o] == states[n].ops[o])
  {
    if n < m {
      ReviewIsSeen(states, steps, n, m - 1, a, o);
      ReviewStep(states[m - 1], steps[m - 1], a);
    }
  }

  /** A flip changes the rows exactly when its conditional write lands, and then it had read them without the flag. */
  lemma FlipChangesRows(s: State, o: int, online: bool)
    requires Enabled(s, Reacts(CollectFlip(o, online)))
    ensures Next(s, Reacts(CollectFlip(o, online))).accounts != s.accounts <==> Flips(s, s.ops[o], online)
    ensures Flips(s, s.ops[o], online) ==> !s.ops[o].read.needsReview
  {
    var a := s.ops[o].account;
    if Flips(s, s.ops[o], online) {
      assert Next(s, Reacts(CollectFlip(o, online))).accounts[a].status == Queued;
    }
  }

  /** A collector whose reading of the row goes back to state `n`. */
  predicate HeldSince(s: State, t: State, o: int) {
    o in s.ops && o in t.ops && s.ops[o] == t.ops[o]
  }

  /**
   Once an account waits for a review, a collector requeues it, under any interleaving, if and only if it had read
   the row before the flag went up, has held on to that reading since, and its conditional write lands.
   */
  lemma ReviewHoldsOffCollectors(states: seq<State>, steps: seq<Step>, n: nat, m: nat, a: int, o: int, online: bool)
    requires Behaviour(states, steps) && n <= m < |steps| && a in states[n].accounts && states[n].accounts[a].needsReview
    requires steps[m] == Reacts(CollectFlip(o, online)) && states[m].ops[o].account == a
    ensures states[m + 1].accounts != states[m].accounts
      <==> HeldSince(states[n], states[m], o) && Flips(states[m], states[m].ops[o], online)
  {
    ReviewIsSeen(states, steps, n, m, a, o);
    FlipChangesRows(states[m], o, online);
  }

  /** A breaker trip stops the account as a whole; afterwards only a reading from before the trip can requeue it. */
  lemma BreakerPauseHolds(states: seq<State>, steps: seq<Step>, n: nat, w: int, m: nat, o: int, online: bool)
    requires Behaviour(states, steps) && n < m < |steps| && steps[n] == Advances(w, PauseForBreaker)
    requires RowIs(Row(states[n].accounts, states[n].workers[w].account), Backfilling)
    requires steps[m] == Reacts(CollectFlip(o, online)) && states[m].ops[o].account == states[n].workers[w].account
    ensures var a := states[n].workers[w].account;
      && RowIs(Row(states[n + 1].accounts, a), Paused)
      && states[n + 1].accounts[a].needsReview && states[n + 1].accounts[a].paused
    ensures states[m + 1].accounts != states[m].accounts
      <==> HeldSince(states[n], states[m], o) && Flips(states[m], states[m].ops[o], online)
  {
    TripStops(states[n], w);
    ReviewHoldsOffCollectors(states, steps, n + 1, m, states[n].workers[w].account, o, online);
  }

  lemma TripStops(s: State, w: int)
    requires Enabled(s, Advances(w, PauseForBreaker)) && RowIs(Row(s.accounts, s.workers[w].account), Backfilling)
    ensures var a, t := s.workers[w].account, Next(s, Advances(w, PauseForBreaker));
      && RowIs(Row(t.accounts, a), Paused) && t.accounts[a].needsReview && t.accounts[a].paused && t.ops == s.ops
  {
  }

  /** In every reachable state a pause reason means 'paused', and a pause without a reason waits for review. */
  lemma PausesAreCoherent(states: seq<State>, steps: seq<Step>, n: nat, a: int)
    requires Behaviour(states, steps) && n < |states| && a in states[n].accounts
    ensures states[n].accounts[a].reason.Some? ==> states[n].accounts[a].status == Paused
    ensures states[n].accounts[a].status == Paused && states[n].accounts[a].reason.None? ==> states[n].accounts[a].needsReview
  {
    BehaviourInv(states, steps, n);
  }

  /** mode flips only to 'monitor', only over a 'completed' row that asked for it, and starts the monitor in the same commit. */
  lemma ModeFlipsOnlyOnCompletion(states: seq<State>, steps: seq<Step>, n: nat, a: int)
    requires Behaviour(states, steps) && n < |steps|
    requires a in states[n].accounts && a in states[n + 1].accounts && states[n + 1].accounts[a].mode != states[n].accounts[a].mode
    ensures states[n + 1].accounts[a].mode == Monitor && states[n].accounts[a].monitorAfter && !states[n + 1].accounts[a].monitorAfter
    ensures states[n].accounts[a].status == states[n + 1].accounts[a].status == Completed
    ensures states[n + 1].monitorRunning
  {
    ModeStep(states[n], steps[n], a);
  }

  lemma ModeStep(s: State, step: Step, a: int)
    requires Enabled(s, step)
    requires a in s.accounts && a in Next(s, step).accounts && Next(s, step).accounts[a].mode != s.accounts[a].mode
    ensures TransitionFires(Row(s.accounts, a)) && Next(s, step).accounts[a] == Monitored(s.accounts[a])
    ensures Next(s, step).monitorRunning
  {
    match step
    case Reacts(act) =>
      assert act == ReplayTransition(a);
    case Advances(w, m) =>
      ModeMove(s.workers[w], Seen(s, s.workers[w]), m);
  }

  lemma ModeMove(k: Worker, view: View, m: Move)
    requires MoveEnabled(k, view.row, m)
    ensures var e := Execute(k, view, m);
      e.row.Some? && view.row.Some? && e.row.value.mode != view.row.value.mode ==>
        TransitionFires(view.row) && e.row.value == Monitored(view.row.value) && e.activates
  {
  }
}
