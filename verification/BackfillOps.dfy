/**
 The operations around a run, as the programs they are: queue and cancel read the row and later write it
 whatever it has become; the collector and the startup passes use conditional writes. Each is proved to be
 an actor of the protocol, with anybody else moving at its awaits.
 */
module BackfillOps {
  import opened Prelude
  import opened BackfillProtocol
  import opened BackfillRun

  /** The operation a statement belongs to. */
  predicate Touches(step: Step, mine: set<int>) {
    step.Reacts? && match step.act
      case QueueRead(o, _) => o in mine
      case QueueWrite(o) => o in mine
      case CancelRead(o, _) => o in mine
      case CancelWrite(o) => o in mine
      case CollectRead(o, _) => o in mine
      case CollectFlip(o, _) => o in mine
      case CollectAcquire(o) => o in mine
      case CollectRelease(o) => o in mine
      case _ => false
  }

  ghost predicate SameOps(mine: set<int>, s: State, t: State) {
    forall o :: o in mine ==> (o in s.ops <==> o in t.ops) && (o in s.ops ==> t.ops[o] == s.ops[o])
  }

  /** No statement adds or drops an account row; only its own statements move an operation. */
  lemma OthersLeaveOpsAlone(s: State, step: Step, mine: set<int>)
    requires Enabled(s, step) && !Touches(step, mine)
    ensures Next(s, step).accounts.Keys == s.accounts.Keys && SameOps(mine, s, Next(s, step))
  {
    match step
    case Reacts(act) =>
    case Advances(w, m) =>
      RunsWriteExistingRows(s.workers[w], Seen(s, s.workers[w]), m);
  }

  lemma RunsWriteExistingRows(k: Worker, view: View, m: Move)
    requires MoveEnabled(k, view.row, m)
    ensures Execute(k, view, m).row.Some? ==> view.row.Some?
  {
  }

  /** One step of anybody who does not own these operations. */
  method OtherStep(db: Database, mine: set<int>, step: Step)
    requires db.Valid() && !Touches(step, mine)
    modifies db
    ensures db.Valid() && db.accounts.Keys == old(db.accounts.Keys) && SameOps(mine, old(db.Now()), db.Now())
    ensures Extends(old(db.history), db.history)
  {
    if Enabled(db.Now(), step) {
      OthersLeaveOpsAlone(db.Now(), step, mine);
      Adopt(db, step, Next(db.Now(), step));
    }
  }

  /** The columns and the history move together. */
  method Adopt(db: Database, step: Step, next: State)
    requires db.Valid() && Enabled(db.Now(), step) && next == Next(db.Now(), step)
    modifies db
    ensures db.Valid() && db.Now() == next && Extends(old(db.history), db.history)
  {
    db.accounts, db.slot, db.videos := next.accounts, next.slot, next.videos;
    db.downloadsPaused, db.monitorRunning := next.downloadsPaused, next.monitorRunning;
    db.Record(step);
  }

  /** An await: others take any number of steps. */
  method Yield(db: Database, mine: set<int>)
    requires db.Valid()
    modifies db
    ensures db.Valid() && db.accounts.Keys == old(db.accounts.Keys) && SameOps(mine, old(db.Now()), db.Now())
    ensures Extends(old(db.history), db.history)
  {
    var n: nat :| n >= 0;
    while n > 0
      invariant db.Valid() && db.accounts.Keys == old(db.accounts.Keys) && SameOps(mine, old(db.Now()), db.Now())
      invariant Extends(old(db.history), db.history)
    {
      var step: Step := *;
      if !Touches(step, mine) {
        ghost var before := db.history;
        OtherStep(db, mine, step);
        ExtendsTransitive(old(db.history), before, db.history);
      }
      n := n - 1;
    }
  }

  datatype Answer = Becomes(status: Status) | Refused(status: Status) | UnknownAccount

  /** After its read, the write is unconditional: the row ends 'queued' whatever happened in between. */
  method QueueBackfill(db: Database, o: int, a: int) returns (answer: Answer)
    requires db.Valid() && o !in db.Now().ops
    modifies db
    ensures db.Valid()
    ensures answer == if a !in old(db.accounts) then UnknownAccount
                      else if old(db.accounts)[a].status == Backfilling then Refused(Backfilling) else Becomes(Queued)
    ensures answer != Becomes(Queued) || old(db.accounts)[a].status == Queued ==> db.accounts == old(db.accounts)
    ensures answer == Becomes(Queued) ==> a in db.accounts && db.accounts[a].status == Queued
    ensures answer == Becomes(Queued) && old(db.accounts)[a].status != Queued ==> db.accounts[a].reason == None
  {
    if a !in db.accounts {
      return UnknownAccount;
    }
    var status := db.accounts[a].status;
    db.Record(Reacts(QueueRead(o, a)));
    if status == Queued {
      return Becomes(Queued);
    }
    if status == Backfilling {
      return Refused(status);
    }
    Yield(db, {o});
    db.accounts := db.accounts[a := db.accounts[a].(status := Queued, reason := None)];
    db.Record(Reacts(QueueWrite(o)));
    return Becomes(Queued);
  }

  /** Refused only on the terminal states it reads; otherwise the row ends 'cancelled', whatever happened in between. */
  method CancelBackfill(db: Database, o: int, a: int) returns (answer: Answer)
    requires db.Valid() && o !in db.Now().ops
    modifies db
    ensures db.Valid()
    ensures answer == if a !in old(db.accounts) then UnknownAccount
                      else if old(db.accounts)[a].status in {Completed, Failed} then Refused(old(db.accounts)[a].status)
                      else Becomes(Cancelled)
    ensures answer != Becomes(Cancelled) ==> db.accounts == old(db.accounts)
    ensures answer == Becomes(Cancelled) ==> a in db.accounts && db.accounts[a].status == Cancelled && db.accounts[a].reason == None
  {
    if a !in db.accounts {
      return UnknownAccount;
    }
    var status := db.accounts[a].status;
    db.Record(Reacts(CancelRead(o, a)));
    if status == Completed || status == Failed {
      return Refused(status);
    }
    Yield(db, {o});
    db.accounts := db.accounts[a := db.accounts[a].(status := Cancelled, reason := None)];
    db.Record(Reacts(CancelWrite(o)));
    return Becomes(Cancelled);
  }

  // ---------------------------------------------------------------- the collector

  /** A queued row passes as it is; a paused one passes if its write lands in state `flip`. */
  predicate Passes(op: Op, online: bool, flip: State)
    requires op.Collecting?
  {
    op.read.status != Paused || Flips(flip, op, online)
  }

  /** A selected row is reported exactly when it passes and then finds the slot free. */
  predicate Reports(op: Op, online: bool, flip: State, probe: State)
    requires op.Collecting?
  {
    Passes(op, online, flip) && probe.slot.None?
  }

  /** Between `h` and `later` the operation took its conditional write in `flip` and, if that passed, its slot probe in `probe`. */
  ghost predicate Decided(h: History, later: History, o: int, op: Op, online: bool, flip: State, probe: State)
    requires op.Collecting?
  {
    && Took(h, later, flip, Reacts(CollectFlip(o, online))) && o in flip.ops && flip.ops[o] == op
    && (Passes(op, online, flip) ==> Took(h, later, probe, Reacts(CollectAcquire(o))))
  }

  lemma DecidedStays(h: History, later: History, latest: History, o: int, op: Op, online: bool, flip: State, probe: State)
    requires op.Collecting? && Extends(h, later) && Decided(h, later, o, op, online, flip, probe) && Extends(later, latest)
    ensures Decided(h, latest, o, op, online, flip, probe)
  {
    TookStays(h, later, latest, flip, Reacts(CollectFlip(o, online)));
    if Passes(op, online, flip) {
      TookStays(h, later, latest, probe, Reacts(CollectAcquire(o)));
    }
  }

  /** paused -> queued, guarded by the row still being paused; a queued row passes as it is. */
  method Flip(db: Database, o: int, a: int, online: bool) returns (ready: bool)
    requires db.Valid() && o in db.Now().ops && db.Now().ops[o].Collecting? && db.Now().ops[o].account == a
    modifies db
    ensures db.Valid() && db.accounts.Keys == old(db.accounts.Keys)
    ensures db.history == Then(old(db.history), Reacts(CollectFlip(o, online)), db.Now())
    ensures db.Now() == Next(old(db.Now()), Reacts(CollectFlip(o, online)))
    ensures ready <==> Passes(old(db.Now()).ops[o], online, old(db.Now()))
  {
    FlipMeans(db.Now(), o, online);
    var op := db.Now().ops[o];
    ready := op.read.status != Paused;
    if op.read.status == Paused && Resumes(op, online) {
      ready := a in db.accounts && db.accounts[a].status == Paused;
      if ready {
        db.accounts := db.accounts[a := db.accounts[a].(status := Queued, reason := None)];
      }
    }
    db.Record(Reacts(CollectFlip(o, online)));
  }

  lemma FlipMeans(s: State, o: int, online: bool)
    requires o in s.ops && s.ops[o].Collecting?
    ensures var op, t := s.ops[o], Next(s, Reacts(CollectFlip(o, online)));
      && t == s.(accounts := t.accounts, ops := t.ops)
      && (op.read.status == Paused && Flips(s, op, online) ==>
            t.accounts == s.accounts[op.account := Requeued(s.accounts[op.account])])
      && (op.read.status != Paused ==> t.accounts == s.accounts)
      && (op.read.status == Paused && !Flips(s, op, online) ==> t.accounts == s.accounts)
      && t.ops == (if Passes(op, online, s) then s.ops[o := ProbingSlot] else s.ops - {o})
  {
  }

  /** One selected row: flip it if it was paused and its cause is gone, then probe the slot. */
  method CollectRow(db: Database, o: int, a: int, mine: set<int>, online: bool)
    returns (collected: bool, ghost flip: State, ghost probe: State)
    requires db.Valid() && o in mine && o in db.Now().ops && db.Now().ops[o].Collecting? && db.Now().ops[o].account == a
    modifies db
    ensures db.Valid() && SameOps(mine - {o}, old(db.Now()), db.Now()) && Extends(old(db.history), db.history)
    ensures Decided(old(db.history), db.history, o, old(db.Now()).ops[o], online, flip, probe)
    ensures collected <==> Reports(old(db.Now()).ops[o], online, flip, probe)
  {
    ghost var op := db.Now().ops[o];
    Yield(db, mine);
    flip, probe := db.Now(), db.Now();
    ghost var before := db.history;
    FlipMeans(db.Now(), o, online);
    collected := Flip(db, o, a, online);
    TookNow(old(db.history), before, db.history);
    ghost var flipped := db.history;
    if collected {
      collected, probe := ProbeSlot(db, o, mine);
      ProbeFollows(old(db.history), flipped, db.history, o, probe);
      TookStays(old(db.history), flipped, db.history, flip, Reacts(CollectFlip(o, online)));
      ExtendsTransitive(old(db.history), flipped, db.history);
    }
  }

  lemma ProbeFollows(h: History, flipped: History, later: History, o: int, probe: State)
    requires Extends(h, flipped) && Extends(flipped, later) && Took(flipped, later, probe, Reacts(CollectAcquire(o)))
    ensures Took(h, later, probe, Reacts(CollectAcquire(o)))
  {
    TookSinceEarlier(h, flipped, later, probe, Reacts(CollectAcquire(o)));
  }

  method ProbeSlot(db: Database, o: int, mine: set<int>) returns (won: bool, ghost probe: State)
    requires db.Valid() && o in mine && o in db.Now().ops && db.Now().ops[o] == ProbingSlot
    modifies db
    ensures db.Valid() && SameOps(mine - {o}, old(db.Now()), db.Now()) && Extends(old(db.history), db.history)
    ensures Took(old(db.history), db.history, probe, Reacts(CollectAcquire(o)))
    ensures won <==> probe.slot.None?
  {
    Yield(db, mine);
    probe := db.Now();
    ghost var before := db.history;
    won := db.AcquireBackfillSlot(Collector);
    db.Record(Reacts(CollectAcquire(o)));
    TookNow(old(db.history), before, db.history);
    if won {
      ghost var probed := db.history;
      Yield(db, mine);
      db.ReleaseBackfillSlot(Collector);
      db.Record(Reacts(CollectRelease(o)));
      TookStays(old(db.history), probed, db.history, probe, Reacts(CollectAcquire(o)));
      ExtendsTransitive(old(db.history), probed, db.history);
    }
  }

  /** The answer of the collector's SELECT: the queued and paused rows, ordered by id. */
  ghost predicate Selected(accounts: map<int, Account>, ids: seq<int>) {
    && (forall i, j :: 0 <= i < j < |ids| ==> ids[i] < ids[j])
    && (forall a :: a in ids <==> a in accounts && (accounts[a].status == Queued || accounts[a].status == Paused))
  }

  /** A fresh operation id for each selected row. */
  ghost predicate FreshOps(s: State, ids: seq<int>, ops: seq<int>) {
    && |ids| == |ops|
    && (forall i :: 0 <= i < |ops| ==> ops[i] !in s.ops)
    && (forall i, j :: 0 <= i < j < |ops| ==> ops[i] != ops[j])
  }

  /** The operation as its read left it. */
  function ReadOf(a: int, rows: map<int, Account>, paused: bool): Op
    requires a in rows
  {
    Collecting(a, rows[a], !paused)
  }

  ghost predicate Reading(s: State, o: int, a: int, rows: map<int, Account>, paused: bool) {
    a in rows && o in s.ops && s.ops[o] == ReadOf(a, rows, paused)
  }

  /** One session reads every candidate row. */
  method ReadCandidates(db: Database, ids: seq<int>, ops: seq<int>)
    requires db.Valid() && Selected(db.accounts, ids) && FreshOps(db.Now(), ids, ops)
    modifies db
    ensures db.Valid() && Extends(old(db.history), db.history)
    ensures forall i :: 0 <= i < |ids| ==> Reading(db.Now(), ops[i], ids[i], old(db.accounts), old(db.downloadsPaused))
  {
    for i := 0 to |ids|
      invariant db.Valid() && db.accounts == old(db.accounts) && db.downloadsPaused == old(db.downloadsPaused)
      invariant Extends(old(db.history), db.history)
      invariant forall j :: i <= j < |ids| ==> ops[j] !in db.Now().ops
      invariant forall j :: 0 <= j < i ==> Reading(db.Now(), ops[j], ids[j], old(db.accounts), old(db.downloadsPaused))
    {
      assert ids[i] in ids;
      db.Record(Reacts(CollectRead(ops[i], ids[i])));
    }
  }

  /** The ids whose rows are reported, in order. */
  function Reported(ids: seq<int>, rows: map<int, Account>, paused: bool, online: int -> bool,
                    flips: seq<State>, probes: seq<State>): seq<int>
    requires |flips| == |probes| <= |ids| && forall i :: 0 <= i < |ids| ==> ids[i] in rows
  {
    if flips == [] then [] else
    var n := |flips| - 1;
    Reported(ids, rows, paused, online, flips[..n], probes[..n])
      + if Reports(ReadOf(ids[n], rows, paused), online(ids[n]), flips[n], probes[n]) then [ids[n]] else []
  }

  /** Every candidate so far was decided in the states recorded for it. */
  ghost predicate AllDecided(h: History, later: History, ids: seq<int>, ops: seq<int>, rows: map<int, Account>, paused: bool,
                             online: int -> bool, flips: seq<State>, probes: seq<State>)
    requires |flips| == |probes| <= |ids| == |ops| && forall i :: 0 <= i < |ids| ==> ids[i] in rows
  {
    forall i :: 0 <= i < |flips| ==> Decided(h, later, ops[i], ReadOf(ids[i], rows, paused), online(ids[i]), flips[i], probes[i])
  }

  lemma OneMoreDecided(h: History, later: History, latest: History, ids: seq<int>, ops: seq<int>, rows: map<int, Account>, paused: bool,
                       online: int -> bool, flips: seq<State>, probes: seq<State>, flip: State, probe: State)
    requires |flips| == |probes| < |ids| == |ops| && forall i :: 0 <= i < |ids| ==> ids[i] in rows
    requires Extends(h, later) && Extends(later, latest)
    requires AllDecided(h, later, ids, ops, rows, paused, online, flips, probes)
    requires var n := |flips|; Decided(later, latest, ops[n], ReadOf(ids[n], rows, paused), online(ids[n]), flip, probe)
    ensures AllDecided(h, latest, ids, ops, rows, paused, online, flips + [flip], probes + [probe])
    ensures var n := |flips|;
      Reported(ids, rows, paused, online, flips + [flip], probes + [probe])
      == Reported(ids, rows, paused, online, flips, probes)
        + if Reports(ReadOf(ids[n], rows, paused), online(ids[n]), flip, probe) then [ids[n]] else []
  {
    var n := |flips|;
    assert (flips + [flip])[..n] == flips && (probes + [probe])[..n] == probes;
    DecidedSinceEarlier(h, later, latest, ops[n], ReadOf(ids[n], rows, paused), online(ids[n]), flip, probe);
    forall i | 0 <= i < n
      ensures Decided(h, latest, ops[i], ReadOf(ids[i], rows, paused), online(ids[i]), flips[i], probes[i])
    {
      DecidedStays(h, later, latest, ops[i], ReadOf(ids[i], rows, paused), online(ids[i]), flips[i], probes[i]);
    }
  }

  lemma DecidedSinceEarlier(h: History, later: History, latest: History, o: int, op: Op, online: bool, flip: State, probe: State)
    requires op.Collecting? && Extends(h, later) && Extends(later, latest) && Decided(later, latest, o, op, online, flip, probe)
    ensures Decided(h, latest, o, op, online, flip, probe)
  {
    TookSinceEarlier(h, later, latest, flip, Reacts(CollectFlip(o, online)));
    if Passes(op, online, flip) {
      TookSinceEarlier(h, later, latest, probe, Reacts(CollectAcquire(o)));
    }
  }

  lemma {:induction false} TookSinceEarlier(h: History, later: History, latest: History, s: State, step: Step)
    requires Extends(h, later) && Extends(later, latest) && Took(later, latest, s, step)
    ensures Took(h, latest, s, step)
  {
    ExtendsTransitive(h, later, latest);
    ExtendsIsLonger(h, later);
    ExtendsIsLonger(later, latest);
    if !(latest.past.now == s && latest.step == step) {
      TookSinceEarlier(h, later, latest.past, s, step);
    }
  }

  /** The candidates from the `i`-th on are still as they were read. */
  ghost predicate StillRead(s: State, ids: seq<int>, ops: seq<int>, i: nat, rows: map<int, Account>, paused: bool)
    requires |ids| == |ops|
  {
    forall j :: i <= j < |ids| ==> Reading(s, ops[j], ids[j], rows, paused)
  }

  lemma LaterStillRead(s: State, t: State, ids: seq<int>, ops: seq<int>, i: nat, mine: set<int>, rows: map<int, Account>, paused: bool)
    requires |ids| == |ops| && i < |ids| && (forall j :: 0 <= j < |ops| ==> ops[j] in mine)
    requires forall j, k :: 0 <= j < k < |ops| ==> ops[j] != ops[k]
    requires StillRead(s, ids, ops, i, rows, paused) && SameOps(mine - {ops[i]}, s, t)
    ensures StillRead(t, ids, ops, i + 1, rows, paused)
  {
  }

  /** The collector's loop after some candidates: they are decided and reported so far, the others still as read. */
  ghost predicate SoFar(h: History, later: History, ids: seq<int>, ops: seq<int>, rows: map<int, Account>, paused: bool,
                        online: int -> bool, flips: seq<State>, probes: seq<State>, collected: seq<int>)
    requires |flips| == |probes| <= |ids| == |ops| && forall i :: 0 <= i < |ids| ==> ids[i] in rows
  {
    && Extends(h, later) && StillRead(later.now, ids, ops, |flips|, rows, paused)
    && AllDecided(h, later, ids, ops, rows, paused, online, flips, probes)
    && collected == Reported(ids, rows, paused, online, flips, probes)
  }

  method CollectNext(db: Database, ids: seq<int>, ops: seq<int>, i: nat, mine: set<int>, online: int -> bool, reported: seq<int>,
                     ghost h: History, ghost rows: map<int, Account>, ghost paused: bool, ghost flips: seq<State>, ghost probes: seq<State>)
    returns (collected: seq<int>, ghost flip: State, ghost probe: State)
    requires db.Valid() && |flips| == |probes| == i < |ids| == |ops| && forall j :: 0 <= j < |ids| ==> ids[j] in rows
    requires (forall j :: 0 <= j < |ops| ==> ops[j] in mine) && forall j, k :: 0 <= j < k < |ops| ==> ops[j] != ops[k]
    requires SoFar(h, db.history, ids, ops, rows, paused, online, flips, probes, reported)
    modifies db
    ensures db.Valid() && SoFar(h, db.history, ids, ops, rows, paused, online, flips + [flip], probes + [probe], collected)
  {
    ghost var before := db.history;
    assert Reading(before.now, ops[i], ids[i], rows, paused);
    var hit;
    hit, flip, probe := CollectRow(db, ops[i], ids[i], mine, online(ids[i]));
    LaterStillRead(before.now, db.Now(), ids, ops, i, mine, rows, paused);
    OneMoreDecided(h, before, db.history, ids, ops, rows, paused, online, flips, probes, flip, probe);
    ExtendsTransitive(h, before, db.history);
    collected := if hit then reported + [ids[i]] else reported;
  }

  // ---------------------------------------------------------------- the collector's answer, on the columns

  /** The cause of a pause, as the collector read it, is gone; a review never goes by itself. */
  predicate CauseGone(row: Account, diskPaused: bool, online: bool) {
    match row.reason
    case Some(Disk) => !row.needsReview && !diskPaused
    case Some(Network) => !row.needsReview && online
    case None => !row.needsReview
  }

  /** A row read as paused goes back to the queue if its cause was gone and it is still paused; any other stays. */
  function Resumed(a: int, row: Account, diskPaused: bool, online: bool, now: map<int, Account>): map<int, Account> {
    if row.status == Paused && CauseGone(row, diskPaused, online) && a in now && now[a].status == Paused
    then now[a := now[a].(status := Queued, reason := None)] else now
  }

  /** Collected: read as queued, or resumed; and the slot was free at the probe. */
  predicate Collected(a: int, row: Account, diskPaused: bool, online: bool, flip: State, probe: State) {
    && probe.slot.None?
    && (row.status == Paused ==> CauseGone(row, diskPaused, online) && a in flip.accounts && flip.accounts[a].status == Paused)
  }

  /** One candidate, on the columns as it was read and as its two statements found them. */
  lemma CandidateOnColumns(a: int, rows: map<int, Account>, paused: bool, online: bool, o: int, flip: State, probe: State)
    requires a in rows && o in flip.ops && flip.ops[o] == ReadOf(a, rows, paused)
    ensures Reports(ReadOf(a, rows, paused), online, flip, probe) <==> Collected(a, rows[a], paused, online, flip, probe)
    ensures Next(flip, Reacts(CollectFlip(o, online))).accounts == Resumed(a, rows[a], paused, online, flip.accounts)
  {
    FlipMeans(flip, o, online);
    ResumesOnColumns(ReadOf(a, rows, paused), rows[a], paused, online);
  }

  lemma ResumesOnColumns(op: Op, row: Account, paused: bool, online: bool)
    requires op.Collecting? && op.read == row && op.diskResolved == !paused
    ensures Resumes(op, online) <==> CauseGone(row, paused, online)
  {
  }

  lemma {:induction false} ReportedAre(ids: seq<int>, rows: map<int, Account>, paused: bool, online: int -> bool,
                                       flips: seq<State>, probes: seq<State>)
    requires |flips| == |probes| <= |ids| && forall i :: 0 <= i < |ids| ==> ids[i] in rows
    requires forall i, j :: 0 <= i < j < |ids| ==> ids[i] < ids[j]
    ensures var r := Reported(ids, rows, paused, online, flips, probes);
      && (forall i, j :: 0 <= i < j < |r| ==> r[i] < r[j])
      && (forall a :: a in r ==> exists i :: 0 <= i < |flips| && a == ids[i])
      && (forall i :: 0 <= i < |flips| ==>
            (ids[i] in r <==> Reports(ReadOf(ids[i], rows, paused), online(ids[i]), flips[i], probes[i])))
  {
    if flips != [] {
      var n := |flips| - 1;
      var past := Reported(ids, rows, paused, online, flips[..n], probes[..n]);
      var hit := Reports(ReadOf(ids[n], rows, paused), online(ids[n]), flips[n], probes[n]);
      ReportedAre(ids, rows, paused, online, flips[..n], probes[..n]);
      OneMoreReported(ids, past, n, hit);
      forall i | 0 <= i < n
        ensures ids[i] in past <==> Reports(ReadOf(ids[i], rows, paused), online(ids[i]), flips[i], probes[i])
      {
        assert flips[..n][i] == flips[i] && probes[..n][i] == probes[i];
      }
    }
  }

  lemma OneMoreReported(ids: seq<int>, past: seq<int>, n: nat, hit: bool)
    requires n < |ids| && forall i, j :: 0 <= i < j < |ids| ==> ids[i] < ids[j]
    requires forall i, j :: 0 <= i < j < |past| ==> past[i] < past[j]
    requires forall a :: a in past ==> exists i :: 0 <= i < n && a == ids[i]
    ensures var r := past + if hit then [ids[n]] else [];
      && (forall i, j :: 0 <= i < j < |r| ==> r[i] < r[j])
      && (forall a :: a in r ==> exists i :: 0 <= i < n + 1 && a == ids[i])
      && (forall i :: 0 <= i < n ==> (ids[i] in r <==> ids[i] in past))
      && (ids[n] in r <==> hit)
  {
    var r := past + if hit then [ids[n]] else [];
    forall i, j | 0 <= i < j < |r|
      ensures r[i] < r[j]
    {
      assert past[i] in past;
    }
    forall a | a in r
      ensures exists i :: 0 <= i < n + 1 && a == ids[i]
    {
      assert a in past || a == ids[n];
    }
  }

  /** Every candidate is written and reported as its columns say. */
  ghost predicate DecidedOnColumns(ids: seq<int>, ops: seq<int>, rows: map<int, Account>, paused: bool, online: int -> bool,
                                   flips: seq<State>, probes: seq<State>, collected: seq<int>)
    requires |flips| == |probes| == |ids| == |ops| && forall i :: 0 <= i < |ids| ==> ids[i] in rows
  {
    forall i :: 0 <= i < |ids| ==>
      && Enabled(flips[i], Reacts(CollectFlip(ops[i], online(ids[i]))))
      && Next(flips[i], Reacts(CollectFlip(ops[i], online(ids[i])))).accounts
        == Resumed(ids[i], rows[ids[i]], paused, online(ids[i]), flips[i].accounts)
      && (ids[i] in collected <==> Collected(ids[i], rows[ids[i]], paused, online(ids[i]), flips[i], probes[i]))
  }

  lemma AnswerOnColumns(h: History, later: History, ids: seq<int>, ops: seq<int>, rows: map<int, Account>, paused: bool,
                        online: int -> bool, flips: seq<State>, probes: seq<State>)
    requires |flips| == |probes| == |ids| == |ops| && forall i :: 0 <= i < |ids| ==> ids[i] in rows
    requires forall i, j :: 0 <= i < j < |ids| ==> ids[i] < ids[j]
    requires AllDecided(h, later, ids, ops, rows, paused, online, flips, probes)
    ensures DecidedOnColumns(ids, ops, rows, paused, online, flips, probes, Reported(ids, rows, paused, online, flips, probes))
  {
    ReportedAre(ids, rows, paused, online, flips, probes);
    forall i | 0 <= i < |ids|
      ensures Reports(ReadOf(ids[i], rows, paused), online(ids[i]), flips[i], probes[i])
        <==> Collected(ids[i], rows[ids[i]], paused, online(ids[i]), flips[i], probes[i])
      ensures Enabled(flips[i], Reacts(CollectFlip(ops[i], online(ids[i]))))
      ensures Next(flips[i], Reacts(CollectFlip(ops[i], online(ids[i])))).accounts
        == Resumed(ids[i], rows[ids[i]], paused, online(ids[i]), flips[i].accounts)
    {
      assert Decided(h, later, ops[i], ReadOf(ids[i], rows, paused), online(ids[i]), flips[i], probes[i]);
      CandidateOnColumns(ids[i], rows, paused, online(ids[i]), ops[i], flips[i], probes[i]);
    }
  }

  /**
   Reports, in order of id, exactly the candidates that were read as queued, or as paused for a cause now gone and
   found still paused by their write, and that then find the slot free; of the latter each becomes queued.
   */
  method CollectQueuedBackfills(db: Database, ids: seq<int>, ops: seq<int>, online: int -> bool)
    returns (collected: seq<int>, ghost flips: seq<State>, ghost probes: seq<State>)
    requires db.Valid() && Selected(db.accounts, ids) && FreshOps(db.Now(), ids, ops)
    modifies db
    ensures db.Valid() && |flips| == |probes| == |ids| && forall i :: 0 <= i < |ids| ==> ids[i] in old(db.accounts)
    ensures AllDecided(old(db.history), db.history, ids, ops, old(db.accounts), old(db.downloadsPaused), online, flips, probes)
    ensures (forall i, j :: 0 <= i < j < |collected| ==> collected[i] < collected[j]) && forall a :: a in collected ==> a in ids
    ensures DecidedOnColumns(ids, ops, old(db.accounts), old(db.downloadsPaused), online, flips, probes, collected)
  {
    ghost var rows, paused := db.accounts, db.downloadsPaused;
    assert forall i :: 0 <= i < |ids| ==> ids[i] in ids;
    ReadCandidates(db, ids, ops);
    collected, flips, probes := CollectAll(db, ids, ops, online, old(db.history), rows, paused);
    ReportedAre(ids, rows, paused, online, flips, probes);
    AnswerOnColumns(old(db.history), db.history, ids, ops, rows, paused, online, flips, probes);
  }

  /** The loop over the candidates that were read. */
  method CollectAll(db: Database, ids: seq<int>, ops: seq<int>, online: int -> bool,
                    ghost h: History, ghost rows: map<int, Account>, ghost paused: bool)
    returns (collected: seq<int>, ghost flips: seq<State>, ghost probes: seq<State>)
    requires db.Valid() && Extends(h, db.history) && |ids| == |ops| && forall j :: 0 <= j < |ids| ==> ids[j] in rows
    requires forall j, k :: 0 <= j < k < |ops| ==> ops[j] != ops[k]
    requires forall j :: 0 <= j < |ids| ==> Reading(db.Now(), ops[j], ids[j], rows, paused)
    modifies db
    ensures db.Valid() && |flips| == |probes| == |ids|
    ensures AllDecided(h, db.history, ids, ops, rows, paused, online, flips, probes)
    ensures collected == Reported(ids, rows, paused, online, flips, probes)
  {
    collected, flips, probes := [], [], [];
    var mine := set o | o in ops;
    for i := 0 to |ids|
      invariant db.Valid() && |flips| == |probes| == i
      invariant SoFar(h, db.history, ids, ops, rows, paused, online, flips, probes, collected)
    {
      ghost var flip, probe;
      collected, flip, probe := CollectNext(db, ids, ops, i, mine, online, collected, h, rows, paused, flips, probes);
      flips, probes := flips + [flip], probes + [probe];
    }
  }

  // ---------------------------------------------------------------- startup

  /**
   Every row in 'backfilling' goes back to the queue, whoever left it there: the statement cannot tell a dead
   run's row from a live one's in another process. No other row is touched, paused ones least of all.
   */
  method ReconcileStaleBackfills(db: Database) returns (count: nat)
    requires db.Valid()
    modifies db
    ensures db.Valid() && db.accounts.Keys == old(db.accounts.Keys)
    ensures forall a :: a in db.accounts ==> var row := old(db.accounts)[a];
      db.accounts[a] == (if row.status == Backfilling then row.(status := Queued) else row)
    ensures count == |set a | a in old(db.accounts) && old(db.accounts)[a].status == Backfilling|
  {
    var rows := db.accounts;
    var stale := set a | a in rows && rows[a].status == Backfilling;
    db.accounts := map a | a in rows :: if a in stale then rows[a].(status := Queued) else rows[a];
    db.Record(Reacts(BackfillProtocol.ReconcileStale));
    count := |stale|;
  }

  /** How many of the replays found their transition still due. */
  function Due(ids: seq<int>, seen: seq<State>): nat
    requires |seen| <= |ids|
  {
    if seen == [] then 0 else
    var n := |seen| - 1;
    Due(ids, seen[..n]) + if TransitionFires(Row(seen[n].accounts, ids[n])) then 1 else 0
  }

  ghost predicate Replayed(h: History, later: History, ids: seq<int>, seen: seq<State>)
    requires |seen| <= |ids|
  {
    forall i :: 0 <= i < |seen| ==> Took(h, later, seen[i], Reacts(ReplayTransition(ids[i])))
  }

  lemma OneMoreReplayed(h: History, later: History, latest: History, ids: seq<int>, seen: seq<State>, s: State)
    requires |seen| < |ids| && Extends(h, later) && Extends(later, latest) && Replayed(h, later, ids, seen)
    requires Took(later, latest, s, Reacts(ReplayTransition(ids[|seen|])))
    ensures Replayed(h, latest, ids, seen + [s])
  {
    TookSinceEarlier(h, later, latest, s, Reacts(ReplayTransition(ids[|seen|])));
    forall i | 0 <= i < |seen|
      ensures Took(h, latest, seen[i], Reacts(ReplayTransition(ids[i])))
    {
      TookStays(h, later, latest, seen[i], Reacts(ReplayTransition(ids[i])));
    }
  }

  lemma OneMoreDue(ids: seq<int>, seen: seq<State>, s: State)
    requires |seen| < |ids|
    ensures Due(ids, seen + [s]) == Due(ids, seen) + if TransitionFires(Row(s.accounts, ids[|seen|])) then 1 else 0
  {
    assert (seen + [s])[..|seen|] == seen;
  }

  /** The replays up to now and the count of those that fired. */
  ghost predicate Counted(h: History, later: History, ids: seq<int>, seen: seq<State>, fired: nat)
    requires |seen| <= |ids|
  {
    Extends(h, later) && Replayed(h, later, ids, seen) && fired == Due(ids, seen)
  }

  lemma OneMoreCounted(h: History, later: History, latest: History, ids: seq<int>, seen: seq<State>, fired: nat, s: State)
    requires |seen| < |ids| && Extends(later, latest) && Counted(h, later, ids, seen, fired)
    requires Took(later, latest, s, Reacts(ReplayTransition(ids[|seen|])))
    ensures Counted(h, latest, ids, seen + [s], fired + if TransitionFires(Row(s.accounts, ids[|seen|])) then 1 else 0)
  {
    OneMoreReplayed(h, later, latest, ids, seen, s);
    OneMoreDue(ids, seen, s);
    ExtendsTransitive(h, later, latest);
  }

  /** One replay, if it is still due when its turn comes. */
  method ReplayOne(db: Database, a: int) returns (fired: bool, ghost seen: State)
    requires db.Valid()
    modifies db
    ensures db.Valid() && Extends(old(db.history), db.history)
    ensures Took(old(db.history), db.history, seen, Reacts(ReplayTransition(a)))
    ensures fired <==> TransitionFires(Row(seen.accounts, a))
  {
    Yield(db, {});
    seen := db.Now();
    ghost var before := db.history;
    fired := a in db.accounts && db.accounts[a].mode == History && db.accounts[a].monitorAfter && db.accounts[a].status == Completed;
    if fired {
      db.accounts := db.accounts[a := db.accounts[a].(mode := Monitor, monitorAfter := false)];
      db.monitorRunning := true;
    }
    db.Record(Reacts(ReplayTransition(a)));
    TookNow(old(db.history), before, db.history);
  }

  /** Replays the transitions that a crash kept from following their completion; counts those still due at their turn. */
  method ReconcilePendingMonitorTransitions(db: Database, ids: seq<int>) returns (fired: nat, ghost seen: seq<State>)
    requires db.Valid() && forall i :: 0 <= i < |ids| ==> TransitionFires(Row(db.accounts, ids[i]))
    modifies db
    ensures db.Valid() && |seen| == |ids| && Replayed(old(db.history), db.history, ids, seen)
    ensures fired == Due(ids, seen)
  {
    fired, seen := 0, [];
    for i := 0 to |ids|
      invariant db.Valid() && |seen| == i && Counted(old(db.history), db.history, ids, seen, fired)
    {
      ghost var before := db.history;
      var hit, state := ReplayOne(db, ids[i]);
      OneMoreCounted(old(db.history), before, db.history, ids, seen, fired, state);
      seen := seen + [state];
      if hit {
        fired := fired + 1;
      }
    }
  }

  // ---------------------------------------------------------------- answers that are not the row

  /** Who meets in the behaviours below: run `w` and operation `o`, on account `a`. */
  datatype Cast = Cast(a: int, w: int, o: int)

  /** A run over an empty feed, with a cancel that reads early and writes late. */
  function Opened(c: Cast): seq<Step> {
    [Reacts(StartRun(c.w, c.a)), Advances(c.w, Acquire(true))]
  }

  function Gated(c: Cast): seq<Step> {
    [Advances(c.w, ReadGate)]
  }

  function Marked(c: Cast): seq<Step> {
    [Advances(c.w, MarkRow), Reacts(CancelRead(c.o, c.a))]
  }

  function Listed(c: Cast): seq<Step> {
    [Advances(c.w, ListFeed([])), Advances(c.w, PersistTotal)]
  }

  function Looped(c: Cast): seq<Step> {
    [Advances(c.w, TakeSnapshot), Advances(c.w, ReadStatus)]
  }

  /** The cancel lands between the completing write and the transition. */
  function Closed(c: Cast): seq<Step> {
    [Advances(c.w, FinalizeRow), Reacts(CancelWrite(c.o))]
  }

  function Fired(c: Cast): seq<Step> {
    [Advances(c.w, FireTransition)]
  }

  /** Another process starts up just before the completing write. */
  function Reconciled(c: Cast): seq<Step> {
    [Reacts(BackfillProtocol.ReconcileStale)]
  }

  function Lost(c: Cast): seq<Step> {
    [Advances(c.w, FinalizeRow)]
  }

  function Crashed(c: Cast): seq<Step> {
    [Advances(c.w, CrashTask)]
  }

  function Unwedged(c: Cast): seq<Step> {
    [Advances(c.w, RequeueRow)]
  }

  /** The task is cancelled between the completing write and the transition. */
  function Interrupted(c: Cast): seq<Step> {
    [Advances(c.w, FinalizeRow), Advances(c.w, CancelTask)]
  }

  function Explained(c: Cast, online: bool): seq<Step> {
    [Advances(c.w, FindCause(online)), Advances(c.w, UnwedgeRow)]
  }

  ghost predicate Follows(states: seq<State>, steps: seq<Step>) {
    && |states| == |steps| + 1
    && forall n :: 0 <= n < |steps| ==> Enabled(states[n], steps[n]) && states[n + 1] == Next(states[n], steps[n])
  }

  lemma FollowsAppend(first: seq<State>, last: seq<State>, a: seq<Step>, b: seq<Step>)
    requires Follows(first, a) && Follows(last, b) && last[0] == first[|first| - 1]
    ensures Follows(first + last[1..], a + b)
  {
    var states, steps := first + last[1..], a + b;
    forall i | 0 <= i < |steps|
      ensures Enabled(states[i], steps[i]) && states[i + 1] == Next(states[i], steps[i])
    {
      if i < |a| {
        assert states[i] == first[i] && states[i + 1] == first[i + 1] && steps[i] == a[i];
      } else {
        assert states[i] == last[i - |a|] && states[i + 1] == last[i - |a| + 1] && steps[i] == b[i - |a|];
      }
    }
  }

  ghost predicate RunAt(c: Cast, s: State, pc: Pc, status: Status) {
    && RowIs(Row(s.accounts, c.a), status)
    && c.w in s.workers && s.workers[c.w].account == c.a && s.workers[c.w].entries == [] && s.workers[c.w].pc == pc
  }

  lemma OpenedRuns(c: Cast, s0: State) returns (states: seq<State>)
    requires Init(s0) && RowIs(Row(s0.accounts, c.a), Queued)
    ensures Follows(states, Opened(c)) && states[0] == s0 && RunAt(c, states[2], Gate, Queued) && c.o !in states[2].ops
  {
    var s1 := Next(s0, Opened(c)[0]);
    states := [s0, s1, Next(s1, Opened(c)[1])];
  }

  lemma GatedRuns(c: Cast, s0: State) returns (states: seq<State>)
    requires RunAt(c, s0, Gate, Queued) && c.o !in s0.ops
    ensures Follows(states, Gated(c)) && states[0] == s0 && RunAt(c, states[1], Mark, Queued) && c.o !in states[1].ops
  {
    states := [s0, Next(s0, Gated(c)[0])];
  }

  ghost predicate CancelWaits(c: Cast, s: State) {
    c.o in s.ops && s.ops[c.o] == CancelPending(c.a)
  }

  lemma MarkedRuns(c: Cast, s0: State) returns (states: seq<State>)
    requires RunAt(c, s0, Mark, Queued) && c.o !in s0.ops
    ensures Follows(states, Marked(c)) && states[0] == s0 && RunAt(c, states[2], Listing, Backfilling) && CancelWaits(c, states[2])
  {
    var s1 := Next(s0, Marked(c)[0]);
    states := [s0, s1, Next(s1, Marked(c)[1])];
  }

  lemma ListedRuns(c: Cast, s0: State) returns (states: seq<State>)
    requires RunAt(c, s0, Listing, Backfilling) && CancelWaits(c, s0)
    ensures Follows(states, Listed(c)) && states[0] == s0 && RunAt(c, states[2], Snapshot, Backfilling) && CancelWaits(c, states[2])
  {
    var s1 := Next(s0, Listed(c)[0]);
    states := [s0, s1, Next(s1, Listed(c)[1])];
  }

  lemma LoopedRuns(c: Cast, s0: State) returns (states: seq<State>)
    requires RunAt(c, s0, Snapshot, Backfilling) && CancelWaits(c, s0)
    ensures Follows(states, Looped(c)) && states[0] == s0 && RunAt(c, states[2], Finalize, Backfilling) && CancelWaits(c, states[2])
  {
    var s1 := Next(s0, Looped(c)[0]);
    states := [s0, s1, Next(s1, Looped(c)[1])];
  }

  ghost predicate Answers(c: Cast, s: State, status: Status, row: Status) {
    && RowIs(Row(s.accounts, c.a), row)
    && c.w in s.workers && s.workers[c.w].account == c.a && s.workers[c.w].pc == Release(Returned(status))
  }

  lemma ClosedRuns(c: Cast, s0: State) returns (states: seq<State>)
    requires RunAt(c, s0, Finalize, Backfilling) && CancelWaits(c, s0)
    ensures Follows(states, Closed(c)) && states[0] == s0
    ensures RowIs(Row(states[1].accounts, c.a), Completed) && RunAt(c, states[2], Transition, Cancelled)
  {
    var s1 := Next(s0, Closed(c)[0]);
    states := [s0, s1, Next(s1, Closed(c)[1])];
  }

  lemma FiredRuns(c: Cast, s0: State) returns (states: seq<State>)
    requires RunAt(c, s0, Transition, Cancelled)
    ensures Follows(states, Fired(c)) && states[0] == s0 && Answers(c, states[1], Completed, Cancelled)
  {
    states := [s0, Next(s0, Fired(c)[0])];
  }

  lemma ReconciledRuns(c: Cast, s0: State) returns (states: seq<State>)
    requires RunAt(c, s0, Finalize, Backfilling)
    ensures Follows(states, Reconciled(c)) && states[0] == s0 && RunAt(c, states[1], Finalize, Queued)
  {
    states := [s0, Next(s0, Reconciled(c)[0])];
  }

  lemma LostRuns(c: Cast, s0: State) returns (states: seq<State>)
    requires RunAt(c, s0, Finalize, Queued)
    ensures Follows(states, Lost(c)) && states[0] == s0 && Answers(c, states[1], Cancelled, Queued)
    ensures CancelledEvent in states[1].workers[c.w].events
  {
    states := [s0, Next(s0, Lost(c)[0])];
  }

  lemma CrashedRuns(c: Cast, s0: State) returns (states: seq<State>)
    requires RunAt(c, s0, Finalize, Backfilling)
    ensures Follows(states, Crashed(c)) && states[0] == s0 && RunAt(c, states[1], Crashing, Backfilling)
  {
    states := [s0, Next(s0, Crashed(c)[0])];
  }

  lemma UnwedgedRuns(c: Cast, s0: State) returns (states: seq<State>)
    requires RunAt(c, s0, Crashing, Backfilling)
    ensures Follows(states, Unwedged(c)) && states[0] == s0 && Answers(c, states[1], BackfillProtocol.Failed, Queued)
  {
    states := [s0, Next(s0, Unwedged(c)[0])];
  }

  lemma CompletedRuns(c: Cast, s0: State) returns (s1: State)
    requires RunAt(c, s0, Finalize, Backfilling)
    ensures Enabled(s0, Advances(c.w, FinalizeRow)) && s1 == Next(s0, Advances(c.w, FinalizeRow))
    ensures RunAt(c, s1, Transition, Completed) && s1.downloadsPaused == s0.downloadsPaused
  {
    s1 := Next(s0, Advances(c.w, FinalizeRow));
  }

  lemma InterruptedRuns(c: Cast, s0: State) returns (states: seq<State>)
    requires RunAt(c, s0, Finalize, Backfilling)
    ensures Follows(states, Interrupted(c)) && states[0] == s0 && RunAt(c, states[2], Cancelling, Completed)
    ensures states[2].downloadsPaused == s0.downloadsPaused
  {
    var s1 := CompletedRuns(c, s0);
    states := [s0, s1, Next(s1, Interrupted(c)[1])];
  }

  lemma CauseIsFound(c: Cast, s0: State, online: bool) returns (s1: State)
    requires RunAt(c, s0, Cancelling, Completed)
    ensures Enabled(s0, Advances(c.w, FindCause(online))) && s1 == Next(s0, Advances(c.w, FindCause(online)))
    ensures RunAt(c, s1, Unwedge(if s0.downloadsPaused then Some(Disk) else if !online then Some(Network) else None), Completed)
  {
    s1 := Next(s0, Advances(c.w, FindCause(online)));
  }

  lemma NothingToUnwedge(c: Cast, s1: State, cause: Option<Reason>) returns (s2: State)
    requires RunAt(c, s1, Unwedge(cause), Completed)
    ensures Enabled(s1, Advances(c.w, UnwedgeRow)) && s2 == Next(s1, Advances(c.w, UnwedgeRow))
    ensures Answers(c, s2, if cause.Some? then Paused else Queued, Completed)
  {
    s2 := Next(s1, Advances(c.w, UnwedgeRow));
  }

  lemma ExplainedRuns(c: Cast, s0: State, online: bool) returns (states: seq<State>)
    requires RunAt(c, s0, Cancelling, Completed)
    ensures Follows(states, Explained(c, online)) && states[0] == s0
    ensures Answers(c, states[2], if s0.downloadsPaused || !online then Paused else Queued, Completed)
  {
    var s1 := CauseIsFound(c, s0, online);
    var s2 := NothingToUnwedge(c, s1, s1.workers[c.w].pc.cause);
    states := [s0, s1, s2];
  }

  /** The steps that bring a run over an empty feed to its completing write, with a cancel waiting. */
  function ToTheEnd(c: Cast): seq<Step> {
    Opened(c) + Gated(c) + Marked(c) + Listed(c) + Looped(c)
  }

  lemma EndIsReached(c: Cast, s0: State) returns (states: seq<State>)
    requires Init(s0) && RowIs(Row(s0.accounts, c.a), Queued)
    ensures Follows(states, ToTheEnd(c)) && states[0] == s0 && |states| == 10
    ensures RunAt(c, states[9], Finalize, Backfilling) && CancelWaits(c, states[9])
  {
    var begun := OpenedRuns(c, s0);
    var gated := GatedRuns(c, begun[2]);
    var marked := MarkedRuns(c, gated[1]);
    var listed := ListedRuns(c, marked[2]);
    var looped := LoopedRuns(c, listed[2]);
    FollowsAppend(begun, gated, Opened(c), Gated(c));
    states := begun + gated[1..];
    FollowsAppend(states, marked, Opened(c) + Gated(c), Marked(c));
    states := states + marked[1..];
    FollowsAppend(states, listed, Opened(c) + Gated(c) + Marked(c), Listed(c));
    states := states + listed[1..];
    FollowsAppend(states, looped, Opened(c) + Gated(c) + Marked(c) + Listed(c), Looped(c));
    states := states + looped[1..];
    assert states[9] == looped[2];
  }

  /** The pause switch stays where it is unless somebody throws it. */
  lemma {:induction false} SwitchStays(states: seq<State>, steps: seq<Step>, n: nat)
    requires Follows(states, steps) && n <= |steps|
    requires forall i :: 0 <= i < n ==> steps[i].Advances? || !steps[i].act.SetDownloadsPaused?
    ensures states[n].downloadsPaused == states[0].downloadsPaused
  {
    if n > 0 {
      SwitchStays(states, steps, n - 1);
    }
  }

  /**
   From any quiet database with the row queued, a completed backfill can fall to a cancel that read it earlier;
   the run still answers 'completed'.
   */
  lemma CancelCanLandOnCompleted(c: Cast, s0: State) returns (states: seq<State>)
    requires Init(s0) && RowIs(Row(s0.accounts, c.a), Queued)
    ensures Behaviour(states, ToTheEnd(c) + Closed(c) + Fired(c)) && states[0] == s0 && |states| == 13
    ensures RowIs(Row(states[10].accounts, c.a), Completed) && RowIs(Row(states[11].accounts, c.a), Cancelled)
    ensures Answers(c, states[12], Completed, Cancelled)
  {
    var start := EndIsReached(c, s0);
    var closed := ClosedRuns(c, start[9]);
    var fired := FiredRuns(c, closed[2]);
    FollowsAppend(start, closed, ToTheEnd(c), Closed(c));
    FollowsAppend(start + closed[1..], fired, ToTheEnd(c) + Closed(c), Fired(c));
    states := start + closed[1..] + fired[1..];
    assert states[10] == closed[1] && states[11] == closed[2] && states[12] == fired[1];
  }

  /**
   From the same database, a run that loses its row to another process's startup announces and answers
   'cancelled' over a queued row.
   */
  lemma ReconcileCanTakeTheRow(c: Cast, s0: State) returns (states: seq<State>)
    requires Init(s0) && RowIs(Row(s0.accounts, c.a), Queued)
    ensures Behaviour(states, ToTheEnd(c) + Reconciled(c) + Lost(c)) && states[0] == s0 && |states| == 12
    ensures Answers(c, states[11], Cancelled, Queued) && CancelledEvent in states[11].workers[c.w].events
  {
    var start := EndIsReached(c, s0);
    var reconciled := ReconciledRuns(c, start[9]);
    var lost := LostRuns(c, reconciled[1]);
    FollowsAppend(start, reconciled, ToTheEnd(c), Reconciled(c));
    FollowsAppend(start + reconciled[1..], lost, ToTheEnd(c) + Reconciled(c), Lost(c));
    states := start + reconciled[1..] + lost[1..];
    assert states[11] == lost[1];
  }

  /** And one that crashes answers 'failed' over a queued row. */
  lemma CrashAnswersFailed(c: Cast, s0: State) returns (states: seq<State>)
    requires Init(s0) && RowIs(Row(s0.accounts, c.a), Queued)
    ensures Behaviour(states, ToTheEnd(c) + Crashed(c) + Unwedged(c)) && states[0] == s0 && |states| == 12
    ensures Answers(c, states[11], BackfillProtocol.Failed, Queued)
  {
    var start := EndIsReached(c, s0);
    var crashed := CrashedRuns(c, start[9]);
    var unwedged := UnwedgedRuns(c, crashed[1]);
    FollowsAppend(start, crashed, ToTheEnd(c), Crashed(c));
    FollowsAppend(start + crashed[1..], unwedged, ToTheEnd(c) + Crashed(c), Unwedged(c));
    states := start + crashed[1..] + unwedged[1..];
    assert states[11] == unwedged[1];
  }

  /** And one cancelled between its completing write and the transition answers 'paused' or 'queued' over a completed row. */
  lemma CancelledRunHidesCompletion(c: Cast, s0: State, online: bool) returns (states: seq<State>)
    requires Init(s0) && RowIs(Row(s0.accounts, c.a), Queued)
    ensures Behaviour(states, ToTheEnd(c) + Interrupted(c) + Explained(c, online)) && states[0] == s0 && |states| == 14
    ensures Answers(c, states[13], if s0.downloadsPaused || !online then Paused else Queued, Completed)
  {
    var start := EndIsReached(c, s0);
    SwitchStays(start, ToTheEnd(c), 9);
    var interrupted := InterruptedRuns(c, start[9]);
    var explained := ExplainedRuns(c, interrupted[2], online);
    FollowsAppend(start, interrupted, ToTheEnd(c), Interrupted(c));
    FollowsAppend(start + interrupted[1..], explained, ToTheEnd(c) + Interrupted(c), Explained(c, online));
    states := start + interrupted[1..] + explained[1..];
    assert states[11] == interrupted[2] && states[13] == explained[2];
  }

  // ---------------------------------------------------------------- the reading that escapes a review

  function Overtaken(c: Cast): seq<Step> {
    [Reacts(CollectRead(c.o, c.a)), Reacts(FlagForReview(c.a)), Reacts(CollectFlip(c.o, true))]
  }

  lemma StaleFlip(c: Cast, s: State)
    requires RowIs(Row(s.accounts, c.a), Paused) && c.o in s.ops && s.ops[c.o].Collecting? && s.ops[c.o].account == c.a
    requires s.ops[c.o].read.status == Paused && Resumes(s.ops[c.o], true)
    ensures Next(s, Reacts(CollectFlip(c.o, true))).accounts == s.accounts[c.a := Requeued(s.accounts[c.a])]
  {
    assert Flips(s, s.ops[c.o], true);
  }

  lemma ReadAndFlagged(c: Cast, s: State)
    requires c.a in s.accounts && s.accounts[c.a].status == Paused && c.o !in s.ops
    ensures var t := Next(s, Reacts(CollectRead(c.o, c.a)));
      && Enabled(t, Reacts(FlagForReview(c.a)))
      && (var u := Next(t, Reacts(FlagForReview(c.a)));
          && u.ops == s.ops[c.o := Collecting(c.a, s.accounts[c.a], !s.downloadsPaused)]
          && u.accounts == s.accounts[c.a := s.accounts[c.a].(needsReview := true)])
  {
  }

  /** A collector that read a paused row before the review flag went up still requeues it. */
  lemma StaleReadingEscapesReview(c: Cast, s0: State) returns (states: seq<State>)
    requires Init(s0) && RowIs(Row(s0.accounts, c.a), Paused)
    requires s0.accounts[c.a].reason == Some(Network) && !s0.accounts[c.a].needsReview
    ensures Behaviour(states, Overtaken(c)) && states[0] == s0 && |states| == 4
    ensures RowIs(Row(states[2].accounts, c.a), Paused) && states[2].accounts[c.a].needsReview
    ensures RowIs(Row(states[3].accounts, c.a), Queued) && states[3].accounts[c.a].needsReview
  {
    var s1 := Next(s0, Overtaken(c)[0]);
    var s2 := Next(s1, Overtaken(c)[1]);
    ReadAndFlagged(c, s0);
    StaleFlip(c, s2);
    states := [s0, s1, s2, Next(s2, Overtaken(c)[2])];
  }
}
