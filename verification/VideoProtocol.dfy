/**
 The two halves put together: the tables of the video services are those the backfill protocol runs over. Every
 statement of a monitor cycle, a retry or another pass is a statement the protocol already has for its other
 actors, and a run's steps on an entry are the statements of the catalogue's backfill of that entry.
 */
module VideoProtocol {
  import opened Prelude
  import V = VideoStatus
  import C = Videos
  import opened VideoCrashes
  import opened BackfillProtocol

  /** The protocol's status by id is the status column of the rows. */
  ghost predicate Mirrors(videos: seq<C.Row>, statuses: map<string, V.Status>) {
    && (forall i :: 0 <= i < |videos| ==> videos[i].id in statuses && statuses[videos[i].id] == videos[i].status)
    && (forall id :: id in statuses ==> Carried(videos, id))
  }

  ghost predicate Carried(videos: seq<C.Row>, id: string) {
    exists i :: 0 <= i < |videos| && videos[i].id == id
  }

  /** Everything the two models share, but for the video table. */
  ghost predicate CoupledRest(p: State, s: C.State) {
    && p.downloadsPaused == s.downloadsPaused && p.monitorRunning == s.monitorRunning
    && forall a: int :: 0 <= a < |s.accounts| ==> a in p.accounts && SameAccount(p.accounts[a], s.accounts[a])
  }

  predicate SameAccount(row: Account, account: C.Account) {
    && row.needsReview == account.needsReview && row.paused == account.paused
    && (row.mode == Monitor <==> account.monitored)
  }

  /** Both models describe one database. */
  ghost predicate Coupled(p: State, s: C.State) {
    Mirrors(s.videos, p.videos) && CoupledRest(p, s)
  }

  lemma StatusWritten(videos: seq<C.Row>, statuses: map<string, V.Status>, row: nat, r: C.Row)
    requires Mirrors(videos, statuses) && C.Unique(videos) && row < |videos| && r.id == videos[row].id
    ensures Mirrors(videos[row := r], statuses[r.id := r.status])
  {
    var after := videos[row := r];
    forall id | id in statuses[r.id := r.status]
      ensures Carried(after, id)
    {
      assert after[row].id == r.id;
      if id != r.id {
        assert Carried(videos, id);
        var i :| 0 <= i < |videos| && videos[i].id == id;
        assert after[i].id == id;
      }
    }
  }

  lemma RowAdded(videos: seq<C.Row>, statuses: map<string, V.Status>, r: C.Row)
    requires Mirrors(videos, statuses) && C.Find(videos, r.id, 0).None?
    ensures Mirrors(videos + [r], statuses[r.id := r.status])
  {
    var after := videos + [r];
    forall id | id in statuses[r.id := r.status]
      ensures Carried(after, id)
    {
      assert after[|videos|].id == r.id;
      if id != r.id {
        assert Carried(videos, id);
        var i :| 0 <= i < |videos| && videos[i].id == id;
        assert after[i].id == id;
      }
    }
  }

  /** The run's look at the video table is a look for the row. */
  lemma LookUpFinds(videos: seq<C.Row>, statuses: map<string, V.Status>, id: string)
    requires Mirrors(videos, statuses)
    ensures match C.Find(videos, id, 0)
      case Some(row) => id in statuses && statuses[id] == videos[row].status
      case None => id !in statuses
  {
    assert id in statuses ==> Carried(videos, id);
  }

  // ---------------------------------------------------------------- other passes are the protocol's other actors

  /** What a statement of a pass is to the protocol; nothing, if it only touches the archive or the event stream. */
  function ActOf(s: C.State, st: Statement): Option<Act> {
    match st
    case PauseDownloads => Some(SetDownloadsPaused(true))
    case StopMonitoring => Some(SetMonitorRunning(false))
    case CommitRow(row, status, _, _, _) => if row < |s.videos| then Some(WriteVideo(s.videos[row].id, status)) else None
    case InsertRow(r) => Some(WriteVideo(r.id, r.status))
    case ResetRow(row) =>
      if row < |s.videos| && s.videos[row].status == V.Failed then Some(WriteVideo(s.videos[row].id, V.Pending)) else None
    case WriteAccount(a, columns) =>
      if a < |s.accounts| && columns.needsReview && !s.accounts[a].needsReview then Some(FlagForReview(a)) else None
    case _ => None
  }

  function ActsOf(s: C.State, sts: seq<Statement>): seq<Act>
    decreases |sts|
  {
    if sts == [] then [] else
    (match ActOf(s, sts[0]) case Some(act) => [act] case None => []) + ActsOf(Exec(s, sts[0]), sts[1..])
  }

  /** The acts can be taken one after the other. */
  ghost predicate Takes(p: State, acts: seq<Act>)
    decreases |acts|
  {
    acts == [] || (ActEnabled(p, acts[0]) && Takes(React(p, acts[0]), acts[1..]))
  }

  ghost function AfterActs(p: State, acts: seq<Act>): State
    requires Takes(p, acts)
    decreases |acts|
  {
    if acts == [] then p else AfterActs(React(p, acts[0]), acts[1..])
  }

  /** One allowed statement is one act, or nothing to the protocol. */
  lemma StatementIsAct(p: State, s: C.State, st: Statement)
    requires Coupled(p, s) && C.Unique(s.videos) && Allowed(s, st)
    ensures match ActOf(s, st)
      case Some(act) => ActEnabled(p, act) && Coupled(React(p, act), Exec(s, st))
      case None => Coupled(p, Exec(s, st))
  {
    match st
    case CommitRow(row, status, category, size, bump) => CommitIsWrite(p, s, st);
    case InsertRow(r) => RowAdded(s.videos, p.videos, r);
    case ResetRow(row) =>
      if row < |s.videos| && s.videos[row].status == V.Failed {
        ResetIsWrite(p, s, row);
      }
    case WriteAccount(a, columns) => AccountIsFlag(p, s, a, columns);
    case _ =>
  }

  lemma ResetIsWrite(p: State, s: C.State, row: nat)
    requires Coupled(p, s) && C.Unique(s.videos) && row < |s.videos| && s.videos[row].status == V.Failed
    ensures Coupled(React(p, WriteVideo(s.videos[row].id, V.Pending)), Exec(s, ResetRow(row)))
  {
    StatusWritten(s.videos, p.videos, row, s.videos[row].(status := V.Pending));
  }

  lemma AccountIsFlag(p: State, s: C.State, a: nat, columns: C.Account)
    requires Coupled(p, s) && Allowed(s, WriteAccount(a, columns))
    ensures if columns.needsReview && !s.accounts[a].needsReview
            then ActEnabled(p, FlagForReview(a)) && Coupled(React(p, FlagForReview(a)), Exec(s, WriteAccount(a, columns)))
            else Coupled(p, Exec(s, WriteAccount(a, columns)))
  {
  }

  /** A terminal commit rewrites one row and a byte count, nothing else the protocol knows of. */
  lemma CommitWrites(s: C.State, st: Statement)
    requires st.CommitRow? && Allowed(s, st)
    ensures var t := Exec(s, st);
      && |t.videos| == |s.videos| && t.videos == s.videos[st.row := t.videos[st.row]]
      && t.videos[st.row].id == s.videos[st.row].id && t.videos[st.row].status == st.status
      && (forall p :: CoupledRest(p, s) ==> CoupledRest(p, t))
      && |t.commits| == |s.commits| + 1
  {
  }

  lemma CommitIsWrite(p: State, s: C.State, st: Statement)
    requires Coupled(p, s) && C.Unique(s.videos) && st.CommitRow? && Allowed(s, st)
    ensures Coupled(React(p, WriteVideo(s.videos[st.row].id, st.status)), Exec(s, st))
  {
    CommitWrites(s, st);
    StatusWritten(s.videos, p.videos, st.row, Exec(s, st).videos[st.row]);
  }

  /** A sequence of statements is a sequence of acts the protocol allows there, and both end in one database. */
  lemma {:induction false} StatementsAreActs(p: State, s: C.State, sts: seq<Statement>)
    requires Coupled(p, s) && Durable(s) && AllAllowed(s, sts)
    ensures Takes(p, ActsOf(s, sts)) && Coupled(AfterActs(p, ActsOf(s, sts)), VideoCrashes.Run(s, sts))
    decreases |sts|
  {
    if sts != [] {
      var t, rest := Exec(s, sts[0]), ActsOf(Exec(s, sts[0]), sts[1..]);
      StatementIsAct(p, s, sts[0]);
      StatementKeeps(s, sts[0]);
      match ActOf(s, sts[0])
      case Some(act) =>
        StatementsAreActs(React(p, act), t, sts[1..]);
        assert ([act] + rest)[1..] == rest;
      case None =>
        StatementsAreActs(p, t, sts[1..]);
        assert [] + rest == rest;
    }
  }

  lemma {:induction false} ActsExtend(states: seq<State>, steps: seq<Step>, acts: seq<Act>) returns (states': seq<State>, steps': seq<Step>)
    requires Behaviour(states, steps) && Takes(states[|steps|], acts)
    ensures Behaviour(states', steps') && states <= states' && steps <= steps'
    ensures states'[|steps'|] == AfterActs(states[|steps|], acts)
    decreases |acts|
  {
    if acts == [] {
      states', steps' := states, steps;
    } else {
      var p := states[|steps|];
      var more, moves := states + [React(p, acts[0])], steps + [Reacts(acts[0])];
      OneMoreStep(states, steps, acts[0]);
      assert more[|moves|] == React(p, acts[0]);
      states', steps' := ActsExtend(more, moves, acts[1..]);
    }
  }

  lemma OneMoreStep(states: seq<State>, steps: seq<Step>, act: Act)
    requires Behaviour(states, steps) && ActEnabled(states[|steps|], act)
    ensures Behaviour(states + [React(states[|steps|], act)], steps + [Reacts(act)])
  {
    var more, moves := states + [React(states[|steps|], act)], steps + [Reacts(act)];
    forall n | 0 <= n < |moves|
      ensures Enabled(more[n], moves[n]) && more[n + 1] == Next(more[n], moves[n])
    {
      if n < |steps| {
        assert more[n] == states[n] && more[n + 1] == states[n + 1] && moves[n] == steps[n];
      }
    }
  }

  /**
   A pass of the video services, whole or cut off after any of its statements, continues a behaviour of the protocol
   into another one: the backfill theorems hold across it. `StatementIsAct` says so of each statement by itself, in
   any state the backfills have brought the database to in between.
   */
  lemma PassExtendsBehaviour(states: seq<State>, steps: seq<Step>, s: C.State, cut: CutPass)
    returns (states': seq<State>, steps': seq<Step>)
    requires Behaviour(states, steps) && Coupled(states[|steps|], s) && Durable(s)
    requires cut.pass.BackfillEntry? ==> cut.pass.account < |s.accounts|
    ensures Behaviour(states', steps') && states <= states' && steps <= steps'
    ensures Coupled(states'[|steps'|], PlayCut(s, cut))
    ensures Durable(PlayCut(s, cut))
  {
    var sts := Statements(s, cut.pass);
    var done := if cut.after < |sts| then sts[..cut.after] else sts;
    PassIsItsStatements(s, cut.pass);
    assert done + sts[|done|..] == sts;
    RunAppend(s, done, sts[|done|..]);
    StatementsAreActs(states[|steps|], s, done);
    states', steps' := ActsExtend(states, steps, ActsOf(s, done));
    CutPassIsDurable(s, cut);
  }

  // ---------------------------------------------------------------- a run's steps on an entry are the catalogue's

  /** A run about to look up its current entry, which the catalogue knows as `entry`. */
  ghost predicate AtEntry(p: State, w: int, entry: C.Entry) {
    w in p.workers && p.workers[w].pc == Lookup && p.workers[w].i < |p.workers[w].entries|
    && p.workers[w].entries[p.workers[w].i].id == entry.id
  }

  /** The table after a look-up: a missing video is pending. */
  function LookedUp(statuses: map<string, V.Status>, id: string): map<string, V.Status> {
    if id in statuses then statuses else statuses[id := V.Pending]
  }

  /** What a look-up writes. */
  lemma LookUpWrites(p: State, w: int, id: string)
    requires w in p.workers && p.workers[w].pc == Lookup && p.workers[w].i < |p.workers[w].entries|
    requires p.workers[w].entries[p.workers[w].i].id == id
    ensures var q, k := Next(p, Advances(w, LookUpVideo)), p.workers[w];
      var known := id in p.videos && V.Terminal(p.videos[id]);
      && q == p.(videos := LookedUp(p.videos, id), workers := q.workers)
      && w in q.workers
      && q.workers[w] == if known then k.(pc := Progress(false), settled := k.settled + {k.i}) else k.(pc := Download)
  {
  }

  /** What a terminal commit of a run writes. */
  lemma SettleWrites(p: State, w: int, outcome: V.Status, tripped: bool, id: string)
    requires Enabled(p, Advances(w, Settle(outcome, tripped))) && p.workers[w].entries[p.workers[w].i].id == id
    ensures var q, k := Next(p, Advances(w, Settle(outcome, tripped))), p.workers[w];
      && q == p.(videos := p.videos[id := outcome], workers := q.workers)
      && w in q.workers && q.workers[w].driven == k.driven + 1 && q.workers[w].settled == k.settled + {k.i}
  {
  }

  /** Looking up passes a terminal row over, or leaves an open row there, inserted if it was missing. */
  lemma LookUpIsInsert(p: State, s: C.State, w: int, account: nat, entry: C.Entry)
    requires Coupled(p, s) && AtEntry(p, w, entry)
    ensures var q := Next(p, Advances(w, LookUpVideo));
      match C.Find(s.videos, entry.id, 0)
      case Some(row) => Coupled(q, s) && q.workers[w].pc == if V.Terminal(s.videos[row].status) then Progress(false) else Download
      case None => Coupled(q, Exec(s, InsertRow(NewRow(account, entry)))) && q.workers[w].pc == Download
  {
    LookUpWrites(p, w, entry.id);
    LookUpFinds(s.videos, p.videos, entry.id);
    if C.Find(s.videos, entry.id, 0).None? {
      RowAdded(s.videos, p.videos, NewRow(account, entry));
    }
  }

  /** The run's terminal commit is the catalogue's: the same write, counted once on both sides. */
  lemma SettleIsCommit(p: State, s: C.State, w: int, tripped: bool, st: Statement)
    requires Coupled(p, s) && C.Unique(s.videos) && st.CommitRow? && Allowed(s, st)
    requires Enabled(p, Advances(w, Settle(st.status, tripped)))
    requires p.workers[w].entries[p.workers[w].i].id == s.videos[st.row].id
    ensures var q, t := Next(p, Advances(w, Settle(st.status, tripped))), Exec(s, st);
      && Coupled(q, t)
      && w in q.workers && q.workers[w].driven - p.workers[w].driven == |t.commits| - |s.commits| == 1
  {
    SettleWrites(p, w, st.status, tripped, s.videos[st.row].id);
    CommitWrites(s, st);
    StatusWritten(s.videos, p.videos, st.row, Exec(s, st).videos[st.row]);
  }

  /** The steps of a run on an open entry: look-up, download, commit. */
  ghost predicate EntrySteps(p: State, q1: State, q2: State, q3: State, w: int, verdict: V.Status, tripped: bool) {
    && Enabled(p, Advances(w, LookUpVideo)) && q1 == Next(p, Advances(w, LookUpVideo))
    && Enabled(q1, Advances(w, StartDownload)) && q2 == Next(q1, Advances(w, StartDownload))
    && Enabled(q2, Advances(w, Settle(verdict, tripped))) && q3 == Next(q2, Advances(w, Settle(verdict, tripped)))
  }

  /** What the catalogue makes of an open entry: one commit, with the verdict, on the row of that id. */
  lemma OpenEntryCommits(s: C.State, account: nat, entry: C.Entry, work: C.Work, override: bool)
    requires account < |s.accounts|
    requires var row := C.Find(s.videos, entry.id, 0); row.None? || !V.Terminal(s.videos[row.value].status)
    ensures var t := C.BackfillVideo(s, account, entry, work, override);
      var found := C.Find(s.videos, entry.id, 0);
      var before := if found.None? then s.videos + [NewRow(account, entry)] else s.videos;
      var row := if found.None? then |s.videos| else found.value;
      && row < |before| == |t.videos| && before[row].id == t.videos[row].id == entry.id
      && t.videos == before[row := t.videos[row]] && t.videos[row].status == C.Verdict(work, override, entry.timed)
      && t.commits == s.commits + [C.Commit(row, C.Verdict(work, override, entry.timed))]
  {
    match C.Find(s.videos, entry.id, 0)
    case Some(row) => C.AttemptMeans(s, row, account, entry.timed, work, override);
    case None => C.AttemptMeans(C.Insert(s, account, entry), |s.videos|, account, entry.timed, work, override);
  }

  ghost predicate Known(s: C.State, entry: C.Entry) {
    var found := C.Find(s.videos, entry.id, 0);
    found.Some? && V.Terminal(s.videos[found.value].status)
  }

  /** The catalogue and a run leave a known entry alone. */
  lemma KnownEntryIsBackfillVideo(p: State, s: C.State, w: int, account: nat, entry: C.Entry, work: C.Work, override: bool)
    requires Coupled(p, s) && account < |s.accounts| && AtEntry(p, w, entry) && Known(s, entry)
    ensures var q, k := Next(p, Advances(w, LookUpVideo)), p.workers[w];
      && C.BackfillVideo(s, account, entry, work, override) == s && Coupled(q, s)
      && w in q.workers && q.workers[w] == k.(pc := Progress(false), settled := k.settled + {k.i})
  {
    LookUpWrites(p, w, entry.id);
    LookUpFinds(s.videos, p.videos, entry.id);
  }

  /**
   A run that handles an open entry undisturbed does to the video table what the catalogue does, and counts in
   `driven` the one terminal commit the catalogue makes.
   */
  lemma OpenEntryIsBackfillVideo(p: State, s: C.State, w: int, account: nat, entry: C.Entry, work: C.Work, override: bool,
                                 tripped: bool)
    returns (q1: State, q2: State, q3: State)
    requires Coupled(p, s) && C.Unique(s.videos) && account < |s.accounts| && AtEntry(p, w, entry) && !Known(s, entry)
    requires tripped ==> C.Verdict(work, override, entry.timed) == V.Failed
    ensures EntrySteps(p, q1, q2, q3, w, C.Verdict(work, override, entry.timed), tripped)
    ensures var t, k := C.BackfillVideo(s, account, entry, work, override), p.workers[w];
      && Mirrors(t.videos, q3.videos)
      && w in q3.workers && q3.workers[w].driven - k.driven == |t.commits| - |s.commits| == 1
      && q3.workers[w].settled == k.settled + {k.i}
  {
    LookUpFinds(s.videos, p.videos, entry.id);
    q1, q2, q3 := OpenEntrySteps(p, w, entry.id, C.Verdict(work, override, entry.timed), tripped);
    OpenTableIsWritten(p, s, account, entry, work, override);
  }

  lemma OpenTableIsWritten(p: State, s: C.State, account: nat, entry: C.Entry, work: C.Work, override: bool)
    requires Coupled(p, s) && C.Unique(s.videos) && account < |s.accounts| && !Known(s, entry)
    ensures var t := C.BackfillVideo(s, account, entry, work, override);
      Mirrors(t.videos, LookedUp(p.videos, entry.id)[entry.id := C.Verdict(work, override, entry.timed)]) && |t.commits| == |s.commits| + 1
  {
    OpenEntryCommits(s, account, entry, work, override);
    var before, row := OpenRow(p, s, account, entry);
    StatusWritten(before, LookedUp(p.videos, entry.id), row, C.BackfillVideo(s, account, entry, work, override).videos[row]);
  }

  /** The rows and the position of the entry's row once the look-up is done. */
  lemma OpenRow(p: State, s: C.State, account: nat, entry: C.Entry) returns (before: seq<C.Row>, row: nat)
    requires Coupled(p, s) && C.Unique(s.videos) && !Known(s, entry)
    ensures var found := C.Find(s.videos, entry.id, 0);
      && before == (if found.None? then s.videos + [NewRow(account, entry)] else s.videos)
      && row == (if found.None? then |s.videos| else found.value)
    ensures Mirrors(before, LookedUp(p.videos, entry.id)) && C.Unique(before) && row < |before|
  {
    LookUpFinds(s.videos, p.videos, entry.id);
    match C.Find(s.videos, entry.id, 0)
    case Some(r) => before, row := s.videos, r;
    case None =>
      RowAdded(s.videos, p.videos, NewRow(account, entry));
      before, row := s.videos + [NewRow(account, entry)], |s.videos|;
  }

  lemma OpenEntrySteps(p: State, w: int, id: string, verdict: V.Status, tripped: bool) returns (q1: State, q2: State, q3: State)
    requires w in p.workers && p.workers[w].pc == Lookup && p.workers[w].i < |p.workers[w].entries|
    requires p.workers[w].entries[p.workers[w].i].id == id && (id in p.videos ==> !V.Terminal(p.videos[id]))
    requires V.Terminal(verdict) && (tripped ==> verdict == V.Failed)
    ensures EntrySteps(p, q1, q2, q3, w, verdict, tripped)
    ensures var k := p.workers[w];
      && q3.videos == LookedUp(p.videos, id)[id := verdict]
      && w in q3.workers && q3.workers[w].driven == k.driven + 1 && q3.workers[w].settled == k.settled + {k.i}
  {
    LookUpWrites(p, w, id);
    q1 := Next(p, Advances(w, LookUpVideo));
    q2, q3 := OpenRowSteps(q1, w, id, verdict, tripped);
  }

  lemma OpenRowSteps(q1: State, w: int, id: string, verdict: V.Status, tripped: bool) returns (q2: State, q3: State)
    requires w in q1.workers && q1.workers[w].pc == Download && q1.workers[w].i < |q1.workers[w].entries|
    requires q1.workers[w].entries[q1.workers[w].i].id == id
    requires V.Terminal(verdict) && (tripped ==> verdict == V.Failed)
    ensures Enabled(q1, Advances(w, StartDownload)) && q2 == Next(q1, Advances(w, StartDownload))
    ensures Enabled(q2, Advances(w, Settle(verdict, tripped))) && q3 == Next(q2, Advances(w, Settle(verdict, tripped)))
    ensures var k := q1.workers[w];
      && q3.videos == q1.videos[id := verdict]
      && w in q3.workers && q3.workers[w].driven == k.driven + 1 && q3.workers[w].settled == k.settled + {k.i}
  {
    q2 := Next(q1, Advances(w, StartDownload));
    q3 := Next(q2, Advances(w, Settle(verdict, tripped)));
  }
}
