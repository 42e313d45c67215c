/**
 The video services over the archive as it is on disk: `Videos` edits a set of ids, `Archive` a text file. Every
 edit of the one is an edit of the other, and what the tables promise about the archive holds of the file, also
 when a pass is killed inside the rewrite of a remove, unless that leaves the staged text torn.
 */
module VideoArchive {
  import opened Prelude
  import opened VideoStatus
  import opened Videos
  import opened VideoCrashes
  import A = Archive

  /** The ids a reader of the file gets. */
  function OnFile(disk: A.Disk): set<string> {
    set id | id in A.Ids(A.Lines(A.Content(disk)))
  }

  /** The set of ids is what the file says, line by line. */
  ghost predicate Linked(s: State, disk: A.Disk) {
    A.Tidy(disk) && s.archive == OnFile(disk)
  }

  /** Every skipped row is listed in the file. */
  ghost predicate SkippedAreOnFile(s: State, disk: A.Disk) {
    forall i :: 0 <= i < |s.videos| && s.videos[i].status == Skipped ==> s.videos[i].id in OnFile(disk)
  }

  // ---------------------------------------------------------------- statement by statement

  function WriteDisk(disk: A.Disk, st: Statement): A.Disk {
    if !st.EditArchive? then disk
    else if st.listed then A.AfterAdd(disk, st.id)
    else A.AfterRemove(disk, st.id, A.Survives)
  }

  function WriteDiskAll(disk: A.Disk, sts: seq<Statement>): A.Disk
    decreases |sts|
  {
    if sts == [] then disk else WriteDiskAll(WriteDisk(disk, sts[0]), sts[1..])
  }

  /** The ids a statement brings in are non-empty words. */
  predicate WellNamed(st: Statement) {
    (st.EditArchive? && st.listed ==> A.IsId(st.id)) && (st.InsertRow? ==> A.IsId(st.inserted.id))
  }

  ghost predicate AllWellNamed(sts: seq<Statement>) {
    forall st :: st in sts ==> WellNamed(st)
  }

  ghost predicate NamedRows(s: State) {
    forall i :: 0 <= i < |s.videos| ==> A.IsId(s.videos[i].id)
  }

  /** One edit of the set is the same edit of the file. */
  lemma StatementStaysLinked(s: State, disk: A.Disk, st: Statement)
    requires Linked(s, disk) && WellNamed(st)
    ensures Linked(Exec(s, st), WriteDisk(disk, st))
  {
    if st.EditArchive? {
      if st.listed {
        A.AddStaysTidy(disk, st.id);
      } else {
        A.RemoveStaysTidy(disk, st.id);
        A.WithoutIs(A.Ids(A.Lines(A.Content(disk))), st.id);
      }
    }
  }

  lemma {:induction false} RunStaysLinked(s: State, disk: A.Disk, sts: seq<Statement>)
    requires Linked(s, disk) && AllWellNamed(sts)
    ensures Linked(Run(s, sts), WriteDiskAll(disk, sts))
    decreases |sts|
  {
    if sts != [] {
      assert sts[0] in sts && forall st :: st in sts[1..] ==> st in sts;
      StatementStaysLinked(s, disk, sts[0]);
      RunStaysLinked(Exec(s, sts[0]), WriteDisk(disk, sts[0]), sts[1..]);
    }
  }

  lemma StatementKeepsNames(s: State, st: Statement)
    requires NamedRows(s) && WellNamed(st)
    ensures NamedRows(Exec(s, st))
  {
  }

  lemma {:induction false} RunKeepsNames(s: State, sts: seq<Statement>)
    requires NamedRows(s) && AllWellNamed(sts)
    ensures NamedRows(Run(s, sts))
    decreases |sts|
  {
    if sts != [] {
      assert sts[0] in sts && forall st :: st in sts[1..] ==> st in sts;
      StatementKeepsNames(s, sts[0]);
      RunKeepsNames(Exec(s, sts[0]), sts[1..]);
    }
  }

  // ---------------------------------------------------------------- the statements of a pass are well named

  lemma NamedAppend(a: seq<Statement>, b: seq<Statement>)
    requires AllWellNamed(a) && AllWellNamed(b)
    ensures AllWellNamed(a + b)
  {
  }

  lemma {:induction false} FetchingIsNamed(id: string, tries: seq<Try>)
    requires tries != [] && A.IsId(id)
    ensures AllWellNamed(Fetching(id, tries))
    decreases |tries|
  {
    if tries[0].Broke? && |tries| > 1 {
      FetchingIsNamed(id, tries[1..]);
      NamedAppend([EditArchive(id, false)], Fetching(id, tries[1..]));
    }
  }

  lemma ConcludingIsNamed(row: nat, id: string, account: nat, expected: bool, last: Try, check: Check)
    requires A.IsId(id)
    ensures AllWellNamed(Concluding(row, id, account, expected, last, check))
  {
    if last.Fetched? && Answer(check, expected).Settled? {
      HandlingIsNamed(row, check, id, account, expected);
    }
  }

  lemma HandlingIsNamed(row: nat, check: Check, id: string, account: nat, expected: bool)
    requires A.IsId(id)
    ensures AllWellNamed(Handling(row, check, id, account, expected))
  {
  }

  lemma AttemptingIsNamed(row: nat, id: string, account: nat, expected: bool, work: Work, override: bool)
    requires A.IsId(id)
    ensures AllWellNamed(Attempting(row, id, account, expected, work, override))
  {
    if work.Work? {
      var tries := Chain(work, override);
      FetchingIsNamed(id, tries);
      ConcludingIsNamed(row, id, account, expected, tries[Decider(tries)], work.check);
      NamedAppend(Fetching(id, tries), Concluding(row, id, account, expected, tries[Decider(tries)], work.check));
    }
  }

  lemma {:induction false} AttemptingAllIsNamed(s: State, rows: seq<nat>, account: nat, override: bool, work: nat -> Work)
    requires Durable(s) && Videos.Open(s, rows) && account < |s.accounts| && NamedRows(s)
    ensures AllWellNamed(AttemptingAll(s, rows, account, override, work))
    decreases |rows|
  {
    if rows != [] {
      var row, r := rows[0], s.videos[rows[0]];
      var t := Attempt(s, row, account, r.timed, work(row), override);
      var sts := Attempting(row, r.id, account, r.timed, work(row), override);
      AttemptingIsNamed(row, r.id, account, r.timed, work(row), override);
      AttemptingIs(s, row, account, r.timed, work(row), override);
      PerformedIsDurable(s, sts, t);
      RunKeepsNames(s, sts);
      AttemptMeans(s, row, account, r.timed, work(row), override);
      PassStep(s, t, rows, Verdict(work(row), override, r.timed), account, SizeOf(work(row)));
      AttemptingAllIsNamed(t, rows[1..], account, override, work);
      NamedAppend(sts, AttemptingAll(t, rows[1..], account, override, work));
    }
  }

  /** A listed entry has a well-formed id, or none at all. */
  predicate NamedEntries(entries: seq<Entry>) {
    forall i :: 0 <= i < |entries| ==> entries[i].id == "" || A.IsId(entries[i].id)
  }

  lemma {:induction false} DiscoveringAllIsNamed(s: State, account: nat, entries: seq<Entry>)
    requires NamedEntries(entries)
    ensures AllWellNamed(DiscoveringAll(s, account, entries))
    decreases |entries|
  {
    if entries != [] {
      var t := DiscoverEntry(s, account, entries[0]);
      DiscoveringAllIsNamed(t, account, entries[1..]);
      NamedAppend(DiscoveringOne(s, account, entries[0]), DiscoveringAll(t, account, entries[1..]));
    }
  }

  ghost predicate NamedFeed(feed: Feed) {
    feed.listing.Listed? ==> NamedEntries(feed.listing.entries)
  }

  lemma DiscoveringIsNamed(s: State, account: nat, feed: Feed)
    requires account < |s.accounts| && NamedFeed(feed)
    ensures AllWellNamed(Discovering(s, account, feed))
  {
    if feed.listing.Listed? {
      DiscoveringAllIsNamed(s, account, feed.listing.entries);
    }
  }

  lemma VisitingIsNamed(s: State, account: nat, w: World)
    requires Durable(s) && account < |s.accounts| && NamedRows(s) && NamedFeed(w.feed(account))
    ensures AllWellNamed(Visiting(s, account, w))
  {
    var feed, gates := w.feed(account), w.gate(account);
    var t := Discover(s, account, feed);
    DiscoveringIsNamed(s, account, feed);
    DiscoveringIs(s, account, feed);
    PerformedIsDurable(s, Discovering(s, account, feed), t);
    RunKeepsNames(s, Discovering(s, account, feed));
    AttemptingAllIsNamed(t, PendingRows(t.videos, account), account, w.override, w.work);
    NamedAppend(Discovering(s, account, feed), Downloading(t, account, gates, w.override, w.work));
  }

  lemma {:induction false} VisitingAllIsNamed(s: State, accounts: seq<nat>, w: World)
    requires Durable(s) && (forall i :: 0 <= i < |accounts| ==> accounts[i] < |s.accounts|) && NamedRows(s)
    requires forall a :: NamedFeed(w.feed(a))
    ensures AllWellNamed(VisitingAll(s, accounts, w))
    decreases |accounts|
  {
    if accounts != [] {
      var t := Visit(s, accounts[0], w);
      VisitingIsNamed(s, accounts[0], w);
      VisitingIs(s, accounts[0], w);
      PerformedIsDurable(s, Visiting(s, accounts[0], w), t);
      RunKeepsNames(s, Visiting(s, accounts[0], w));
      VisitingAllIsNamed(t, accounts[1..], w);
      NamedAppend(Visiting(s, accounts[0], w), VisitingAll(t, accounts[1..], w));
    }
  }

  lemma {:induction false} RequeueingAllIsNamed(s: State, rows: seq<nat>)
    requires InRange(s, rows)
    ensures AllWellNamed(RequeueingAll(s, rows))
    decreases |rows|
  {
    if rows != [] {
      RequeueingAllIsNamed(Requeue(s, rows[0]), rows[1..]);
      NamedAppend(Requeueing(s, rows[0]), RequeueingAll(Requeue(s, rows[0]), rows[1..]));
    }
  }

  lemma {:induction false} RetryingIsNamed(s: State, accounts: seq<nat>)
    ensures AllWellNamed(Retrying(s, accounts))
    decreases |accounts|
  {
    if accounts != [] {
      var rows := RetriableRows(s.videos, accounts[0]);
      RequeueingAllIsNamed(s, rows);
      RetryingIsNamed(RequeueAll(s, rows), accounts[1..]);
      NamedAppend(RequeueingAll(s, rows), Retrying(RequeueAll(s, rows), accounts[1..]));
    }
  }

  /** The ids the feed and the engine hand to a pass are non-empty words. */
  ghost predicate NamedPass(pass: Pass) {
    match pass
    case MonitorCycle(w) => forall a :: NamedFeed(w.feed(a))
    case BackfillEntry(_, entry, _, _) => A.IsId(entry.id)
    case RetryFailed(_) => true
    case Recorded(id) => A.IsId(id)
  }

  lemma StatementsAreNamed(s: State, pass: Pass)
    requires Durable(s) && NamedRows(s) && NamedPass(pass) && (pass.BackfillEntry? ==> pass.account < |s.accounts|)
    ensures AllWellNamed(Statements(s, pass))
  {
    match pass
    case MonitorCycle(w) => VisitingAllIsNamed(s, Active(s.accounts, 0), w);
    case BackfillEntry(account, entry, work, override) => BackfillingOneIsNamed(s, account, entry, work, override);
    case RetryFailed(accounts) => RetryingIsNamed(s, accounts);
    case Recorded(id) =>
  }

  lemma BackfillingOneIsNamed(s: State, account: nat, e: Entry, work: Work, override: bool)
    requires A.IsId(e.id)
    ensures AllWellNamed(BackfillingOne(s, account, e, work, override))
  {
    match Find(s.videos, e.id, 0)
    case Some(row) => AttemptingIsNamed(row, e.id, account, e.timed, work, override);
    case None =>
      AttemptingIsNamed(|s.videos|, e.id, account, e.timed, work, override);
      NamedAppend([InsertRow(NewRow(account, e))], Attempting(|s.videos|, e.id, account, e.timed, work, override));
  }

  // ---------------------------------------------------------------- killed inside a remove

  /** The death leaves a staged text without its end. */
  predicate Tears(disk: A.Disk, id: string, death: A.Death) {
    A.Finds(A.Lines(A.Content(disk)), id) && death.Staging? && death.written < |A.Remaining(disk, id)|
  }

  function Recovered(disk: A.Disk, id: string, death: A.Death): A.Disk {
    A.AfterRecovery(A.AfterRemove(disk, id, death))
  }

  /** Outside that window the next process finds the id removed, or still there, and nothing else touched. */
  lemma UntornIsAllOrNothing(disk: A.Disk, id: string, death: A.Death)
    requires A.Tidy(disk) && !Tears(disk, id, death)
    ensures Recovered(disk, id, death) == if death.Unstaged? then disk else A.AfterRemove(disk, id, A.Survives)
  {
    A.CrashIsInvisible(disk, id, death);
  }

  /**
   After a death inside a remove every skipped row is still listed exactly when the staged text was not torn, or
   each skipped row's id stands in the part that was staged: on a whole line, or on a cut one that still reads as it.
   */
  lemma DeathKeepsSkipped(s: State, disk: A.Disk, id: string, death: A.Death)
    requires Linked(s, disk) && SkippedAreArchived(s) && Unskipped(s, id)
    ensures SkippedAreOnFile(s, Recovered(disk, id, death)) <==>
      (Tears(disk, id, death) ==>
        forall i :: 0 <= i < |s.videos| && s.videos[i].status == Skipped ==>
          s.videos[i].id in A.Ids(A.StagedLines(A.Kept(A.Lines(A.Content(disk)), id), death.written)))
  {
    if Tears(disk, id, death) {
      A.TornTextReads(disk, id, death.written);
    } else {
      UntornIsAllOrNothing(disk, id, death);
      A.RemoveStaysTidy(disk, id);
      A.WithoutIs(A.Ids(A.Lines(A.Content(disk))), id);
    }
  }

  /** Dying at the first staged byte forgets every skipped row. */
  lemma EmptyStagingForgetsAll(s: State, disk: A.Disk, id: string)
    requires Linked(s, disk) && SkippedAreArchived(s) && Unskipped(s, id) && Tears(disk, id, A.Staging(0))
    ensures SkippedAreOnFile(s, Recovered(disk, id, A.Staging(0))) <==>
      forall i :: 0 <= i < |s.videos| ==> s.videos[i].status != Skipped
  {
    DeathKeepsSkipped(s, disk, id, A.Staging(0));
  }

  // ---------------------------------------------------------------- whole histories over the file

  /** The tables and the archive file. */
  datatype Machine = Machine(tables: State, disk: A.Disk)

  /** A pass, how many of its statements are executed, and whether it is killed inside the next one. */
  datatype StoppedPass = StoppedPass(pass: Pass, after: nat, inside: Option<A.Death>)

  ghost predicate Fits(m: Machine, p: StoppedPass) {
    p.pass.BackfillEntry? ==> p.pass.account < |m.tables.accounts|
  }

  ghost function Done(m: Machine, p: StoppedPass): seq<Statement>
    requires Fits(m, p)
  {
    var sts := Statements(m.tables, p.pass);
    if p.after < |sts| then sts[..p.after] else sts
  }

  /** The tables and the file when the pass comes to its last statement. */
  ghost function AtStop(m: Machine, p: StoppedPass): Machine
    requires Fits(m, p)
  {
    Machine(Run(m.tables, Done(m, p)), WriteDiskAll(m.disk, Done(m, p)))
  }

  /** The id whose remove the kill interrupts, if it does. */
  ghost function Interrupted(m: Machine, p: StoppedPass): Option<string>
    requires Fits(m, p)
  {
    var sts := Statements(m.tables, p.pass);
    if p.inside.Some? && p.after < |sts| && sts[p.after].EditArchive? && !sts[p.after].listed then Some(sts[p.after].id) else None
  }

  /** The next process recovers the file and goes by what it then says. */
  ghost function PlayStopped(m: Machine, p: StoppedPass): (t: Machine)
    requires Fits(m, p)
    ensures |t.tables.accounts| == |m.tables.accounts|
  {
    var stop, id := AtStop(m, p), Interrupted(m, p);
    StatementsKeepAccounts(m.tables, Done(m, p));
    if id.None? then stop
    else
      var disk := Recovered(stop.disk, id.value, p.inside.value);
      Machine(stop.tables.(archive := OnFile(disk)), disk)
  }

  ghost predicate Untorn(m: Machine, p: StoppedPass)
    requires Fits(m, p)
  {
    Interrupted(m, p).Some? ==> !Tears(AtStop(m, p).disk, Interrupted(m, p).value, p.inside.value)
  }

  /** What holds of the tables and the file at rest: the file lists every skipped row. */
  ghost predicate Rests(m: Machine) {
    Durable(m.tables) && Linked(m.tables, m.disk) && NamedRows(m.tables)
  }

  lemma RestingFileListsSkipped(m: Machine)
    requires Rests(m)
    ensures SkippedAreOnFile(m.tables, m.disk)
  {
  }

  lemma StopRests(m: Machine, p: StoppedPass)
    requires Rests(m) && Fits(m, p) && NamedPass(p.pass)
    ensures Rests(AtStop(m, p))
    ensures Interrupted(m, p).Some? ==> Unskipped(AtStop(m, p).tables, Interrupted(m, p).value)
  {
    var sts, done := Statements(m.tables, p.pass), Done(m, p);
    PassIsItsStatements(m.tables, p.pass);
    StatementsAreNamed(m.tables, p.pass);
    assert sts[..|sts|] == sts;
    PrefixKeeps(m.tables, sts, |done|);
    assert forall st :: st in done ==> st in sts;
    RunStaysLinked(m.tables, m.disk, done);
    RunKeepsNames(m.tables, done);
    if p.after < |sts| {
      AllowedAt(m.tables, sts, p.after);
    }
  }

  lemma AllowedAt(s: State, sts: seq<Statement>, n: nat)
    requires AllAllowed(s, sts) && n < |sts|
    ensures Allowed(Run(s, sts[..n]), sts[n])
  {
    assert sts[..n] + sts[n..] == sts;
    RunAppend(s, sts[..n], sts[n..]);
  }

  lemma StoppedPassRests(m: Machine, p: StoppedPass)
    requires Rests(m) && Fits(m, p) && NamedPass(p.pass) && Untorn(m, p)
    ensures Rests(PlayStopped(m, p))
  {
    var stop := AtStop(m, p);
    StopRests(m, p);
    if Interrupted(m, p).Some? {
      var id := Interrupted(m, p).value;
      UntornIsAllOrNothing(stop.disk, id, p.inside.value);
      StatementStaysLinked(stop.tables, stop.disk, EditArchive(id, false));
      StatementKeeps(stop.tables, EditArchive(id, false));
    }
  }

  ghost predicate AllFit(m: Machine, ps: seq<StoppedPass>) {
    forall p :: p in ps ==> Fits(m, p)
  }

  lemma RestFits(m: Machine, ps: seq<StoppedPass>)
    requires AllFit(m, ps) && ps != []
    ensures Fits(m, ps[0]) && AllFit(PlayStopped(m, ps[0]), ps[1..])
  {
    assert ps[0] in ps && forall p :: p in ps[1..] ==> p in ps;
  }

  ghost function PlayAllStopped(m: Machine, ps: seq<StoppedPass>): Machine
    requires AllFit(m, ps)
    decreases |ps|
  {
    if ps == [] then m else
    RestFits(m, ps);
    PlayAllStopped(PlayStopped(m, ps[0]), ps[1..])
  }

  ghost predicate AllUntorn(m: Machine, ps: seq<StoppedPass>)
    requires AllFit(m, ps)
    decreases |ps|
  {
    if ps == [] then true else
    RestFits(m, ps);
    Untorn(m, ps[0]) && AllUntorn(PlayStopped(m, ps[0]), ps[1..])
  }

  /**
   Over every history of non-overlapping passes, each stopped between two of its statements or killed inside a remove
   of the archive file, the file lists every skipped row, as long as no kill leaves a staged text torn.
   */
  lemma {:induction false} StoppedHistoryRests(m: Machine, ps: seq<StoppedPass>)
    requires Rests(m) && AllFit(m, ps) && (forall p :: p in ps ==> NamedPass(p.pass)) && AllUntorn(m, ps)
    ensures Rests(PlayAllStopped(m, ps)) && SkippedAreOnFile(PlayAllStopped(m, ps).tables, PlayAllStopped(m, ps).disk)
    decreases |ps|
  {
    if ps == [] {
      RestingFileListsSkipped(m);
    } else {
      RestFits(m, ps);
      assert ps[0] in ps && forall p :: p in ps[1..] ==> p in ps;
      StoppedPassRests(m, ps[0]);
      StoppedHistoryRests(PlayStopped(m, ps[0]), ps[1..]);
    }
  }
}
