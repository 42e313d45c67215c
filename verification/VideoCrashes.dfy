/**
 The passes of the video services cut into their single writes: an archive edit, a commit, an event. A cancelled
 task or a killed process stops between two of them, and what the tables and the archive promise holds there too.
 */
module VideoCrashes {
  import opened Prelude
  import opened VideoStatus
  import Errors
  import opened Videos

  datatype Statement =
    | EditArchive(id: string, listed: bool)
    | CountZombie
    | PauseDownloads
    | StopMonitoring
    | Announce(event: Event)
    | CommitRow(row: nat, status: Status, category: Stored, size: nat, bump: Option<nat>)
    | InsertRow(inserted: Row)
    | ResetRow(row: nat)
    | WriteAccount(account: nat, columns: Account)

  function Exec(s: State, st: Statement): State {
    match st
    case EditArchive(id, listed) => s.(archive := if listed then s.archive + {id} else s.archive - {id})
    case CountZombie => s.(zombies := s.zombies + 1)
    case PauseDownloads => s.(downloadsPaused := true)
    case StopMonitoring => s.(monitorRunning := false)
    case Announce(event) => s.(events := s.events + [event])
    case CommitRow(row, status, category, size, bump) =>
      if row < |s.videos| && (bump.Some? ==> bump.value < |s.accounts|)
      then Persist(s, row, status, category, size, bump, None).(events := s.events) else s
    case InsertRow(r) => s.(videos := s.videos + [r])
    case ResetRow(row) =>
      if row < |s.videos| && s.videos[row].status == Failed
      then s.(videos := s.videos[row := s.videos[row].(status := Pending)]) else s
    case WriteAccount(account, columns) =>
      if account < |s.accounts| then s.(accounts := s.accounts[account := columns]) else s
  }

  function Run(s: State, sts: seq<Statement>): State
    decreases |sts|
  {
    if sts == [] then s else Run(Exec(s, sts[0]), sts[1..])
  }

  // ---------------------------------------------------------------- what holds between any two statements

  /** What the database and the archive promise at rest, whoever died on the way. */
  ghost predicate Durable(s: State) {
    Unique(s.videos) && TotalBytes(s.accounts) == TotalSize(s.videos) && SkippedAreArchived(s)
  }

  /** No skipped row carries the id. */
  ghost predicate Unskipped(s: State, id: string) {
    forall i :: 0 <= i < |s.videos| && s.videos[i].id == id ==> s.videos[i].status != Skipped
  }

  /** A pass writes of an account the time of its check and, if need be, the review flag. */
  predicate OnlyRaises(before: Account, after: Account) {
    && (before.needsReview ==> after.needsReview)
    && after == before.(lastCheck := after.lastCheck, needsReview := after.needsReview)
  }

  ghost predicate Allowed(s: State, st: Statement) {
    match st
    case EditArchive(id, listed) => listed || Unskipped(s, id)
    case CommitRow(row, status, _, _, bump) =>
      && row < |s.videos| && s.videos[row].status != Downloaded
      && (status == Downloaded <==> bump.Some?) && (bump.Some? ==> bump.value < |s.accounts|)
      && (status == Skipped ==> s.videos[row].id in s.archive)
    case InsertRow(r) => r.status == Pending && Find(s.videos, r.id, 0).None?
    case WriteAccount(account, columns) => account < |s.accounts| && OnlyRaises(s.accounts[account], columns)
    case _ => true
  }

  ghost predicate AllAllowed(s: State, sts: seq<Statement>)
    decreases |sts|
  {
    sts == [] || (Allowed(s, sts[0]) && AllAllowed(Exec(s, sts[0]), sts[1..]))
  }

  lemma StatementKeeps(s: State, st: Statement)
    requires Durable(s) && Allowed(s, st)
    ensures Durable(Exec(s, st))
  {
    match st
    case CommitRow(_, _, _, _, _) => CommitKeeps(s, st);
    case InsertRow(r) => NewRowWeighsNothing(s.videos, r);
    case ResetRow(row) =>
      if row < |s.videos| && s.videos[row].status == Failed {
        RowWeighs(s.videos, row, s.videos[row].(status := Pending));
      }
    case WriteAccount(account, columns) => FlagsWeighNothing(s.accounts, account, columns);
    case _ =>
  }

  lemma CommitKeeps(s: State, st: Statement)
    requires Durable(s) && st.CommitRow? && Allowed(s, st)
    ensures Durable(Exec(s, st))
  {
    RowWeighs(s.videos, st.row, Exec(s, st).videos[st.row]);
    if st.bump.Some? {
      BumpAdds(s.accounts, st.bump.value, st.size);
    }
  }

  /** Every prefix of allowed statements leaves a durable state. */
  lemma {:induction false} PrefixKeeps(s: State, sts: seq<Statement>, n: nat)
    requires Durable(s) && AllAllowed(s, sts) && n <= |sts|
    ensures Durable(Run(s, sts[..n]))
    decreases |sts|
  {
    if n > 0 {
      StatementKeeps(s, sts[0]);
      PrefixKeeps(Exec(s, sts[0]), sts[1..], n - 1);
      assert sts[..n][1..] == sts[1..][..n - 1];
    }
  }

  /** Each terminal commit is followed at once by its outcome event, and no outcome event stands elsewhere. */
  predicate Paired(sts: seq<Statement>)
    decreases |sts|
  {
    if sts == [] then true
    else if sts[0].CommitRow? then
      |sts| > 1 && sts[1].Announce? && sts[1].event.Outcome? && sts[1].event.status == sts[0].status && Paired(sts[2..])
    else !(sts[0].Announce? && sts[0].event.Outcome?) && Paired(sts[1..])
  }

  lemma CommitBooks(s: State, st: Statement)
    requires st.CommitRow? && Allowed(s, st)
    ensures var t := Exec(s, st); Committed(t.commits) == Committed(s.commits) + [st.status] && t.events == s.events
  {
    assert Exec(s, st).commits[..|s.commits|] == s.commits;
  }

  lemma OutcomeBooks(s: State, e: Event)
    requires e.Outcome?
    ensures var t := Exec(s, Announce(e)); Announced(t.events) == Announced(s.events) + [e.status] && t.commits == s.commits
  {
    assert Exec(s, Announce(e)).events[..|s.events|] == s.events;
  }

  lemma QuietBooks(s: State, st: Statement)
    requires !st.CommitRow? && !(st.Announce? && st.event.Outcome?)
    ensures var t := Exec(s, st); Announced(t.events) == Announced(s.events) && t.commits == s.commits
  {
    if st.Announce? {
      assert Exec(s, st).events[..|s.events|] == s.events;
    }
  }

  lemma RunHead(s: State, sts: seq<Statement>, n: nat)
    requires 0 < n <= |sts|
    ensures Run(s, sts[..n]) == Run(Exec(s, sts[0]), sts[1..][..n - 1])
  {
    assert sts[..n][1..] == sts[1..][..n - 1];
  }

  lemma RunNothing(s: State, sts: seq<Statement>)
    ensures Run(s, sts[..0]) == s
  {
  }

  /** Stopped anywhere, a pass has announced all its commits, or all but the one it has just made. */
  ghost predicate Told(t: State) {
    || Announced(t.events) == Committed(t.commits)
    || (t.commits != [] && Committed(t.commits) == Announced(t.events) + [t.commits[|t.commits| - 1].status])
  }

  lemma {:induction false} AtMostOneUnannounced(s: State, sts: seq<Statement>, n: nat)
    requires Paired(sts) && AllAllowed(s, sts) && n <= |sts| && Announced(s.events) == Committed(s.commits)
    ensures Told(Run(s, sts[..n]))
    decreases |sts|, 1
  {
    if n == 0 {
      RunNothing(s, sts);
    } else if sts[0].CommitRow? {
      CommitIsTold(s, sts, n);
    } else {
      RunHead(s, sts, n);
      QuietBooks(s, sts[0]);
      AtMostOneUnannounced(Exec(s, sts[0]), sts[1..], n - 1);
    }
  }

  lemma {:induction false} CommitIsTold(s: State, sts: seq<Statement>, n: nat)
    requires Paired(sts) && AllAllowed(s, sts) && 0 < n <= |sts| && sts[0].CommitRow? && Announced(s.events) == Committed(s.commits)
    ensures Told(Run(s, sts[..n]))
    decreases |sts|, 0
  {
    var t := Exec(s, sts[0]);
    RunHead(s, sts, n);
    CommitBooks(s, sts[0]);
    if n == 1 {
      RunNothing(t, sts[1..]);
    } else {
      RunHead(t, sts[1..], n - 1);
      OutcomeBooks(t, sts[1].event);
      assert sts[1..][1..] == sts[2..];
      AtMostOneUnannounced(Exec(t, sts[1]), sts[2..], n - 2);
    }
  }

  // ---------------------------------------------------------------- sequences of statements

  /** The statements are allowed and properly paired, and lead from `s` to `t`. */
  ghost predicate Performs(s: State, sts: seq<Statement>, t: State) {
    Run(s, sts) == t && AllAllowed(s, sts) && Paired(sts)
  }

  lemma {:induction false} PairedAppend(a: seq<Statement>, b: seq<Statement>)
    requires Paired(a) && Paired(b)
    ensures Paired(a + b)
    decreases |a|
  {
    if a == [] {
      assert a + b == b;
    } else if a[0].CommitRow? {
      assert (a + b)[2..] == a[2..] + b;
      PairedAppend(a[2..], b);
    } else {
      assert (a + b)[1..] == a[1..] + b;
      PairedAppend(a[1..], b);
    }
  }

  lemma {:induction false} RunAppend(s: State, a: seq<Statement>, b: seq<Statement>)
    ensures Run(s, a + b) == Run(Run(s, a), b)
    ensures AllAllowed(s, a + b) <==> AllAllowed(s, a) && AllAllowed(Run(s, a), b)
    decreases |a|
  {
    if a == [] {
      assert a + b == b;
    } else {
      assert (a + b)[1..] == a[1..] + b;
      RunAppend(Exec(s, a[0]), a[1..], b);
    }
  }

  lemma InTurn(s: State, a: seq<Statement>, t: State, b: seq<Statement>, u: State)
    requires Performs(s, a, t) && Performs(t, b, u)
    ensures Performs(s, a + b, u)
  {
    RunAppend(s, a, b);
    PairedAppend(a, b);
  }

  lemma Nothing(s: State)
    ensures Performs(s, [], s)
  {
  }

  lemma OneStatement(s: State, st: Statement)
    requires Allowed(s, st) && !st.CommitRow? && !(st.Announce? && st.event.Outcome?)
    ensures Performs(s, [st], Exec(s, st))
  {
    assert [st][1..] == [];
  }

  lemma PerformedIsDurable(s: State, sts: seq<Statement>, t: State)
    requires Durable(s) && Performs(s, sts, t)
    ensures Durable(t)
  {
    PrefixKeeps(s, sts, |sts|);
    assert sts[..|sts|] == sts;
  }

  // ---------------------------------------------------------------- one attempt, statement by statement

  function Persisting(row: nat, status: Status, category: Stored, size: nat, bump: Option<nat>, video: Option<string>): seq<Statement> {
    [CommitRow(row, status, category, size, bump), Announce(Outcome(status, video, category))]
  }

  lemma PersistingIs(s: State, row: nat, status: Status, category: Stored, size: nat, bump: Option<nat>, video: Option<string>)
    requires Allowed(s, CommitRow(row, status, category, size, bump))
    ensures Performs(s, Persisting(row, status, category, size, bump, video), Persist(s, row, status, category, size, bump, video))
  {
    var sts := Persisting(row, status, category, size, bump, video);
    var t := Exec(s, sts[0]);
    assert sts[1..] == [sts[1]] && sts[1..][1..] == [] && sts[2..] == [];
    assert Exec(t, sts[1]) == Persist(s, row, status, category, size, bump, video);
    assert Run(t, [sts[1]]) == Exec(t, sts[1]) && AllAllowed(t, [sts[1]]);
    assert Paired(sts[2..]);
  }

  function Failing(row: nat, why: Errors.Category): seq<Statement> {
    (if why.Local? then [PauseDownloads] + [Announce(DiskPaused)] else []) + Persisting(row, Failed, StoredAs(why), 0, None, None)
  }

  lemma FailingIs(s: State, row: nat, why: Errors.Category)
    requires row < |s.videos| && s.videos[row].status != Downloaded
    ensures Performs(s, Failing(row, why), Fail(s, row, why))
  {
    var before := if why.Local? then [PauseDownloads] + [Announce(DiskPaused)] else [];
    var t := if why.Local? then s.(downloadsPaused := true, events := s.events + [DiskPaused]) else s;
    if why.Local? {
      OneStatement(s, PauseDownloads);
      OneStatement(Exec(s, PauseDownloads), Announce(DiskPaused));
      InTurn(s, [PauseDownloads], Exec(s, PauseDownloads), [Announce(DiskPaused)], t);
    } else {
      Nothing(s);
    }
    PersistingIs(t, row, Failed, StoredAs(why), 0, None, None);
    InTurn(s, before, t, Persisting(row, Failed, StoredAs(why), 0, None, None), Fail(s, row, why));
  }

  function Handling(row: nat, check: Check, id: string, account: nat, expected: bool): seq<Statement> {
    if check.Unreadable? || check.size == 0 then Persisting(row, Failed, Integrity, 0, None, Some(id))
    else if check.probe.ProbeBroke? then []
    else if check.probe.hasVideo then Persisting(row, Downloaded, Uncategorised, check.size, Some(account), Some(id))
    else if expected then [EditArchive(id, false)] + Persisting(row, Failed, Integrity, 0, None, Some(id))
    else [EditArchive(id, true)] + Persisting(row, Skipped, Uncategorised, 0, None, Some(id))
  }

  lemma HandlingIs(s: State, row: nat, check: Check, account: nat, expected: bool)
    requires row < |s.videos| && account < |s.accounts| && s.videos[row].status != Downloaded && Unskipped(s, s.videos[row].id)
    ensures Performs(s, Handling(row, check, s.videos[row].id, account, expected),
                     Handle(s, row, check, s.videos[row].id, account, expected))
  {
    var id := s.videos[row].id;
    if check.Unreadable? || check.size == 0 {
      PersistingIs(s, row, Failed, Integrity, 0, None, Some(id));
    } else if check.probe.Probed? {
      if check.probe.hasVideo {
        PersistingIs(s, row, Downloaded, Uncategorised, check.size, Some(account), Some(id));
      } else {
        var edit := EditArchive(id, !expected);
        var status, category := if expected then Failed else Skipped, if expected then Integrity else Uncategorised;
        OneStatement(s, edit);
        PersistingIs(Exec(s, edit), row, status, category, 0, None, Some(id));
        InTurn(s, [edit], Exec(s, edit), Persisting(row, status, category, 0, None, Some(id)),
               Handle(s, row, check, id, account, expected));
      }
    }
  }

  function Recording(id: string, t: Try): seq<Statement> {
    if t.recorded then [EditArchive(id, true)] else []
  }

  function Fetching(id: string, tries: seq<Try>): seq<Statement>
    requires tries != []
    decreases |tries|
  {
    Recording(id, tries[0])
      + if tries[0].TimedOut? then [CountZombie]
        else if tries[0].Broke? && |tries| > 1 then [EditArchive(id, false)] + Fetching(id, tries[1..])
        else []
  }

  lemma {:induction false} FetchingIs(s: State, id: string, tries: seq<Try>)
    requires tries != [] && Unskipped(s, id)
    ensures Performs(s, Fetching(id, tries), Fetch(s, id, tries))
    decreases |tries|
  {
    var t := if tries[0].recorded then s.(archive := s.archive + {id}) else s;
    if tries[0].recorded {
      OneStatement(s, EditArchive(id, true));
    } else {
      Nothing(s);
    }
    assert Performs(s, Recording(id, tries[0]), t);
    var rest: seq<Statement> := [];
    Nothing(t);
    if tries[0].TimedOut? {
      rest := [CountZombie];
      OneStatement(t, CountZombie);
    } else if tries[0].Broke? && |tries| > 1 {
      var u := Exec(t, EditArchive(id, false));
      rest := [EditArchive(id, false)] + Fetching(id, tries[1..]);
      OneStatement(t, EditArchive(id, false));
      FetchingIs(u, id, tries[1..]);
      InTurn(t, [EditArchive(id, false)], u, Fetching(id, tries[1..]), Fetch(u, id, tries[1..]));
    }
    InTurn(s, Recording(id, tries[0]), t, rest, Fetch(s, id, tries));
  }

  function Concluding(row: nat, id: string, account: nat, expected: bool, last: Try, check: Check): seq<Statement> {
    if !last.Fetched? then Failing(row, last.why) else
    match Answer(check, expected)
    case Raised(why) => Failing(row, why)
    case _ => Handling(row, check, id, account, expected)
  }

  function Attempting(row: nat, id: string, account: nat, expected: bool, work: Work, override: bool): seq<Statement> {
    if work.NoSlot? then Failing(row, work.why) else
    var tries := Chain(work, override);
    Fetching(id, tries) + Concluding(row, id, account, expected, tries[Decider(tries)], work.check)
  }

  lemma ConcludingIs(s: State, row: nat, account: nat, expected: bool, last: Try, check: Check)
    requires row < |s.videos| && account < |s.accounts| && s.videos[row].status != Downloaded && Unskipped(s, s.videos[row].id)
    ensures Performs(s, Concluding(row, s.videos[row].id, account, expected, last, check), Conclude(s, row, account, expected, last, check))
  {
    if !last.Fetched? {
      FailingIs(s, row, last.why);
    } else if Answer(check, expected).Raised? {
      FailingIs(s, row, Answer(check, expected).why);
    } else {
      HandlingIs(s, row, check, account, expected);
    }
  }

  lemma AttemptingIs(s: State, row: nat, account: nat, expected: bool, work: Work, override: bool)
    requires Unique(s.videos) && row < |s.videos| && account < |s.accounts| && s.videos[row].status !in {Downloaded, Skipped}
    ensures Performs(s, Attempting(row, s.videos[row].id, account, expected, work, override),
                     Attempt(s, row, account, expected, work, override))
  {
    var id := s.videos[row].id;
    if work.NoSlot? {
      FailingIs(s, row, work.why);
    } else {
      var tries := Chain(work, override);
      var t, last := Fetch(s, id, tries), tries[Decider(tries)];
      FetchTouchesArchiveOnly(s, id, tries);
      FetchingIs(s, id, tries);
      ConcludingIs(t, row, account, expected, last, work.check);
      InTurn(s, Fetching(id, tries), t, Concluding(row, id, account, expected, last, work.check),
             Attempt(s, row, account, expected, work, override));
    }
  }

  // ---------------------------------------------------------------- whole passes, statement by statement

  ghost function AttemptingAll(s: State, rows: seq<nat>, account: nat, override: bool, work: nat -> Work): seq<Statement>
    requires InRange(s, rows) && account < |s.accounts|
    decreases |rows|
  {
    if rows == [] then [] else
    var r := s.videos[rows[0]];
    Attempting(rows[0], r.id, account, r.timed, work(rows[0]), override)
      + AttemptingAll(Attempt(s, rows[0], account, r.timed, work(rows[0]), override), rows[1..], account, override, work)
  }

  lemma {:induction false} AttemptingAllIs(s: State, rows: seq<nat>, account: nat, override: bool, work: nat -> Work)
    requires Durable(s) && Videos.Open(s, rows) && account < |s.accounts|
    ensures Performs(s, AttemptingAll(s, rows, account, override, work), AttemptAll(s, rows, account, override, work))
    decreases |rows|
  {
    if rows != [] {
      var row, rest := rows[0], rows[1..];
      var r := s.videos[row];
      var t := Attempt(s, row, account, r.timed, work(row), override);
      AttemptingIs(s, row, account, r.timed, work(row), override);
      PerformedIsDurable(s, Attempting(row, r.id, account, r.timed, work(row), override), t);
      AttemptMeans(s, row, account, r.timed, work(row), override);
      PassStep(s, t, rows, Verdict(work(row), override, r.timed), account, SizeOf(work(row)));
      AttemptingAllIs(t, rest, account, override, work);
      InTurn(s, Attempting(row, r.id, account, r.timed, work(row), override), t,
             AttemptingAll(t, rest, account, override, work), AttemptAll(s, rows, account, override, work));
    }
  }

  function DiscoveringOne(s: State, account: nat, e: Entry): seq<Statement> {
    if e.id == "" || Find(s.videos, e.id, 0).Some? then []
    else [InsertRow(NewRow(account, e))] + [Announce(Discovered(e.id))]
  }

  function NewRow(account: nat, e: Entry): Row {
    Row(e.id, account, e.timed, Pending, Uncategorised, 0, 0)
  }

  lemma DiscoveringOneIs(s: State, account: nat, e: Entry)
    ensures Performs(s, DiscoveringOne(s, account, e), DiscoverEntry(s, account, e))
  {
    if DiscoveringOne(s, account, e) == [] {
      Nothing(s);
    } else {
      var t := Exec(s, InsertRow(NewRow(account, e)));
      OneStatement(s, InsertRow(NewRow(account, e)));
      OneStatement(t, Announce(Discovered(e.id)));
      InTurn(s, [InsertRow(NewRow(account, e))], t, [Announce(Discovered(e.id))], DiscoverEntry(s, account, e));
    }
  }

  function DiscoveringAll(s: State, account: nat, entries: seq<Entry>): seq<Statement>
    decreases |entries|
  {
    if entries == [] then []
    else DiscoveringOne(s, account, entries[0]) + DiscoveringAll(DiscoverEntry(s, account, entries[0]), account, entries[1..])
  }

  lemma {:induction false} DiscoveringAllIs(s: State, account: nat, entries: seq<Entry>)
    ensures Performs(s, DiscoveringAll(s, account, entries), DiscoverAll(s, account, entries))
    decreases |entries|
  {
    if entries != [] {
      var t := DiscoverEntry(s, account, entries[0]);
      DiscoveringOneIs(s, account, entries[0]);
      DiscoveringAllIs(t, account, entries[1..]);
      InTurn(s, DiscoveringOne(s, account, entries[0]), t, DiscoveringAll(t, account, entries[1..]), DiscoverAll(s, account, entries));
    }
  }

  function Discovering(s: State, account: nat, feed: Feed): seq<Statement>
    requires account < |s.accounts|
  {
    var a := s.accounts[account];
    if Throttled(a, feed.start) then [] else
    match feed.listing
    case ListingBroke(why) =>
      if why.Info? then [WriteAccount(account, a.(lastCheck := Some(feed.finish)))]
      else if why.Definitive? then [WriteAccount(account, a.(needsReview := true))]
      else []
    case Listed(entries) =>
      DiscoveringAll(s, account, entries) + [WriteAccount(account, a.(lastCheck := Some(feed.finish)))]
  }

  lemma DiscoveringIs(s: State, account: nat, feed: Feed)
    requires account < |s.accounts|
    ensures Performs(s, Discovering(s, account, feed), Discover(s, account, feed))
  {
    var a := s.accounts[account];
    Nothing(s);
    OneStatement(s, WriteAccount(account, a.(lastCheck := Some(feed.finish))));
    OneStatement(s, WriteAccount(account, a.(needsReview := true)));
    if feed.listing.Listed? && !Throttled(a, feed.start) {
      var t := DiscoverAll(s, account, feed.listing.entries);
      var write := WriteAccount(account, a.(lastCheck := Some(feed.finish)));
      DiscoveringAllIs(s, account, feed.listing.entries);
      OneStatement(t, write);
      InTurn(s, DiscoveringAll(s, account, feed.listing.entries), t, [write], Discover(s, account, feed));
    }
  }

  function Stopping(): seq<Statement> {
    [StopMonitoring] + [Announce(NoCookies)]
  }

  lemma StoppingIs(s: State)
    ensures Performs(s, Stopping(), StopMonitor(s))
  {
    OneStatement(s, StopMonitoring);
    OneStatement(Exec(s, StopMonitoring), Announce(NoCookies));
    InTurn(s, [StopMonitoring], Exec(s, StopMonitoring), [Announce(NoCookies)], StopMonitor(s));
  }

  ghost function Downloading(s: State, account: nat, gates: Gates, override: bool, work: nat -> Work): seq<Statement>
    requires account < |s.accounts|
  {
    if !gates.cookie then Stopping()
    else if s.downloadsPaused || !gates.online then []
    else AttemptingAll(s, PendingRows(s.videos, account), account, override, work)
  }

  lemma DownloadingIs(s: State, account: nat, gates: Gates, override: bool, work: nat -> Work)
    requires Durable(s) && account < |s.accounts|
    ensures Performs(s, Downloading(s, account, gates, override, work), DownloadPendings(s, account, gates, override, work))
  {
    StoppingIs(s);
    Nothing(s);
    AttemptingAllIs(s, PendingRows(s.videos, account), account, override, work);
  }

  ghost function Visiting(s: State, account: nat, w: World): seq<Statement>
    requires account < |s.accounts|
  {
    Discovering(s, account, w.feed(account))
      + Downloading(Discover(s, account, w.feed(account)), account, w.gate(account), w.override, w.work)
  }

  lemma VisitingIs(s: State, account: nat, w: World)
    requires Durable(s) && account < |s.accounts|
    ensures Performs(s, Visiting(s, account, w), Visit(s, account, w))
  {
    var t := Discover(s, account, w.feed(account));
    DiscoveringIs(s, account, w.feed(account));
    PerformedIsDurable(s, Discovering(s, account, w.feed(account)), t);
    DownloadingIs(t, account, w.gate(account), w.override, w.work);
    InTurn(s, Discovering(s, account, w.feed(account)), t,
           Downloading(t, account, w.gate(account), w.override, w.work), Visit(s, account, w));
  }

  ghost function VisitingAll(s: State, accounts: seq<nat>, w: World): seq<Statement>
    requires forall i :: 0 <= i < |accounts| ==> accounts[i] < |s.accounts|
    decreases |accounts|
  {
    if accounts == [] then []
    else Visiting(s, accounts[0], w) + VisitingAll(Visit(s, accounts[0], w), accounts[1..], w)
  }

  lemma {:induction false} VisitingAllIs(s: State, accounts: seq<nat>, w: World)
    requires Durable(s) && forall i :: 0 <= i < |accounts| ==> accounts[i] < |s.accounts|
    ensures Performs(s, VisitingAll(s, accounts, w), VisitAll(s, accounts, w))
    decreases |accounts|
  {
    if accounts != [] {
      var t := Visit(s, accounts[0], w);
      VisitingIs(s, accounts[0], w);
      PerformedIsDurable(s, Visiting(s, accounts[0], w), t);
      VisitingAllIs(t, accounts[1..], w);
      InTurn(s, Visiting(s, accounts[0], w), t, VisitingAll(t, accounts[1..], w), VisitAll(s, accounts, w));
    }
  }

  function Requeueing(s: State, row: nat): seq<Statement>
    requires row < |s.videos|
  {
    [EditArchive(s.videos[row].id, false)] + [ResetRow(row)]
  }

  ghost function RequeueingAll(s: State, rows: seq<nat>): seq<Statement>
    requires InRange(s, rows)
    decreases |rows|
  {
    if rows == [] then [] else Requeueing(s, rows[0]) + RequeueingAll(Requeue(s, rows[0]), rows[1..])
  }

  lemma RequeueingIs(s: State, row: nat)
    requires Unique(s.videos) && row < |s.videos| && s.videos[row].status == Failed
    ensures Performs(s, Requeueing(s, row), Requeue(s, row))
  {
    var edit := EditArchive(s.videos[row].id, false);
    OneStatement(s, edit);
    OneStatement(Exec(s, edit), ResetRow(row));
    InTurn(s, [edit], Exec(s, edit), [ResetRow(row)], Requeue(s, row));
  }

  lemma {:induction false} RequeueingAllIs(s: State, rows: seq<nat>)
    requires Durable(s) && InRange(s, rows) && forall i :: 0 <= i < |rows| ==> s.videos[rows[i]].status == Failed
    requires forall i, j :: 0 <= i < j < |rows| ==> rows[i] < rows[j]
    ensures Performs(s, RequeueingAll(s, rows), RequeueAll(s, rows))
    decreases |rows|
  {
    if rows != [] {
      var t := Requeue(s, rows[0]);
      RequeueingIs(s, rows[0]);
      PerformedIsDurable(s, Requeueing(s, rows[0]), t);
      RequeueingAllIs(t, rows[1..]);
      InTurn(s, Requeueing(s, rows[0]), t, RequeueingAll(t, rows[1..]), RequeueAll(s, rows));
    }
  }

  ghost function Retrying(s: State, accounts: seq<nat>): seq<Statement>
    decreases |accounts|
  {
    if accounts == [] then [] else
    var rows := RetriableRows(s.videos, accounts[0]);
    RequeueingAll(s, rows) + Retrying(RequeueAll(s, rows), accounts[1..])
  }

  lemma {:induction false} RetryingIs(s: State, accounts: seq<nat>)
    requires Durable(s)
    ensures Performs(s, Retrying(s, accounts), Retry(s, accounts))
    decreases |accounts|
  {
    if accounts != [] {
      var rows := RetriableRows(s.videos, accounts[0]);
      var t := RequeueAll(s, rows);
      RequeueingAllIs(s, rows);
      PerformedIsDurable(s, RequeueingAll(s, rows), t);
      RetryingIs(t, accounts[1..]);
      InTurn(s, RequeueingAll(s, rows), t, Retrying(t, accounts[1..]), Retry(s, accounts));
    }
  }

  function BackfillingOne(s: State, account: nat, e: Entry, work: Work, override: bool): seq<Statement> {
    match Find(s.videos, e.id, 0)
    case Some(row) => if Terminal(s.videos[row].status) then [] else Attempting(row, e.id, account, e.timed, work, override)
    case None => [InsertRow(NewRow(account, e))] + Attempting(|s.videos|, e.id, account, e.timed, work, override)
  }

  lemma BackfillingOneIs(s: State, account: nat, e: Entry, work: Work, override: bool)
    requires Durable(s) && account < |s.accounts|
    ensures Performs(s, BackfillingOne(s, account, e, work, override), BackfillVideo(s, account, e, work, override))
  {
    match Find(s.videos, e.id, 0)
    case Some(row) =>
      if Terminal(s.videos[row].status) {
        Nothing(s);
      } else {
        AttemptingIs(s, row, account, e.timed, work, override);
      }
    case None =>
      var insert := InsertRow(NewRow(account, e));
      OneStatement(s, insert);
      AttemptingIs(Exec(s, insert), |s.videos|, account, e.timed, work, override);
      InTurn(s, [insert], Exec(s, insert), Attempting(|s.videos|, e.id, account, e.timed, work, override),
             BackfillVideo(s, account, e, work, override));
  }

  // ---------------------------------------------------------------- histories with kills

  ghost function Statements(s: State, pass: Pass): seq<Statement>
    requires pass.BackfillEntry? ==> pass.account < |s.accounts|
  {
    match pass
    case MonitorCycle(w) =>
      if !w.gates.cookie then Stopping()
      else if s.downloadsPaused || !w.gates.online then []
      else VisitingAll(s, Active(s.accounts, 0), w)
    case BackfillEntry(account, entry, work, override) => BackfillingOne(s, account, entry, work, override)
    case RetryFailed(accounts) => Retrying(s, accounts)
    case Recorded(id) => [EditArchive(id, true)]
  }

  /** A pass is the run of its statements, each allowed where it comes, each commit with its event. */
  lemma PassIsItsStatements(s: State, pass: Pass)
    requires Durable(s) && (pass.BackfillEntry? ==> pass.account < |s.accounts|)
    ensures Performs(s, Statements(s, pass), PlayOne(s, pass))
  {
    match pass
    case MonitorCycle(w) =>
      StoppingIs(s);
      Nothing(s);
      VisitingAllIs(s, Active(s.accounts, 0), w);
    case BackfillEntry(account, entry, work, override) => BackfillingOneIs(s, account, entry, work, override);
    case RetryFailed(accounts) => RetryingIs(s, accounts);
    case Recorded(id) => OneStatement(s, EditArchive(id, true));
  }

  /** A pass and how many of its statements are executed before it is cancelled or killed. */
  datatype CutPass = CutPass(pass: Pass, after: nat)

  ghost function PlayCut(s: State, cut: CutPass): State
    requires cut.pass.BackfillEntry? ==> cut.pass.account < |s.accounts|
  {
    var sts := Statements(s, cut.pass);
    Run(s, if cut.after < |sts| then sts[..cut.after] else sts)
  }

  lemma {:induction false} StatementsKeepAccounts(s: State, sts: seq<Statement>)
    ensures |Run(s, sts).accounts| == |s.accounts|
    decreases |sts|
  {
    if sts != [] {
      StatementsKeepAccounts(Exec(s, sts[0]), sts[1..]);
    }
  }

  /** A cut pass leaves a durable state, and at most its last commit unannounced. */
  lemma CutPassIsDurable(s: State, cut: CutPass)
    requires Durable(s) && (cut.pass.BackfillEntry? ==> cut.pass.account < |s.accounts|)
    ensures Durable(PlayCut(s, cut)) && |PlayCut(s, cut).accounts| == |s.accounts|
    ensures Announced(s.events) == Committed(s.commits) ==> Told(PlayCut(s, cut))
  {
    var sts := Statements(s, cut.pass);
    var n := if cut.after < |sts| then cut.after else |sts|;
    PassIsItsStatements(s, cut.pass);
    PrefixKeeps(s, sts, n);
    StatementsKeepAccounts(s, sts[..n]);
    assert sts[..|sts|] == sts;
    if Announced(s.events) == Committed(s.commits) {
      AtMostOneUnannounced(s, sts, n);
    }
  }

  ghost function PlayAllCut(s: State, cuts: seq<CutPass>): State
    requires forall i :: 0 <= i < |cuts| && cuts[i].pass.BackfillEntry? ==> cuts[i].pass.account < |s.accounts|
    decreases |cuts|
  {
    if cuts == [] then s else
    var t := PlayCut(s, cuts[0]);
    StatementsKeepAccounts(s, var sts := Statements(s, cuts[0].pass); if cuts[0].after < |sts| then sts[..cuts[0].after] else sts);
    PlayAllCut(t, cuts[1..])
  }

  /** Over every history of non-overlapping passes, each cut off after any of its statements, the promises hold. */
  lemma {:induction false} CutHistoryIsDurable(s: State, cuts: seq<CutPass>)
    requires Durable(s)
    requires forall i :: 0 <= i < |cuts| && cuts[i].pass.BackfillEntry? ==> cuts[i].pass.account < |s.accounts|
    ensures Durable(PlayAllCut(s, cuts))
    decreases |cuts|
  {
    if cuts != [] {
      CutPassIsDurable(s, cuts[0]);
      CutHistoryIsDurable(PlayCut(s, cuts[0]), cuts[1..]);
    }
  }
}
