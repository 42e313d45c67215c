/**
 What the passes of the video services come to for one row and for one account, read off the outside answers and
 the columns: why an attempt failed and whether a retry takes the row, and whom a monitor cycle visits.
 */
module VideoResults {
  import opened Prelude
  import opened VideoStatus
  import Errors
  import opened Videos

  // ---------------------------------------------------------------- one attempt

  /** Why an attempt failed: an error, as it was classified, or a file that is not what it should be. */
  datatype Failure = Error(why: Errors.Category) | BadFile

  /** What is wrong with the file the engine delivered. */
  function WrongWith(check: Check, expected: bool): Option<Failure> {
    match check
    case Unreadable => Some(BadFile)
    case File(size, probe) =>
      if size == 0 then Some(BadFile) else
      match probe
      case ProbeBroke(why) => Some(Error(why))
      case Probed(hasVideo) => if !hasVideo && expected then Some(BadFile) else None
  }

  /** What goes wrong in an attempt; an override format has no fallback. */
  function FailureOf(work: Work, override: bool, expected: bool): Option<Failure> {
    match work
    case NoSlot(why) => Some(Error(why))
    case Work(first, second, check) =>
      match first
      case Fetched(_) => WrongWith(check, expected)
      case Unresolved(_, why) => Some(Error(why))
      case TimedOut(_, why) => Some(Error(why))
      case Broke(_, why) =>
        if override then Some(Error(why))
        else if second.Fetched? then WrongWith(check, expected)
        else Some(Error(second.why))
  }

  /** The file holds a video stream. */
  predicate HoldsVideo(work: Work) {
    work.Work? && work.check.File? && work.check.probe.Probed? && work.check.probe.hasVideo
  }

  lemma VerdictOfFailure(work: Work, override: bool, expected: bool)
    ensures var failure := FailureOf(work, override, expected);
      Verdict(work, override, expected) == if failure.Some? then Failed else if HoldsVideo(work) then Downloaded else Skipped
    ensures FailureOf(work, override, expected).None? && HoldsVideo(work) ==> SizeOf(work) == work.check.size
  {
  }

  lemma CategoryOfFailure(work: Work, override: bool, expected: bool)
    ensures var c, failure := Reason(work, override, expected), FailureOf(work, override, expected);
      && (c == Definitive <==> failure == Some(Error(Errors.Definitive)))
      && (c == Transient <==> failure == Some(Error(Errors.Transient)))
      && (c == Integrity <==> failure == Some(BadFile))
    ensures DiskFull(work, override) <==> FailureOf(work, override, expected) == Some(Error(Errors.Local))
  {
  }

  /** The row an attempt leaves: its status, the category of the failure, the bytes of the download, and the disk pause. */
  lemma AttemptResult(s: State, row: nat, account: nat, expected: bool, work: Work, override: bool)
    requires row < |s.videos| && account < |s.accounts|
    ensures var t, failure := Attempt(s, row, account, expected, work, override), FailureOf(work, override, expected);
      && |t.videos| == |s.videos| && t.videos[row].id == s.videos[row].id && t.videos[row].account == s.videos[row].account
      && t.videos[row].status == (if failure.Some? then Failed else if HoldsVideo(work) then Downloaded else Skipped)
      && (t.videos[row].category == Definitive <==> failure == Some(Error(Errors.Definitive)))
      && (t.videos[row].category == Transient <==> failure == Some(Error(Errors.Transient)))
      && (t.videos[row].category == Integrity <==> failure == Some(BadFile))
      && (t.downloadsPaused <==> s.downloadsPaused || failure == Some(Error(Errors.Local)))
      && (failure.None? && HoldsVideo(work) ==> t.videos[row].size == work.check.size)
  {
    VerdictOfFailure(work, override, expected);
    CategoryOfFailure(work, override, expected);
    AttemptMeans(s, row, account, expected, work, override);
    AttemptLeaves(s, row, account, expected, work, override);
  }

  /** What an attempt announces: a disk pause if the disk was full, then its outcome; an error is announced without the id. */
  lemma AttemptAnnounces(s: State, row: nat, account: nat, expected: bool, work: Work, override: bool)
    requires row < |s.videos| && account < |s.accounts|
    ensures var t, failure := Attempt(s, row, account, expected, work, override), FailureOf(work, override, expected);
      && |t.videos| == |s.videos|
      && t.events == s.events + (if failure == Some(Error(Errors.Local)) then [DiskPaused] else [])
        + [Outcome(t.videos[row].status, if failure.Some? && failure.value.Error? then None else Some(s.videos[row].id),
                   t.videos[row].category)]
  {
    if work.Work? {
      var id, tries := s.videos[row].id, Chain(work, override);
      FetchTouchesArchiveOnly(s, id, tries);
      DeciderIs(work, override);
      ConcludeAnnounces(Fetch(s, id, tries), row, account, expected, tries[Decider(tries)], work, override);
    }
  }

  lemma FailAnnounces(s: State, row: nat, why: Errors.Category)
    requires row < |s.videos|
    ensures var t := Fail(s, row, why);
      t.events == s.events + (if why.Local? then [DiskPaused] else []) + [Outcome(t.videos[row].status, None, t.videos[row].category)]
  {
  }

  lemma HandleAnnounces(s: State, row: nat, check: Check, account: nat, expected: bool)
    requires row < |s.videos| && account < |s.accounts| && Answer(check, expected).Settled?
    ensures var t := Handle(s, row, check, s.videos[row].id, account, expected);
      t.events == s.events + [] + [Outcome(t.videos[row].status, Some(s.videos[row].id), t.videos[row].category)]
  {
    assert s.events + [] == s.events;
  }

  lemma ConcludeAnnounces(s: State, row: nat, account: nat, expected: bool, last: Try, work: Work, override: bool)
    requires row < |s.videos| && account < |s.accounts| && work.Work?
    requires if Delivers(work, override) then last.Fetched? else last == Culprit(work, override)
    ensures var t, failure := Conclude(s, row, account, expected, last, work.check), FailureOf(work, override, expected);
      t.events == s.events + (if failure == Some(Error(Errors.Local)) then [DiskPaused] else [])
        + [Outcome(t.videos[row].status, if failure.Some? && failure.value.Error? then None else Some(s.videos[row].id),
                   t.videos[row].category)]
  {
    if !last.Fetched? {
      FailAnnounces(s, row, last.why);
    } else if Answer(work.check, expected).Raised? {
      FailAnnounces(s, row, Answer(work.check, expected).why);
    } else {
      HandleAnnounces(s, row, work.check, account, expected);
    }
  }

  /** A retry of its account makes the row pending if and only if the failure was transient or the file was bad. */
  lemma RetryTakesIff(s: State, row: nat, account: nat, expected: bool, work: Work, override: bool, accounts: seq<nat>)
    requires row < |s.videos| && account < |s.accounts| && s.videos[row].account in accounts
    ensures var t, failure := Attempt(s, row, account, expected, work, override), FailureOf(work, override, expected);
      Retry(t, accounts).videos[row].status == Pending <==> failure == Some(Error(Errors.Transient)) || failure == Some(BadFile)
  {
    AttemptResult(s, row, account, expected, work, override);
    RetryRow(Attempt(s, row, account, expected, work, override), accounts, row);
  }

  // ---------------------------------------------------------------- gates

  /** An account's closed gate: no row is attempted, and a missing cookie stops the monitor. */
  lemma ClosedGateDownloadsNothing(s: State, account: nat, gates: Gates, override: bool, work: nat -> Work)
    requires account < |s.accounts| && (!gates.cookie || !gates.online || s.downloadsPaused)
    ensures DownloadPendings(s, account, gates, override, work)
      == if gates.cookie then s else s.(monitorRunning := false, events := s.events + [NoCookies])
  {
  }

  /** Likewise for the gates before a whole cycle. */
  lemma ClosedGateStopsTheCycle(s: State, w: World)
    requires !w.gates.cookie || !w.gates.online || s.downloadsPaused
    ensures Cycle(s, w) == if w.gates.cookie then s else s.(monitorRunning := false, events := s.events + [NoCookies])
  {
  }

  // ---------------------------------------------------------------- one account in a cycle

  /** A visit of another account: neither the columns nor the rows of account `b` change, and none is added to it. */
  ghost predicate LeavesAlone(s: State, t: State, b: nat) {
    && |t.accounts| == |s.accounts| && (b < |s.accounts| ==> t.accounts[b] == s.accounts[b])
    && |s.videos| <= |t.videos|
    && (forall i :: 0 <= i < |s.videos| ==> t.videos[i].id == s.videos[i].id && t.videos[i].account == s.videos[i].account)
    && (forall i :: 0 <= i < |s.videos| && s.videos[i].account == b ==> t.videos[i] == s.videos[i])
    && (forall i :: |s.videos| <= i < |t.videos| ==> t.videos[i].account != b)
    && (s.downloadsPaused ==> t.downloadsPaused)
  }

  lemma LeftAloneTwice(s: State, t: State, u: State, b: nat)
    requires LeavesAlone(s, t, b) && LeavesAlone(t, u, b)
    ensures LeavesAlone(s, u, b)
  {
  }

  lemma AttemptLeavesAlone(s: State, row: nat, account: nat, expected: bool, work: Work, override: bool, b: nat)
    requires row < |s.videos| && account < |s.accounts| && s.videos[row].account != b && account != b
    ensures LeavesAlone(s, Attempt(s, row, account, expected, work, override), b)
  {
    AttemptMeans(s, row, account, expected, work, override);
    AttemptLeaves(s, row, account, expected, work, override);
  }

  lemma {:induction false} PassLeavesAlone(s: State, rows: seq<nat>, account: nat, override: bool, work: nat -> Work, b: nat)
    requires InRange(s, rows) && account < |s.accounts| && account != b
    requires forall i :: 0 <= i < |rows| ==> s.videos[rows[i]].account == account
    ensures LeavesAlone(s, AttemptAll(s, rows, account, override, work), b)
    decreases |rows|
  {
    if rows != [] {
      var r := s.videos[rows[0]];
      var t := Attempt(s, rows[0], account, r.timed, work(rows[0]), override);
      AttemptLeavesAlone(s, rows[0], account, r.timed, work(rows[0]), override, b);
      AttemptKeepsOwners(s, rows[0], account, r.timed, work(rows[0]), override);
      PassLeavesAlone(t, rows[1..], account, override, work, b);
      LeftAloneTwice(s, t, AttemptAll(s, rows, account, override, work), b);
    }
  }

  lemma AttemptKeepsOwners(s: State, row: nat, account: nat, expected: bool, work: Work, override: bool)
    requires row < |s.videos| && account < |s.accounts|
    ensures var t := Attempt(s, row, account, expected, work, override);
      |t.videos| == |s.videos| && forall i :: 0 <= i < |s.videos| ==> t.videos[i].account == s.videos[i].account
  {
    AttemptMeans(s, row, account, expected, work, override);
  }

  lemma DiscoverGrows(s: State, account: nat, feed: Feed)
    requires Sound(s) && account < |s.accounts|
    ensures var t := Discover(s, account, feed);
      && |s.videos| <= |t.videos| && t.downloadsPaused == s.downloadsPaused
      && (forall i :: 0 <= i < |s.videos| ==> t.videos[i] == s.videos[i])
      && (forall i :: |s.videos| <= i < |t.videos| ==> t.videos[i].account == account)
  {
    if feed.listing.Listed? {
      DiscoverAllMeans(s, account, feed.listing.entries);
      ListingTouchesNoSwitch(s, account, feed.listing.entries);
    }
  }

  lemma {:induction false} ListingTouchesNoSwitch(s: State, account: nat, entries: seq<Entry>)
    ensures DiscoverAll(s, account, entries).downloadsPaused == s.downloadsPaused
    decreases |entries|
  {
    if entries != [] {
      ListingTouchesNoSwitch(DiscoverEntry(s, account, entries[0]), account, entries[1..]);
    }
  }

  lemma VisitLeavesAlone(s: State, account: nat, w: World, b: nat)
    requires Sound(s) && account < |s.accounts| && account != b
    ensures LeavesAlone(s, Visit(s, account, w), b)
  {
    var t := Discover(s, account, w.feed(account));
    CheckedOnlyWhenCompleted(s, account, w.feed(account));
    DiscoverGrows(s, account, w.feed(account));
    PassLeavesAlone(t, PendingRows(t.videos, account), account, w.override, w.work, b);
    LeftAloneTwice(s, t, Visit(s, account, w), b);
  }

  lemma {:induction false} VisitsLeaveAlone(s: State, accounts: seq<nat>, w: World, b: nat)
    requires Sound(s) && b !in accounts && forall i :: 0 <= i < |accounts| ==> accounts[i] < |s.accounts|
    ensures LeavesAlone(s, VisitAll(s, accounts, w), b)
    decreases |accounts|
  {
    if accounts != [] {
      var t := Visit(s, accounts[0], w);
      assert accounts[0] in accounts && forall a :: a in accounts[1..] ==> a in accounts;
      VisitKeeps(s, accounts[0], w);
      VisitLeavesAlone(s, accounts[0], w, b);
      VisitsLeaveAlone(t, accounts[1..], w, b);
      LeftAloneTwice(s, t, VisitAll(s, accounts, w), b);
    }
  }

  /** An account not in monitor mode, paused or waiting for a review is left alone by every cycle. */
  lemma OthersAreLeftAlone(s: State, w: World, b: nat)
    requires Sound(s) && b < |s.accounts|
    requires !s.accounts[b].monitored || s.accounts[b].paused || s.accounts[b].needsReview
    ensures LeavesAlone(s, Cycle(s, w), b)
  {
    VisitsLeaveAlone(s, Active(s.accounts, 0), w, b);
  }

  /** What a visit leaves of its own account: the check's outcome in its columns, a row for every listed id. */
  ghost predicate Checked(s: State, t: State, account: nat, feed: Feed)
    requires account < |s.accounts| == |t.accounts|
  {
    var a, b := s.accounts[account], t.accounts[account];
    var due := a.lastCheck.None? || feed.start - a.lastCheck.value >= 30;
    && b.monitored == a.monitored && b.paused == a.paused
    && (if due && feed.listing.Listed? then
          && b.lastCheck == Some(feed.finish)
          && forall e :: e in feed.listing.entries && e.id != "" ==> Known(t, e.id)
        else if due && feed.listing.why.Info? then b.lastCheck == Some(feed.finish)
        else b.lastCheck == a.lastCheck)
    && (b.needsReview <==> a.needsReview || (due && feed.listing.ListingBroke? && feed.listing.why.Definitive?))
  }

  lemma DiscoverChecks(s: State, account: nat, feed: Feed)
    requires Sound(s) && account < |s.accounts|
    ensures Checked(s, Discover(s, account, feed), account, feed)
  {
    CheckedOnlyWhenCompleted(s, account, feed);
    if feed.listing.Listed? {
      DiscoverAllMeans(s, account, feed.listing.entries);
      var t, u := DiscoverAll(s, account, feed.listing.entries), Discover(s, account, feed);
      forall e | e in feed.listing.entries && e.id != "" && u != s
        ensures Known(t, e.id)
      {
        var k :| 0 <= k < |feed.listing.entries| && feed.listing.entries[k] == e;
        assert Known(t, feed.listing.entries[k].id);
      }
      assert u != s && u.videos == t.videos ==> forall e :: e in feed.listing.entries && Known(t, e.id) ==> Known(u, e.id);
    }
  }

  /** The columns a check writes stay what it made them, and rows keep their ids. */
  ghost predicate Carries(t: State, u: State, account: nat) {
    && account < |t.accounts| == |u.accounts|
    && u.accounts[account] == t.accounts[account].(bytes := u.accounts[account].bytes)
    && |t.videos| <= |u.videos| && forall i :: 0 <= i < |t.videos| ==> u.videos[i].id == t.videos[i].id
  }

  lemma StillChecked(s: State, t: State, u: State, account: nat, feed: Feed)
    requires account < |s.accounts| == |t.accounts| && Checked(s, t, account, feed) && Carries(t, u, account)
    ensures Checked(s, u, account, feed)
  {
    forall id | Known(t, id)
      ensures Known(u, id)
    {
      var i :| 0 <= i < |t.videos| && t.videos[i].id == id;
      assert u.videos[i].id == id;
    }
  }

  lemma {:induction false} PassCarries(s: State, rows: seq<nat>, account: nat, override: bool, work: nat -> Work)
    requires InRange(s, rows) && account < |s.accounts|
    ensures Carries(s, AttemptAll(s, rows, account, override, work), account)
    decreases |rows|
  {
    if rows != [] {
      var r := s.videos[rows[0]];
      AttemptMeans(s, rows[0], account, r.timed, work(rows[0]), override);
      PassCarries(Attempt(s, rows[0], account, r.timed, work(rows[0]), override), rows[1..], account, override, work);
    }
  }

  /** No row of the account waits for a download. */
  ghost predicate NonePending(t: State, account: nat) {
    forall i :: 0 <= i < |t.videos| && t.videos[i].account == account ==> t.videos[i].status != Pending
  }

  lemma VisitDoes(s: State, account: nat, w: World)
    requires Sound(s) && account < |s.accounts|
    ensures Checked(s, Visit(s, account, w), account, w.feed(account))
    ensures w.gate(account).cookie && w.gate(account).online && !s.downloadsPaused ==> NonePending(Visit(s, account, w), account)
  {
    var t := Discover(s, account, w.feed(account));
    DiscoverChecks(s, account, w.feed(account));
    DiscoverGrows(s, account, w.feed(account));
    PassCarries(t, PendingRows(t.videos, account), account, w.override, w.work);
    StillChecked(s, t, Visit(s, account, w), account, w.feed(account));
    if w.gate(account).cookie && w.gate(account).online && !s.downloadsPaused {
      PassOwners(t, PendingRows(t.videos, account), account, w.override, w.work);
      forall i | 0 <= i < |t.videos| && t.videos[i].account == account
        ensures Visit(s, account, w).videos[i].status != Pending
      {
        NoPendingLeft(t, account, w.gate(account), w.override, w.work, i);
      }
    }
  }

  lemma {:induction false} PassOwners(s: State, rows: seq<nat>, account: nat, override: bool, work: nat -> Work)
    requires InRange(s, rows) && account < |s.accounts|
    ensures var t := AttemptAll(s, rows, account, override, work);
      forall i :: 0 <= i < |s.videos| ==> t.videos[i].account == s.videos[i].account
    decreases |rows|
  {
    if rows != [] {
      var r := s.videos[rows[0]];
      AttemptKeepsOwners(s, rows[0], account, r.timed, work(rows[0]), override);
      PassOwners(Attempt(s, rows[0], account, r.timed, work(rows[0]), override), rows[1..], account, override, work);
    }
  }

  lemma LeftAloneCarries(t: State, u: State, account: nat)
    requires account < |t.accounts| && LeavesAlone(t, u, account)
    ensures Carries(t, u, account) && (NonePending(t, account) ==> NonePending(u, account))
  {
  }

  lemma CheckStaysSame(s: State, t: State, u: State, account: nat, feed: Feed)
    requires account < |s.accounts| == |t.accounts| == |u.accounts|
    requires t.accounts[account] == s.accounts[account] && Checked(t, u, account, feed)
    ensures Checked(s, u, account, feed)
  {
  }

  /** A visited account is checked once, in the state it started from; its rows are downloaded unless the disk fills up. */
  lemma {:induction false} VisitsCheck(s: State, accounts: seq<nat>, w: World, b: nat)
    requires Sound(s) && b in accounts && (forall i :: 0 <= i < |accounts| ==> accounts[i] < |s.accounts|)
    requires forall i, j :: 0 <= i < j < |accounts| ==> accounts[i] < accounts[j]
    ensures var t := VisitAll(s, accounts, w);
      && b < |s.accounts| && Checked(s, t, b, w.feed(b))
      && (s.downloadsPaused ==> t.downloadsPaused)
      && (w.gate(b).cookie && w.gate(b).online && !t.downloadsPaused ==> NonePending(t, b))
    decreases |accounts|
  {
    var a, rest := accounts[0], accounts[1..];
    var t, u := Visit(s, a, w), VisitAll(s, accounts, w);
    VisitKeeps(s, a, w);
    if a == b {
      assert b !in rest;
      VisitDoes(s, b, w);
      VisitKeepsPause(s, b, w);
      VisitsLeaveAlone(t, rest, w, b);
      LeftAloneCarries(t, u, b);
      StillChecked(s, t, u, b, w.feed(b));
    } else {
      assert b in rest;
      VisitLeavesAlone(s, a, w, b);
      VisitsCheck(t, rest, w, b);
      CheckStaysSame(s, t, u, b, w.feed(b));
    }
  }

  lemma VisitKeepsPause(s: State, account: nat, w: World)
    requires Sound(s) && account < |s.accounts|
    ensures s.downloadsPaused ==> Visit(s, account, w).downloadsPaused
  {
    DiscoverGrows(s, account, w.feed(account));
  }

  /**
   With the gates open, a cycle checks every account in monitor mode that is neither paused nor waiting for a review,
   and leaves none of its rows pending if the account's own gates are open and no disk pause came up meanwhile.
   */
  lemma MonitoredAreChecked(s: State, w: World, b: nat)
    requires Sound(s) && w.gates.cookie && w.gates.online && !s.downloadsPaused
    requires b < |s.accounts| && s.accounts[b].monitored && !s.accounts[b].paused && !s.accounts[b].needsReview
    ensures var t := Cycle(s, w);
      && Checked(s, t, b, w.feed(b))
      && (w.gate(b).cookie && w.gate(b).online && !t.downloadsPaused ==> NonePending(t, b))
  {
    VisitsCheck(s, Active(s.accounts, 0), w, b);
  }
}
