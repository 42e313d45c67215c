/** The life of a video row: discovery, the one terminal commit per attempt, and retries. */
module Videos {
  import opened Prelude
  import opened VideoStatus
  import Errors

  /** The error_category column. */
  datatype Stored = Uncategorised | Definitive | Transient | Integrity

  /** A row of `videos`; its row id is its position. `timed` is whether the feed gave a duration. */
  datatype Row = Row(id: string, account: nat, timed: bool, status: Status, category: Stored, size: nat, retries: nat)

  /** The columns of monitored_accounts that the video services read or write. */
  datatype Account = Account(bytes: nat, monitored: bool, paused: bool, needsReview: bool, lastCheck: Option<int>)

  datatype Event = Outcome(status: Status, video: Option<string>, category: Stored) | DiskPaused | Discovered(id: string) | NoCookies

  /** A terminal commit, in the order the commits happened. */
  datatype Commit = Commit(row: nat, status: Status)

  datatype State = State(
    videos: seq<Row>, accounts: seq<Account>, archive: set<string>, downloadsPaused: bool, monitorRunning: bool,
    zombies: nat, commits: seq<Commit>, events: seq<Event>)

  // ---------------------------------------------------------------- what the outside world answers

  /** One yt-dlp call. `recorded`: it wrote the id into the archive file, whatever else it did. */
  datatype Try =
    | Fetched(recorded: bool)
    | Unresolved(recorded: bool, why: Errors.Category)
    | TimedOut(recorded: bool, why: Errors.Category)
    | Broke(recorded: bool, why: Errors.Category)

  /** What the integrity check finds at the path; `ProbeBroke` also stands for a failed hash or rename. */
  datatype Check = Unreadable | File(size: nat, probe: Probe)
  datatype Probe = ProbeBroke(why: Errors.Category) | Probed(hasVideo: bool)

  datatype Work = NoSlot(why: Errors.Category) | Work(first: Try, second: Try, check: Check)

  datatype Entry = Entry(id: string, timed: bool)
  datatype Listing = Listed(entries: seq<Entry>) | ListingBroke(why: Errors.Category)
  datatype Feed = Feed(start: int, finish: int, listing: Listing)
  datatype Gates = Gates(cookie: bool, online: bool)

  /** Everything one pass will meet. With an `override` format the engine tries that format alone. */
  datatype World = World(override: bool, gates: Gates, gate: nat -> Gates, feed: nat -> Feed, work: nat -> Work)

  const THROTTLE_SECONDS := 30

  /** The retry_count an attempt writes: no caller passes another one. */
  const BASE_RETRY_COUNT := 0

  // ---------------------------------------------------------------- one attempt

  function StoredAs(why: Errors.Category): Stored {
    match why
    case Definitive => Definitive
    case Transient => Transient
    case Local => Uncategorised
    case Info => Uncategorised
  }

  /** Terminal state, byte count and event of one attempt: a single commit. */
  function Persist(s: State, row: nat, status: Status, category: Stored, size: nat, bump: Option<nat>, video: Option<string>): State
    requires row < |s.videos| && (bump.Some? ==> bump.value < |s.accounts|)
  {
    var r := s.videos[row].(status := status, category := category, retries := BASE_RETRY_COUNT);
    s.(videos := s.videos[row := if status == Downloaded then r.(size := size) else r],
       accounts := if bump.Some? then Bumped(s.accounts, bump.value, size) else s.accounts,
       commits := s.commits + [Commit(row, status)],
       events := s.events + [Outcome(status, video, category)])
  }

  function Bumped(accounts: seq<Account>, account: nat, size: nat): seq<Account>
    requires account < |accounts|
  {
    accounts[account := accounts[account].(bytes := accounts[account].bytes + size)]
  }

  datatype Handled = Settled(status: Status) | Raised(why: Errors.Category) | UnknownRow

  function Handle(s: State, row: nat, check: Check, id: string, account: nat, expected: bool): State
    requires row < |s.videos| && account < |s.accounts|
  {
    if check.Unreadable? || check.size == 0 then Persist(s, row, Failed, Integrity, 0, None, Some(id))
    else if check.probe.ProbeBroke? then s
    else if check.probe.hasVideo then Persist(s, row, Downloaded, Uncategorised, check.size, Some(account), Some(id))
    else if expected then Persist(s.(archive := s.archive - {id}), row, Failed, Integrity, 0, None, Some(id))
    else Persist(s.(archive := s.archive + {id}), row, Skipped, Uncategorised, 0, None, Some(id))
  }

  function Answer(check: Check, expected: bool): Handled {
    if check.Unreadable? || check.size == 0 then Settled(Failed)
    else if check.probe.ProbeBroke? then Raised(check.probe.why)
    else if check.probe.hasVideo then Settled(Downloaded)
    else Settled(if expected then Failed else Skipped)
  }

  function Fail(s: State, row: nat, why: Errors.Category): State
    requires row < |s.videos|
  {
    var t := if why.Local? then s.(downloadsPaused := true, events := s.events + [DiskPaused]) else s;
    Persist(t, row, Failed, StoredAs(why), 0, None, None)
  }

  /** The calls the format chain has in store. */
  function Chain(work: Work, override: bool): seq<Try>
    requires work.Work?
  {
    if override then [work.first] else [work.first, work.second]
  }

  /** The format chain: only a plain failure falls through, and the archive entry goes first. */
  function Fetch(s: State, id: string, tries: seq<Try>): State
    requires tries != []
    decreases |tries|
  {
    var t := if tries[0].recorded then s.(archive := s.archive + {id}) else s;
    match tries[0]
    case Fetched(_) => t
    case Unresolved(_, _) => t
    case TimedOut(_, _) => t.(zombies := t.zombies + 1)
    case Broke(_, _) => if |tries| == 1 then t else Fetch(t.(archive := t.archive - {id}), id, tries[1..])
  }

  /** Which call decides. */
  function Decider(tries: seq<Try>): (k: nat)
    requires tries != []
    ensures k < |tries| && (forall i :: 0 <= i < k ==> tries[i].Broke?) && (k < |tries| - 1 ==> !tries[k].Broke?)
    decreases |tries|
  {
    if |tries| > 1 && tries[0].Broke? then 1 + Decider(tries[1..]) else 0
  }

  /** After the engine: a raise anywhere on the way is recorded as a failure. */
  function Conclude(s: State, row: nat, account: nat, expected: bool, last: Try, check: Check): (t: State)
    requires row < |s.videos| && account < |s.accounts|
    ensures |t.videos| == |s.videos| && |t.accounts| == |s.accounts|
  {
    if !last.Fetched? then Fail(s, row, last.why) else
    match Answer(check, expected)
    case Raised(why) => Fail(s, row, why)
    case _ => Handle(s, row, check, s.videos[row].id, account, expected)
  }

  function Attempt(s: State, row: nat, account: nat, expected: bool, work: Work, override: bool): (t: State)
    requires row < |s.videos| && account < |s.accounts|
    ensures |t.videos| == |s.videos| && |t.accounts| == |s.accounts|
  {
    if work.NoSlot? then Fail(s, row, work.why) else
    var id, tries := s.videos[row].id, Chain(work, override);
    FetchTouchesArchiveOnly(s, id, tries);
    Conclude(Fetch(s, id, tries), row, account, expected, tries[Decider(tries)], work.check)
  }

  lemma {:induction false} FetchTouchesArchiveOnly(s: State, id: string, tries: seq<Try>)
    requires tries != []
    ensures var t := Fetch(s, id, tries); t == s.(archive := t.archive, zombies := t.zombies)
    decreases |tries|
  {
    if tries[0].Broke? && |tries| > 1 {
      var t := if tries[0].recorded then s.(archive := s.archive + {id}) else s;
      FetchTouchesArchiveOnly(t.(archive := t.archive - {id}), id, tries[1..]);
    }
  }

  /** A call after the first always starts with the id out of the archive. */
  lemma {:induction false} FallbackStartsUnarchived(s: State, id: string, tries: seq<Try>)
    requires tries != []
    ensures var t, k := Fetch(s, id, tries), Decider(tries);
      && t.archive - {id} == s.archive - {id}
      && (id in t.archive <==> tries[k].recorded || (k == 0 && id in s.archive))
      && t.zombies == s.zombies + (if tries[k].TimedOut? then 1 else 0)
    decreases |tries|
  {
    if tries[0].Broke? && |tries| > 1 {
      var t := if tries[0].recorded then s.(archive := s.archive + {id}) else s;
      FallbackStartsUnarchived(t.(archive := t.archive - {id}), id, tries[1..]);
    }
  }

  // ---------------------------------------------------------------- invariants

  function TotalBytes(accounts: seq<Account>): nat {
    if accounts == [] then 0 else accounts[0].bytes + TotalBytes(accounts[1..])
  }

  function Weight(row: Row): nat {
    if row.status == Downloaded then row.size else 0
  }

  function TotalSize(videos: seq<Row>): nat {
    if videos == [] then 0 else Weight(videos[0]) + TotalSize(videos[1..])
  }

  lemma {:induction false} BumpAdds(accounts: seq<Account>, account: nat, size: nat)
    requires account < |accounts|
    ensures TotalBytes(Bumped(accounts, account, size)) == TotalBytes(accounts) + size
  {
    var after := Bumped(accounts, account, size);
    if account == 0 {
      assert after[1..] == accounts[1..];
    } else {
      assert after[1..] == Bumped(accounts[1..], account - 1, size);
      BumpAdds(accounts[1..], account - 1, size);
    }
  }

  lemma {:induction false} RowWeighs(videos: seq<Row>, row: nat, r: Row)
    requires row < |videos|
    ensures TotalSize(videos[row := r]) + Weight(videos[row]) == TotalSize(videos) + Weight(r)
  {
    var after := videos[row := r];
    if row == 0 {
      assert after[1..] == videos[1..];
    } else {
      assert after[1..] == videos[1..][row - 1 := r];
      RowWeighs(videos[1..], row - 1, r);
    }
  }

  lemma {:induction false} NewRowWeighsNothing(videos: seq<Row>, r: Row)
    requires Weight(r) == 0
    ensures TotalSize(videos + [r]) == TotalSize(videos)
  {
    if videos == [] {
      assert ([] + [r])[1..] == [];
    } else {
      assert (videos + [r])[1..] == videos[1..] + [r];
      NewRowWeighsNothing(videos[1..], r);
    }
  }

  /** What the outcome events announce, in order. */
  function Announced(events: seq<Event>): seq<Status> {
    if events == [] then [] else
    var last := events[|events| - 1];
    Announced(events[..|events| - 1]) + if last.Outcome? then [last.status] else []
  }

  function Committed(commits: seq<Commit>): seq<Status> {
    if commits == [] then [] else Committed(commits[..|commits| - 1]) + [commits[|commits| - 1].status]
  }

  /** tiktok_video_id is UNIQUE. */
  ghost predicate Unique(videos: seq<Row>) {
    forall i, j :: 0 <= i < j < |videos| ==> videos[i].id != videos[j].id
  }

  ghost predicate SkippedAreArchived(s: State) {
    forall i :: 0 <= i < |s.videos| && s.videos[i].status == Skipped ==> s.videos[i].id in s.archive
  }

  ghost predicate Sound(s: State) {
    && Unique(s.videos)
    && TotalBytes(s.accounts) == TotalSize(s.videos)
    && SkippedAreArchived(s)
    && Announced(s.events) == Committed(s.commits)
  }

  // ---------------------------------------------------------------- what an attempt keeps

  /** Taking the id of a row that is not skipped in or out of the archive is harmless. */
  lemma ArchiveEditKeeps(s: State, t: State, row: nat)
    requires Sound(s) && row < |s.videos| && s.videos[row].status != Skipped
    requires t == s.(archive := t.archive, zombies := t.zombies)
    requires t.archive - {s.videos[row].id} == s.archive - {s.videos[row].id}
    ensures Sound(t)
  {
    forall i | 0 <= i < |t.videos| && t.videos[i].status == Skipped
      ensures t.videos[i].id in t.archive
    {
      assert i < row || row < i;
      assert t.videos[i].id in s.archive - {s.videos[row].id};
    }
  }

  lemma PersistKeeps(s: State, row: nat, status: Status, category: Stored, size: nat, bump: Option<nat>, video: Option<string>)
    requires Sound(s) && row < |s.videos| && (bump.Some? ==> bump.value < |s.accounts|)
    requires s.videos[row].status != Downloaded && (status == Downloaded <==> bump.Some?)
    requires status == Skipped ==> s.videos[row].id in s.archive
    ensures Sound(Persist(s, row, status, category, size, bump, video))
  {
    var t := Persist(s, row, status, category, size, bump, video);
    RowWeighs(s.videos, row, t.videos[row]);
    if bump.Some? {
      BumpAdds(s.accounts, bump.value, size);
    }
    assert t.events[..|t.events| - 1] == s.events && t.commits[..|t.commits| - 1] == s.commits;
  }

  /** Conservation hangs on the row not being downloaded already: why overlapping runs can count a file twice. */
  lemma ConservedIffFresh(s: State, row: nat, category: Stored, size: nat, account: nat, video: Option<string>)
    requires row < |s.videos| && account < |s.accounts| && TotalBytes(s.accounts) == TotalSize(s.videos)
    requires s.videos[row].status == Downloaded ==> s.videos[row].size > 0
    ensures var t := Persist(s, row, Downloaded, category, size, Some(account), video);
      TotalBytes(t.accounts) == TotalSize(t.videos) <==> s.videos[row].status != Downloaded
  {
    var t := Persist(s, row, Downloaded, category, size, Some(account), video);
    RowWeighs(s.videos, row, t.videos[row]);
    BumpAdds(s.accounts, account, size);
  }

  lemma FailKeeps(s: State, row: nat, why: Errors.Category)
    requires Sound(s) && row < |s.videos| && s.videos[row].status != Downloaded
    ensures Sound(Fail(s, row, why))
  {
    var t := if why.Local? then s.(downloadsPaused := true, events := s.events + [DiskPaused]) else s;
    assert why.Local? ==> t.events[..|t.events| - 1] == s.events;
    PersistKeeps(t, row, Failed, StoredAs(why), 0, None, None);
  }

  lemma HandleKeeps(s: State, row: nat, check: Check, account: nat, expected: bool)
    requires Sound(s) && row < |s.videos| && account < |s.accounts| && s.videos[row].status !in {Downloaded, Skipped}
    ensures Sound(Handle(s, row, check, s.videos[row].id, account, expected))
  {
    var id := s.videos[row].id;
    if check.Unreadable? || check.size == 0 {
      PersistKeeps(s, row, Failed, Integrity, 0, None, Some(id));
    } else if check.probe.Probed? {
      if check.probe.hasVideo {
        PersistKeeps(s, row, Downloaded, Uncategorised, check.size, Some(account), Some(id));
      } else {
        var t := s.(archive := if expected then s.archive - {id} else s.archive + {id});
        ArchiveEditKeeps(s, t, row);
        if expected {
          PersistKeeps(t, row, Failed, Integrity, 0, None, Some(id));
        } else {
          PersistKeeps(t, row, Skipped, Uncategorised, 0, None, Some(id));
        }
      }
    }
  }

  lemma ConcludeKeeps(s: State, row: nat, account: nat, expected: bool, last: Try, check: Check)
    requires Sound(s) && row < |s.videos| && account < |s.accounts| && s.videos[row].status !in {Downloaded, Skipped}
    ensures Sound(Conclude(s, row, account, expected, last, check))
  {
    if !last.Fetched? {
      FailKeeps(s, row, last.why);
    } else if Answer(check, expected).Raised? {
      FailKeeps(s, row, Answer(check, expected).why);
    } else {
      HandleKeeps(s, row, check, account, expected);
    }
  }

  lemma AttemptKeeps(s: State, row: nat, account: nat, expected: bool, work: Work, override: bool)
    requires Sound(s) && row < |s.videos| && account < |s.accounts| && s.videos[row].status !in {Downloaded, Skipped}
    ensures Sound(Attempt(s, row, account, expected, work, override))
  {
    if work.NoSlot? {
      FailKeeps(s, row, work.why);
    } else {
      var id, tries := s.videos[row].id, Chain(work, override);
      FetchTouchesArchiveOnly(s, id, tries);
      FallbackStartsUnarchived(s, id, tries);
      ArchiveEditKeeps(s, Fetch(s, id, tries), row);
      ConcludeKeeps(Fetch(s, id, tries), row, account, expected, tries[Decider(tries)], work.check);
    }
  }

  // ---------------------------------------------------------------- what an attempt amounts to

  /** The engine delivers a path: at once, or on the fallback after a plain failure. */
  predicate Delivers(work: Work, override: bool) {
    work.Work? && (work.first.Fetched? || (!override && work.first.Broke? && work.second.Fetched?))
  }

  function Verdict(work: Work, override: bool, expected: bool): Status {
    if !Delivers(work, override) || work.check.Unreadable? || work.check.size == 0 || work.check.probe.ProbeBroke? then Failed
    else if work.check.probe.hasVideo then Downloaded
    else if expected then Failed
    else Skipped
  }

  /** One commit and one matching event, on this row alone; a download also counts its bytes. */
  ghost predicate Lands(s: State, t: State, row: nat, v: Status, account: nat, size: nat)
    requires row < |s.videos| && account < |s.accounts|
  {
    && t.commits == s.commits + [Commit(row, v)]
    && Announced(t.events) == Announced(s.events) + [v]
    && |t.videos| == |s.videos| && t.videos == s.videos[row := t.videos[row]]
    && t.videos[row]
      == s.videos[row].(status := v, category := t.videos[row].category, size := t.videos[row].size, retries := BASE_RETRY_COUNT)
    && t.videos[row].size == (if v == Downloaded then size else s.videos[row].size)
    && t.accounts == (if v == Downloaded then Bumped(s.accounts, account, size) else s.accounts)
  }

  lemma PersistLands(s: State, row: nat, status: Status, category: Stored, size: nat, bump: Option<nat>, video: Option<string>,
                     account: nat)
    requires row < |s.videos| && account < |s.accounts| && bump == if status == Downloaded then Some(account) else None
    ensures Lands(s, Persist(s, row, status, category, size, bump, video), row, status, account, size)
  {
    assert Persist(s, row, status, category, size, bump, video).events[..|s.events|] == s.events;
  }

  lemma FailLands(s: State, row: nat, why: Errors.Category, account: nat)
    requires row < |s.videos| && account < |s.accounts|
    ensures Lands(s, Fail(s, row, why), row, Failed, account, 0)
    ensures Fail(s, row, why).archive == s.archive
  {
    var t := if why.Local? then s.(downloadsPaused := true, events := s.events + [DiskPaused]) else s;
    assert why.Local? ==> t.events[..|s.events|] == s.events;
    PersistLands(t, row, Failed, StoredAs(why), 0, None, None, account);
  }

  lemma HandleLands(s: State, row: nat, check: Check, account: nat, expected: bool)
    requires row < |s.videos| && account < |s.accounts| && Answer(check, expected).Settled?
    ensures var t := Handle(s, row, check, s.videos[row].id, account, expected);
      && Lands(s, t, row, Answer(check, expected).status, account, if check.File? then check.size else 0)
      && t.archive - {s.videos[row].id} == s.archive - {s.videos[row].id}
  {
    var id := s.videos[row].id;
    if check.Unreadable? || check.size == 0 {
      PersistLands(s, row, Failed, Integrity, 0, None, Some(id), account);
    } else if check.probe.hasVideo {
      PersistLands(s, row, Downloaded, Uncategorised, check.size, Some(account), Some(id), account);
    } else if expected {
      PersistLands(s.(archive := s.archive - {id}), row, Failed, Integrity, 0, None, Some(id), account);
    } else {
      PersistLands(s.(archive := s.archive + {id}), row, Skipped, Uncategorised, 0, None, Some(id), account);
    }
  }

  /** The file size an attempt can count. */
  function SizeOf(work: Work): nat {
    if work.Work? && work.check.File? then work.check.size else 0
  }

  lemma ConcludeLands(s: State, row: nat, account: nat, expected: bool, last: Try, work: Work, override: bool)
    requires row < |s.videos| && account < |s.accounts| && work.Work? && (last.Fetched? <==> Delivers(work, override))
    ensures var t := Conclude(s, row, account, expected, last, work.check);
      && Lands(s, t, row, Verdict(work, override, expected), account, SizeOf(work))
      && t.archive - {s.videos[row].id} == s.archive - {s.videos[row].id}
  {
    if !last.Fetched? {
      FailLands(s, row, last.why, account);
    } else if Answer(work.check, expected).Raised? {
      FailLands(s, row, Answer(work.check, expected).why, account);
    } else {
      HandleLands(s, row, work.check, account, expected);
    }
  }

  lemma DeciderDelivers(work: Work, override: bool)
    requires work.Work?
    ensures Chain(work, override)[Decider(Chain(work, override))].Fetched? <==> Delivers(work, override)
  {
  }

  /** One attempt lands its verdict, and touches no archive entry but its own. */
  lemma AttemptMeans(s: State, row: nat, account: nat, expected: bool, work: Work, override: bool)
    requires row < |s.videos| && account < |s.accounts|
    ensures var t := Attempt(s, row, account, expected, work, override);
      && Lands(s, t, row, Verdict(work, override, expected), account, SizeOf(work))
      && t.archive - {s.videos[row].id} == s.archive - {s.videos[row].id}
  {
    if work.NoSlot? {
      FailLands(s, row, work.why, account);
    } else {
      var id, tries := s.videos[row].id, Chain(work, override);
      FetchTouchesArchiveOnly(s, id, tries);
      FallbackStartsUnarchived(s, id, tries);
      DeciderDelivers(work, override);
      ConcludeLands(Fetch(s, id, tries), row, account, expected, tries[Decider(tries)], work, override);
    }
  }

  /** The error category an attempt leaves, read off the outside answers. */
  function Reason(work: Work, override: bool, expected: bool): Stored {
    if work.NoSlot? then StoredAs(work.why)
    else if !Delivers(work, override) then StoredAs(Culprit(work, override).why)
    else if work.check.Unreadable? || work.check.size == 0 then Integrity
    else if work.check.probe.ProbeBroke? then StoredAs(work.check.probe.why)
    else if !work.check.probe.hasVideo && expected then Integrity
    else Uncategorised
  }

  /** The call whose failure is reported. */
  function Culprit(work: Work, override: bool): (t: Try)
    requires work.Work? && !Delivers(work, override)
    ensures !t.Fetched?
  {
    if work.first.Broke? && !override then work.second else work.first
  }

  /** The disk ran full: the one failure that pauses downloads. */
  predicate DiskFull(work: Work, override: bool) {
    if work.NoSlot? then work.why.Local?
    else if !Delivers(work, override) then Culprit(work, override).why.Local?
    else work.check.File? && work.check.size > 0 && work.check.probe.ProbeBroke? && work.check.probe.why.Local?
  }

  /** What one step from `s` to `t` leaves on the row, in its event, in the archive and in the disk pause. */
  ghost predicate Leaves(s: State, t: State, row: nat, v: Status, category: Stored, full: bool)
    requires row < |s.videos|
  {
    && |t.videos| == |s.videos| && t.videos[row].category == category
    && t.events != [] && t.events[|t.events| - 1].Outcome?
    && t.events[|t.events| - 1].status == v && t.events[|t.events| - 1].category == category
    && (t.events[|t.events| - 1].video.Some? ==> t.events[|t.events| - 1].video.value == s.videos[row].id)
    && (t.downloadsPaused <==> s.downloadsPaused || full)
    && (v == Skipped ==> s.videos[row].id in t.archive)
  }

  lemma ConcludeLeaves(s: State, row: nat, account: nat, expected: bool, last: Try, work: Work, override: bool)
    requires row < |s.videos| && account < |s.accounts| && work.Work?
    requires if Delivers(work, override) then last.Fetched? else last == Culprit(work, override)
    ensures Leaves(s, Conclude(s, row, account, expected, last, work.check), row,
                   Verdict(work, override, expected), Reason(work, override, expected), DiskFull(work, override))
  {
  }

  lemma DeciderIs(work: Work, override: bool)
    requires work.Work?
    ensures var last := Chain(work, override)[Decider(Chain(work, override))];
      if Delivers(work, override) then last.Fetched? else last == Culprit(work, override)
  {
  }

  /** The category, the event and the disk pause of an attempt are those of its cause. */
  lemma AttemptLeaves(s: State, row: nat, account: nat, expected: bool, work: Work, override: bool)
    requires row < |s.videos| && account < |s.accounts|
    ensures Leaves(s, Attempt(s, row, account, expected, work, override), row,
                   Verdict(work, override, expected), Reason(work, override, expected), DiskFull(work, override))
  {
    if work.Work? {
      var id, tries := s.videos[row].id, Chain(work, override);
      FetchTouchesArchiveOnly(s, id, tries);
      DeciderIs(work, override);
      ConcludeLeaves(Fetch(s, id, tries), row, account, expected, tries[Decider(tries)], work, override);
    }
  }

  /** A degraded response never leaves its id archived, so that a retry downloads it again. */
  lemma DegradedIsUnarchived(s: State, row: nat, account: nat, work: Work, override: bool)
    requires row < |s.videos| && account < |s.accounts|
    requires Delivers(work, override) && work.check.File? && work.check.size > 0 && work.check.probe == Probed(false)
    ensures s.videos[row].id !in Attempt(s, row, account, true, work, override).archive
  {
    FetchTouchesArchiveOnly(s, s.videos[row].id, Chain(work, override));
    DeciderIs(work, override);
  }

  // ---------------------------------------------------------------- download_pendings

  /** SELECT ... ORDER BY created_at: rows are created in order. */
  function Select(videos: seq<Row>, wanted: Row -> bool, from: nat): (rows: seq<nat>)
    requires from <= |videos|
    ensures forall i :: 0 <= i < |rows| ==> from <= rows[i] < |videos| && wanted(videos[rows[i]])
    ensures forall i, j :: 0 <= i < j < |rows| ==> rows[i] < rows[j]
    decreases |videos| - from
  {
    if from == |videos| then []
    else if wanted(videos[from]) then [from] + Select(videos, wanted, from + 1)
    else Select(videos, wanted, from + 1)
  }

  lemma {:induction false} SelectIsComplete(videos: seq<Row>, wanted: Row -> bool, from: nat, row: nat)
    requires from <= row < |videos| && wanted(videos[row])
    ensures row in Select(videos, wanted, from)
    decreases |videos| - from
  {
    if from < row {
      SelectIsComplete(videos, wanted, from + 1, row);
    }
  }

  function PendingRows(videos: seq<Row>, account: nat): seq<nat> {
    Select(videos, (r: Row) => r.account == account && r.status == Pending, 0)
  }

  ghost predicate InRange(s: State, rows: seq<nat>) {
    forall i :: 0 <= i < |rows| ==> rows[i] < |s.videos|
  }

  ghost predicate Open(s: State, rows: seq<nat>) {
    && (forall i :: 0 <= i < |rows| ==> rows[i] < |s.videos| && s.videos[rows[i]].status !in {Downloaded, Skipped})
    && (forall i, j :: 0 <= i < j < |rows| ==> rows[i] != rows[j])
  }

  ghost function AttemptAll(s: State, rows: seq<nat>, account: nat, override: bool, work: nat -> Work): (t: State)
    requires InRange(s, rows) && account < |s.accounts|
    ensures |t.videos| == |s.videos| && |t.accounts| == |s.accounts|
    decreases |rows|
  {
    if rows == [] then s
    else AttemptAll(Attempt(s, rows[0], account, s.videos[rows[0]].timed, work(rows[0]), override), rows[1..], account, override, work)
  }

  lemma AttemptNext(s: State, rows: seq<nat>, i: nat, account: nat, override: bool, work: nat -> Work)
    requires InRange(s, rows) && i < |rows| && account < |s.accounts|
    ensures AttemptAll(s, rows[i..], account, override, work)
      == AttemptAll(Attempt(s, rows[i], account, s.videos[rows[i]].timed, work(rows[i]), override), rows[i + 1..], account, override, work)
  {
    assert rows[i..][0] == rows[i] && rows[i..][1..] == rows[i + 1..];
  }

  /** The commits a pass owes: one a row, in order. */
  function Owed(videos: seq<Row>, rows: seq<nat>, override: bool, work: nat -> Work): seq<Commit>
    requires forall i :: 0 <= i < |rows| ==> rows[i] < |videos|
  {
    if rows == [] then []
    else [Commit(rows[0], Verdict(work(rows[0]), override, videos[rows[0]].timed))] + Owed(videos, rows[1..], override, work)
  }

  ghost predicate SameFeedFacts(before: seq<Row>, after: seq<Row>) {
    |before| == |after| && forall i :: 0 <= i < |before| ==> before[i].timed == after[i].timed && before[i].id == after[i].id
  }

  lemma {:induction false} OwedDependsOnFeedOnly(before: seq<Row>, after: seq<Row>, rows: seq<nat>, override: bool, work: nat -> Work)
    requires SameFeedFacts(before, after) && forall i :: 0 <= i < |rows| ==> rows[i] < |before|
    ensures Owed(before, rows, override, work) == Owed(after, rows, override, work)
  {
    if rows != [] {
      OwedDependsOnFeedOnly(before, after, rows[1..], override, work);
    }
  }

  lemma PassStep(s: State, t: State, rows: seq<nat>, v: Status, account: nat, size: nat)
    requires Open(s, rows) && rows != [] && account < |s.accounts| && Lands(s, t, rows[0], v, account, size)
    ensures Open(t, rows[1..]) && SameFeedFacts(s.videos, t.videos)
  {
  }

  /** A pass over open rows keeps everything sound and makes exactly the owed commits. */
  lemma {:induction false} PassMeans(s: State, rows: seq<nat>, account: nat, override: bool, work: nat -> Work)
    requires Sound(s) && Open(s, rows) && account < |s.accounts|
    ensures var t := AttemptAll(s, rows, account, override, work);
      Sound(t) && t.commits == s.commits + Owed(s.videos, rows, override, work)
    decreases |rows|
  {
    if rows != [] {
      var row, rest := rows[0], rows[1..];
      var expected := s.videos[row].timed;
      var t := Attempt(s, row, account, expected, work(row), override);
      var v := Verdict(work(row), override, expected);
      AttemptKeeps(s, row, account, expected, work(row), override);
      AttemptMeans(s, row, account, expected, work(row), override);
      PassStep(s, t, rows, v, account, SizeOf(work(row)));
      PassMeans(t, rest, account, override, work);
      OwedDependsOnFeedOnly(s.videos, t.videos, rest, override, work);
      OwedInOrder(s.commits, [Commit(row, v)], Owed(s.videos, rest, override, work));
    }
  }

  lemma OwedInOrder(a: seq<Commit>, b: seq<Commit>, c: seq<Commit>)
    ensures (a + b) + c == a + (b + c)
  {
  }

  /** Each chosen row ends at its own verdict; every other row stays as it was. */
  lemma {:induction false} PassRow(s: State, rows: seq<nat>, account: nat, override: bool, work: nat -> Work, row: nat)
    requires Open(s, rows) && account < |s.accounts| && row < |s.videos|
    ensures var t := AttemptAll(s, rows, account, override, work);
      if row in rows then t.videos[row].status == Verdict(work(row), override, s.videos[row].timed)
      else t.videos[row] == s.videos[row]
    decreases |rows|
  {
    if rows != [] {
      var first := rows[0];
      var expected := s.videos[first].timed;
      var t := Attempt(s, first, account, expected, work(first), override);
      AttemptMeans(s, first, account, expected, work(first), override);
      PassStep(s, t, rows, Verdict(work(first), override, expected), account, SizeOf(work(first)));
      PassRow(t, rows[1..], account, override, work, row);
      assert row in rows <==> row == first || row in rows[1..];
      assert row == first ==> row !in rows[1..];
    }
  }

  ghost function DownloadPendings(s: State, account: nat, gates: Gates, override: bool, work: nat -> Work): (t: State)
    requires account < |s.accounts|
    ensures |t.videos| == |s.videos| && |t.accounts| == |s.accounts|
  {
    if !gates.cookie then StopMonitor(s)
    else if s.downloadsPaused || !gates.online then s
    else AttemptAll(s, PendingRows(s.videos, account), account, override, work)
  }

  function StopMonitor(s: State): State {
    s.(monitorRunning := false, events := s.events + [NoCookies])
  }

  /** How many commits set a status, for the counts a pass returns. */
  function Tally(commits: seq<Commit>, status: Status): nat {
    if commits == [] then 0 else (if commits[|commits| - 1].status == status then 1 else 0) + Tally(commits[..|commits| - 1], status)
  }

  /** With the gates open, no row of the account is left pending. */
  lemma NoPendingLeft(s: State, account: nat, gates: Gates, override: bool, work: nat -> Work, row: nat)
    requires account < |s.accounts| && row < |s.videos| && s.videos[row].account == account
    requires gates.cookie && gates.online && !s.downloadsPaused
    ensures DownloadPendings(s, account, gates, override, work).videos[row].status != Pending
  {
    PassRow(s, PendingRows(s.videos, account), account, override, work, row);
    if s.videos[row].status == Pending {
      SelectIsComplete(s.videos, (r: Row) => r.account == account && r.status == Pending, 0, row);
    }
  }

  // ---------------------------------------------------------------- discover_new_videos

  function Find(videos: seq<Row>, id: string, from: nat): (row: Option<nat>)
    requires from <= |videos|
    ensures row.Some? ==> from <= row.value < |videos| && videos[row.value].id == id
    ensures row.None? ==> forall i :: from <= i < |videos| ==> videos[i].id != id
    decreases |videos| - from
  {
    if from == |videos| then None else if videos[from].id == id then Some(from) else Find(videos, id, from + 1)
  }

  function Insert(s: State, account: nat, entry: Entry): State {
    s.(videos := s.videos + [Row(entry.id, account, entry.timed, Pending, Uncategorised, 0, 0)])
  }

  /** Entries without an id are dropped, known ids are left alone. */
  function DiscoverEntry(s: State, account: nat, entry: Entry): State {
    if entry.id == "" || Find(s.videos, entry.id, 0).Some? then s
    else Insert(s, account, entry).(events := s.events + [Discovered(entry.id)])
  }

  function DiscoverAll(s: State, account: nat, entries: seq<Entry>): (t: State)
    ensures |t.videos| >= |s.videos| && t.accounts == s.accounts
    decreases |entries|
  {
    if entries == [] then s else DiscoverAll(DiscoverEntry(s, account, entries[0]), account, entries[1..])
  }

  function Touched(s: State, account: nat, now: int): State
    requires account < |s.accounts|
  {
    s.(accounts := s.accounts[account := s.accounts[account].(lastCheck := Some(now))])
  }

  predicate Throttled(account: Account, now: int) {
    account.lastCheck.Some? && now - account.lastCheck.value < THROTTLE_SECONDS
  }

  function Discover(s: State, account: nat, feed: Feed): (t: State)
    requires account < |s.accounts|
    ensures |t.videos| >= |s.videos| && |t.accounts| == |s.accounts|
  {
    if Throttled(s.accounts[account], feed.start) then s else
    match feed.listing
    case ListingBroke(why) =>
      if why.Info? then Touched(s, account, feed.finish)
      else if why.Definitive? then s.(accounts := s.accounts[account := s.accounts[account].(needsReview := true)])
      else s
    case Listed(entries) => Touched(DiscoverAll(s, account, entries), account, feed.finish)
  }

  lemma InsertKeeps(s: State, account: nat, entry: Entry)
    requires Sound(s) && Find(s.videos, entry.id, 0).None?
    ensures Sound(Insert(s, account, entry))
  {
    NewRowWeighsNothing(s.videos, Row(entry.id, account, entry.timed, Pending, Uncategorised, 0, 0));
  }

  /** Growth by discovery: known rows stay as they are, new ones are pending rows of the account. */
  ghost predicate Grown(s: State, t: State, account: nat) {
    && |s.videos| <= |t.videos| && t.commits == s.commits && t.archive == s.archive && t.accounts == s.accounts
    && (forall i :: 0 <= i < |s.videos| ==> t.videos[i] == s.videos[i])
    && (forall i :: |s.videos| <= i < |t.videos| ==> t.videos[i].status == Pending && t.videos[i].account == account)
  }

  ghost predicate Known(s: State, id: string) {
    exists i :: 0 <= i < |s.videos| && s.videos[i].id == id
  }

  lemma InsertGrows(s: State, account: nat, e: Entry)
    ensures Grown(s, Insert(s, account, e), account) && Known(Insert(s, account, e), e.id)
  {
    assert Insert(s, account, e).videos[|s.videos|].id == e.id;
  }

  lemma FoundIsKnown(s: State, id: string)
    requires Find(s.videos, id, 0).Some?
    ensures Known(s, id)
  {
  }

  lemma AnnouncingKeeps(s: State, e: Event)
    requires Sound(s) && !e.Outcome?
    ensures Sound(s.(events := s.events + [e]))
  {
    assert (s.events + [e])[..|s.events|] == s.events;
  }

  lemma DiscoverEntryMeans(s: State, account: nat, e: Entry)
    requires Sound(s)
    ensures var t := DiscoverEntry(s, account, e); Sound(t) && Grown(s, t, account) && (e.id != "" ==> Known(t, e.id))
  {
    if e.id != "" && Find(s.videos, e.id, 0).None? {
      InsertKeeps(s, account, e);
      InsertGrows(s, account, e);
      AnnouncingKeeps(Insert(s, account, e), Discovered(e.id));
    } else if e.id != "" {
      FoundIsKnown(s, e.id);
    }
  }

  /** Every listed id ends up with a row, and exactly one: the table stays unique. */
  lemma {:induction false} DiscoverAllMeans(s: State, account: nat, entries: seq<Entry>)
    requires Sound(s)
    ensures var t := DiscoverAll(s, account, entries);
      Sound(t) && Grown(s, t, account) && forall k :: 0 <= k < |entries| && entries[k].id != "" ==> Known(t, entries[k].id)
    decreases |entries|
  {
    if entries != [] {
      var e, rest := entries[0], entries[1..];
      var t, u := DiscoverEntry(s, account, e), DiscoverAll(s, account, entries);
      DiscoverEntryMeans(s, account, e);
      DiscoverAllMeans(t, account, rest);
      GrowthComposes(s, t, u, account, e.id);
      forall k | 0 <= k < |entries| && entries[k].id != ""
        ensures Known(u, entries[k].id)
      {
        assert k > 0 ==> entries[k] == rest[k - 1];
      }
    }
  }

  lemma GrowthComposes(s: State, t: State, u: State, account: nat, id: string)
    requires Grown(s, t, account) && Grown(t, u, account)
    ensures Grown(s, u, account) && (Known(t, id) ==> Known(u, id))
  {
    if Known(t, id) {
      var i :| 0 <= i < |t.videos| && t.videos[i].id == id;
      assert u.videos[i].id == id;
    }
  }

  /** One discovery event per row, in order. */
  function Discoveries(rows: seq<Row>): seq<Event> {
    if rows == [] then [] else [Discovered(rows[0].id)] + Discoveries(rows[1..])
  }

  lemma {:induction false} DiscoveriesAppend(a: seq<Row>, b: seq<Row>)
    ensures Discoveries(a + b) == Discoveries(a) + Discoveries(b)
  {
    if a == [] {
      assert a + b == b;
    } else {
      assert (a + b)[1..] == a[1..] + b;
      DiscoveriesAppend(a[1..], b);
    }
  }

  /** Each new row carries an entry of the listing, with what the feed said of its duration. */
  ghost predicate FromFeed(row: Row, entries: seq<Entry>) {
    Entry(row.id, row.timed) in entries
  }

  lemma NewRowIsAnnounced(s: State, account: nat, e: Entry)
    ensures var t := DiscoverEntry(s, account, e);
      && |s.videos| <= |t.videos| && t.events == s.events + Discoveries(t.videos[|s.videos|..])
      && forall row :: row in t.videos[|s.videos|..] ==> FromFeed(row, [e])
  {
    var t := DiscoverEntry(s, account, e);
    if t == s {
      assert t.videos[|s.videos|..] == [];
    } else {
      var row := Row(e.id, account, e.timed, Pending, Uncategorised, 0, 0);
      assert t.videos[|s.videos|..] == [row];
      assert Discoveries([row]) == [Discovered(e.id)] + Discoveries([]);
    }
  }

  /** The new rows are announced one by one, in order, and nothing else is. */
  lemma {:induction false} DiscoverAllAnnounces(s: State, account: nat, entries: seq<Entry>)
    ensures var t := DiscoverAll(s, account, entries);
      && t.videos[..|s.videos|] == s.videos
      && t.events == s.events + Discoveries(t.videos[|s.videos|..])
      && forall row :: row in t.videos[|s.videos|..] ==> FromFeed(row, entries)
    decreases |entries|
  {
    var u := DiscoverAll(s, account, entries);
    if entries == [] {
      assert u.videos[|s.videos|..] == [];
    } else {
      var t := DiscoverEntry(s, account, entries[0]);
      NewRowIsAnnounced(s, account, entries[0]);
      DiscoverAllAnnounces(t, account, entries[1..]);
      assert t.videos[..|s.videos|] == s.videos;
      GrownInTwo(s.videos, t.videos, u.videos);
      DiscoveriesAppend(t.videos[|s.videos|..], u.videos[|t.videos|..]);
    }
  }

  lemma GrownInTwo(a: seq<Row>, b: seq<Row>, c: seq<Row>)
    requires |a| <= |b| <= |c| && b[..|a|] == a && c[..|b|] == b
    ensures c[..|a|] == a && c[|a|..] == b[|a|..] + c[|b|..]
  {
    assert c[|a|..] == c[|a|..|b|] + c[|b|..] && c[|a|..|b|] == c[..|b|][|a|..];
    assert c[..|a|] == c[..|b|][..|a|];
  }

  lemma {:induction false} FlagsWeighNothing(accounts: seq<Account>, account: nat, a: Account)
    requires account < |accounts| && a.bytes == accounts[account].bytes
    ensures TotalBytes(accounts[account := a]) == TotalBytes(accounts)
  {
    var after := accounts[account := a];
    if account == 0 {
      assert after[1..] == accounts[1..];
    } else {
      assert after[1..] == accounts[1..][account - 1 := a];
      FlagsWeighNothing(accounts[1..], account - 1, a);
    }
  }

  lemma AccountEditKeeps(s: State, account: nat, a: Account)
    requires Sound(s) && account < |s.accounts| && a.bytes == s.accounts[account].bytes
    ensures Sound(s.(accounts := s.accounts[account := a]))
  {
    FlagsWeighNothing(s.accounts, account, a);
  }

  lemma DiscoverKeeps(s: State, account: nat, feed: Feed)
    requires Sound(s) && account < |s.accounts|
    ensures Sound(Discover(s, account, feed))
  {
    var a := s.accounts[account];
    if !Throttled(a, feed.start) {
      match feed.listing
      case ListingBroke(why) =>
        AccountEditKeeps(s, account, a.(lastCheck := Some(feed.finish)));
        AccountEditKeeps(s, account, a.(needsReview := true));
      case Listed(entries) =>
        DiscoverAllMeans(s, account, entries);
        AccountEditKeeps(DiscoverAll(s, account, entries), account, a.(lastCheck := Some(feed.finish)));
    }
  }

  /** last_check_at moves only when a check completed; only an auth failure raises needs_review. */
  lemma CheckedOnlyWhenCompleted(s: State, account: nat, feed: Feed)
    requires account < |s.accounts|
    ensures var t, a := Discover(s, account, feed), s.accounts[account];
      var listed := a.lastCheck.None? || feed.start - a.lastCheck.value >= 30;
      && t.accounts == s.accounts[account := a.(
           lastCheck := if listed && (feed.listing.Listed? || feed.listing.why.Info?) then Some(feed.finish) else a.lastCheck,
           needsReview := a.needsReview || (listed && feed.listing.ListingBroke? && feed.listing.why.Definitive?))]
      && (!listed || feed.listing.ListingBroke? ==> t.videos == s.videos && t.events == s.events)
  {
    assert s.accounts == s.accounts[account := s.accounts[account]];
  }

  // ---------------------------------------------------------------- run_monitor_cycle_once

  /** SELECT ... WHERE mode = 'monitor' AND paused = 0 AND needs_review = 0 ORDER BY id. */
  function Active(accounts: seq<Account>, from: nat): (chosen: seq<nat>)
    requires from <= |accounts|
    ensures forall i :: 0 <= i < |chosen| ==> from <= chosen[i] < |accounts|
    ensures forall i, j :: 0 <= i < j < |chosen| ==> chosen[i] < chosen[j]
    ensures forall a: nat :: a in chosen <==>
      from <= a < |accounts| && accounts[a].monitored && accounts[a].paused == accounts[a].needsReview == false
    decreases |accounts| - from
  {
    if from == |accounts| then [] else
    var rest := Active(accounts, from + 1);
    if accounts[from].monitored && !accounts[from].paused && !accounts[from].needsReview then [from] + rest else rest
  }

  /** The accounts in monitor mode that are neither paused nor waiting for a review. */
  ghost function Monitored(accounts: seq<Account>): set<nat> {
    set a: nat | a < |accounts| && accounts[a].monitored && accounts[a].paused == accounts[a].needsReview == false
  }

  lemma {:induction false} AscendingCount(ids: seq<nat>, all: set<nat>)
    requires (forall a :: a in ids <==> a in all) && forall i, j :: 0 <= i < j < |ids| ==> ids[i] < ids[j]
    ensures |ids| == |all|
  {
    if ids == [] {
      assert all == {};
    } else {
      assert ids[0] in ids && forall a :: a in ids[1..] <==> a in ids && a != ids[0];
      AscendingCount(ids[1..], all - {ids[0]});
    }
  }

  ghost function Visit(s: State, account: nat, w: World): (t: State)
    requires account < |s.accounts|
    ensures |t.accounts| == |s.accounts|
  {
    DownloadPendings(Discover(s, account, w.feed(account)), account, w.gate(account), w.override, w.work)
  }

  ghost function VisitAll(s: State, accounts: seq<nat>, w: World): (t: State)
    requires forall i :: 0 <= i < |accounts| ==> accounts[i] < |s.accounts|
    ensures |t.accounts| == |s.accounts|
    decreases |accounts|
  {
    if accounts == [] then s else VisitAll(Visit(s, accounts[0], w), accounts[1..], w)
  }

  ghost function Cycle(s: State, w: World): (t: State)
    ensures |t.accounts| == |s.accounts|
  {
    if !w.gates.cookie then StopMonitor(s)
    else if s.downloadsPaused || !w.gates.online then s
    else VisitAll(s, Active(s.accounts, 0), w)
  }

  lemma StopMonitorKeeps(s: State)
    requires Sound(s)
    ensures Sound(StopMonitor(s))
  {
    assert StopMonitor(s).events[..|s.events|] == s.events;
  }

  lemma VisitKeeps(s: State, account: nat, w: World)
    requires Sound(s) && account < |s.accounts|
    ensures Sound(Visit(s, account, w))
  {
    DiscoverKeeps(s, account, w.feed(account));
    var t := Discover(s, account, w.feed(account));
    StopMonitorKeeps(t);
    PassMeans(t, PendingRows(t.videos, account), account, w.override, w.work);
  }

  lemma {:induction false} VisitAllKeeps(s: State, accounts: seq<nat>, w: World)
    requires Sound(s) && forall i :: 0 <= i < |accounts| ==> accounts[i] < |s.accounts|
    ensures Sound(VisitAll(s, accounts, w))
    decreases |accounts|
  {
    if accounts != [] {
      VisitKeeps(s, accounts[0], w);
      VisitAllKeeps(Visit(s, accounts[0], w), accounts[1..], w);
    }
  }

  // ---------------------------------------------------------------- the backfill's video step

  /** One listed entry of a backfill: a row that is already terminal is passed over. */
  function BackfillVideo(s: State, account: nat, entry: Entry, work: Work, override: bool): (t: State)
    requires account < |s.accounts|
    ensures |t.accounts| == |s.accounts|
  {
    match Find(s.videos, entry.id, 0)
    case Some(row) => if Terminal(s.videos[row].status) then s else Attempt(s, row, account, entry.timed, work, override)
    case None => Attempt(Insert(s, account, entry), |s.videos|, account, entry.timed, work, override)
  }

  lemma BackfillVideoKeeps(s: State, account: nat, entry: Entry, work: Work, override: bool)
    requires Sound(s) && account < |s.accounts|
    ensures Sound(BackfillVideo(s, account, entry, work, override))
  {
    match Find(s.videos, entry.id, 0)
    case Some(row) =>
      if !Terminal(s.videos[row].status) {
        AttemptKeeps(s, row, account, entry.timed, work, override);
      }
    case None =>
      InsertKeeps(s, account, entry);
      AttemptKeeps(Insert(s, account, entry), |s.videos|, account, entry.timed, work, override);
  }

  // ---------------------------------------------------------------- retry_failed

  predicate Retriable(row: Row, account: nat) {
    row.account == account && row.status == Failed && (row.category == Transient || row.category == Integrity)
  }

  function RetriableRows(videos: seq<Row>, account: nat): seq<nat> {
    Select(videos, (r: Row) => Retriable(r, account), 0)
  }

  /** Archive first, then the guarded status write. */
  function Requeue(s: State, row: nat): (t: State)
    requires row < |s.videos|
    ensures |t.videos| == |s.videos| && t.accounts == s.accounts
  {
    var r := s.videos[row];
    s.(archive := s.archive - {r.id},
       videos := if r.status == Failed then s.videos[row := r.(status := Pending)] else s.videos)
  }

  ghost function RequeueAll(s: State, rows: seq<nat>): (t: State)
    requires InRange(s, rows)
    ensures |t.videos| == |s.videos| && t.accounts == s.accounts
    decreases |rows|
  {
    if rows == [] then s else RequeueAll(Requeue(s, rows[0]), rows[1..])
  }

  lemma RequeueNext(s: State, rows: seq<nat>, i: nat)
    requires InRange(s, rows) && i < |rows|
    ensures RequeueAll(s, rows[i..]) == RequeueAll(Requeue(s, rows[i]), rows[i + 1..])
  {
    assert rows[i..][0] == rows[i] && rows[i..][1..] == rows[i + 1..];
  }

  ghost function Retry(s: State, accounts: seq<nat>): (t: State)
    ensures |t.videos| == |s.videos| && t.accounts == s.accounts
    decreases |accounts|
  {
    if accounts == [] then s else Retry(RequeueAll(s, RetriableRows(s.videos, accounts[0])), accounts[1..])
  }

  lemma RequeueKeeps(s: State, row: nat)
    requires Sound(s) && row < |s.videos| && s.videos[row].status == Failed
    ensures Sound(Requeue(s, row))
  {
    var t := s.(archive := s.archive - {s.videos[row].id});
    ArchiveEditKeeps(s, t, row);
    RowWeighs(s.videos, row, s.videos[row].(status := Pending));
  }

  function Failures(videos: seq<Row>): nat {
    if videos == [] then 0 else (if videos[0].status == Failed then 1 else 0) + Failures(videos[1..])
  }

  lemma {:induction false} OneFailureLess(videos: seq<Row>, row: nat, r: Row)
    requires row < |videos| && videos[row].status == Failed && r.status != Failed
    ensures Failures(videos[row := r]) == Failures(videos) - 1
  {
    var after := videos[row := r];
    if row == 0 {
      assert after[1..] == videos[1..];
    } else {
      assert after[1..] == videos[1..][row - 1 := r];
      OneFailureLess(videos[1..], row - 1, r);
    }
  }

  /** Each requeued row is one failure less. */
  lemma {:induction false} RequeueAllFailures(s: State, rows: seq<nat>)
    requires InRange(s, rows) && forall i :: 0 <= i < |rows| ==> s.videos[rows[i]].status == Failed
    requires forall i, j :: 0 <= i < j < |rows| ==> rows[i] < rows[j]
    ensures Failures(RequeueAll(s, rows).videos) == Failures(s.videos) - |rows|
    decreases |rows|
  {
    if rows != [] {
      OneFailureLess(s.videos, rows[0], s.videos[rows[0]].(status := Pending));
      RequeueAllFailures(Requeue(s, rows[0]), rows[1..]);
    }
  }

  lemma {:induction false} RequeueAllKeeps(s: State, rows: seq<nat>)
    requires Sound(s) && InRange(s, rows) && forall i :: 0 <= i < |rows| ==> s.videos[rows[i]].status == Failed
    requires forall i, j :: 0 <= i < j < |rows| ==> rows[i] < rows[j]
    ensures Sound(RequeueAll(s, rows)) && RequeueAll(s, rows).commits == s.commits
    decreases |rows|
  {
    if rows != [] {
      RequeueKeeps(s, rows[0]);
      RequeueAllKeeps(Requeue(s, rows[0]), rows[1..]);
    }
  }

  lemma {:induction false} RequeueAllRow(s: State, rows: seq<nat>, row: nat)
    requires InRange(s, rows) && row < |s.videos| && (row in rows ==> s.videos[row].status == Failed)
    requires forall i, j :: 0 <= i < j < |rows| ==> rows[i] < rows[j]
    ensures var t := RequeueAll(s, rows);
      && t.archive <= s.archive
      && t.videos[row] == (if row in rows then s.videos[row].(status := Pending) else s.videos[row])
      && (row in rows ==> s.videos[row].id !in t.archive)
    decreases |rows|
  {
    if rows != [] {
      assert row in rows <==> row == rows[0] || row in rows[1..];
      RequeueAllRow(Requeue(s, rows[0]), rows[1..], row);
    }
  }

  lemma {:induction false} RetryKeeps(s: State, accounts: seq<nat>)
    requires Sound(s)
    ensures Sound(Retry(s, accounts)) && Retry(s, accounts).commits == s.commits
    decreases |accounts|
  {
    if accounts != [] {
      RequeueAllKeeps(s, RetriableRows(s.videos, accounts[0]));
      RetryKeeps(RequeueAll(s, RetriableRows(s.videos, accounts[0])), accounts[1..]);
    }
  }

  /** Exactly the retriable failures of the chosen accounts become pending, none of them still archived. */
  lemma {:induction false} RetryRow(s: State, accounts: seq<nat>, row: nat)
    requires row < |s.videos|
    ensures var t, r := Retry(s, accounts), s.videos[row];
      var chosen := r.account in accounts && Retriable(r, r.account);
      && t.archive <= s.archive
      && t.videos[row] == (if chosen then r.(status := Pending) else r)
      && (chosen ==> r.id !in t.archive)
    decreases |accounts|
  {
    if accounts != [] {
      var rows := RetriableRows(s.videos, accounts[0]);
      if Retriable(s.videos[row], accounts[0]) {
        SelectIsComplete(s.videos, (r: Row) => Retriable(r, accounts[0]), 0, row);
      }
      RequeueAllRow(s, rows, row);
      RetryRow(RequeueAll(s, rows), accounts[1..], row);
    }
  }

  /** A retry pass keeps retry_count; the attempt that follows keeps it exactly when it was the base count already. */
  lemma RetryCountSurvivesIffBase(s: State, row: nat, account: nat, expected: bool, work: Work, override: bool)
    requires row < |s.videos| && account < |s.accounts|
    ensures Requeue(s, row).videos[row].retries == s.videos[row].retries
    ensures Attempt(Requeue(s, row), row, account, expected, work, override).videos[row].retries == s.videos[row].retries
      <==> s.videos[row].retries == 0
  {
    AttemptMeans(Requeue(s, row), row, account, expected, work, override);
  }

  // ---------------------------------------------------------------- whole histories

  /** Passes that do not overlap; `Recorded` is a yt-dlp thread left over from a timeout finishing late. */
  datatype Pass =
    | MonitorCycle(world: World)
    | BackfillEntry(account: nat, entry: Entry, work: Work, override: bool)
    | RetryFailed(accounts: seq<nat>)
    | Recorded(id: string)

  ghost function PlayOne(s: State, pass: Pass): (t: State)
    requires pass.BackfillEntry? ==> pass.account < |s.accounts|
    ensures |t.accounts| == |s.accounts|
  {
    match pass
    case MonitorCycle(world) => Cycle(s, world)
    case BackfillEntry(account, entry, work, override) => BackfillVideo(s, account, entry, work, override)
    case RetryFailed(accounts) => Retry(s, accounts)
    case Recorded(id) => s.(archive := s.archive + {id})
  }

  ghost function Play(s: State, passes: seq<Pass>): State
    requires forall i :: 0 <= i < |passes| && passes[i].BackfillEntry? ==> passes[i].account < |s.accounts|
    decreases |passes|
  {
    if passes == [] then s else Play(PlayOne(s, passes[0]), passes[1..])
  }

  /** Over every history: bytes are conserved, commits and events agree, skipped rows stay archived. */
  lemma {:induction false} HistoryIsSound(s: State, passes: seq<Pass>)
    requires Sound(s)
    requires forall i :: 0 <= i < |passes| && passes[i].BackfillEntry? ==> passes[i].account < |s.accounts|
    ensures Sound(Play(s, passes))
    decreases |passes|
  {
    if passes != [] {
      match passes[0] {
        case MonitorCycle(w) =>
          StopMonitorKeeps(s);
          VisitAllKeeps(s, Active(s.accounts, 0), w);
        case BackfillEntry(account, entry, work, override) => BackfillVideoKeeps(s, account, entry, work, override);
        case RetryFailed(accounts) => RetryKeeps(s, accounts);
        case Recorded(id) =>
      }
      HistoryIsSound(PlayOne(s, passes[0]), passes[1..]);
    }
  }

  // ---------------------------------------------------------------- the services over the two tables

  datatype Counts = Counts(downloaded: nat, skipped: nat, failed: nat, stopped: bool, paused: bool)

  datatype Totals = Totals(discovered: nat, accounts: nat, counts: Counts)

  function Counted(c: Counts, status: Status): Counts {
    match status
    case Downloaded => c.(downloaded := c.downloaded + 1)
    case Skipped => c.(skipped := c.skipped + 1)
    case _ => c.(failed := c.failed + 1)
  }

  /** The counts are the commits made since. */
  ghost predicate CountsAre(c: Counts, before: seq<Commit>, after: seq<Commit>) {
    && Tally(after, Downloaded) == Tally(before, Downloaded) + c.downloaded
    && Tally(after, Skipped) == Tally(before, Skipped) + c.skipped
    && Tally(after, Failed) == Tally(before, Failed) + c.failed
    && |after| == |before| + c.downloaded + c.skipped + c.failed
  }

  lemma OneMore(c: Counts, before: seq<Commit>, after: seq<Commit>, commit: Commit)
    requires CountsAre(c, before, after) && Terminal(commit.status)
    ensures CountsAre(Counted(c, commit.status), before, after + [commit])
  {
    assert (after + [commit])[..|after|] == after;
  }

  class Catalogue {
    var videos: seq<Row>
    var accounts: seq<Account>
    var archive: set<string>
    var downloadsPaused: bool
    var monitorRunning: bool
    var zombies: nat
    var events: seq<Event>
    ghost var commits: seq<Commit>

    ghost function Now(): State
      reads this
    {
      State(videos, accounts, archive, downloadsPaused, monitorRunning, zombies, commits, events)
    }

    /** One session: the row, the byte count and the commit; then the event. */
    method PersistTerminal(row: nat, status: Status, category: Stored, size: nat, bump: Option<nat>, video: Option<string>)
      requires row < |videos| && (bump.Some? ==> bump.value < |accounts|)
      modifies this
      ensures Now() == Persist(old(Now()), row, status, category, size, bump, video)
    {
      var r := videos[row].(status := status, category := category, retries := BASE_RETRY_COUNT);
      if status == Downloaded {
        r := r.(size := size);
      }
      videos := videos[row := r];
      if bump.Some? {
        var a := accounts[bump.value];
        accounts := accounts[bump.value := a.(bytes := a.bytes + size)];
      }
      commits := commits + [Commit(row, status)];
      events := events + [Outcome(status, video, category)];
    }

    method HandleDownloadResult(row: nat, check: Check, id: string, account: nat, expected: bool) returns (handled: Handled)
      requires account < |accounts|
      modifies this
      ensures handled == if row < old(|videos|) then Answer(check, expected) else UnknownRow
      ensures Now() == if row < old(|videos|) then Handle(old(Now()), row, check, id, account, expected) else old(Now())
    {
      if row >= |videos| {
        return UnknownRow;
      }
      if check.File? && check.size > 0 && check.probe.ProbeBroke? {
        return Raised(check.probe.why);
      }
      var hasVideo := if check.File? && check.size > 0 then Some(check.probe.hasVideo) else None;
      if hasVideo == Some(false) && expected {
        archive := archive - {id};
        hasVideo := None;
      }
      if hasVideo == Some(true) {
        PersistTerminal(row, Downloaded, Uncategorised, check.size, Some(account), Some(id));
        return Settled(Downloaded);
      }
      if hasVideo == Some(false) && !expected {
        archive := archive + {id};
        PersistTerminal(row, Skipped, Uncategorised, 0, None, Some(id));
        return Settled(Skipped);
      }
      PersistTerminal(row, Failed, Integrity, 0, None, Some(id));
      return Settled(Failed);
    }

    method PersistDownloadFailure(row: nat, why: Errors.Category) returns (known: bool)
      modifies this
      ensures known <==> row < old(|videos|)
      ensures Now() == if known then Fail(old(Now()), row, why) else old(Now())
      ensures known ==>
        && videos[row].status == Failed && (downloadsPaused <==> old(downloadsPaused) || why.Local?)
        && (videos[row].category == Definitive <==> why.Definitive?)
        && (videos[row].category == Transient <==> why.Transient?)
        && (videos[row].category == Uncategorised <==> why.Local? || why.Info?)
    {
      if row >= |videos| {
        return false;
      }
      if why.Local? {
        downloadsPaused := true;
        events := events + [DiskPaused];
      }
      PersistTerminal(row, Failed, StoredAs(why), 0, None, None);
      return true;
    }

    /** The engine's format chain; `None` is a path. */
    method Download(id: string, tries: seq<Try>) returns (failure: Option<Errors.Category>)
      requires tries != []
      modifies this
      ensures Now() == Fetch(old(Now()), id, tries)
      ensures var last := tries[Decider(tries)]; failure == if last.Fetched? then None else Some(last.why)
    {
      var attempt := 0;
      while true
        invariant 0 <= attempt < |tries|
        invariant Fetch(Now(), id, tries[attempt..]) == Fetch(old(Now()), id, tries)
        invariant attempt + Decider(tries[attempt..]) == Decider(tries)
        invariant videos == old(videos) && accounts == old(accounts)
        decreases |tries| - attempt
      {
        var try := tries[attempt];
        if try.recorded {
          archive := archive + {id};
        }
        match try {
          case Fetched(_) => return None;
          case Unresolved(_, why) => return Some(why);
          case TimedOut(_, why) =>
            zombies := zombies + 1;
            return Some(why);
          case Broke(_, why) =>
            if attempt == |tries| - 1 {
              return Some(why);
            }
            archive := archive - {id};
        }
        assert tries[attempt..][1..] == tries[attempt + 1..];
        attempt := attempt + 1;
      }
    }

    /** One row through pacer, engine and integrity check, or through the failure path. */
    method AttemptRow(row: nat, account: nat, expected: bool, work: Work, override: bool) returns (status: Status)
      requires row < |videos| && account < |accounts|
      modifies this
      ensures Now() == Attempt(old(Now()), row, account, expected, work, override)
      ensures status == Verdict(work, override, expected) && commits == old(commits) + [Commit(row, status)]
    {
      AttemptMeans(Now(), row, account, expected, work, override);
      var known: bool;
      if work.NoSlot? {
        known := PersistDownloadFailure(row, work.why);
        return Failed;
      }
      var id := videos[row].id;
      FetchTouchesArchiveOnly(Now(), id, Chain(work, override));
      DeciderDelivers(work, override);
      var failure := Download(id, Chain(work, override));
      if failure.Some? {
        known := PersistDownloadFailure(row, failure.value);
        return Failed;
      }
      var handled := HandleDownloadResult(row, work.check, id, account, expected);
      if handled.Raised? {
        known := PersistDownloadFailure(row, handled.why);
        return Failed;
      }
      return handled.status;
    }

    method DownloadAccountPendings(account: nat, gates: Gates, override: bool, work: nat -> Work) returns (counts: Counts)
      requires account < |accounts|
      modifies this
      ensures Now() == DownloadPendings(old(Now()), account, gates, override, work)
      ensures CountsAre(counts, old(commits), commits)
      ensures (counts.stopped <==> !gates.cookie) && (counts.paused <==> gates.cookie && (old(downloadsPaused) || !gates.online))
    {
      if !gates.cookie {
        monitorRunning := false;
        events := events + [NoCookies];
        return Counts(0, 0, 0, true, false);
      }
      if downloadsPaused || !gates.online {
        return Counts(0, 0, 0, false, true);
      }
      counts := AttemptRows(PendingRows(videos, account), account, override, work);
    }

    /** The batch: every selected row in turn, whatever becomes of the others. */
    method AttemptRows(rows: seq<nat>, account: nat, override: bool, work: nat -> Work) returns (counts: Counts)
      requires InRange(Now(), rows) && account < |accounts|
      modifies this
      ensures Now() == AttemptAll(old(Now()), rows, account, override, work)
      ensures CountsAre(counts, old(commits), commits) && !counts.stopped && !counts.paused
    {
      counts := Counts(0, 0, 0, false, false);
      for i := 0 to |rows|
        invariant |videos| == old(|videos|) && |accounts| == old(|accounts|)
        invariant AttemptAll(Now(), rows[i..], account, override, work) == AttemptAll(old(Now()), rows, account, override, work)
        invariant CountsAre(counts, old(commits), commits) && !counts.stopped && !counts.paused
      {
        ghost var before := commits;
        AttemptNext(Now(), rows, i, account, override, work);
        var status := AttemptRow(rows[i], account, videos[rows[i]].timed, work(rows[i]), override);
        OneMore(counts, old(commits), before, Commit(rows[i], status));
        counts := Counted(counts, status);
      }
    }

    method DiscoverNewVideos(account: nat, feed: Feed) returns (discovered: nat)
      requires account < |accounts|
      modifies this
      ensures Now() == Discover(old(Now()), account, feed)
      ensures discovered == |videos| - old(|videos|) && commits == old(commits)
    {
      discovered := 0;
      if Throttled(accounts[account], feed.start) {
        return;
      }
      if feed.listing.ListingBroke? {
        var why := feed.listing.why;
        if why.Info? {
          accounts := accounts[account := accounts[account].(lastCheck := Some(feed.finish))];
        } else if why.Definitive? {
          accounts := accounts[account := accounts[account].(needsReview := true)];
        }
        return;
      }
      var entries := feed.listing.entries;
      for i := 0 to |entries|
        invariant DiscoverAll(Now(), account, entries[i..]) == DiscoverAll(old(Now()), account, entries)
        invariant discovered == |videos| - old(|videos|)
        invariant accounts == old(accounts) && commits == old(commits)
      {
        assert entries[i..][0] == entries[i] && entries[i..][1..] == entries[i + 1..];
        var entry := entries[i];
        if entry.id != "" && Find(videos, entry.id, 0).None? {
          videos := videos + [Row(entry.id, account, entry.timed, Pending, Uncategorised, 0, 0)];
          discovered := discovered + 1;
          events := events + [Discovered(entry.id)];
        }
      }
      accounts := accounts[account := accounts[account].(lastCheck := Some(feed.finish))];
    }

    method RunMonitorCycleOnce(w: World) returns (totals: Totals)
      modifies this
      ensures Now() == Cycle(old(Now()), w)
      ensures CountsAre(totals.counts, old(commits), commits)
      ensures totals.discovered == |videos| - old(|videos|)
      ensures totals.accounts == if w.gates.cookie && w.gates.online && !old(downloadsPaused) then |Monitored(old(accounts))| else 0
    {
      var none := Counts(0, 0, 0, false, false);
      if !w.gates.cookie {
        monitorRunning := false;
        events := events + [NoCookies];
        return Totals(0, 0, none.(stopped := true));
      }
      if downloadsPaused || !w.gates.online {
        return Totals(0, 0, none.(paused := true));
      }
      var chosen := Active(accounts, 0);
      AscendingCount(chosen, Monitored(accounts));
      totals := Totals(0, 0, none);
      for i := 0 to |chosen|
        invariant |accounts| == old(|accounts|)
        invariant VisitAll(Now(), chosen[i..], w) == VisitAll(old(Now()), chosen, w)
        invariant totals.accounts == i && totals.discovered == |videos| - old(|videos|)
        invariant CountsAre(totals.counts, old(commits), commits)
      {
        assert chosen[i..][0] == chosen[i] && chosen[i..][1..] == chosen[i + 1..];
        var discovered := DiscoverNewVideos(chosen[i], w.feed(chosen[i]));
        var result := DownloadAccountPendings(chosen[i], w.gate(chosen[i]), w.override, w.work);
        var c := totals.counts;
        totals := Totals(totals.discovered + discovered, i + 1,
          c.(downloaded := c.downloaded + result.downloaded, skipped := c.skipped + result.skipped, failed := c.failed + result.failed));
      }
    }

    /** The video step of a backfill: whether this run brought the row to its terminal state. */
    method AttemptBackfillEntry(account: nat, entry: Entry, work: Work, override: bool) returns (moved: bool)
      requires account < |accounts|
      modifies this
      ensures Now() == BackfillVideo(old(Now()), account, entry, work, override)
      ensures |commits| == |old(commits)| + if moved then 1 else 0
    {
      var existing := Find(videos, entry.id, 0);
      var row: nat;
      if existing.Some? {
        row := existing.value;
        if Terminal(videos[row].status) {
          return false;
        }
      } else {
        row := |videos|;
        videos := videos + [Row(entry.id, account, entry.timed, Pending, Uncategorised, 0, 0)];
      }
      var status := AttemptRow(row, account, entry.timed, work, override);
      return true;
    }

    method RetryFailedVideos(chosen: seq<nat>) returns (count: nat)
      modifies this
      ensures Now() == Retry(old(Now()), chosen)
      ensures count == Failures(old(videos)) - Failures(videos)
    {
      count := 0;
      for i := 0 to |chosen|
        invariant Retry(Now(), chosen[i..]) == Retry(old(Now()), chosen)
        invariant count == Failures(old(videos)) - Failures(videos)
      {
        assert chosen[i..][0] == chosen[i] && chosen[i..][1..] == chosen[i + 1..];
        var requeued := RetryAccount(chosen[i]);
        count := count + requeued;
      }
    }

    /** The archive entry goes before the guarded write. */
    method RequeueRow(row: nat)
      requires row < |videos|
      modifies this
      ensures Now() == Requeue(old(Now()), row)
    {
      archive := archive - {videos[row].id};
      if videos[row].status == Failed {
        videos := videos[row := videos[row].(status := Pending)];
      }
    }

    method RetryAccount(account: nat) returns (count: nat)
      modifies this
      ensures Now() == RequeueAll(old(Now()), RetriableRows(old(videos), account))
      ensures count == |RetriableRows(old(videos), account)| == Failures(old(videos)) - Failures(videos)
    {
      var rows := RetriableRows(videos, account);
      RequeueAllFailures(Now(), rows);
      RequeueRows(rows);
      return |rows|;
    }

    method RequeueRows(rows: seq<nat>)
      requires InRange(Now(), rows)
      modifies this
      ensures Now() == RequeueAll(old(Now()), rows)
    {
      for i := 0 to |rows|
        invariant InRange(Now(), rows)
        invariant RequeueAll(Now(), rows[i..]) == RequeueAll(old(Now()), rows)
      {
        RequeueNext(Now(), rows, i);
        RequeueRow(rows[i]);
      }
    }
  }
}
