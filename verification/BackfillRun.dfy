/**
 `run_backfill` as the program it is: a loop over the feed between awaits, against columns that any other
 process may change at every await. Each run of it is proved to be one actor of the protocol, so whatever
 holds of every behaviour of the protocol holds of this program.
 */
module BackfillRun {
  import opened Prelude
  import V = VideoStatus
  import Errors
  import opened BackfillProtocol
  import opened BackfillInvariant

  /** How the try block of a run ends: by returning or raising, by a cancellation, or by a crash. */
  datatype Ending = Finished(result: Result) | Interrupted | Failing

  /** What the gates before an entry decide: work on it, pass it over, or stop at the boundary. */
  datatype Gate = Open | PassOver | Boundary

  function EndPc(e: Ending): Pc {
    match e
    case Finished(result) => Release(result)
    case Interrupted => Cancelling
    case Failing => Crashing
  }

  /** What the auth breaker is told: a definitive failure with an auth marker, another failure, or a success. */
  datatype Outcome = AuthFailure | OtherFailure | Success

  function TrailingAuth(history: seq<Outcome>): nat {
    if history == [] || history[|history| - 1] != AuthFailure then 0 else 1 + TrailingAuth(history[..|history| - 1])
  }

  /** After this history the breaker stands: the last outcome was a success, or too few auth failures in a row precede. */
  predicate Standing(history: seq<Outcome>, threshold: nat) {
    history != [] && (history[|history| - 1] == Success || TrailingAuth(history) < threshold)
  }

  /** Nothing was told to the breaker that made it trip. */
  ghost predicate NeverTripped(before: seq<Outcome>, after: seq<Outcome>, threshold: nat) {
    before <= after && forall n :: |before| < n <= |after| ==> Standing(after[..n], threshold)
  }

  lemma NeverTrippedTwice(a: seq<Outcome>, b: seq<Outcome>, c: seq<Outcome>, threshold: nat)
    requires NeverTripped(a, b, threshold) && NeverTripped(b, c, threshold)
    ensures NeverTripped(a, c, threshold)
  {
    forall n | |a| < n <= |c|
      ensures Standing(c[..n], threshold)
    {
      assert n <= |b| ==> c[..n] == b[..n];
    }
  }

  /** Trailing auth failures: the last so many outcomes, and before them another one or nothing. */
  lemma {:induction false} TrailingAuthIs(history: seq<Outcome>)
    ensures var n := TrailingAuth(history);
      && n <= |history| && (forall i :: |history| - n <= i < |history| ==> history[i] == AuthFailure)
      && (n < |history| ==> history[|history| - n - 1] != AuthFailure)
  {
    if history != [] && history[|history| - 1] == AuthFailure {
      TrailingAuthIs(history[..|history| - 1]);
    }
  }

  /** What the breaker counts: classified definitive over the whole cause chain, with an auth marker in its own message. */
  predicate IsAuthFailure(haystack: string, message: string, digit: char -> bool) {
    Errors.Classify(haystack, digit) == Errors.Definitive && Errors.ContainsAny(message, Errors.AUTH_MARKERS)
  }

  class BackfillBreaker {
    const threshold: nat
    const digit: char -> bool
    var consecutiveAuthFailures: nat
    ghost var history: seq<Outcome>

    ghost predicate Valid()
      reads this
    {
      consecutiveAuthFailures == TrailingAuth(history)
    }

    constructor (digit: char -> bool, threshold: nat := 5)
      ensures Valid() && history == [] && this.threshold == threshold && this.digit == digit
    {
      this.threshold := threshold;
      this.digit := digit;
      consecutiveAuthFailures := 0;
      history := [];
    }

    /**
     Counts one failure, given its lower-cased texts: the whole cause chain and its own message. Trips when the
     last `threshold` outcomes were all auth failures.
     */
    method Record(haystack: string, message: string) returns (tripped: bool)
      requires Valid()
      modifies this
      ensures Valid() && history == old(history)
        + [if Errors.Classify(haystack, digit) == Errors.Definitive && Errors.SaysLogin(message) then AuthFailure else OtherFailure]
      ensures tripped <==> TrailingAuth(history) >= threshold
    {
      var auth := IsAuthFailure(haystack, message, digit);
      Errors.LoginSpelledOut(message);
      if auth {
        consecutiveAuthFailures := consecutiveAuthFailures + 1;
      } else {
        consecutiveAuthFailures := 0;
      }
      history := history + [if auth then AuthFailure else OtherFailure];
      tripped := consecutiveAuthFailures >= threshold;
    }

    method Reset()
      requires Valid()
      modifies this
      ensures Valid() && history == old(history) + [Success]
    {
      consecutiveAuthFailures := 0;
      history := history + [Success];
    }
  }

  /** Everything that has happened so far, one committed step at a time. */
  datatype History = Begin(now: State) | Then(past: History, step: Step, now: State)

  ghost predicate Legal(h: History) {
    match h
    case Begin(s) => Init(s)
    case Then(past, step, s) => Legal(past) && Enabled(past.now, step) && s == Next(past.now, step)
  }

  function States(h: History): seq<State> {
    if h.Begin? then [h.now] else States(h.past) + [h.now]
  }

  function Steps(h: History): seq<Step> {
    if h.Begin? then [] else Steps(h.past) + [h.step]
  }

  /** A legal history is a behaviour of the protocol that ends in its current state. */
  lemma {:induction false} LegalIsBehaviour(h: History)
    requires Legal(h)
    ensures Behaviour(States(h), Steps(h))
    ensures States(h)[|States(h)| - 1] == h.now
  {
    if h.Then? {
      LegalIsBehaviour(h.past);
    }
  }

  /** `later` continues `h`. */
  ghost predicate Extends(h: History, later: History) {
    later == h || (later.Then? && Extends(h, later.past))
  }

  /** Between `h` and `later`, the step was taken in state `s`. */
  ghost predicate Took(h: History, later: History, s: State, step: Step) {
    later != h && later.Then? && ((later.past.now == s && later.step == step) || Took(h, later.past, s, step))
  }

  function Length(h: History): nat {
    if h.Begin? then 0 else 1 + Length(h.past)
  }

  lemma {:induction false} ExtendsIsLonger(h: History, later: History)
    requires Extends(h, later)
    ensures Length(h) <= Length(later) && (later != h ==> Length(h) < Length(later))
  {
    if later != h {
      ExtendsIsLonger(h, later.past);
    }
  }

  lemma {:induction false} ExtendsTransitive(a: History, b: History, c: History)
    requires Extends(a, b) && Extends(b, c)
    ensures Extends(a, c)
  {
    if c != b {
      ExtendsTransitive(a, b, c.past);
    }
  }

  /** What has happened stays in the history. */
  lemma {:induction false} TookStays(h: History, later: History, latest: History, s: State, step: Step)
    requires Extends(h, later) && Took(h, later, s, step) && Extends(later, latest)
    ensures Took(h, latest, s, step)
  {
    if latest != later {
      TookStays(h, later, latest.past, s, step);
      ExtendsTransitive(h, later, latest.past);
      ExtendsIsLonger(h, latest.past);
      ExtendsIsLonger(h, later);
    }
  }

  lemma TookNow(h: History, before: History, after: History)
    requires Extends(h, before) && after.Then? && after.past == before
    ensures Extends(h, after) && Took(h, after, before.now, after.step)
  {
    ExtendsIsLonger(h, before);
  }

  class Database {
    var accounts: map<int, Account>
    var slot: Option<Owner>
    var videos: map<string, V.Status>
    var downloadsPaused: bool
    var monitorRunning: bool

    var history: History

    ghost predicate Valid()
      reads this
    {
      Legal(history) && Matches(Now())
    }

    ghost predicate Matches(s: State)
      reads this
    {
      && accounts == s.accounts && slot == s.slot && videos == s.videos
      && downloadsPaused == s.downloadsPaused && monitorRunning == s.monitorRunning
    }

    /** A database nobody has touched since a clean start. */
    constructor (accounts: map<int, Account>, videos: map<string, V.Status>, downloadsPaused: bool, monitorRunning: bool)
      requires forall a :: a in accounts ==> accounts[a].status != Backfilling && Coherent(accounts[a])
      ensures Valid() && Now().workers == map[] && Now().ops == map[] && slot == None
      ensures this.accounts == accounts && this.videos == videos
    {
      this.accounts, this.videos, slot := accounts, videos, None;
      this.downloadsPaused, this.monitorRunning := downloadsPaused, monitorRunning;
      history := Begin(State(accounts, None, videos, downloadsPaused, monitorRunning, map[], map[], map a | a in accounts :: []));
    }

    function Now(): State
      reads this
    {
      history.now
    }

    ghost function Me(w: int): Worker
      requires w in Now().workers
      reads this
    {
      Now().workers[w]
    }

    /** Run `w` of account `a` stands at `pc`. */
    ghost predicate At(w: int, a: int, pc: Pc)
      reads this
    {
      Valid() && w in Now().workers && Me(w).account == a && Me(w).pc == pc
    }

    /** Completes a step whose columns have just been written. */
    method Record(step: Step)
      requires Legal(history) && Enabled(Now(), step) && Matches(Next(Now(), step))
      modifies this`history
      ensures Valid() && history == Then(old(history), step, Next(old(Now()), step))
    {
      history := Then(history, step, Next(Now(), step));
    }

    /** Run `w` stands at `pc` of the loop with these locals. */
    ghost predicate LoopAt(w: int, a: int, pc: Pc, entries: seq<Entry>, i: nat,
                           scope: Option<string>, moving: Option<string>, done: nat)
      reads this
    {
      && At(w, a, pc)
      && Me(w).entries == entries && Me(w).i == i && Me(w).scope == scope && Me(w).moving == moving && Me(w).done == done
    }

    // ---------------------------------------------------------------- interference

    /** One step of an actor other than run `w`, if it can take it now. */
    method OtherStep(w: int, step: Step)
      requires Valid() && !(step.Advances? && step.w == w)
      modifies this
      ensures Valid()
      ensures w in old(Now()).workers ==> w in Now().workers && Me(w) == old(Now()).workers[w]
    {
      if Enabled(Now(), step) {
        var next := Next(Now(), step);
        OthersLeaveRunAlone(Now(), step, w);
        accounts, slot, videos := next.accounts, next.slot, next.videos;
        downloadsPaused, monitorRunning := next.downloadsPaused, next.monitorRunning;
        Record(step);
      }
    }

    /** While run `w` waits, anybody else may take any number of steps. */
    method Yield(w: int)
      requires Valid()
      modifies this
      ensures Valid()
      ensures w in old(Now()).workers ==> w in Now().workers && Me(w) == old(Now()).workers[w]
    {
      var n: nat := *;
      while n > 0
        invariant Valid()
        invariant w in old(Now()).workers ==> w in Now().workers && Me(w) == old(Now()).workers[w]
      {
        var step: Step := *;
        if !(step.Advances? && step.w == w) {
          OtherStep(w, step);
        }
        n := n - 1;
      }
    }

    /** An await inside the try block: others move, then the run resumes, is cancelled, or fails. */
    method Await(w: int, a: int, ghost pc: Pc) returns (signal: Option<Ending>)
      requires At(w, a, pc) && InTry(pc)
      modifies this
      ensures Valid() && w in Now().workers
      ensures signal.None? ==> Me(w) == old(Me(w))
      ensures signal.Some? ==> (signal.value == Interrupted || signal.value == Failing) && At(w, a, EndPc(signal.value))
    {
      Yield(w);
      var cancelled, failed := *, *;
      if cancelled {
        Record(Advances(w, CancelTask));
        return Some(Interrupted);
      } else if failed {
        Record(Advances(w, CrashTask));
        return Some(Failing);
      } else {
        return None;
      }
    }

    // ---------------------------------------------------------------- the statements before the loop

    method AcquireBackfillSlot(owner: Owner) returns (won: bool)
      modifies this`slot
      ensures won == old(slot.None?)
      ensures slot == if won then Some(owner) else old(slot)
    {
      won := slot.None?;
      if won {
        slot := Some(owner);
      }
    }

    method ReleaseBackfillSlot(owner: Owner)
      modifies this`slot
      ensures slot == if old(slot) == Some(owner) then None else old(slot)
    {
      if slot == Some(owner) {
        slot := None;
      }
    }

    /** Gates 1 and 2: a working cookie, then the slot. */
    method AcquireRunSlot(w: int, a: int, cookie: bool) returns (won: bool)
      requires At(w, a, Start)
      modifies this
      ensures history == Then(old(history), Advances(w, Acquire(cookie)), Now())
      ensures At(w, a, if won then Gate else Ended(Raised))
      ensures Me(w).won == won && (won ==> cookie)
    {
      NowIsSafe();
      assert RunOk(Row(accounts, a), Me(w));
      won := false;
      if cookie {
        won := AcquireBackfillSlot(Run(a));
      }
      Record(Advances(w, Acquire(cookie)));
    }

    /** Gate 3: the account exists and is 'queued'. */
    method ReadGateStatus(w: int, a: int) returns (queued: bool)
      requires At(w, a, Gate)
      modifies this
      ensures history == Then(old(history), Advances(w, ReadGate), Now())
      ensures At(w, a, if queued then Mark else Release(Raised))
    {
      queued := a in accounts && accounts[a].status == Queued;
      Record(Advances(w, ReadGate));
    }

    method MarkBackfilling(w: int, a: int) returns (won: bool)
      requires At(w, a, Mark)
      modifies this
      ensures history == Then(old(history), Advances(w, MarkRow), Now())
      ensures At(w, a, if won then Listing else Release(Raised))
    {
      won := a in accounts && accounts[a].status == Queued;
      if won {
        accounts := accounts[a := accounts[a].(status := Backfilling, reason := None)];
      }
      Record(Advances(w, MarkRow));
    }

    method ListFeedEntries(w: int, a: int) returns (entries: seq<Entry>)
      requires At(w, a, Listing)
      modifies this
      ensures history == Then(old(history), Advances(w, ListFeed(entries)), Now())
      ensures At(w, a, Total) && Me(w).entries == entries
    {
      entries := *;
      Record(Advances(w, ListFeed(entries)));
    }

    method SetTotal(w: int, a: int, total: nat) returns (won: bool)
      requires At(w, a, Total) && total == |Me(w).entries|
      modifies this
      ensures history == Then(old(history), Advances(w, PersistTotal), Now())
      ensures At(w, a, if won then Snapshot else Release(Returned(Cancelled)))
      ensures Me(w).entries == old(Me(w).entries)
    {
      won := a in accounts && accounts[a].status == Backfilling;
      if won {
        accounts := accounts[a := accounts[a].(total := total)];
      }
      Record(Advances(w, PersistTotal));
    }

    method ReadSnapshot(w: int, a: int) returns (cursor: Option<string>, done: nat)
      requires At(w, a, Snapshot) && a in accounts
      modifies this
      ensures history == Then(old(history), Advances(w, TakeSnapshot), Now())
      ensures LoopAt(w, a, Head, old(Me(w).entries), 0, cursor, cursor, done)
    {
      cursor, done := accounts[a].cursor, accounts[a].done;
      Record(Advances(w, TakeSnapshot));
    }

    lemma NowIsSafe()
      requires Valid()
      ensures Inv(Now())
    {
      LegalIsBehaviour(history);
      BehaviourInv(States(history), Steps(history), |States(history)| - 1);
    }

    /** The run's own row is there from its mark to its release. */
    lemma RowIsThere(w: int, a: int)
      requires Valid() && w in Now().workers && Me(w).account == a
      requires Me(w).pc == Snapshot || (Me(w).snapped && Holding(Me(w).pc))
      ensures a in accounts
    {
      NowIsSafe();
      assert RunOk(Row(accounts, a), Me(w));
    }

    // ---------------------------------------------------------------- the statements of the loop

    /** The re-read before every entry. */
    method ReadStatus(w: int, a: int, entries: seq<Entry>, i: nat,
                      ghost scope: Option<string>, ghost moving: Option<string>, ghost done: nat) returns (cancelled: bool)
      requires LoopAt(w, a, Head, entries, i, scope, moving, done) && i < |entries| && a in accounts
      modifies this
      ensures history == Then(old(history), Advances(w, BackfillProtocol.ReadStatus), Now())
      ensures if cancelled then At(w, a, Release(Returned(Cancelled))) else LoopAt(w, a, Probe, entries, i, scope, moving, done)
    {
      cancelled := accounts[a].status == Cancelled;
      Record(Advances(w, BackfillProtocol.ReadStatus));
    }

    method PauseForNetwork(w: int, a: int, ghost entries: seq<Entry>, ghost i: nat,
                           ghost scope: Option<string>, ghost moving: Option<string>, ghost done: nat) returns (won: bool)
      requires LoopAt(w, a, NetPause, entries, i, scope, moving, done)
      modifies this
      ensures history == Then(old(history), Advances(w, BackfillProtocol.PauseForNetwork), Now())
      ensures if won then At(w, a, Release(Returned(Paused))) else LoopAt(w, a, Head, entries, i + 1, scope, moving, done)
    {
      won := a in accounts && accounts[a].status == Backfilling;
      if won {
        accounts := accounts[a := accounts[a].(status := Paused, reason := Some(Network))];
      }
      Record(Advances(w, BackfillProtocol.PauseForNetwork));
    }

    /** Finds the video's row or inserts it as pending; answers whether it is already terminal. */
    method GetOrCreatePendingVideo(w: int, a: int, id: string, ghost entries: seq<Entry>, ghost i: nat,
                                   ghost scope: Option<string>, ghost moving: Option<string>, ghost done: nat)
      returns (terminal: bool)
      requires LoopAt(w, a, Lookup, entries, i, scope, moving, done) && i < |entries| && entries[i].id == id
      modifies this
      ensures history == Then(old(history), Advances(w, LookUpVideo), Now())
      ensures LoopAt(w, a, if terminal then Progress(false) else Download, entries, i, scope, moving, done)
      ensures id in videos && (terminal <==> V.Terminal(videos[id]))
    {
      terminal := id in videos && V.Terminal(videos[id]);
      if id !in videos {
        videos := videos[id := V.Pending];
      }
      Record(Advances(w, LookUpVideo));
    }

    /** The one terminal commit of an attempt, through the download's result or its failure. */
    method CommitTerminal(w: int, a: int, id: string, outcome: V.Status, tripped: bool, ghost entries: seq<Entry>, ghost i: nat,
                          ghost scope: Option<string>, ghost moving: Option<string>, ghost done: nat)
      requires LoopAt(w, a, Downloading, entries, i, scope, moving, done) && i < |entries| && entries[i].id == id
      requires V.Terminal(outcome) && (tripped ==> outcome == V.Failed)
      modifies this
      ensures history == Then(old(history), Advances(w, Settle(outcome, tripped)), Now())
      ensures LoopAt(w, a, if tripped then Trip else Progress(true), entries, i, scope, moving, done)
      ensures id in videos && videos[id] == outcome
    {
      videos := videos[id := outcome];
      Record(Advances(w, Settle(outcome, tripped)));
    }

    method BeginDownload(w: int, a: int, ghost entries: seq<Entry>, ghost i: nat,
                         ghost scope: Option<string>, ghost moving: Option<string>, ghost done: nat)
      requires LoopAt(w, a, Download, entries, i, scope, moving, done)
      modifies this
      ensures history == Then(old(history), Advances(w, StartDownload), Now())
      ensures LoopAt(w, a, Downloading, entries, i, scope, moving, done)
    {
      Record(Advances(w, StartDownload));
    }

    method PauseForBreaker(w: int, a: int) returns (status: Status)
      requires At(w, a, Trip)
      modifies this
      ensures history == Then(old(history), Advances(w, BackfillProtocol.PauseForBreaker), Now())
      ensures At(w, a, Release(Returned(status))) && (status == Paused || status == Cancelled)
    {
      status := Cancelled;
      if a in accounts && accounts[a].status == Backfilling {
        accounts := accounts[a := accounts[a].(status := Paused, needsReview := true, paused := true)];
        status := Paused;
      }
      Record(Advances(w, BackfillProtocol.PauseForBreaker));
    }

    /** The guarded UPDATE of both columns. */
    method UpdateProgress(a: int, cursor: Option<string>, done: nat) returns (won: bool)
      modifies this`accounts
      ensures won <==> RowIs(Row(old(accounts), a), Backfilling)
      ensures accounts == if won then old(accounts)[a := old(accounts)[a].(cursor := cursor, done := done)] else old(accounts)
    {
      won := a in accounts && accounts[a].status == Backfilling;
      if won {
        accounts := accounts[a := accounts[a].(cursor := cursor, done := done)];
      }
    }

    method PersistProgress(w: int, a: int, isNew: bool, cursor: Option<string>, done: nat,
                           ghost entries: seq<Entry>, ghost i: nat, ghost scope: Option<string>) returns (won: bool)
      requires At(w, a, Progress(isNew)) && Me(w).entries == entries && Me(w).i == i < |entries| && Me(w).scope == scope
      requires cursor == if entries[i].date != "" then Some(entries[i].date) else Me(w).moving
      requires done == if isNew then Me(w).done + 1 else Me(w).done
      modifies this
      ensures history == Then(old(history), Advances(w, BackfillProtocol.PersistProgress), Now())
      ensures if won then LoopAt(w, a, Head, entries, i + 1, scope, cursor, done) else At(w, a, Release(Returned(Cancelled)))
    {
      ProgressIs(Now(), w);
      won := UpdateProgress(a, cursor, done);
      Record(Advances(w, BackfillProtocol.PersistProgress));
    }

    // ---------------------------------------------------------------- the statements after the loop

    method MarkCompleted(w: int, a: int) returns (won: bool)
      requires At(w, a, Finalize)
      modifies this
      ensures history == Then(old(history), Advances(w, FinalizeRow), Now())
      ensures At(w, a, if won then Transition else Release(Returned(Cancelled)))
    {
      won := a in accounts && accounts[a].status == Backfilling;
      if won {
        accounts := accounts[a := accounts[a].(status := Completed)];
      }
      Record(Advances(w, FinalizeRow));
    }

    method TransitionToMonitor(w: int, a: int)
      requires At(w, a, Transition)
      modifies this
      ensures history == Then(old(history), Advances(w, FireTransition), Now())
      ensures At(w, a, Release(Returned(Completed)))
    {
      if a in accounts && accounts[a].mode == History && accounts[a].monitorAfter && accounts[a].status == Completed {
        accounts := accounts[a := accounts[a].(mode := Monitor, monitorAfter := false)];
        monitorRunning := true;
      }
      Record(Advances(w, FireTransition));
    }

    method FindPauseCause(w: int, a: int) returns (cause: Option<Reason>)
      requires At(w, a, Cancelling)
      modifies this
      ensures At(w, a, Unwedge(cause)) && (cause == Some(Disk) <==> old(downloadsPaused))
    {
      var online: bool := *;
      cause := if downloadsPaused then Some(Disk) else if !online then Some(Network) else None;
      Record(Advances(w, FindCause(online)));
    }

    method UnwedgeRow(w: int, a: int, cause: Option<Reason>, status: Status)
      requires At(w, a, Unwedge(cause)) && status == if cause.Some? then Paused else Queued
      modifies this
      ensures history == Then(old(history), Advances(w, BackfillProtocol.UnwedgeRow), Now())
      ensures At(w, a, Release(Returned(status)))
    {
      if a in accounts && accounts[a].status == Backfilling {
        accounts := accounts[a := accounts[a].(status := status, reason := cause)];
      }
      Record(Advances(w, BackfillProtocol.UnwedgeRow));
    }

    /** The handler of a cancellation: tell the cause, then unwedge the row. */
    method HandleCancellation(w: int, a: int) returns (status: Status)
      requires At(w, a, Cancelling)
      modifies this
      ensures At(w, a, Release(Returned(status))) && (status == Paused || status == Queued)
    {
      var cause := FindPauseCause(w, a);
      Yield(w);
      status := if cause.Some? then Paused else Queued;
      UnwedgeRow(w, a, cause, status);
    }

    /** The handler of any other exception: back to 'queued'. */
    method HandleCrash(w: int, a: int)
      requires At(w, a, Crashing)
      modifies this
      ensures history == Then(old(history), Advances(w, RequeueRow), Now()) && At(w, a, Release(Returned(Failed)))
    {
      if a in accounts && accounts[a].status == Backfilling {
        accounts := accounts[a := accounts[a].(status := Queued)];
      }
      Record(Advances(w, RequeueRow));
    }

    // ---------------------------------------------------------------- the program

    /** One video: look up, pace, download, commit; `ending` is set when the whole run must stop. */
    method RunBackfillVideo(w: int, a: int, entries: seq<Entry>, i: nat, breaker: BackfillBreaker,
                            ghost scope: Option<string>, ghost moving: Option<string>, ghost done: nat)
      returns (ending: Option<Ending>, isNew: bool, ghost told: Option<Outcome>)
      requires LoopAt(w, a, Lookup, entries, i, scope, moving, done) && i < |entries| && breaker.Valid()
      modifies this, breaker
      ensures breaker.Valid() && breaker.history == old(breaker.history) + if told.Some? then [told.value] else []
      ensures ending.None? ==>
        && (told.Some? <==> isNew) && NeverTripped(old(breaker.history), breaker.history, breaker.threshold)
        && entries[i].id in videos && V.Terminal(videos[entries[i].id])
        && (told.Some? && told.value != Success ==> videos[entries[i].id] == V.Failed)
      ensures ending.Some? && ending.value.Finished? ==>
        && told.Some? && !Standing(breaker.history, breaker.threshold)
        && (ending.value.result == Returned(Paused) || ending.value.result == Returned(Cancelled))
      ensures if ending.Some? then At(w, a, EndPc(ending.value)) else LoopAt(w, a, Progress(isNew), entries, i, scope, moving, done)
    {
      isNew, told := false, None;
      ending := Await(w, a, Lookup);
      if ending.Some? {
        return;
      }
      var terminal := GetOrCreatePendingVideo(w, a, entries[i].id, entries, i, scope, moving, done);
      if terminal {
        return None, false, None;
      }
      isNew := true;
      ending, told := AttemptVideo(w, a, entries, i, breaker, scope, moving, done);
    }

    /** Pacer, engine, commit, breaker. */
    method AttemptVideo(w: int, a: int, entries: seq<Entry>, i: nat, breaker: BackfillBreaker,
                        ghost scope: Option<string>, ghost moving: Option<string>, ghost done: nat)
      returns (ending: Option<Ending>, ghost told: Option<Outcome>)
      requires LoopAt(w, a, Download, entries, i, scope, moving, done) && i < |entries| && breaker.Valid()
      modifies this, breaker
      ensures breaker.Valid() && breaker.history == old(breaker.history) + if told.Some? then [told.value] else []
      ensures if ending.Some? then At(w, a, EndPc(ending.value)) else LoopAt(w, a, Progress(true), entries, i, scope, moving, done)
      ensures ending.None? ==>
        && told.Some? && NeverTripped(old(breaker.history), breaker.history, breaker.threshold)
        && entries[i].id in videos && V.Terminal(videos[entries[i].id])
        && (told.value != Success ==> videos[entries[i].id] == V.Failed)
      ensures ending.Some? && ending.value.Finished? ==>
        && told.Some? && !Standing(breaker.history, breaker.threshold)
        && (ending.value.result == Returned(Paused) || ending.value.result == Returned(Cancelled))
    {
      told := None;
      ending := Await(w, a, Download);       // the pacer and the semaphore
      if ending.Some? {
        return;
      }
      BeginDownload(w, a, entries, i, scope, moving, done);
      ending := Await(w, a, Downloading);    // the engine
      if ending.Some? {
        return;
      }
      var outcome, tripped;
      outcome, tripped, told := TellBreaker(breaker);
      CommitTerminal(w, a, entries[i].id, outcome, tripped, entries, i, scope, moving, done);
      if tripped {
        ending := StopForBreaker(w, a);
      }
    }

    /** What the attempt came to, as the breaker is told of it: a failure or, without one, a success. */
    method TellBreaker(breaker: BackfillBreaker) returns (outcome: V.Status, tripped: bool, ghost told: Option<Outcome>)
      requires breaker.Valid()
      modifies breaker
      ensures breaker.Valid() && told.Some? && breaker.history == old(breaker.history) + [told.value]
      ensures V.Terminal(outcome) && (told.value != Success ==> outcome == V.Failed)
      ensures tripped <==> !Standing(breaker.history, breaker.threshold)
      ensures !tripped ==> NeverTripped(old(breaker.history), breaker.history, breaker.threshold)
      ensures tripped ==> told.value != Success
    {
      var failed := *;
      tripped := false;
      if failed {
        var haystack: string, message: string := *, *;
        outcome := V.Failed;
        tripped := breaker.Record(haystack, message);
      } else {
        outcome := *;
        outcome := if V.Terminal(outcome) then outcome else V.Downloaded;
        breaker.Reset();
      }
      told := Some(breaker.history[|breaker.history| - 1]);
      assert breaker.history[..|breaker.history|] == breaker.history;
    }

    /** The row is paused before the run ends, unless the run is interrupted first. */
    method StopForBreaker(w: int, a: int) returns (ending: Option<Ending>)
      requires At(w, a, Trip)
      modifies this
      ensures ending.Some? && At(w, a, EndPc(ending.value))
      ensures ending.value.Finished? ==> ending.value.result == Returned(Paused) || ending.value.result == Returned(Cancelled)
    {
      ending := Await(w, a, Trip);
      if ending.None? {
        var status := PauseForBreaker(w, a);
        ending := Some(Finished(Returned(status)));
      }
    }

    /** The cancel re-read, the outage gate and the boundary test, before any work on the entry. */
    method EnterEntry(w: int, a: int, entries: seq<Entry>, i: nat, scope: Option<string>,
                      ghost moving: Option<string>, ghost done: nat)
      returns (ending: Option<Ending>, entry: Gate)
      requires LoopAt(w, a, Head, entries, i, scope, moving, done) && i < |entries|
      modifies this
      ensures if ending.Some? then At(w, a, EndPc(ending.value))
              else if entry == PassOver then LoopAt(w, a, Head, entries, i + 1, scope, moving, done)
              else LoopAt(w, a, if entry == Boundary then Finalize else Lookup, entries, i, scope, moving, done)
      ensures ending != Some(Finished(Returned(Completed)))
    {
      entry := Open;
      ending := Await(w, a, Head);
      if ending.Some? {
        return;
      }
      LoopIsSnapped(w, a);
      RowIsThere(w, a);
      var cancelled := ReadStatus(w, a, entries, i, scope, moving, done);
      if cancelled {
        return Some(Finished(Returned(Cancelled))), Open;
      }
      var online := CheckNetwork(w, a, entries, i, scope, moving, done);
      if online {
        return None, if Older(entries[i], scope) then Boundary else Open;
      }
      ending := Await(w, a, NetPause);
      if ending.Some? {
        return;
      }
      var won := PauseForNetwork(w, a, entries, i, scope, moving, done);
      if won {
        return Some(Finished(Returned(Paused))), Open;
      }
      return None, PassOver;
    }

    method CheckNetwork(w: int, a: int, entries: seq<Entry>, i: nat, scope: Option<string>,
                        ghost moving: Option<string>, ghost done: nat) returns (online: bool)
      requires LoopAt(w, a, Probe, entries, i, scope, moving, done) && i < |entries|
      modifies this
      ensures history == Then(old(history), Advances(w, ProbeNetwork(online)), Now())
      ensures LoopAt(w, a, if !online then NetPause else if Older(entries[i], scope) then Finalize else Lookup,
                     entries, i, scope, moving, done)
    {
      online := *;
      Record(Advances(w, ProbeNetwork(online)));
    }

    method LeaveLoop(w: int, a: int)
      requires At(w, a, Head) && Me(w).i >= |Me(w).entries|
      modifies this
      ensures history == Then(old(history), Advances(w, BackfillProtocol.ReadStatus), Now()) && At(w, a, Finalize)
    {
      LoopIsSnapped(w, a);
      RowIsThere(w, a);
      Record(Advances(w, BackfillProtocol.ReadStatus));
    }

    method SaveProgress(w: int, a: int, isNew: bool, cursor: Option<string>, done: nat,
                        ghost entries: seq<Entry>, ghost i: nat, ghost scope: Option<string>) returns (ending: Option<Ending>)
      requires At(w, a, Progress(isNew)) && Me(w).entries == entries && Me(w).i == i < |entries| && Me(w).scope == scope
      requires cursor == if entries[i].date != "" then Some(entries[i].date) else Me(w).moving
      requires done == if isNew then Me(w).done + 1 else Me(w).done
      modifies this
      ensures if ending.None? then LoopAt(w, a, Head, entries, i + 1, scope, cursor, done) else At(w, a, EndPc(ending.value))
      ensures ending != Some(Finished(Returned(Completed)))
    {
      ending := Await(w, a, Progress(isNew));
      if ending.None? {
        var won := PersistProgress(w, a, isNew, cursor, done, entries, i, scope);
        ending := if won then None else Some(Finished(Returned(Cancelled)));
      }
    }

    /** One round of the loop: the gates, the video, the cursor and the counter. */
    method HandleEntry(w: int, a: int, entries: seq<Entry>, i: nat, scope: Option<string>, cursor: Option<string>, count: nat,
                       breaker: BackfillBreaker)
      returns (ending: Option<Ending>, boundary: bool, moving: Option<string>, done: nat)
      requires LoopAt(w, a, Head, entries, i, scope, cursor, count) && i < |entries| && breaker.Valid()
      modifies this, breaker
      ensures breaker.Valid() && ending != Some(Finished(Returned(Completed)))
      ensures ending.None? ==> NeverTripped(old(breaker.history), breaker.history, breaker.threshold)
      ensures if ending.Some? then At(w, a, EndPc(ending.value))
              else if boundary then At(w, a, Finalize)
              else LoopAt(w, a, Head, entries, i + 1, scope, moving, done)
    {
      moving, done, boundary := cursor, count, false;
      var entry, isNew;
      ending, entry := EnterEntry(w, a, entries, i, scope, moving, done);
      boundary := entry == Boundary;
      if ending.Some? || entry != Open {
        return;
      }
      ghost var told;
      ending, isNew, told := RunBackfillVideo(w, a, entries, i, breaker, scope, moving, done);
      if ending.Some? {
        return;
      }
      if entries[i].date != "" {
        moving := Some(entries[i].date);
      }
      if isNew {
        done := done + 1;
      }
      ending := SaveProgress(w, a, isNew, moving, done, entries, i, scope);
    }

    /** The per-video loop. It ends at the finalizing statement, or with the run's ending. */
    method RunBackfillLoop(w: int, a: int, entries: seq<Entry>, scope: Option<string>, cursor: Option<string>, count: nat,
                           breaker: BackfillBreaker)
      returns (ending: Option<Ending>)
      requires LoopAt(w, a, Head, entries, 0, scope, cursor, count) && breaker.Valid()
      modifies this, breaker
      ensures breaker.Valid() && ending != Some(Finished(Returned(Completed)))
      ensures ending.None? ==> NeverTripped(old(breaker.history), breaker.history, breaker.threshold)
      ensures At(w, a, if ending.Some? then EndPc(ending.value) else Finalize)
    {
      var moving, done, i := cursor, count, 0;
      while i < |entries|
        invariant 0 <= i <= |entries| && LoopAt(w, a, Head, entries, i, scope, moving, done)
        invariant breaker.Valid() && NeverTripped(old(breaker.history), breaker.history, breaker.threshold)
      {
        var boundary;
        ghost var before := breaker.history;
        ending, boundary, moving, done := HandleEntry(w, a, entries, i, scope, moving, done, breaker);
        if ending.None? {
          NeverTrippedTwice(old(breaker.history), before, breaker.history, breaker.threshold);
        }
        if ending.Some? || boundary {
          return;
        }
        i := i + 1;
      }
      LeaveLoop(w, a);
      ending := None;
    }

    /** Mark, list, total, snapshot. */
    method PrepareBackfillLoop(w: int, a: int)
      returns (ending: Option<Ending>, entries: seq<Entry>, cursor: Option<string>, done: nat)
      requires At(w, a, Mark)
      modifies this
      ensures if ending.None? then LoopAt(w, a, Head, entries, 0, cursor, cursor, done) else At(w, a, EndPc(ending.value))
      ensures ending != Some(Finished(Returned(Completed)))
    {
      entries, cursor, done := [], None, 0;
      ending := Await(w, a, Mark);
      if ending.Some? {
        return;
      }
      var won := MarkBackfilling(w, a);
      if !won {
        return Some(Finished(Raised)), [], None, 0;
      }
      ending := Await(w, a, Listing);
      if ending.Some? {
        return;
      }
      entries := ListFeedEntries(w, a);
      ending, cursor, done := TotalAndSnapshot(w, a, entries);
    }

    method TotalAndSnapshot(w: int, a: int, entries: seq<Entry>)
      returns (ending: Option<Ending>, cursor: Option<string>, done: nat)
      requires At(w, a, Total) && Me(w).entries == entries
      modifies this
      ensures if ending.None? then LoopAt(w, a, Head, entries, 0, cursor, cursor, done) else At(w, a, EndPc(ending.value))
      ensures ending != Some(Finished(Returned(Completed)))
    {
      cursor, done := None, 0;
      ending := Await(w, a, Total);
      if ending.Some? {
        return;
      }
      var won := SetTotal(w, a, |entries|);
      if !won {
        return Some(Finished(Returned(Cancelled))), None, 0;
      }
      ending := Await(w, a, Snapshot);
      if ending.Some? {
        return;
      }
      RowIsThere(w, a);
      cursor, done := ReadSnapshot(w, a);
    }

    /** The tail: 'completed' if the row is still ours, then the transition to monitoring. */
    method FinalizeBackfill(w: int, a: int) returns (ending: Ending)
      requires At(w, a, Finalize)
      modifies this
      ensures At(w, a, EndPc(ending))
    {
      var interrupted := Await(w, a, Finalize);
      if interrupted.Some? {
        return interrupted.value;
      }
      var won := MarkCompleted(w, a);
      if !won {
        return Finished(Returned(Cancelled));
      }
      interrupted := Await(w, a, Transition);
      if interrupted.Some? {
        return interrupted.value;
      }
      TransitionToMonitor(w, a);
      return Finished(Returned(Completed));
    }

    /** The try block. */
    method TryBlock(w: int, a: int, breaker: BackfillBreaker) returns (ending: Ending)
      requires At(w, a, BackfillProtocol.Gate) && breaker.Valid()
      modifies this, breaker
      ensures At(w, a, EndPc(ending)) && breaker.Valid()
      ensures ending == Finished(Returned(Completed)) ==> NeverTripped(old(breaker.history), breaker.history, breaker.threshold)
    {
      var interrupted := Await(w, a, BackfillProtocol.Gate);
      if interrupted.Some? {
        return interrupted.value;
      }
      var queued := ReadGateStatus(w, a);
      if !queued {
        return Finished(Raised);
      }
      var entries, cursor, done;
      interrupted, entries, cursor, done := PrepareBackfillLoop(w, a);
      if interrupted.Some? {
        return interrupted.value;
      }
      interrupted := RunBackfillLoop(w, a, entries, cursor, cursor, done, breaker);
      if interrupted.Some? {
        return interrupted.value;
      }
      ending := FinalizeBackfill(w, a);
    }

    /** The except clauses: whatever the try block did, the run comes to its release with a result. */
    method ExceptClauses(w: int, a: int, ending: Ending) returns (result: Result)
      requires At(w, a, EndPc(ending))
      modifies this
      ensures At(w, a, Release(result)) && (result == Returned(Completed) ==> ending == Finished(result))
    {
      match ending
      case Finished(r) =>
        result := r;
      case Interrupted =>
        var status := HandleCancellation(w, a);
        result := Returned(status);
      case Failing =>
        Yield(w);
        HandleCrash(w, a);
        result := Returned(Failed);
    }

    method ReleaseRunSlot(w: int, a: int, result: Result)
      requires At(w, a, Release(result))
      modifies this
      ensures At(w, a, Ended(result)) && slot == None && old(slot) == Some(Run(a)) && Me(w).won
      ensures !RowIs(Row(accounts, a), Backfilling)
      ensures result == Returned(Completed) ==>
                SettledByDate(Me(w)) && a in accounts && accounts[a].done == Me(w).startDone + Me(w).driven
    {
      NowIsSafe();
      assert RunOk(Row(accounts, a), Me(w));
      if Covered(Me(w)) {
        CoveredByDate(Me(w));
      }
      ReleaseBackfillSlot(Run(a));
      Record(Advances(w, ReleaseSlot));
    }

    /**
     One call of `run_backfill`, from a started run to its result, under any interference at its awaits.
     A call that won the slot, whether it then returns or raises, leaves the slot free and the row not
     'backfilling'; one that did not win it raises. If it returns 'completed', the entries settled are exactly
     those not behind one dated strictly before the snapshot, and every terminal commit it made is counted in backfill_done.
     */
    method RunBackfill(w: int, a: int, cookie: bool, breaker: BackfillBreaker) returns (result: Result)
      requires At(w, a, Start) && breaker.Valid()
      modifies this, breaker
      ensures At(w, a, Ended(result)) && breaker.Valid()
      ensures Me(w).won ==> slot == None && !RowIs(Row(accounts, a), Backfilling)
      ensures !Me(w).won ==> result == Raised
      ensures !cookie ==> !Me(w).won
      ensures result == Returned(Completed) ==> NeverTripped(old(breaker.history), breaker.history, breaker.threshold)
      ensures result == Returned(Completed) ==>
                SettledByDate(Me(w)) && a in accounts && accounts[a].done == Me(w).startDone + Me(w).driven
    {
      Yield(w);
      var won := AcquireRunSlot(w, a, cookie);
      if !won {
        return Raised;
      }
      var ending := TryBlock(w, a, breaker);
      result := ExceptClauses(w, a, ending);
      Yield(w);
      ReleaseRunSlot(w, a, result);
    }

    lemma LoopIsSnapped(w: int, a: int)
      requires At(w, a, Head)
      ensures Me(w).snapped
    {
      NowIsSafe();
      assert RunOk(Row(accounts, a), Me(w));
    }
  }

  /** The progress write, column by column. */
  lemma ProgressIs(s: State, w: int)
    requires Enabled(s, Advances(w, PersistProgress))
    ensures var k, t := s.workers[w], Next(s, Advances(w, PersistProgress));
      var date := k.entries[k.i].date;
      var moving, done := if date != "" then Some(date) else k.moving, if k.pc.isNew then k.done + 1 else k.done;
      var live := RowIs(Row(s.accounts, k.account), Backfilling);
      && t == s.(accounts := t.accounts, workers := t.workers)
      && t.accounts == (if live then s.accounts[k.account := s.accounts[k.account].(cursor := moving, done := done)] else s.accounts)
      && w in t.workers && t.workers[w].account == k.account
      && (live ==> t.workers[w] == k.(pc := Head, i := k.i + 1, moving := moving, done := done, owed := false))
      && (!live ==> t.workers[w].pc == Release(Returned(Cancelled)))
  {
  }

  lemma OthersLeaveRunAlone(s: State, step: Step, w: int)
    requires Enabled(s, step) && !(step.Advances? && step.w == w)
    ensures w in s.workers ==> w in Next(s, step).workers && Next(s, step).workers[w] == s.workers[w]
  {
  }
}
