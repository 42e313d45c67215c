/** The pruned in-memory windows: what they keep is what the full history would show. */
module Windows {
  import opened Prelude
  import Errors

  // ---------------------------------------------------------------- windows over a clock

  /** Which end of the window is open: ages below the length, or up to it. */
  datatype Edge = Open | Closed

  predicate Inside(t: real, now: real, age: real, edge: Edge) {
    now - t < age || (edge == Closed && now - t == age)
  }

  /** The instants inside the window that ends now. */
  function Recent(times: seq<real>, now: real, age: real, edge: Edge): seq<real> {
    if times == [] then []
    else if Inside(times[0], now, age, edge) then [times[0]] + Recent(times[1..], now, age, edge)
    else Recent(times[1..], now, age, edge)
  }

  /** Pruning at an earlier instant loses nothing for a later one. */
  lemma {:induction false} PruneTwice(times: seq<real>, before: real, now: real, age: real, edge: Edge)
    requires before <= now
    ensures Recent(Recent(times, before, age, edge), now, age, edge) == Recent(times, now, age, edge)
  {
    if times != [] {
      PruneTwice(times[1..], before, now, age, edge);
      var rest := Recent(times[1..], before, age, edge);
      assert ([times[0]] + rest)[1..] == rest;
    }
  }

  lemma {:induction false} RecentAppend(times: seq<real>, t: real, now: real, age: real, edge: Edge)
    ensures Recent(times + [t], now, age, edge) == Recent(times, now, age, edge) + if Inside(t, now, age, edge) then [t] else []
  {
    if times == [] {
      assert ([] + [t])[1..] == [];
    } else {
      assert (times + [t])[1..] == times[1..] + [t];
      RecentAppend(times[1..], t, now, age, edge);
    }
  }

  /** The instants of a log younger than the window's length. */
  ghost function Younger(times: seq<real>, now: real, age: real): set<nat> {
    set i: nat | i < |times| && now - times[i] < age
  }

  /** The instants of a log at most as old as the window's length. */
  ghost function AtMostAsOld(times: seq<real>, now: real, age: real): set<nat> {
    set i: nat | i < |times| && now - times[i] <= age
  }

  lemma OneMoreInstant(past: seq<real>, t: real, now: real, age: real)
    ensures Younger(past + [t], now, age) == Younger(past, now, age) + if now - t < age then {|past|} else {}
    ensures AtMostAsOld(past + [t], now, age) == AtMostAsOld(past, now, age) + if now - t <= age then {|past|} else {}
  {
  }

  /** An open window holds one entry for each instant younger than its length, a closed one also those just as old. */
  lemma {:induction false} RecentCounts(times: seq<real>, now: real, age: real)
    ensures |Recent(times, now, age, Open)| == |Younger(times, now, age)|
    ensures |Recent(times, now, age, Closed)| == |AtMostAsOld(times, now, age)|
  {
    if times == [] {
      assert Younger(times, now, age) == {} && AtMostAsOld(times, now, age) == {};
    } else {
      var past, t := times[..|times| - 1], times[|times| - 1];
      assert times == past + [t];
      RecentCounts(past, now, age);
      RecentAppend(past, t, now, age, Open);
      RecentAppend(past, t, now, age, Closed);
      OneMoreInstant(past, t, now, age);
      assert |past| !in Younger(past, now, age) && |past| !in AtMostAsOld(past, now, age);
    }
  }

  // ---------------------------------------------------------------- SecurityGuard

  const UNAUTHORIZED_BURST_LIMIT := 5
  const UNAUTHORIZED_BURST_WINDOW_SECONDS := 300.0
  const COMMAND_THROTTLE_SECONDS := 2.0

  datatype Caller = Caller(chatId: Option<int>, userId: Option<int>, hasChat: bool)

  datatype Decision = Allowed | Denied | Burst(count: nat) | Throttled

  /** Successive accepted commands keep the throttle's distance. */
  ghost predicate Spaced(times: seq<real>) {
    forall i, j :: 0 <= i < j < |times| ==> times[j] - times[i] >= COMMAND_THROTTLE_SECONDS
  }

  ghost predicate StampOk(last: real, times: seq<real>, latest: real) {
    times != [] && Spaced(times) && last == times[|times| - 1] <= latest
  }

  function Past<K>(log: map<K, seq<real>>, key: K): seq<real> {
    if key in log then log[key] else []
  }

  /** A kept window shows the history as of its last attempt. */
  ghost predicate WindowOk(window: seq<real>, history: seq<real>, latest: real) {
    && history != [] && history[|history| - 1] <= latest
    && window == Recent(history, history[|history| - 1], UNAUTHORIZED_BURST_WINDOW_SECONDS, Open)
  }

  /** Pruning the window and adding the attempt is looking at the whole history. */
  lemma WindowStep(window: seq<real>, history: seq<real>, latest: real, now: real)
    requires latest <= now && (WindowOk(window, history, latest) || window == history == [])
    ensures var next := Recent(window, now, UNAUTHORIZED_BURST_WINDOW_SECONDS, Open) + [now];
      && WindowOk(next, history + [now], now)
      && next == Recent(history + [now], now, UNAUTHORIZED_BURST_WINDOW_SECONDS, Open)
  {
    if history != [] {
      PruneTwice(history, history[|history| - 1], now, UNAUTHORIZED_BURST_WINDOW_SECONDS, Open);
    }
    RecentAppend(history, now, now, UNAUTHORIZED_BURST_WINDOW_SECONDS, Open);
  }

  class SecurityGuard {
    const chatId: int
    const allowedUserIds: Option<set<int>>
    var unauthorizedAttempts: map<Option<int>, seq<real>>
    var lastAccepted: map<Option<int>, real>

    ghost var latest: real
    ghost var attempts: map<Option<int>, seq<real>>   // every unauthorized attempt, never pruned
    ghost var accepted: map<Option<int>, seq<real>>   // every accepted command

    ghost predicate WindowsOk()
      reads this
    {
      && unauthorizedAttempts.Keys == attempts.Keys
      && forall u :: u in attempts ==> WindowOk(unauthorizedAttempts[u], attempts[u], latest)
    }

    ghost predicate ThrottleOk()
      reads this
    {
      && lastAccepted.Keys == accepted.Keys
      && forall c :: c in accepted ==> StampOk(lastAccepted[c], accepted[c], latest)
    }

    ghost predicate Valid()
      reads this
    {
      WindowsOk() && ThrottleOk()
    }

    constructor (chatId: int, allowedUserIds: set<int>, start: real)
      ensures Valid() && latest == start && attempts == map[] && accepted == map[]
      ensures this.chatId == chatId && this.allowedUserIds == if allowedUserIds == {} then None else Some(allowedUserIds)
    {
      this.chatId := chatId;
      this.allowedUserIds := if allowedUserIds == {} then None else Some(allowedUserIds);
      unauthorizedAttempts, lastAccepted := map[], map[];
      latest, attempts, accepted := start, map[], map[];
    }

    predicate Authorized(caller: Caller) {
      && caller.hasChat && caller.chatId == Some(chatId)
      && (allowedUserIds.None? || (caller.userId.Some? && caller.userId.value in allowedUserIds.value))
    }

    /** Denied, or a burst counting every attempt of the user in the last 300 s, this one included. */
    method RecordUnauthorized(user: Option<int>, now: real) returns (decision: Decision)
      requires Valid() && latest <= now
      modifies this
      ensures Valid() && latest == now && accepted == old(accepted)
      ensures attempts == old(attempts)[user := Past(old(attempts), user) + [now]]
      ensures var n := |Younger(attempts[user], now, 300.0)|; decision == if n >= 5 then Burst(n) else Denied
    {
      var window := Past(unauthorizedAttempts, user);
      ghost var past := Past(attempts, user);
      WindowStep(window, past, latest, now);
      window := Recent(window, now, UNAUTHORIZED_BURST_WINDOW_SECONDS, Open) + [now];
      unauthorizedAttempts := unauthorizedAttempts[user := window];
      attempts := attempts[user := past + [now]];
      latest := now;
      RecentCounts(attempts[user], now, UNAUTHORIZED_BURST_WINDOW_SECONDS);
      return if |window| >= UNAUTHORIZED_BURST_LIMIT then Burst(|window|) else Denied;
    }

    /** Throttled exactly when some accepted command of the chat is less than 2 s old. */
    method Throttle(chat: Option<int>, now: real) returns (throttled: bool)
      requires Valid() && latest <= now
      modifies this
      ensures Valid() && latest == now && attempts == old(attempts)
      ensures throttled <==>
        exists i :: 0 <= i < |Past(old(accepted), chat)| && now - Past(old(accepted), chat)[i] < 2.0
      ensures accepted == if throttled then old(accepted) else old(accepted)[chat := Past(old(accepted), chat) + [now]]
    {
      ghost var past := Past(accepted, chat);
      latest := now;
      if chat in lastAccepted && now - lastAccepted[chat] < COMMAND_THROTTLE_SECONDS {
        assert now - past[|past| - 1] < COMMAND_THROTTLE_SECONDS;
        return true;
      }
      lastAccepted := lastAccepted[chat := now];
      accepted := accepted[chat := past + [now]];
      return false;
    }

    /** Authorize, then throttle. */
    method Check(caller: Caller, now: real) returns (decision: Decision)
      requires Valid() && latest <= now
      modifies this
      ensures Valid() && latest == now
      ensures decision.Allowed? || decision.Throttled? <==>
        && caller.hasChat && caller.chatId == Some(chatId)
        && (allowedUserIds == None || (caller.userId.Some? && caller.userId.value in allowedUserIds.value))
      ensures decision.Throttled? ==>
        exists i :: 0 <= i < |Past(old(accepted), Some(chatId))| && now - Past(old(accepted), Some(chatId))[i] < 2.0
      ensures decision.Allowed? ==>
        forall i :: 0 <= i < |Past(old(accepted), Some(chatId))| ==> now - Past(old(accepted), Some(chatId))[i] >= 2.0
      ensures decision.Allowed? ==> accepted == old(accepted)[Some(chatId) := Past(old(accepted), Some(chatId)) + [now]]
      ensures decision.Allowed? ==> attempts == old(attempts)
      ensures !decision.Allowed? ==> accepted == old(accepted)
      ensures !Authorized(caller) ==> attempts == old(attempts)[caller.userId := Past(old(attempts), caller.userId) + [now]]
      ensures !Authorized(caller) ==>
        var n := |Younger(attempts[caller.userId], now, 300.0)|; decision == if n >= 5 then Burst(n) else Denied
    {
      if !Authorized(caller) {
        decision := RecordUnauthorized(caller.userId, now);
        return;
      }
      var throttled := Throttle(caller.chatId, now);
      return if throttled then Throttled else Allowed;
    }
  }

  // ---------------------------------------------------------------- the lock counter

  const CONTENTION_WINDOW_SECONDS := 300.0

  ghost predicate Sorted(times: seq<real>) {
    forall i, j :: 0 <= i < j < |times| ==> times[i] <= times[j]
  }

  /** On sorted instants, those still inside the window are a suffix. */
  lemma {:induction false} RecentIsSuffix(times: seq<real>, now: real, age: real, edge: Edge)
    requires Sorted(times)
    ensures times != [] && Inside(times[0], now, age, edge) ==> Recent(times, now, age, edge) == times
    ensures times != [] && !Inside(times[0], now, age, edge) ==> Recent(times, now, age, edge) == Recent(times[1..], now, age, edge)
  {
    if |times| > 1 {
      RecentIsSuffix(times[1..], now, age, edge);
    }
  }

  class ContentionWindow {
    var lockedAt: seq<real>
    ghost var latest: real
    ghost var errors: seq<real>   // every lock error, never pruned

    ghost predicate Valid()
      reads this
    {
      && Sorted(lockedAt) && (forall t :: t in lockedAt ==> t <= latest)
      && lockedAt == Recent(errors, latest, CONTENTION_WINDOW_SECONDS, Closed)
    }

    constructor (start: real)
      ensures Valid() && latest == start && errors == []
    {
      lockedAt, latest, errors := [], start, [];
    }

    /** The popleft loop: on sorted instants it leaves exactly the window. */
    method PopExpired(now: real)
      requires Sorted(lockedAt)
      modifies this`lockedAt
      ensures lockedAt == Recent(old(lockedAt), now, CONTENTION_WINDOW_SECONDS, Closed)
      ensures Sorted(lockedAt) && forall t :: t in lockedAt ==> t in old(lockedAt)
    {
      while lockedAt != [] && now - lockedAt[0] > CONTENTION_WINDOW_SECONDS
        invariant Sorted(lockedAt) && forall t :: t in lockedAt ==> t in old(lockedAt)
        invariant Recent(lockedAt, now, CONTENTION_WINDOW_SECONDS, Closed) == Recent(old(lockedAt), now, CONTENTION_WINDOW_SECONDS, Closed)
        decreases |lockedAt|
      {
        RecentIsSuffix(lockedAt, now, CONTENTION_WINDOW_SECONDS, Closed);
        lockedAt := lockedAt[1..];
      }
      RecentIsSuffix(lockedAt, now, CONTENTION_WINDOW_SECONDS, Closed);
    }

    /** Counts a message that is a lock error, and nothing else. */
    method RecordDbLockedError(message: string, now: real) returns (counted: bool)
      requires Valid() && latest <= now
      modifies this
      ensures Valid() && (counted <==> Errors.Contains(message, "database is locked"))
      ensures errors == if counted then old(errors) + [now] else old(errors)
      ensures latest == if counted then now else old(latest)
    {
      if !Errors.Contains(message, "database is locked") {
        return false;
      }
      RecentAppend(lockedAt, now, now, CONTENTION_WINDOW_SECONDS, Closed);
      RecentAppend(errors, now, now, CONTENTION_WINDOW_SECONDS, Closed);
      PruneTwice(errors, latest, now, CONTENTION_WINDOW_SECONDS, Closed);
      assert forall i :: 0 <= i < |lockedAt| ==> lockedAt[i] in lockedAt;
      lockedAt := lockedAt + [now];
      PopExpired(now);
      errors, latest := errors + [now], now;
      return true;
    }

    /** The count is the number of lock errors at most 300 s old, over the whole history. */
    method DbBusyCount5Min(now: real) returns (count: nat)
      requires Valid() && latest <= now
      modifies this
      ensures Valid() && latest == now && errors == old(errors)
      ensures count == |AtMostAsOld(errors, now, 300.0)|
    {
      PruneTwice(errors, latest, now, CONTENTION_WINDOW_SECONDS, Closed);
      PopExpired(now);
      latest := now;
      RecentCounts(errors, now, CONTENTION_WINDOW_SECONDS);
      return |lockedAt|;
    }
  }
}
