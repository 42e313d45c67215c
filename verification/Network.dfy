/** The online/offline state machine of the network monitor, over whole probe histories. */
module Network {
  import opened Prelude

  datatype Event = OfflineEvent(failures: nat) | OnlineEvent(seconds: real)

  /** The length of the current failure run. */
  function TrailingFailures(history: seq<bool>): nat {
    if history == [] || history[|history| - 1] then 0 else 1 + TrailingFailures(history[..|history| - 1])
  }

  function Limit(threshold: int): nat {
    if threshold < 1 then 1 else threshold
  }

  predicate Offline(history: seq<bool>, threshold: int) {
    TrailingFailures(history) >= Limit(threshold)
  }

  /** Offline means that the last `threshold` probes failed, and the last one whatever the threshold. */
  lemma OfflineMeans(history: seq<bool>, threshold: int)
    ensures var n := if threshold >= 1 then threshold else 1;
      Offline(history, threshold) <==> n <= |history| && forall i :: |history| - n <= i < |history| ==> !history[i]
  {
    TrailMeans(history);
  }

  /** The trailing failures are failures, and before them stands a success or nothing. */
  lemma {:induction false} TrailMeans(history: seq<bool>)
    ensures var n := TrailingFailures(history);
      && n <= |history| && (forall i :: |history| - n <= i < |history| ==> !history[i])
      && (n < |history| ==> history[|history| - n - 1])
  {
    if history != [] && !history[|history| - 1] {
      TrailMeans(history[..|history| - 1]);
    }
  }

  /** The events owed by a history: one when a failure run reaches the threshold, one when such a run ends. */
  function Owed(history: seq<bool>, threshold: int): seq<bool> {
    if history == [] then [] else
    var before := history[..|history| - 1];
    var was, now := Offline(before, threshold), Offline(history, threshold);
    Owed(before, threshold) + if was == now then [] else [now]
  }

  /** What one more probe does to the run and to the events owed. */
  lemma OneMoreProbe(history: seq<bool>, reachable: bool, threshold: int)
    ensures var after := history + [reachable];
      && TrailingFailures(after) == (if reachable then 0 else TrailingFailures(history) + 1)
      && Owed(after, threshold) == Owed(history, threshold)
        + if Offline(history, threshold) == Offline(after, threshold) then [] else [!reachable]
  {
    assert (history + [reachable])[..|history|] == history;
  }

  /** They strictly alternate, offline first; the last is an offline one exactly while the monitor is offline. */
  lemma {:induction false} OwedAlternate(history: seq<bool>, threshold: int)
    ensures var e := Owed(history, threshold);
      && (forall i :: 0 <= i < |e| ==> (e[i] <==> i % 2 == 0))
      && (Offline(history, threshold) <==> |e| % 2 == 1)
  {
    if history != [] {
      OwedAlternate(history[..|history| - 1], threshold);
    }
  }

  /** A failure shorter than the threshold owes nothing. */
  lemma {:induction false} BlipsAreSilent(history: seq<bool>, threshold: int)
    requires forall n :: 0 <= n <= |history| ==> TrailingFailures(history[..n]) < Limit(threshold)
    ensures Owed(history, threshold) == []
  {
    if history != [] {
      var before := history[..|history| - 1];
      forall n | 0 <= n <= |before|
        ensures TrailingFailures(before[..n]) < Limit(threshold)
      {
        assert before[..n] == history[..n];
      }
      assert before[..|before|] == before && history[..|history|] == history;
      BlipsAreSilent(before, threshold);
    }
  }

  /** Which events went out, and with how many failures each offline one did. */
  function Kinds(events: seq<Event>): seq<bool> {
    if events == [] then [] else Kinds(events[..|events| - 1]) + [events[|events| - 1].OfflineEvent?]
  }

  /** The events tell the history: the owed ones, each offline event with as many failures as the threshold. */
  ghost predicate Tells(events: seq<Event>, history: seq<bool>, threshold: int) {
    && Kinds(events) == Owed(history, threshold)
    && (forall e :: e in events && e.OfflineEvent? ==> e.failures == Limit(threshold))
  }

  lemma Silent(events: seq<Event>, history: seq<bool>, reachable: bool, threshold: int)
    requires Tells(events, history, threshold) && Offline(history, threshold) == Offline(history + [reachable], threshold)
    ensures Tells(events, history + [reachable], threshold)
  {
    OneMoreProbe(history, reachable, threshold);
  }

  lemma Announced(events: seq<Event>, history: seq<bool>, reachable: bool, threshold: int, e: Event)
    requires Tells(events, history, threshold) && Offline(history, threshold) != Offline(history + [reachable], threshold)
    requires e.OfflineEvent? == !reachable && (e.OfflineEvent? ==> e.failures == Limit(threshold))
    ensures Tells(events + [e], history + [reachable], threshold)
  {
    OneMoreProbe(history, reachable, threshold);
    assert (events + [e])[..|events|] == events;
  }

  lemma ProbeCounts(history: seq<bool>, reachable: bool)
    ensures TrailingFailures(history + [reachable]) == if reachable then 0 else TrailingFailures(history) + 1
  {
    assert (history + [reachable])[..|history|] == history;
  }

  class NetworkMonitor {
    const probeUrl: string
    const threshold: int
    var consecutiveFailures: nat
    var offline: bool
    var offlineSince: Option<real>
    var networkAvailable: bool
    var events: seq<Event>
    ghost var history: seq<bool>

    ghost predicate Valid()
      reads this
    {
      && consecutiveFailures == TrailingFailures(history)
      && (offline <==> Offline(history, threshold))
      && (offline <==> !networkAvailable)
      && (offline <==> offlineSince.Some?)
      && Tells(events, history, threshold)
    }

    /** The event arrives already set. */
    constructor (probeUrl: string, threshold: int)
      ensures Valid() && history == [] && events == [] && this.probeUrl == probeUrl && this.threshold == threshold
    {
      this.probeUrl := probeUrl;
      this.threshold := threshold;
      consecutiveFailures, offline, offlineSince, networkAvailable, events, history := 0, false, None, true, [], [];
    }

    /** One probe; `now` and `later` are the clock's readings. Without a URL nothing is probed. */
    method ProbeOnce(reachable: bool, now: real, later: real) returns (verdict: bool)
      requires Valid()
      modifies this
      ensures Valid()
      ensures probeUrl == "" ==> verdict && history == old(history) && events == old(events)
      ensures probeUrl != "" ==> verdict == reachable && history == old(history) + [reachable]
      ensures probeUrl != "" ==>
        var n := if threshold >= 1 then threshold else 1;
        offline <==> n <= |history| && forall i :: |history| - n <= i < |history| ==> !history[i]
      ensures !old(offline) && offline ==>
        offlineSince == Some(now) && events == old(events) + [OfflineEvent(if threshold >= 1 then threshold else 1)]
      ensures old(offline) && !offline ==>
        var since := if old(offlineSince) == Some(0.0) then later else old(offlineSince).value;
        events == old(events) + [OnlineEvent(now - since)]
      ensures old(offline) == offline ==> events == old(events) && offlineSince == old(offlineSince)
      ensures networkAvailable == !offline && offlineSince.Some? == offline
    {
      if probeUrl == "" {
        return true;
      }
      ProbeCounts(history, reachable);
      if reachable {
        Reached(now, later);
      } else {
        Missed(now);
      }
      OfflineMeans(history, threshold);
      return reachable;
    }

    /** The outage's length is taken before the stamp is cleared. */
    method Reached(now: real, later: real)
      requires Valid() && TrailingFailures(history + [true]) == 0
      modifies this
      ensures Valid() && history == old(history) + [true] && !offline
      ensures old(offline) ==>
        var since := if old(offlineSince) == Some(0.0) then later else old(offlineSince).value;
        events == old(events) + [OnlineEvent(now - since)]
      ensures !old(offline) ==> events == old(events)
    {
      if offline {
        var since := if offlineSince.value != 0.0 then offlineSince.value else later;
        var online := OnlineEvent(now - since);
        Announced(events, history, true, threshold, online);
        events := events + [online];
      } else {
        Silent(events, history, true, threshold);
      }
      assert Tells(events, history + [true], threshold);
      consecutiveFailures, offline, offlineSince, networkAvailable := 0, false, None, true;
      history := history + [true];
    }

    /** The stamp is taken as the run reaches the threshold. */
    method Missed(now: real)
      requires Valid() && TrailingFailures(history + [false]) == TrailingFailures(history) + 1
      modifies this
      ensures Valid() && history == old(history) + [false]
      ensures !old(offline) && offline ==>
        offlineSince == Some(now) && events == old(events) + [OfflineEvent(if threshold >= 1 then threshold else 1)]
      ensures old(offline) == offline ==> events == old(events) && offlineSince == old(offlineSince)
      ensures old(offline) ==> offline
    {
      consecutiveFailures := consecutiveFailures + 1;
      if !offline && consecutiveFailures >= threshold {
        offline, offlineSince, networkAvailable := true, Some(now), false;
        var lost := OfflineEvent(consecutiveFailures);
        Announced(events, history, false, threshold, lost);
        events := events + [lost];
      } else {
        Silent(events, history, false, threshold);
      }
      assert Tells(events, history + [false], threshold);
      history := history + [false];
    }
  }
}
