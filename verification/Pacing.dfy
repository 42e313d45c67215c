/**
 The cross-process download cooldown: one text column claimed by compare-and-set, and the pacer that waits
 for it. Times are microseconds of `IsoTime`; the column lives on the millisecond grid.
 */
module Pacing {
  import opened Prelude
  import opened IsoTime

  const MAX_SINGLE_SLEEP := 5_000_000 // 5 s
  const SLEEP_EPSILON := 1000         // 1 ms

  // ---------------------------------------------------------------- the column and its compare-and-set

  /** One execution of the reserving UPDATE: the caller's clock reading and the cooldown it drew. */
  datatype Attempt = Attempt(now: int, draw: int)

  /** The configured range of the draw, in whole seconds; 0/0 disables it. */
  datatype Range = Range(min: nat, max: nat)

  predicate Lawful(a: Attempt, r: Range) {
    && ValidTime(a.now) && ValidTime(a.now + a.draw)
    && r.min * 1_000_000 <= a.draw <= r.max * 1_000_000
  }

  /** WHERE next_allowed_at IS NULL OR next_allowed_at <= :now, on text. */
  predicate Wins(stored: Option<string>, now: string) {
    stored.None? || !Before(now, stored.value)
  }

  ghost predicate AllLawful(log: seq<Attempt>, r: Range) {
    forall i :: 0 <= i < |log| ==> Lawful(log[i], r)
  }

  /** The column after one attempt. */
  function AfterAttempt(c: Codec, stored: Option<string>, a: Attempt): Option<string>
    requires ValidTime(a.now) && ValidTime(a.now + a.draw)
  {
    if Wins(stored, c.render(a.now)) then Some(c.render(a.now + a.draw)) else stored
  }

  /** The column after all attempts, in the order in which they were committed, starting from NULL. */
  ghost function Stored(c: Codec, log: seq<Attempt>, r: Range): Option<string>
    requires AllLawful(log, r)
  {
    if log == [] then None else AfterAttempt(c, Stored(c, log[..|log| - 1], r), log[|log| - 1])
  }

  // ---------------------------------------------------------------- the same slot as a number

  predicate Due(slot: Option<int>, now: int) {
    slot.None? || slot.value <= now / 1000
  }

  /** The stored slot in milliseconds. */
  ghost function Slot(log: seq<Attempt>): Option<int> {
    if log == [] then None
    else
      var past, a := Slot(log[..|log| - 1]), log[|log| - 1];
      if Due(past, a.now) then Some((a.now + a.draw) / 1000) else past
  }

  /** Attempt `i` reserved the slot. */
  ghost predicate Granted(log: seq<Attempt>, i: int)
    requires 0 <= i < |log|
  {
    Due(Slot(log[..i]), log[i].now)
  }

  ghost predicate OnGrid(c: Codec, stored: Option<string>, slot: Option<int>) {
    if slot.None? then stored.None?
    else ValidTime(slot.value * 1000) && stored == Some(c.render(slot.value * 1000))
  }

  lemma WinsOnGrid(c: Codec, stored: Option<string>, slot: Option<int>, now: int)
    requires Faithful(c) && OnGrid(c, stored, slot) && ValidTime(now)
    ensures Wins(stored, c.render(now)) <==> Due(slot, now)
  {
    if slot.Some? {
      assert Before(c.render(now), c.render(slot.value * 1000)) <==> now / 1000 < slot.value * 1000 / 1000;
    }
  }

  lemma AttemptOnGrid(c: Codec, stored: Option<string>, slot: Option<int>, a: Attempt)
    requires Faithful(c) && OnGrid(c, stored, slot) && ValidTime(a.now) && ValidTime(a.now + a.draw)
    ensures OnGrid(c, AfterAttempt(c, stored, a), if Due(slot, a.now) then Some((a.now + a.draw) / 1000) else slot)
  {
    WinsOnGrid(c, stored, slot, a.now);
    var t := a.now + a.draw;
    SameOnGrid(c, t);
  }

  lemma SameOnGrid(c: Codec, t: int)
    requires Faithful(c) && ValidTime(t)
    ensures ValidTime(t / 1000 * 1000) && c.render(t) == c.render(t / 1000 * 1000)
  {
    assert t / 1000 * 1000 / 1000 == t / 1000;
  }

  /** The text column follows the numeric slot through every history of attempts. */
  lemma {:induction false} StoredIsSlot(c: Codec, log: seq<Attempt>, r: Range)
    requires Faithful(c) && AllLawful(log, r)
    ensures OnGrid(c, Stored(c, log, r), Slot(log))
  {
    if log != [] {
      StoredIsSlot(c, log[..|log| - 1], r);
      AttemptOnGrid(c, Stored(c, log[..|log| - 1], r), Slot(log[..|log| - 1]), log[|log| - 1]);
    }
  }

  /** The UPDATE's text comparison grants a reservation exactly when the numeric slot is due. */
  lemma TextGrants(c: Codec, log: seq<Attempt>, r: Range, i: nat)
    requires Faithful(c) && AllLawful(log, r) && i < |log|
    ensures Wins(Stored(c, log[..i], r), c.render(log[i].now)) <==> Granted(log, i)
  {
    StoredIsSlot(c, log[..i], r);
    WinsOnGrid(c, Stored(c, log[..i], r), Slot(log[..i]), log[i].now);
  }

  lemma AppendAttempt(c: Codec, log: seq<Attempt>, r: Range, a: Attempt)
    requires AllLawful(log, r) && Lawful(a, r)
    ensures AllLawful(log + [a], r)
    ensures Stored(c, log + [a], r) == AfterAttempt(c, Stored(c, log, r), a)
    ensures Granted(log + [a], |log|) <==> Due(Slot(log), a.now)
    ensures Slot(log + [a]) == if Due(Slot(log), a.now) then Some((a.now + a.draw) / 1000) else Slot(log)
  {
    assert (log + [a])[..|log|] == log;
  }

  lemma SlotStep(log: seq<Attempt>, i: nat)
    requires i < |log|
    ensures Slot(log[..i + 1]) == if Granted(log, i) then Some((log[i].now + log[i].draw) / 1000) else Slot(log[..i])
  {
    assert log[..i + 1][..i] == log[..i];
  }

  /** Truncating the sum of a reading and a draw keeps it within whole-second bounds of the truncated reading. */
  lemma DrawOnGrid(a: Attempt, r: Range)
    requires Lawful(a, r)
    ensures a.now / 1000 + r.min * 1000 <= (a.now + a.draw) / 1000 <= a.now / 1000 + r.max * 1000
  {
    assert (a.now + r.min * 1_000_000) / 1000 == a.now / 1000 + r.min * 1000;
    assert (a.now + r.max * 1_000_000) / 1000 == a.now / 1000 + r.max * 1000;
  }

  // ---------------------------------------------------------------- safety, for any processes and any clocks

  /** The stored slot never decreases. */
  lemma {:induction false} SlotNeverDecreases(log: seq<Attempt>, r: Range, i: nat, j: nat)
    requires AllLawful(log, r) && i <= j <= |log| && Slot(log[..i]).Some?
    ensures Slot(log[..j]).Some? && Slot(log[..i]).value <= Slot(log[..j]).value
  {
    if i < j {
      SlotNeverDecreases(log, r, i, j - 1);
      SlotStep(log, j - 1);
      DrawOnGrid(log[j - 1], r);
    }
  }

  /** Any two reservations won are at least the minimum cooldown apart on the millisecond grid. */
  lemma GrantsAreSpaced(log: seq<Attempt>, r: Range, i: nat, j: nat)
    requires AllLawful(log, r) && i < j < |log| && Granted(log, i) && Granted(log, j)
    ensures log[j].now / 1000 >= log[i].now / 1000 + r.min * 1000
  {
    SlotStep(log, i);
    SlotStep(log, j);
    DrawOnGrid(log[i], r);
    SlotNeverDecreases(log, r, i + 1, j);
  }

  /** The slot is the last win plus its draw, hence at most the last win plus the maximum cooldown. */
  lemma {:induction false} SlotIsTheLastWin(log: seq<Attempt>, r: Range) returns (i: nat)
    requires AllLawful(log, r) && Slot(log).Some?
    ensures i < |log| && Granted(log, i)
    ensures forall j :: i < j < |log| ==> !Granted(log, j)
    ensures log[i].now / 1000 + r.min * 1000 <= Slot(log).value <= log[i].now / 1000 + r.max * 1000
  {
    var n := |log| - 1;
    assert log[..n + 1] == log;
    SlotStep(log, n);
    if Granted(log, n) {
      i := n;
      DrawOnGrid(log[n], r);
    } else {
      i := SlotIsTheLastWin(log[..n], r);
      assert forall j :: 0 <= j < n ==> log[..n][..j] == log[..j];
      forall j | i < j < |log| ensures !Granted(log, j) {
        if j < n {
          assert !Granted(log[..n], j);
        }
      }
    }
  }

  /** How many reservations were won with a reading in [lo, hi] milliseconds. */
  ghost function Grants(log: seq<Attempt>, lo: int, hi: int): nat
  {
    if log == [] then 0
    else
      var n := |log| - 1;
      Grants(log[..n], lo, hi) + if Granted(log, n) && lo <= log[n].now / 1000 <= hi then 1 else 0
  }

  lemma {:induction false} GrantsPushTheSlot(log: seq<Attempt>, r: Range, lo: int, hi: int, gap: int)
    requires AllLawful(log, r) && gap == r.min * 1000
    ensures Grants(log, lo, hi) > 0 ==>
              && Slot(log).Some? && lo + Grants(log, lo, hi) * gap <= Slot(log).value
              && lo + (Grants(log, lo, hi) - 1) * gap <= hi
  {
    if log != [] {
      var n := |log| - 1;
      assert log[..n + 1] == log;
      GrantsPushTheSlot(log[..n], r, lo, hi, gap);
      SlotStep(log, n);
      DrawOnGrid(log[n], r);
      var past := Grants(log[..n], lo, hi);
      assert (past + 1) * gap == past * gap + gap;
      assert past >= 1 ==> (past - 1) * gap == past * gap - gap;
    }
  }

  /** With a positive minimum, any span of W milliseconds holds at most W / (MIN * 1000) + 1 reservations. */
  lemma RateIsBounded(log: seq<Attempt>, r: Range, lo: int, hi: int, gap: int)
    requires AllLawful(log, r) && gap == r.min * 1000 > 0 && lo <= hi
    ensures Grants(log, lo, hi) <= (hi - lo) / gap + 1
  {
    var g := Grants(log, lo, hi);
    assert g > 0 ==> (g - 1) * gap <= hi - lo by {
      GrantsPushTheSlot(log, r, lo, hi, gap);
    }
    if g > 0 {
      QuotientBound(g - 1, gap, hi - lo);
    } else {
      QuotientBound(0, gap, hi - lo);
    }
  }

  lemma QuotientBound(q: int, m: int, n: int)
    requires m > 0 && q * m <= n
    ensures q <= n / m
  {
    var k := n / m;
    assert n < (k + 1) * m;
    ProductMonotone(k + 1, q, m);
  }

  lemma ProductMonotone(x: int, y: int, m: int)
    requires m >= 0
    ensures x <= y ==> x * m <= y * m
  {
  }

  // ---------------------------------------------------------------- the fast path

  /** seconds the reader still has to wait, as the pacer computes them: parsed slot minus reading. */
  function Remaining(c: Codec, stored: string, now: int): int {
    match c.parse(stored)
    case Some(t) => t - now
    case None => 0
  }

  /** The read-only fast path calls the slot busy exactly when the compare-and-set on the same value would lose. */
  lemma FastPathAgrees(c: Codec, log: seq<Attempt>, r: Range, now: int)
    requires Faithful(c) && AllLawful(log, r) && Stored(c, log, r).Some? && ValidTime(now)
    ensures Remaining(c, Stored(c, log, r).value, now) > 0 <==> !Wins(Stored(c, log, r), c.render(now))
    ensures Remaining(c, Stored(c, log, r).value, now) == Slot(log).value * 1000 - now
  {
    StoredIsSlot(c, log, r);
    assert c.parse(c.render(Slot(log).value * 1000)) == Some(Slot(log).value * 1000);
    WinsOnGrid(c, Stored(c, log, r), Slot(log), now);
  }

  // ---------------------------------------------------------------- the shared row

  ghost function Wait(slot: Option<int>, now: int): int {
    if slot.None? then 0 else slot.value * 1000 - now
  }

  /** How many attempts won. */
  ghost function Won(log: seq<Attempt>): nat {
    if log == [] then 0 else Won(log[..|log| - 1]) + if Granted(log, |log| - 1) then 1 else 0
  }

  lemma WonStep(log: seq<Attempt>, a: Attempt)
    ensures Won(log + [a]) == Won(log) + if Due(Slot(log), a.now) then 1 else 0
  {
    assert (log + [a])[..|log|] == log;
  }

  /** The slot reaches from the reading of the win that set it as far as a draw from the range. */
  ghost predicate ReservedAt(slot: Option<int>, now: int, r: Range) {
    slot.Some? && now / 1000 + r.min * 1000 <= slot.value <= now / 1000 + r.max * 1000
  }

  /** What one more compare-and-set does to the column, the slot and the count of wins. */
  lemma ClaimMeans(c: Codec, log: seq<Attempt>, r: Range, a: Attempt)
    requires Faithful(c) && AllLawful(log, r) && Lawful(a, r)
    ensures AllLawful(log + [a], r) && Stored(c, log + [a], r) == AfterAttempt(c, Stored(c, log, r), a)
    ensures Wins(Stored(c, log, r), c.render(a.now)) <==> Due(Slot(log), a.now)
    ensures Slot(log + [a]) == if Due(Slot(log), a.now) then Some((a.now + a.draw) / 1000) else Slot(log)
    ensures Won(log + [a]) == Won(log) + if Due(Slot(log), a.now) then 1 else 0
    ensures ReservedAt(Some((a.now + a.draw) / 1000), a.now, r)
  {
    AppendAttempt(c, log, r, a);
    WonStep(log, a);
    StoredIsSlot(c, log, r);
    WinsOnGrid(c, Stored(c, log, r), Slot(log), a.now);
    DrawOnGrid(a, r);
  }

  /** The singleton row of the pacing table, shared by every process. */
  class PacingState {
    const codec: Codec
    const range: Range
    var nextAllowedAt: Option<string>
    ghost var log: seq<Attempt>           // every compare-and-set committed so far
    ghost var slot: Option<int>           // the slot in milliseconds
    ghost var wins: nat                   // how many of the attempts won

    ghost predicate Valid()
      reads this
    {
      && Faithful(codec) && range.min <= range.max && AllLawful(log, range)
      && nextAllowedAt == Stored(codec, log, range) && slot == Slot(log) && wins == Won(log)
    }

    constructor (range: Range)
      requires range.min <= range.max
      ensures Valid() && log == [] && this.range == range && codec == Iso8601()
    {
      codec := Iso8601();
      this.range := range;
      nextAllowedAt, log, slot, wins := None, [], None, 0;
      Iso8601IsFaithful();
    }

    /** The reserving UPDATE ... RETURNING. */
    method ReserveDownloadSlot(now: int, draw: int) returns (won: bool)
      requires Valid() && Lawful(Attempt(now, draw), range)
      modifies this
      ensures Valid() && log == old(log) + [Attempt(now, draw)]
      ensures won <==> Due(old(slot), now)
      ensures slot == if won then Some((now + draw) / 1000) else old(slot)
      ensures wins == old(wins) + if won then 1 else 0
      ensures won ==> ReservedAt(slot, now, range)
    {
      ClaimMeans(codec, log, range, Attempt(now, draw));
      won := Wins(nextAllowedAt, codec.render(now));
      if won {
        nextAllowedAt := Some(codec.render(now + draw));
        slot, wins := Some((now + draw) / 1000), wins + 1;
      }
      log := log + [Attempt(now, draw)];
    }

    /** Other processes reserve with whatever readings and draws they have; `budget - left` of them win. */
    method Rivals(budget: nat) returns (left: nat)
      requires Valid()
      modifies this
      ensures Valid() && left <= budget && wins == old(wins) + (budget - left)
      ensures old(slot).Some? ==> slot.Some?
      ensures left == budget ==> slot == old(slot)
    {
      left := budget;
      var n: nat := *;
      while n > 0
        invariant Valid() && left <= budget && wins == old(wins) + (budget - left)
        invariant old(slot).Some? ==> slot.Some?
        invariant left == budget ==> slot == old(slot)
      {
        var now: int, draw: int := *, *;
        if ValidTime(now) && ValidTime(now + draw) && range.min * 1_000_000 <= draw <= range.max * 1_000_000 && left > 0 {
          var won := ReserveDownloadSlot(now, draw);
          if won {
            left := left - 1;
          }
        }
        n := n - 1;
      }
    }
  }

  /** A process's clock: a sleep lasts at least as long as asked, and as much longer as it likes. */
  class Clock {
    var now: int

    ghost predicate Valid()
      reads this
    {
      ValidTime(now)
    }

    /** At the end of the calendar the clock stands still. */
    method Sleep(duration: nat)
      requires Valid()
      modifies this
      ensures Valid() && now >= old(now)
      ensures now >= old(now) + duration || now == TIME_LIMIT - 1
    {
      var extra :| extra >= 0;
      now := if now + duration + extra < TIME_LIMIT then now + duration + extra else TIME_LIMIT - 1;
    }
  }

  // ---------------------------------------------------------------- the pacer

  /** A draw from the range may reach past the last instant of the calendar. */
  predicate AtCalendarEnd(r: Range, now: int) {
    now + r.max * 1_000_000 >= TIME_LIMIT
  }

  datatype Reservation = GoNow | Busy(wait: int) | Overflow

  class DownloadPacer {
    const row: PacingState
    const clock: Clock

    constructor (row: PacingState, clock: Clock)
      ensures this.row == row && this.clock == clock
    {
      this.row := row;
      this.clock := clock;
    }

    ghost predicate Valid()
      reads this, row, clock
    {
      row.Valid() && clock.Valid()
    }

    /** The read-only fast path: the wait it reports, or 0 when the slot looks due. */
    method ReadWait() returns (wait: int)
      requires Valid()
      ensures wait >= 0 && (wait == 0 <==> Due(row.slot, clock.now))
      ensures wait > 0 ==> wait == Wait(row.slot, clock.now)
    {
      StoredIsSlot(row.codec, row.log, row.range);
      wait := 0;
      if row.nextAllowedAt.Some? {
        FastPathAgrees(row.codec, row.log, row.range, clock.now);
        WinsOnGrid(row.codec, row.nextAllowedAt, row.slot, clock.now);
        var remaining := Remaining(row.codec, row.nextAllowedAt.value, clock.now);
        if remaining > 0 {
          wait := remaining;
        }
      }
    }

    /**
     One reservation. The read is a fast path; the claim is the compare-and-set, and a lost claim starts over.
     Losing needs a rival's win in between, so the recursion is bounded by the wins of others. Every win is
     accounted for: the rivals', and this call's exactly when it answers 'go'. Each try reads the clock again.
     */
    method ReserveNextSlot(rivals: nat) returns (result: Reservation, left: nat)
      requires Valid()
      modifies row, clock
      ensures Valid() && left <= rivals && clock.now >= old(clock.now)
      ensures left == rivals ==> clock.now == old(clock.now)
      ensures row.wins == old(row.wins) + (rivals - left) + if result.GoNow? then 1 else 0
      ensures result.GoNow? ==> ReservedAt(row.slot, clock.now, row.range)
      ensures result.Busy? ==> result.wait == Wait(row.slot, clock.now) > 0
      ensures result.Busy? && left == rivals ==> row.slot == old(row.slot)
      ensures left == rivals && Due(old(row.slot), clock.now) ==> !result.Busy?
      ensures result.Overflow? ==> AtCalendarEnd(row.range, clock.now)
      decreases rivals
    {
      var now := clock.now;
      var wait := ReadWait();
      if wait > 0 {
        return Busy(wait), rivals;
      }
      left := row.Rivals(rivals);
      var draw: int :| row.range.min * 1_000_000 <= draw <= row.range.max * 1_000_000;
      if now + draw >= TIME_LIMIT {
        return Overflow, left;
      }
      var won := row.ReserveDownloadSlot(now, draw);
      if won {
        return GoNow, left;
      }
      clock.Sleep(0);
      result, left := ReserveNextSlot(left);
    }

    /** A nap of at most five seconds, with rivals reserving meanwhile: without a win of theirs the wait is a slice shorter. */
    method WaitOut(wait: int, rivals: nat) returns (left: nat)
      requires Valid() && wait == Wait(row.slot, clock.now) > 0
      modifies row, clock
      ensures Valid() && left <= rivals && row.wins == old(row.wins) + (rivals - left)
      ensures left == rivals ==> Slices(Wait(row.slot, clock.now)) < Slices(wait)
    {
      var nap := if wait + SLEEP_EPSILON < MAX_SINGLE_SLEEP then wait + SLEEP_EPSILON else MAX_SINGLE_SLEEP;
      clock.Sleep(nap);
      SlotInCalendar(row.codec, row.log, row.range);
      NapShortens(wait, nap, Wait(row.slot, clock.now));
      left := row.Rivals(rivals);
    }

    /**
     Blocks until the slot is reserved; only the end of the calendar keeps it from reserving. `left` is what
     remains of the rivals' wins, so every other win since the call is this one's. Each round consumes a
     rival's win or at least a slice of the wait; when no rival wins, ceil(wait / 5 s) + 1 rounds suffice.
     */
    method Acquire(rivals: nat) returns (reserved: bool, rounds: nat, ghost left: nat)
      requires Valid()
      modifies row, clock
      ensures Valid() && left <= rivals
      ensures row.wins == old(row.wins) + (rivals - left) + if reserved then 1 else 0
      ensures if reserved then ReservedAt(row.slot, clock.now, row.range) else AtCalendarEnd(row.range, clock.now)
      ensures rivals == 0 ==>
        var wait := if old(row.slot).None? then 0 else old(row.slot).value * 1000 - old(clock.now);
        rounds <= (if wait <= 0 then 0 else (wait + 4_999_999) / 5_000_000) + 1
    {
      rounds := 0;
      var budget: nat := rivals;
      while true
        invariant Valid() && budget <= rivals && row.wins == old(row.wins) + (rivals - budget)
        invariant rivals == 0 ==> rounds + Slices(Wait(row.slot, clock.now)) <= Slices(old(Wait(row.slot, clock.now)))
        decreases budget, Slices(Wait(row.slot, clock.now))
      {
        var result;
        result, budget := ReserveNextSlot(budget);
        rounds := rounds + 1;
        match result
        case GoNow => return true, rounds, budget;
        case Overflow => return false, rounds, budget;
        case Busy(wait) => budget := WaitOut(wait, budget);
      }
    }
  }

  lemma NapShortens(wait: int, nap: int, rest: int)
    requires wait > 0 && nap == if wait + SLEEP_EPSILON < MAX_SINGLE_SLEEP then wait + SLEEP_EPSILON else MAX_SINGLE_SLEEP
    requires rest <= wait - nap || rest <= 0
    ensures Slices(rest) < Slices(wait)
  {
  }

  lemma SlotInCalendar(c: Codec, log: seq<Attempt>, r: Range)
    requires Faithful(c) && AllLawful(log, r)
    ensures Slot(log).Some? ==> ValidTime(Slot(log).value * 1000)
  {
    StoredIsSlot(c, log, r);
  }

  /** ceil(wait / 5 s), and 0 when there is nothing to wait for. */
  ghost function Slices(wait: int): nat {
    if wait <= 0 then 0 else (wait + MAX_SINGLE_SLEEP - 1) / MAX_SINGLE_SLEEP
  }
}
