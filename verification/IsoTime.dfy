/**
 UTC instants as text. Time is a count of microseconds since 0001-01-01T00:00; the pacing column holds its
 ISO 8601 rendering with a milliseconds timespec, and SQLite compares that column as text.
 */
module IsoTime {
  import opened Prelude

  // ---------------------------------------------------------------- the proleptic Gregorian calendar

  predicate IsLeap(y: int) {
    y % 4 == 0 && (y % 100 != 0 || y % 400 == 0)
  }

  function DaysBeforeYear(y: int): int {
    (y - 1) * 365 + (y - 1) / 4 - (y - 1) / 100 + (y - 1) / 400
  }

  function DaysInMonth(y: int, m: int): (d: int)
    ensures 28 <= d <= 31
  {
    if m == 2 then (if IsLeap(y) then 29 else 28)
    else if m == 4 || m == 6 || m == 9 || m == 11 then 30
    else 31
  }

  function DaysBeforeMonth(y: int, m: int): int
    requires 1 <= m <= 13
    decreases m
  {
    if m == 1 then 0 else DaysBeforeMonth(y, m - 1) + DaysInMonth(y, m - 1)
  }

  const LAST_YEAR := 9999

  datatype Date = Date(year: int, month: int, day: int)

  predicate ValidDate(d: Date) {
    1 <= d.year <= LAST_YEAR && 1 <= d.month <= 12 && 1 <= d.day <= DaysInMonth(d.year, d.month)
  }

  /** Days since 0001-01-01. */
  function DayNumber(d: Date): int
    requires ValidDate(d)
  {
    DaysBeforeYear(d.year) + DaysBeforeMonth(d.year, d.month) + d.day - 1
  }

  lemma LeapDays(y: int)
    requires y >= 1
    ensures y / 4 == (y - 1) / 4 + if y % 4 == 0 then 1 else 0
    ensures y / 100 == (y - 1) / 100 + if y % 100 == 0 then 1 else 0
    ensures y / 400 == (y - 1) / 400 + if y % 400 == 0 then 1 else 0
  {
  }

  lemma MonthsOfYear(y: int)
    ensures DaysBeforeMonth(y, 13) == if IsLeap(y) then 366 else 365
  {
    assert DaysBeforeMonth(y, 13) == DaysBeforeMonth(y, 10) + 31 + 30 + 31;
    assert DaysBeforeMonth(y, 10) == DaysBeforeMonth(y, 7) + 31 + 31 + 30;
    assert DaysBeforeMonth(y, 7) == DaysBeforeMonth(y, 4) + 30 + 31 + 30;
    assert DaysBeforeMonth(y, 4) == DaysBeforeMonth(y, 2) + DaysInMonth(y, 2) + 31;
  }

  lemma YearLength(y: int)
    requires y >= 1
    ensures DaysBeforeYear(y + 1) == DaysBeforeYear(y) + (if IsLeap(y) then 366 else 365)
    ensures DaysBeforeMonth(y, 13) == if IsLeap(y) then 366 else 365
  {
    LeapDays(y);
    MonthsOfYear(y);
    assert y % 100 == 0 ==> y % 4 == 0;
    assert y % 400 == 0 ==> y % 100 == 0;
  }

  lemma {:induction false} YearsMonotone(y: int, z: int)
    requires 1 <= y <= z
    ensures DaysBeforeYear(y) + 365 * (z - y) <= DaysBeforeYear(z)
    decreases z - y
  {
    if y < z {
      YearLength(y);
      YearsMonotone(y + 1, z);
    }
  }

  lemma {:induction false} MonthsMonotone(y: int, m: int, n: int)
    requires 1 <= m <= n <= 13
    ensures DaysBeforeMonth(y, m) <= DaysBeforeMonth(y, n)
    ensures m < n ==> DaysBeforeMonth(y, m) + DaysInMonth(y, m) <= DaysBeforeMonth(y, n)
    decreases n - m
  {
    if m < n {
      MonthsMonotone(y, m + 1, n);
    }
  }

  predicate DateBefore(a: Date, b: Date) {
    a.year < b.year || (a.year == b.year && (a.month < b.month || (a.month == b.month && a.day < b.day)))
  }

  /** Calendar order is day-number order. */
  lemma DateOrder(a: Date, b: Date)
    requires ValidDate(a) && ValidDate(b) && DateBefore(a, b)
    ensures DayNumber(a) < DayNumber(b)
  {
    MonthsMonotone(a.year, 1, a.month);
    MonthsMonotone(b.year, 1, b.month);
    MonthsMonotone(a.year, a.month, 13);
    if a.year < b.year {
      YearLength(a.year);
      YearsMonotone(a.year + 1, b.year);
    } else if a.month < b.month {
      MonthsMonotone(a.year, a.month, b.month);
    }
  }

  /** The months of the Gregorian calendar, February apart. */
  lemma MonthLengths(y: int)
    ensures DaysInMonth(y, 1) == DaysInMonth(y, 3) == DaysInMonth(y, 5) == DaysInMonth(y, 7) == 31
    ensures DaysInMonth(y, 8) == DaysInMonth(y, 10) == DaysInMonth(y, 12) == 31
    ensures DaysInMonth(y, 4) == DaysInMonth(y, 6) == DaysInMonth(y, 9) == DaysInMonth(y, 11) == 30
  {
  }

  lemma FourHundred(y: int)
    ensures y % 400 == 0 ==> y % 4 == 0
  {
    assert y == 400 * (y / 400) + y % 400;
    assert y % 400 == 0 ==> y == 4 * (100 * (y / 400));
  }

  /** Every fourth February is a day longer, but of the hundredth ones only every fourth. */
  lemma Februaries(y: int)
    ensures DaysInMonth(y, 2) == if y % 400 == 0 || (y % 4 == 0 && y % 100 != 0) then 29 else 28
  {
    FourHundred(y);
  }

  /** The day after a date is the next of its month, or the first of the next month. */
  lemma NextDay(d: Date)
    requires ValidDate(d) && DayNumber(d) + 1 < DAY_LIMIT
    ensures var next :=
        if d.day < DaysInMonth(d.year, d.month) then Date(d.year, d.month, d.day + 1)
        else if d.month < 12 then Date(d.year, d.month + 1, 1)
        else Date(d.year + 1, 1, 1);
      ValidDate(next) && DayNumber(next) == DayNumber(d) + 1
  {
    YearLength(d.year);
    assert d.month == 12 ==> DaysBeforeMonth(d.year, 13) == DaysBeforeMonth(d.year, 12) + 31;
  }

  /** Day 0 is the first day of year 1; the Unix epoch is day 719162. */
  lemma Epoch()
    ensures DayNumber(Date(1, 1, 1)) == 0 && DayNumber(Date(1970, 1, 1)) == 719162
  {
  }

  // ---------------------------------------------------------------- from a day number back to a date

  const DAY_LIMIT := 3652059 // days before 10000-01-01

  function YearOf(n: int, y: int): (r: int)
    requires 1 <= y <= LAST_YEAR && DaysBeforeYear(y) <= n < DAY_LIMIT
    ensures y <= r <= LAST_YEAR && DaysBeforeYear(r) <= n < DaysBeforeYear(r + 1)
    decreases LAST_YEAR - y
  {
    if n < DaysBeforeYear(y + 1) then y
    else
      assert y + 1 <= LAST_YEAR;
      YearOf(n, y + 1)
  }

  function MonthOf(y: int, n: int, m: int): (r: int)
    requires 1 <= m <= 12 && DaysBeforeMonth(y, m) <= n < DaysBeforeMonth(y, 13)
    ensures m <= r <= 12 && DaysBeforeMonth(y, r) <= n < DaysBeforeMonth(y, r + 1)
    decreases 12 - m
  {
    if n < DaysBeforeMonth(y, m + 1) then m else MonthOf(y, n, m + 1)
  }

  function DateOf(n: int): (d: Date)
    requires 0 <= n < DAY_LIMIT
    ensures ValidDate(d) && DayNumber(d) == n
  {
    var y := YearOf(n, 1);
    YearLength(y);
    var m := MonthOf(y, n - DaysBeforeYear(y), 1);
    Date(y, m, n - DaysBeforeYear(y) - DaysBeforeMonth(y, m) + 1)
  }

  // ---------------------------------------------------------------- rendering

  const DAY_MICROS := 86_400_000_000
  const TIME_LIMIT := 315_537_897_600_000_000 // DAY_LIMIT days

  predicate ValidTime(t: int) {
    0 <= t < TIME_LIMIT
  }

  /** Year, month, day, hour, minute, second, millisecond. */
  function Fields(t: int): seq<nat>
    requires ValidTime(t)
  {
    var d := DateOf(t / DAY_MICROS);
    var ms := t % DAY_MICROS / 1000;
    [d.year, d.month, d.day, ms / 3_600_000, ms / 60_000 % 60, ms / 1000 % 60, ms % 1000]
  }

  function Pow10(k: nat): (p: nat)
    ensures p >= 1
  {
    if k == 0 then 1 else 10 * Pow10(k - 1)
  }

  function Padded(n: nat, width: nat): (s: string)
    ensures |s| == width
  {
    if width == 0 then "" else Padded(n / 10, width - 1) + [('0' as int + n % 10) as char]
  }

  /** Each field at its width, followed by its separator. */
  function Render(fields: seq<nat>, widths: seq<nat>, separators: seq<string>): string
    requires |fields| == |widths| == |separators|
  {
    if fields == [] then "" else Padded(fields[0], widths[0]) + separators[0] + Render(fields[1..], widths[1..], separators[1..])
  }

  const WIDTHS: seq<nat> := [4, 2, 2, 2, 2, 2, 3]
  const SEPARATORS: seq<string> := ["-", "-", "T", ":", ":", ".", "+00:00"]

  /** isoformat(timespec='milliseconds') of a UTC instant. */
  function IsoUtc(t: int): string
    requires ValidTime(t)
  {
    Render(Fields(t), WIDTHS, SEPARATORS)
  }

  /** YYYY-MM-DDTHH:MM:SS.mmm+00:00 */
  lemma IsoShape(t: int)
    requires ValidTime(t)
    ensures var d, ms := DateOf(t / 86_400_000_000), t % 86_400_000_000 / 1000;
      IsoUtc(t) == Padded(d.year, 4) + ("-" + (Padded(d.month, 2) + ("-" + (Padded(d.day, 2) + ("T" + (
        Padded(ms / 3_600_000, 2) + (":" + (Padded(ms / 60_000 % 60, 2) + (":" + (Padded(ms / 1000 % 60, 2) + ("." + (
        Padded(ms % 1000, 3) + "+00:00"))))))))))))
  {
    RenderNext(Fields(t), 0);
    RenderNext(Fields(t), 1);
    RenderNext(Fields(t), 2);
    RenderNext(Fields(t), 3);
    RenderNext(Fields(t), 4);
    RenderNext(Fields(t), 5);
    RenderNext(Fields(t), 6);
    assert Fields(t)[0..] == Fields(t) && WIDTHS[0..] == WIDTHS && SEPARATORS[0..] == SEPARATORS;
    assert Padded(Fields(t)[6], 3) + "+00:00" + "" == Padded(Fields(t)[6], 3) + "+00:00";
  }

  lemma RenderNext(fields: seq<nat>, i: nat)
    requires |fields| == 7 && i < 7
    ensures Render(fields[i..], WIDTHS[i..], SEPARATORS[i..])
      == Padded(fields[i], WIDTHS[i]) + (SEPARATORS[i] + Render(fields[i + 1..], WIDTHS[i + 1..], SEPARATORS[i + 1..]))
  {
    assert fields[i..][1..] == fields[i + 1..] && WIDTHS[i..][1..] == WIDTHS[i + 1..] && SEPARATORS[i..][1..] == SEPARATORS[i + 1..];
  }

  /** A padded number is its decimal digits, with leading zeros. */
  lemma {:induction false} PaddedDigit(n: nat, width: nat, i: nat)
    requires i < width
    ensures Padded(n, width)[width - 1 - i] as int - '0' as int == n / Pow10(i) % 10
    ensures Pow10(i + 1) == 10 * Pow10(i) && Pow10(0) == 1
  {
    if i > 0 {
      PaddedDigit(n / 10, width - 1, i - 1);
      assert n / 10 / Pow10(i - 1) == n / Pow10(i) by {
        QuotientOfQuotient(n, Pow10(i - 1));
      }
    }
  }

  lemma QuotientOfQuotient(n: nat, p: nat)
    requires p >= 1
    ensures n / 10 / p == n / (10 * p)
  {
    var q, r := n / (10 * p), n % (10 * p);
    assert n == 10 * p * q + r && 0 <= r < 10 * p;
    assert n == 10 * (p * q) + r;
    assert n / 10 == p * q + r / 10;
    assert r / 10 < p;
    QuotientIs(n / 10, p, q, r / 10);
  }

  lemma QuotientIs(n: int, p: int, q: int, r: int)
    requires n == p * q + r && 0 <= r < p
    ensures n / p == q
  {
    var k := n / p;
    assert p * k <= n < p * k + p;
    assert p * (k - q) < p && p * (q - k) < p;
    NoMultipleBetween(p, k - q);
    NoMultipleBetween(p, q - k);
  }

  lemma NoMultipleBetween(p: int, d: int)
    requires p >= 1 && p * d < p
    ensures d <= 0
  {
  }

  // ---------------------------------------------------------------- text order is time order

  ghost predicate LexLess(f: seq<nat>, g: seq<nat>)
    requires |f| == |g|
  {
    f != [] && (f[0] < g[0] || (f[0] == g[0] && LexLess(f[1..], g[1..])))
  }

  ghost predicate Fit(fields: seq<nat>, widths: seq<nat>) {
    |fields| == |widths| && forall i :: 0 <= i < |fields| ==> fields[i] < Pow10(widths[i])
  }

  lemma {:induction false} PaddedOrder(n: nat, m: nat, k: nat)
    requires n < m < Pow10(k)
    ensures Before(Padded(n, k), Padded(m, k))
  {
    var a, b := Padded(n / 10, k - 1), Padded(m / 10, k - 1);
    BeforeConcat(a, b, [('0' as int + n % 10) as char], [('0' as int + m % 10) as char]);
    if n / 10 < m / 10 {
      PaddedOrder(n / 10, m / 10, k - 1);
    }
  }

  lemma {:induction false} RenderOrder(f: seq<nat>, g: seq<nat>, widths: seq<nat>, separators: seq<string>)
    requires Fit(f, widths) && Fit(g, widths) && |separators| == |f| && LexLess(f, g)
    ensures Before(Render(f, widths, separators), Render(g, widths, separators))
  {
    var x, y := Render(f[1..], widths[1..], separators[1..]), Render(g[1..], widths[1..], separators[1..]);
    var a, b := Padded(f[0], widths[0]), Padded(g[0], widths[0]);
    BeforeConcat(a + separators[0], b + separators[0], x, y);
    BeforeConcat(a, b, separators[0], separators[0]);
    if f[0] < g[0] {
      PaddedOrder(f[0], g[0], widths[0]);
    } else {
      RenderOrder(f[1..], g[1..], widths[1..], separators[1..]);
    }
  }

  lemma Pow10Values()
    ensures Pow10(2) == 100 && Pow10(3) == 1000 && Pow10(4) == 10000
  {
    assert Pow10(1) == 10 * Pow10(0);
  }

  lemma FieldsFit(t: int)
    requires ValidTime(t)
    ensures Fit(Fields(t), WIDTHS)
  {
    Pow10Values();
  }

  lemma MillisOfDay(t: int)
    requires ValidTime(t)
    ensures t / 1000 == t / DAY_MICROS * 86_400_000 + t % DAY_MICROS / 1000
    ensures t / 1000 / 86_400_000 == t / DAY_MICROS && t / 1000 % 86_400_000 == t % DAY_MICROS / 1000
  {
  }

  /** hour, minute, second and millisecond of a millisecond count within a day. */
  lemma ClockFields(ms: int)
    requires 0 <= ms < 86_400_000
    ensures ms == ms / 3_600_000 * 3_600_000 + ms / 60_000 % 60 * 60_000 + ms / 1000 % 60 * 1000 + ms % 1000
  {
    assert ms / 3_600_000 == ms / 60_000 / 60;
    assert ms / 60_000 == ms / 1000 / 60;
  }

  lemma FieldsOrder(a: int, b: int)
    requires ValidTime(a) && ValidTime(b) && a / 1000 < b / 1000
    ensures LexLess(Fields(a), Fields(b))
  {
    MillisOfDay(a);
    MillisOfDay(b);
    if a / DAY_MICROS < b / DAY_MICROS {
      DayDecides(a, b);
    } else {
      assert a / DAY_MICROS == b / DAY_MICROS;
      ClockOrder(a, b);
    }
  }

  lemma DayDecides(a: int, b: int)
    requires ValidTime(a) && ValidTime(b) && a / DAY_MICROS < b / DAY_MICROS
    ensures LexLess(Fields(a), Fields(b))
  {
    var da, db := DateOf(a / DAY_MICROS), DateOf(b / DAY_MICROS);
    if DateBefore(db, da) {
      DateOrder(db, da);
    }
    assert DateBefore(da, db);
    DateFirst(Fields(a), Fields(b));
  }

  lemma ClockOrder(a: int, b: int)
    requires ValidTime(a) && ValidTime(b) && a / DAY_MICROS == b / DAY_MICROS
    requires a % DAY_MICROS / 1000 < b % DAY_MICROS / 1000
    ensures LexLess(Fields(a), Fields(b))
  {
    ClockFields(a % DAY_MICROS / 1000);
    ClockFields(b % DAY_MICROS / 1000);
    ClockLast(Fields(a), Fields(b));
  }

  lemma LexStep(f: seq<nat>, g: seq<nat>, i: nat)
    requires |f| == |g| && i < |f|
    ensures LexLess(f[i..], g[i..]) <==> f[i] < g[i] || (f[i] == g[i] && LexLess(f[i + 1..], g[i + 1..]))
  {
    assert f[i..][1..] == f[i + 1..] && g[i..][1..] == g[i + 1..];
  }

  lemma DateFirst(f: seq<nat>, g: seq<nat>)
    requires |f| == |g| == 7
    requires f[0] < g[0] || (f[0] == g[0] && (f[1] < g[1] || (f[1] == g[1] && f[2] < g[2])))
    ensures LexLess(f, g)
  {
    assert f[0..] == f && g[0..] == g;
    LexStep(f, g, 0);
    LexStep(f, g, 1);
    LexStep(f, g, 2);
  }

  lemma ClockLast(f: seq<nat>, g: seq<nat>)
    requires |f| == |g| == 7 && f[0] == g[0] && f[1] == g[1] && f[2] == g[2]
    requires f[4] < 60 && f[5] < 60 && f[6] < 1000 && g[4] < 60 && g[5] < 60 && g[6] < 1000
    requires f[3] * 3_600_000 + f[4] * 60_000 + f[5] * 1000 + f[6] < g[3] * 3_600_000 + g[4] * 60_000 + g[5] * 1000 + g[6]
    ensures LexLess(f, g)
  {
    assert f[0..] == f && g[0..] == g;
    LexStep(f, g, 0);
    LexStep(f, g, 1);
    LexStep(f, g, 2);
    LexStep(f, g, 3);
    LexStep(f, g, 4);
    LexStep(f, g, 5);
    LexStep(f, g, 6);
  }

  /**
   The text order of two renderings is the order of the instants, floored to the millisecond grid. So
   `next_allowed_at <= :now` on the column means what the parsed comparison means on that grid.
   */
  lemma IsoOrder(a: int, b: int)
    requires ValidTime(a) && ValidTime(b)
    ensures Before(IsoUtc(a), IsoUtc(b)) <==> a / 1000 < b / 1000
    ensures IsoUtc(a) == IsoUtc(b) <==> a / 1000 == b / 1000
  {
    if a / 1000 < b / 1000 {
      IsoOrderOneWay(a, b);
    } else if b / 1000 < a / 1000 {
      IsoOrderOneWay(b, a);
    } else {
      MillisOfDay(a);
      MillisOfDay(b);
      assert Fields(a) == Fields(b);
      BeforeIrreflexive(IsoUtc(a));
    }
  }

  lemma IsoOrderOneWay(a: int, b: int)
    requires ValidTime(a) && ValidTime(b) && a / 1000 < b / 1000
    ensures Before(IsoUtc(a), IsoUtc(b)) && !Before(IsoUtc(b), IsoUtc(a)) && IsoUtc(a) != IsoUtc(b)
  {
    FieldsFit(a);
    FieldsFit(b);
    FieldsOrder(a, b);
    RenderOrder(Fields(a), Fields(b), WIDTHS, SEPARATORS);
    BeforeIrreflexive(IsoUtc(a));
    if Before(IsoUtc(b), IsoUtc(a)) {
      BeforeTransitive(IsoUtc(a), IsoUtc(b), IsoUtc(a));
    }
  }

  // ---------------------------------------------------------------- reading a rendering back

  function Number(s: string): Option<nat> {
    if s == "" then Some(0)
    else
      var c := s[|s| - 1];
      match Number(s[..|s| - 1])
      case Some(n) => if '0' <= c <= '9' then Some(10 * n + (c as int - '0' as int)) else None
      case None => None
  }

  function Scan(s: string, widths: seq<nat>, separators: seq<string>): Option<seq<nat>>
    requires |widths| == |separators|
  {
    if widths == [] then (if s == "" then Some([]) else None)
    else
      var w := widths[0];
      var n := w + |separators[0]|;
      if |s| < n || s[w..n] != separators[0] then None
      else match (Number(s[..w]), Scan(s[n..], widths[1..], separators[1..]))
           case (Some(field), Some(rest)) => Some([field] + rest)
           case (_, _) => None
  }

  /** fromisoformat on the column's fixed-width form: the instant in microseconds. */
  function ParseIso(s: string): Option<int> {
    match Scan(s, WIDTHS, SEPARATORS)
    case None => None
    case Some(f) => ParseFields(f)
  }

  function ParseFields(f: seq<nat>): Option<int> {
    if |f| == 7 && ValidDate(Date(f[0], f[1], f[2])) && f[3] < 24 && f[4] < 60 && f[5] < 60
    then Some(DayNumber(Date(f[0], f[1], f[2])) * DAY_MICROS
              + (f[3] * 3_600_000 + f[4] * 60_000 + f[5] * 1000 + f[6]) * 1000)
    else None
  }

  lemma {:induction false} NumberPadded(n: nat, k: nat)
    requires n < Pow10(k)
    ensures Number(Padded(n, k)) == Some(n)
  {
    if k > 0 {
      NumberPadded(n / 10, k - 1);
      var s := Padded(n, k);
      assert s[..|s| - 1] == Padded(n / 10, k - 1);
    }
  }

  lemma {:induction false} ScanRender(f: seq<nat>, widths: seq<nat>, separators: seq<string>)
    requires Fit(f, widths) && |separators| == |f|
    ensures Scan(Render(f, widths, separators), widths, separators) == Some(f)
  {
    if f != [] {
      var s := Render(f, widths, separators);
      var w, n := widths[0], widths[0] + |separators[0]|;
      NumberPadded(f[0], w);
      ScanRender(f[1..], widths[1..], separators[1..]);
      assert s[..w] == Padded(f[0], w) && s[w..n] == separators[0];
      assert s[n..] == Render(f[1..], widths[1..], separators[1..]);
      assert [f[0]] + f[1..] == f;
    }
  }

  lemma FieldsToInstant(t: int)
    requires ValidTime(t)
    ensures var f := Fields(t);
      && |f| == 7 && ValidDate(Date(f[0], f[1], f[2])) && f[3] < 24 && f[4] < 60 && f[5] < 60
      && DayNumber(Date(f[0], f[1], f[2])) == t / DAY_MICROS
      && f[3] * 3_600_000 + f[4] * 60_000 + f[5] * 1000 + f[6] == t % DAY_MICROS / 1000
  {
    ClockFields(t % DAY_MICROS / 1000);
  }

  /** Reading the column back yields the stored instant, truncated to the millisecond. */
  lemma ParseRendered(t: int)
    requires ValidTime(t)
    ensures ParseIso(IsoUtc(t)) == Some(t / 1000 * 1000)
  {
    var f := Fields(t);
    FieldsFit(t);
    ScanRender(f, WIDTHS, SEPARATORS);
    FieldsToInstant(t);
    MillisOfDay(t);
    assert ParseFields(f) == Some(t / 1000 * 1000);
  }

  // ---------------------------------------------------------------- what the pacer relies on

  /** A way to write instants as text and read them back. */
  datatype Codec = Codec(render: int -> string, parse: string -> Option<int>)

  /** Text order is time order on the millisecond grid, and reading back floors to that grid. */
  ghost predicate Faithful(c: Codec) {
    && (forall a, b | ValidTime(a) && ValidTime(b) :: Before(c.render(a), c.render(b)) <==> a / 1000 < b / 1000)
    && (forall a, b | ValidTime(a) && ValidTime(b) :: c.render(a) == c.render(b) <==> a / 1000 == b / 1000)
    && (forall a | ValidTime(a) :: c.parse(c.render(a)) == Some(a / 1000 * 1000))
  }

  function Iso8601(): Codec {
    Codec(t => if ValidTime(t) then IsoUtc(t) else "", ParseIso)
  }

  lemma Iso8601IsFaithful()
    ensures Faithful(Iso8601())
  {
    forall a, b | ValidTime(a) && ValidTime(b)
      ensures Before(IsoUtc(a), IsoUtc(b)) <==> a / 1000 < b / 1000
      ensures IsoUtc(a) == IsoUtc(b) <==> a / 1000 == b / 1000
    {
      IsoOrder(a, b);
    }
    forall a | ValidTime(a) ensures ParseIso(IsoUtc(a)) == Some(a / 1000 * 1000) {
      ParseRendered(a);
    }
  }
}
