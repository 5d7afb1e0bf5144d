/** Civil dates, day numbers and the monthly periods of a fiscal year. */
module Calendar {
  import opened Common

  datatype Date = Date(year: nat, month: nat, day: nat)

  predicate Leap(y: nat) { y % 4 == 0 && (y % 100 != 0 || y % 400 == 0) }

  function MonthLength(y: nat, m: nat): (n: nat)
    ensures 28 <= n <= 31
  {
    if m == 2 then (if Leap(y) then 29 else 28)
    else if m == 4 || m == 6 || m == 9 || m == 11 then 30 else 31
  }

  /** A real calendar date with a four-digit year. */
  predicate Valid(d: Date) {
    d.year <= 9999 && 1 <= d.month <= 12 && 1 <= d.day <= MonthLength(d.year, d.month)
  }

  /** Months since year 0. */
  function MonthIndex(d: Date): int { 12 * d.year + d.month - 1 }

  /** Day number of the first day of a month, counting months and days from year 0. */
  function MonthStart(k: nat): nat {
    if k == 0 then 0 else MonthStart(k - 1) + MonthLength((k - 1) / 12, (k - 1) % 12 + 1)
  }

  function DayNumber(d: Date): int
    requires Valid(d)
  {
    MonthStart(MonthIndex(d)) + d.day - 1
  }

  /** Day `n` lies in the calendar month with index `k`. */
  predicate InMonth(n: int, k: nat) { MonthStart(k) <= n < MonthStart(k + 1) }

  lemma {:induction false} MonthStartGrows(j: nat, k: nat)
    requires j < k
    ensures MonthStart(j) + 28 * (k - j) <= MonthStart(k)
    decreases k
  {
    if j < k - 1 { MonthStartGrows(j, k - 1); }
  }

  lemma {:induction false} DayInItsMonth(d: Date)
    requires Valid(d)
    ensures InMonth(DayNumber(d), MonthIndex(d))
  {
    assert MonthIndex(d) / 12 == d.year && MonthIndex(d) % 12 + 1 == d.month;
  }

  /** A day lies in one month only. */
  lemma MonthUnique(n: int, j: nat, k: nat)
    requires InMonth(n, j) && InMonth(n, k)
    ensures j == k
  {
    if j < k { if j + 1 < k { MonthStartGrows(j + 1, k); } }
    else if k < j { if k + 1 < j { MonthStartGrows(k + 1, j); } }
  }

  /** Year, month, day order; for ISO texts of equal width this is the text order. */
  predicate Before(a: Date, b: Date) {
    a.year < b.year || (a.year == b.year && (a.month < b.month || (a.month == b.month && a.day < b.day)))
  }

  /** Text order of ISO dates is the order of the days they name. */
  lemma BeforeIsDayOrder(a: Date, b: Date)
    requires Valid(a) && Valid(b)
    ensures Before(a, b) <==> DayNumber(a) < DayNumber(b)
  {
    hide Valid, DayNumber;
    if Before(a, b) { BeforeMeansEarlier(a, b); }
    else if Before(b, a) { BeforeMeansEarlier(b, a); }
    else { assert a == b; }
  }

  lemma BeforeMeansEarlier(a: Date, b: Date)
    requires Valid(a) && Valid(b) && Before(a, b)
    ensures DayNumber(a) < DayNumber(b)
  {
    var j, k := MonthIndex(a), MonthIndex(b);
    MonthsInOrder(a, b);
    DayInItsMonth(a);
    DayInItsMonth(b);
    hide MonthStart, MonthLength, Before, Valid, MonthIndex;
    if j + 1 < k { MonthStartGrows(j + 1, k); }
  }

  lemma MonthsInOrder(a: Date, b: Date)
    requires Valid(a) && Valid(b) && Before(a, b)
    ensures MonthIndex(a) < MonthIndex(b) || (MonthIndex(a) == MonthIndex(b) && a.day < b.day)
  {
    hide MonthLength;
  }

  // ---------------------------------------------------------------- the Gregorian calendar

  /** Days before a month, or before the next year, in a year of 365 days. */
  const DAYS_BEFORE: seq<nat> := [0, 31, 59, 90, 120, 151, 181, 212, 243, 273, 304, 334, 365]

  predicate GregorianLeap(y: nat) { y % 400 == 0 || (y % 4 == 0 && y % 100 != 0) }

  /** Days before a year: every fourth one has one more, but for three of four centuries. */
  function DaysBeforeYear(y: nat): int { 365 * y + (y + 3) / 4 - (y + 99) / 100 + (y + 399) / 400 }

  /** Days of year `y` before its month `m + 1`. */
  function DaysInto(y: nat, m: nat): int
    requires m <= 12
  {
    DAYS_BEFORE[m] + if m >= 2 && GregorianLeap(y) then 1 else 0
  }

  lemma NextMonth(y: nat, m: nat)
    requires m < 12
    ensures DaysInto(y, m + 1) == DaysInto(y, m) + MonthLength(y, m + 1)
  {
    assert GregorianLeap(y) <==> Leap(y);
    hide Leap, GregorianLeap;
    assert m == 0 || m == 1 || m == 2 || m == 3 || m == 4 || m == 5 || m == 6 || m == 7 || m == 8 || m == 9 || m == 10
      || m == 11;
  }

  lemma {:induction false} MonthsOfYear(y: nat, m: nat)
    requires m <= 12
    ensures MonthStart(12 * y + m) == MonthStart(12 * y) + DaysInto(y, m)
  {
    if m > 0 {
      MonthsOfYear(y, m - 1);
      MonthOf(y, m - 1);
      NextMonth(y, m - 1);
      hide DaysInto, MonthLength;
      assert 12 * y + m - 1 == 12 * y + (m - 1);
    }
  }

  lemma MonthOf(y: nat, m: nat)
    requires m < 12
    ensures (12 * y + m) / 12 == y && (12 * y + m) % 12 == m
  {
  }

  lemma NextYear(y: nat)
    ensures DaysBeforeYear(y + 1) == DaysBeforeYear(y) + 365 + (if GregorianLeap(y) then 1 else 0)
  {
    assert (y + 4) / 4 == (y + 3) / 4 + if y % 4 == 0 then 1 else 0;
    assert (y + 100) / 100 == (y + 99) / 100 + if y % 100 == 0 then 1 else 0;
    assert (y + 400) / 400 == (y + 399) / 400 + if y % 400 == 0 then 1 else 0;
  }

  lemma {:induction false} YearsAreGregorian(y: nat)
    ensures MonthStart(12 * y) == DaysBeforeYear(y)
  {
    if y > 0 {
      YearsAreGregorian(y - 1);
      MonthsOfYear(y - 1, 12);
      NextYear(y - 1);
      hide DaysBeforeYear, GregorianLeap, MonthStart;
      assert 12 * (y - 1) + 12 == 12 * y;
    }
  }

  /** Day numbers count the days of the Gregorian calendar from the first of January of year 0. */
  lemma DayNumberIsGregorian(d: Date)
    requires Valid(d)
    ensures DayNumber(d)
            == DaysBeforeYear(d.year) + DAYS_BEFORE[d.month - 1]
               + (if d.month > 2 && GregorianLeap(d.year) then 1 else 0) + d.day - 1
  {
    YearsAreGregorian(d.year);
    MonthsOfYear(d.year, d.month - 1);
    hide MonthStart, DaysBeforeYear;
    assert MonthIndex(d) == 12 * d.year + (d.month - 1);
  }

  // ---------------------------------------------------------------- monthly periods

  datatype Period = Period(number: nat, first: int, last: int)

  datatype CalendarError = InvalidDates | TooManyPeriods

  const MAX_PERIODS := 13

  /** The month that `Date.UTC(year, month + 1, 1)` denotes for a date in month `k`: years 0 to 99 are
      read as 1900 to 1999, which is 1900 * 12 months later. */
  function UtcNext(k: nat): nat { if k < 1200 then k + 22801 else k + 1 }

  /** Periods tile [first, last]: consecutive numbers, no gap, no overlap, none empty. */
  predicate Tiles(ps: seq<Period>, first: int, last: int) {
    && |ps| > 0 && ps[0].first == first && ps[|ps| - 1].last == last
    && (forall i :: 0 <= i < |ps| ==> ps[i].number == i + 1 && ps[i].first <= ps[i].last)
    && (forall i :: 0 <= i < |ps| - 1 ==> ps[i].last + 1 == ps[i + 1].first)
  }

  function Min(a: int, b: int): int { if a <= b then a else b }

  function Max(a: int, b: int): int { if a <= b then b else a }

  /** The days of [first, last] that lie in calendar month `k`. */
  function MonthPart(number: nat, k: nat, first: int, last: int): Period {
    Period(number, Max(first, MonthStart(k)), Min(last, MonthStart(k + 1) - 1))
  }

  /** Period i is exactly the part of [first, last] in the calendar month `base + i`. */
  ghost predicate OnePerMonth(ps: seq<Period>, base: nat, first: int, last: int) {
    forall i :: 0 <= i < |ps| ==> ps[i] == MonthPart(i + 1, base + i, first, last)
  }

  /** Where a first period starting at `start` stops, the two-digit-year reading included. */
  function FirstStop(start: Date, last: int): int
    requires Valid(start)
  {
    Min(last, MonthStart(UtcNext(MonthIndex(start))) - 1)
  }

  /** A first period ends before the first day of the month after its start, in the year as the date constructor reads
      it, or with the interval. */
  lemma FirstStopIs(start: Date, last: int)
    requires Valid(start)
    ensures var y := if start.year < 100 then 1900 + start.year else start.year;
            FirstStop(start, last)
            == Min(last, if start.month < 12 then DayNumber(Date(y, start.month + 1, 1)) - 1
                         else DaysBeforeYear(y + 1) - 1)
  {
    var y: nat := if start.year < 100 then 1900 + start.year else start.year;
    YearsAreGregorian(y + 1);
    hide MonthStart, DaysBeforeYear;
    assert UtcNext(MonthIndex(start)) == 12 * y + start.month;
    if start.month < 12 { assert MonthIndex(Date(y, start.month + 1, 1)) == 12 * y + start.month; }
  }

  /** Days outside [first, last] belong to no period and every day inside to exactly one. */
  lemma {:induction false} TilesCover(ps: seq<Period>, first: int, last: int, n: int) returns (i: nat)
    requires Tiles(ps, first, last) && first <= n <= last
    ensures i < |ps| && ps[i].first <= n <= ps[i].last
    ensures forall j :: 0 <= j < |ps| && ps[j].first <= n <= ps[j].last ==> j == i
  {
    i := 0;
    while ps[i].last < n
      invariant 0 <= i < |ps| && ps[i].first <= n
      invariant forall j :: 0 <= j < i ==> ps[j].last < n
      decreases |ps| - i
    {
      i := i + 1;
    }
    forall j | i < j < |ps| ensures ps[i].last < ps[j].first { TilesOrdered(ps, first, last, i, j); }
  }

  lemma {:induction false} TilesOrdered(ps: seq<Period>, first: int, last: int, i: nat, j: nat)
    requires Tiles(ps, first, last) && i < j < |ps|
    ensures ps[i].last < ps[j].first
    decreases j - i
  {
    if i + 1 < j { TilesOrdered(ps, first, last, i, j - 1); assert ps[j - 1].last + 1 == ps[j].first; }
    else { assert ps[i].last + 1 == ps[j].first; }
  }

  /** What the loop below has built so far and where its cursor stands: at `start` in the first round,
      then at the first day of month k. */
  ghost predicate Progress(ps: seq<Period>, start: Date, last: int, cursor: int, k: nat)
    requires Valid(start)
  {
    && (ps == [] ==> cursor == DayNumber(start) && k == MonthIndex(start))
    && (ps != [] ==>
      && Tiles(ps, DayNumber(start), Min(last, cursor - 1))
      && cursor == MonthStart(k) && k >= 1200
      && ps[0].last == FirstStop(start, last))
    && (start.year >= 100 ==>
      && k == MonthIndex(start) + |ps|
      && OnePerMonth(ps, MonthIndex(start), DayNumber(start), last))
  }

  /** Periods of an interval: the first one, and the months from the one the date constructor takes for the next. */
  function PeriodCount(start: Date, end: Date): (n: int)
    requires Valid(start) && Valid(end)
    ensures n >= 1
  {
    1 + Max(0, MonthIndex(end) - UtcNext(MonthIndex(start)) + 1)
  }

  /** From year 100 on these are the calendar months touched. */
  lemma MonthsAreCounted(start: Date, end: Date)
    requires Valid(start) && Valid(end) && !Before(end, start) && start.year >= 100
    ensures PeriodCount(start, end) == MonthIndex(end) - MonthIndex(start) + 1
  {
  }

  lemma OneMoreCounted(start: Date, end: Date, n: nat, month: nat)
    requires Valid(start) && Valid(end)
    requires n > 0 ==> month == UtcNext(MonthIndex(start)) + n - 1 && month <= MonthIndex(end) && month >= 1200
    requires n == 0 ==> month == MonthIndex(start)
    ensures n + 1 <= PeriodCount(start, end) && UtcNext(month) == UtcNext(MonthIndex(start)) + n
  {
  }

  lemma AllCounted(start: Date, end: Date, n: nat, month: nat)
    requires Valid(start) && Valid(end) && 0 < n <= PeriodCount(start, end)
    requires month == UtcNext(MonthIndex(start)) + n - 1 && month > MonthIndex(end)
    ensures n == PeriodCount(start, end)
  {
  }

  method MonthlyPeriods(start: Date, end: Date) returns (r: Result<seq<Period>, CalendarError>)
    ensures r == Err(InvalidDates) <==> !Valid(start) || !Valid(end) || Before(end, start)
    ensures r.Ok? ==> |r.value| <= MAX_PERIODS && Tiles(r.value, DayNumber(start), DayNumber(end))
    // From year 100 on there is one period for each calendar month touched, and the limit counts those months.
    ensures r != Err(InvalidDates) && start.year >= 100 ==>
      var months := MonthIndex(end) - MonthIndex(start) + 1;
      && (r.Ok? <==> months <= 13)
      && (r.Ok? ==> |r.value| == months && OnePerMonth(r.value, MonthIndex(start), DayNumber(start), DayNumber(end)))
    // Before it, the first period may run on into the twentieth century, and the months after that are counted.
    ensures r.Ok? ==> r.value[0].last == FirstStop(start, DayNumber(end))
    ensures r != Err(InvalidDates) ==>
      (r.Ok? <==> PeriodCount(start, end) <= MAX_PERIODS) && (r.Ok? ==> |r.value| == PeriodCount(start, end))
  {
    if !Valid(start) || !Valid(end) || Before(end, start) { return Err(InvalidDates); }
    BeforeIsDayOrder(end, start);
    DayInItsMonth(end);
    var startDay, last := DayNumber(start), DayNumber(end);
    NothingYet(start, end);
    hide MonthStart, MonthLength, OnePerMonth, FirstStop, UtcNext, PeriodCount, Progress, Tiles, Valid, DayNumber,
         Before;
    var periods: seq<Period> := [];
    var cursor := startDay;
    var month: nat := MonthIndex(start);  // year and month fields of the cursor
    while cursor <= last
      invariant |periods| <= MAX_PERIODS
      invariant Progress(periods, start, last, cursor, month)
      invariant periods == [] || startDay < cursor
      invariant start.year >= 100 ==> |periods| <= MonthIndex(end) - MonthIndex(start) + 1
      invariant |periods| <= PeriodCount(start, end)
      invariant periods != [] ==> month == UtcNext(MonthIndex(start)) + |periods| - 1
      decreases last - cursor
    {
      if start.year >= 100 { CursorMonth(start, cursor, month, last, MonthIndex(end), periods == []); }
      if periods != [] { MonthOrder(cursor, month, last, MonthIndex(end)); }
      OneMoreCounted(start, end, |periods|, month);
      if |periods| >= MAX_PERIODS { return Err(TooManyPeriods); }
      var next := MonthStart(UtcNext(month));
      CursorAdvances(cursor, month, periods == [], start);
      Extend(periods, start, last, cursor, month);
      periods := periods + [Period(|periods| + 1, cursor, Min(last, next - 1))];
      cursor, month := next, UtcNext(month);
    }
    MonthOrder(cursor, month, last, MonthIndex(end));
    LastReached(periods, start, last, cursor, month);
    AllCounted(start, end, |periods|, month);
    return Ok(periods);
  }

  lemma NothingYet(start: Date, end: Date)
    requires Valid(start) && Valid(end)
    ensures Progress([], start, DayNumber(end), DayNumber(start), MonthIndex(start))
  {
  }

  /** The cursor has passed the last day. */
  lemma LastReached(ps: seq<Period>, start: Date, last: int, cursor: int, k: nat)
    requires Valid(start) && Progress(ps, start, last, cursor, k) && DayNumber(start) <= last < cursor
    ensures ps != [] && Tiles(ps, DayNumber(start), last) && ps[0].last == FirstStop(start, last)
    ensures cursor == MonthStart(k)
    ensures start.year >= 100 ==>
            k == MonthIndex(start) + |ps| && OnePerMonth(ps, MonthIndex(start), DayNumber(start), last)
  {
    hide Tiles, Valid, MonthStart, FirstStop, OnePerMonth, MonthIndex;
  }

  lemma Extend(ps: seq<Period>, start: Date, last: int, cursor: int, k: nat)
    requires Valid(start) && Progress(ps, start, last, cursor, k) && cursor <= last
    requires cursor < MonthStart(UtcNext(k))
    requires ps == [] || DayNumber(start) < cursor
    ensures var next := MonthStart(UtcNext(k));
            Progress(ps + [Period(|ps| + 1, cursor, Min(last, next - 1))], start, last, next, UtcNext(k))
  {
    var next := MonthStart(UtcNext(k));
    var p := Period(|ps| + 1, cursor, Min(last, next - 1));
    hide Valid, DayNumber, MonthStart, MonthLength, MonthIndex, OnePerMonth;
    if ps != [] {
      hide Tiles, FirstStop;
      TilesAppend(ps, p, DayNumber(start), Min(last, cursor - 1));
    }
    if start.year >= 100 {
      CursorInMonth(ps, start, last, cursor, k);
      MonthsAppend(ps, p, MonthIndex(start), DayNumber(start), last);
    }
  }

  lemma CursorInMonth(ps: seq<Period>, start: Date, last: int, cursor: int, k: nat)
    requires Valid(start) && Progress(ps, start, last, cursor, k) && start.year >= 100
    requires ps == [] || DayNumber(start) < cursor
    ensures k >= 1200 && cursor == Max(DayNumber(start), MonthStart(k))
  {
    if ps == [] { DayInItsMonth(start); }
  }

  lemma MonthsAppend(ps: seq<Period>, p: Period, base: nat, first: int, last: int)
    requires OnePerMonth(ps, base, first, last) && p == MonthPart(|ps| + 1, base + |ps|, first, last)
    ensures OnePerMonth(ps + [p], base, first, last)
  {
    hide MonthPart;
  }

  lemma TilesAppend(ps: seq<Period>, p: Period, first: int, last: int)
    requires Tiles(ps, first, last) && p.number == |ps| + 1 && p.first == last + 1 && p.first <= p.last
    ensures Tiles(ps + [p], first, p.last)
  {
    var qs := ps + [p];
    assert forall i :: 0 <= i < |ps| ==> qs[i] == ps[i];
    assert qs[|qs| - 1] == p && qs[0] == ps[0];
  }

  lemma CursorMonth(start: Date, cursor: int, k: nat, last: int, kEnd: nat, firstRound: bool)
    requires Valid(start) && InMonth(last, kEnd) && cursor <= last
    requires if firstRound then k == MonthIndex(start) && cursor == DayNumber(start) else cursor == MonthStart(k)
    ensures k <= kEnd
  {
    if firstRound { DayInItsMonth(start); }
    if kEnd < k { if kEnd + 1 < k { MonthStartGrows(kEnd + 1, k); } }
  }

  lemma CursorAdvances(cursor: int, k: nat, firstRound: bool, start: Date)
    requires Valid(start)
    requires if firstRound then k == MonthIndex(start) && cursor == DayNumber(start) else cursor == MonthStart(k)
    ensures cursor < MonthStart(UtcNext(k))
  {
    if firstRound { DayInItsMonth(start); }
    hide MonthStart;
    MonthStartGrows(k, UtcNext(k));
    if k + 1 < UtcNext(k) { MonthStartGrows(k + 1, UtcNext(k)); }
  }

  lemma {:induction false} MonthOrder(next: int, k: nat, last: int, kEnd: nat)
    requires next == MonthStart(k) && InMonth(last, kEnd)
    ensures next <= last <==> k <= kEnd
  {
    if k < kEnd { MonthStartGrows(k, kEnd); }
    if kEnd + 1 < k { MonthStartGrows(kEnd + 1, k); }
  }

  /** "One period per calendar month" holds exactly when the year has at least three digits or the
      interval stays within one month: earlier, the next month is looked for in the twentieth century. */
  lemma {:induction false} OnePerMonthIff(start: Date, end: Date, ps: seq<Period>)
    requires Valid(start) && Valid(end) && !Before(end, start)
    requires Tiles(ps, DayNumber(start), DayNumber(end)) && ps[0].last == FirstStop(start, DayNumber(end))
    requires start.year >= 100 ==> OnePerMonth(ps, MonthIndex(start), DayNumber(start), DayNumber(end))
    ensures OnePerMonth(ps, MonthIndex(start), DayNumber(start), DayNumber(end))
            <==> start.year >= 100 || MonthIndex(start) == MonthIndex(end)
  {
    var a, b := DayNumber(start), DayNumber(end);
    var base := MonthIndex(start);
    hide MonthStart, MonthLength, UtcNext, DayNumber, FirstStop, Before;
    if start.year < 100 {
      BeforeIsDayOrder(end, start);
      EarlyFirstStop(start, end);
      if base == MonthIndex(end) {
        if |ps| > 1 { TilesOrdered(ps, a, b, 0, |ps| - 1); }
      } else {
        assert ps[0].last != MonthPart(1, base, a, b).last;
      }
    }
  }

  /** Before year 100 the first period stops inside the start month only if the whole interval does. */
  lemma EarlyFirstStop(start: Date, end: Date)
    requires Valid(start) && Valid(end) && DayNumber(start) <= DayNumber(end) && start.year < 100
    ensures var a, b, base := DayNumber(start), DayNumber(end), MonthIndex(start);
            && base <= MonthIndex(end)
            && MonthStart(base) <= a
            && (base == MonthIndex(end) ==> FirstStop(start, b) == b && b < MonthStart(base + 1))
            && (base < MonthIndex(end) ==> MonthStart(base + 1) <= FirstStop(start, b))
  {
    var base, b := MonthIndex(start), DayNumber(end);
    DayInItsMonth(start);
    DayInItsMonth(end);
    MonthStartGrows(base + 1, UtcNext(MonthIndex(start)));
    MonthOrder(MonthStart(base + 1), base + 1, b, MonthIndex(end));
    MonthOrder(MonthStart(base), base, b, MonthIndex(end));
  }

  /** Witness for the failing side: a twelve-month year starting in year 50 gets a single period. */
  lemma {:induction false} EarlyYearIsOnePeriod(ps: seq<Period>)
    requires var start, end := Date(50, 1, 1), Date(50, 12, 31);
             Tiles(ps, DayNumber(start), DayNumber(end)) && ps[0].last == FirstStop(start, DayNumber(end))
    ensures |ps| == 1 && MonthIndex(Date(50, 12, 31)) - MonthIndex(Date(50, 1, 1)) == 11
    ensures PeriodCount(Date(50, 1, 1), Date(50, 12, 31)) == 1
  {
    var start, end := Date(50, 1, 1), Date(50, 12, 31);
    DayInItsMonth(end);
    MonthStartGrows(MonthIndex(end) + 1, UtcNext(600));
    if |ps| > 1 { TilesOrdered(ps, DayNumber(start), DayNumber(end), 0, |ps| - 1); }
  }
}
