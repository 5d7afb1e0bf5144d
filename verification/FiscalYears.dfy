/** Fiscal years: creation with monthly periods, period locks, closing. */
module FiscalYears {
  import opened Common
  import opened LedgerModel
  import opened SieLines
  import Calendar

  function OpenPeriod(): Calendar.Period -> Period { (p: Calendar.Period) => Period(p.first, p.last, false) }

  predicate Overlaps(y: Year, first: int, last: int) { y.first <= last && y.last >= first }

  /** `periods` are the monthly periods of [first, last]. */
  function CreateYear(l: Ledger, name: string, first: int, last: int, periods: seq<Calendar.Period>): Outcome {
    if !Calendar.Tiles(periods, first, last) then Err(InvalidYear)
    else if Trim(name) == "" then Err(BlankText)
    else if exists y :: y in l.years && Overlaps(y, first, last) then Err(YearsOverlap)
    else Ok(l.(years := l.years + [Year(first, last, false, Map(periods, OpenPeriod()), [], 0)]))
  }

  function SetPeriodStatus(l: Ledger, year: nat, period: nat, lock: bool): Outcome {
    if year >= |l.years| || period >= |l.years[year].periods| then Err(NotFound)
    else if RequireOpen(l, year, None).Some? then Err(RequireOpen(l, year, None).value)
    else
      var y := l.years[year];
      Ok(WithYear(l, year, y.(periods := y.periods[period := y.periods[period].(locked := lock)])))
  }

  function Close(l: Ledger, year: nat): Outcome {
    if RequireOpen(l, year, None).Some? then Err(RequireOpen(l, year, None).value)
    else if l.years[year].periods == [] || !AllLocked(l.years[year]) then Err(NotAllLocked)
    else if HasDraft(l, year) then Err(DraftsRemain)
    else Ok(WithYear(l, year, l.years[year].(closed := true)))
  }

  method Create(db: Store, name: string, start: Calendar.Date, end: Calendar.Date)
    returns (error: Option<Error>, ghost periods: seq<Calendar.Period>)
    modifies db
    ensures error != Some(InvalidYear) ==> Calendar.Valid(start) && Calendar.Valid(end)
    ensures error != Some(InvalidYear) ==>
      CreateYear(old(db.State()), name, Calendar.DayNumber(start), Calendar.DayNumber(end), periods)
      == if error.None? then Ok(db.State()) else Err(error.value)
    ensures error.Some? ==> db.State() == old(db.State())
    ensures error == Some(InvalidYear) <==>
      !Calendar.Valid(start) || !Calendar.Valid(end) || Calendar.Before(end, start)
      || Calendar.PeriodCount(start, end) > Calendar.MAX_PERIODS
    // From year 100 on the periods are the calendar months of the year.
    ensures error.None? && start.year >= 100 ==>
      Calendar.OnePerMonth(periods, Calendar.MonthIndex(start), Calendar.DayNumber(start), Calendar.DayNumber(end))
  {
    var monthly := Calendar.MonthlyPeriods(start, end);
    periods := [];
    hide Calendar.Valid, Calendar.Before, Calendar.DayNumber, Calendar.MonthIndex, Calendar.OnePerMonth,
         Calendar.PeriodCount;
    if monthly.Err? { return Some(InvalidYear), periods; }
    periods := monthly.value;
    if Trim(name) == "" { return Some(BlankText), periods; }
    var first, last := Calendar.DayNumber(start), Calendar.DayNumber(end);
    if exists y :: y in db.years && Overlaps(y, first, last) { return Some(YearsOverlap), periods; }
    db.years := db.years + [Year(first, last, false, Map(monthly.value, OpenPeriod()), [], 0)];
    return None, periods;
  }

  method ChangePeriodStatus(db: Store, year: nat, period: nat, lock: bool) returns (error: Option<Error>)
    modifies db
    ensures SetPeriodStatus(old(db.State()), year, period, lock)
            == if error.None? then Ok(db.State()) else Err(error.value)
    ensures error.Some? ==> db.State() == old(db.State())
  {
    if year >= |db.years| || period >= |db.years[year].periods| { return Some(NotFound); }
    var closed := CheckOpen(db, year, None);
    if closed.Some? { return closed; }
    var y := db.years[year];
    if y.periods[period].locked == lock {
      assert y.periods[period := y.periods[period].(locked := lock)] == y.periods;
      assert db.years[year := y] == db.years;
      return None;
    }
    db.years := db.years[year := y.(periods := y.periods[period := y.periods[period].(locked := lock)])];
    return None;
  }

  method CloseYear(db: Store, year: nat) returns (error: Option<Error>)
    modifies db
    ensures Close(old(db.State()), year) == if error.None? then Ok(db.State()) else Err(error.value)
    ensures error.Some? ==> db.State() == old(db.State())
  {
    var closed := CheckOpen(db, year, None);
    if closed.Some? { return closed; }
    if db.years[year].periods == [] || exists p :: p in db.years[year].periods && !p.locked {
      return Some(NotAllLocked);
    }
    if exists e :: e in db.entries && e.year == year && !e.posted { return Some(DraftsRemain); }
    db.years := db.years[year := db.years[year].(closed := true)];
    return None;
  }
}
