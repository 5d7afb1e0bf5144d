/** Safety of the ledger over whole runs: order, immutability, numbering, locks, corrections, opening balances. */
module LedgerSafety {
  import opened Common
  import opened LedgerModel
  import opened LedgerMachine
  import opened LedgerSteps
  import opened Journal
  import Calendar
  import Catalog
  import FiscalYears
  import ImportSteps
  import OpeningBalances
  import Registry
  import SieImport
  import SieParser

  // ---------------------------------------------------------------- every run

  lemma NothingIsInOrder()
    ensures Inv(NOTHING)
  {
  }

  lemma {:induction false} StepKeeps(l: Ledger, s: Step)
    requires Inv(l)
    ensures Kept(l, Do(l, s))
  {
    hide *;
    DoIs(l, s);
    match s {
      case NewYear(name, first, last, periods) => CreateYearKeeps(l, name, first, last, periods);
      case LockPeriod(year, period, lock) => SetPeriodKeeps(l, year, period, lock);
      case CloseYear(year) => CloseKeeps(l, year);
      case NewSeries(year, code, name) => CreateSeriesKeeps(l, year, code, name);
      case EditSeries(id, code, name, active) => UpdateSeriesKeeps(l, id, code, name, active);
      case NewAccount(env, number, name, kind, active, vat) =>
        CreateAccountKeeps(l, env, number, name, kind, active, vat);
      case EditAccount(env, id, change) => UpdateAccountKeeps(l, env, id, change);
      case Provision(installed) => ProvisionKeeps(l, installed);
      case ActivateRows(installed, ids) => ActivationKeeps(l, installed, ids);
      case NewDraft(env, date, series, text, inputs) => CreateDraftKeeps(l, env, date, series, text, inputs);
      case EditDraft(env, id, change) => UpdateDraftKeeps(l, env, id, change);
      case PostDraft(env, id, expected) => PostKeeps(l, Some(env), id, Some(expected));
      case ReverseEntry(id, date, series, text) => ReverseKeeps(l, id, date, series, text);
      case SaveIb(env, year, seen, rows) => SaveKeeps(l, env, year, seen, rows);
      case PreviewCarry(env, source, target, result, actor, now) =>
        PreviewKeeps(l, env, source, target, result, actor, now);
      case ConfirmCarry(env, id, actor, now) => ConfirmKeeps(l, env, id, actor, now);
      case ImportSie(review, year, content) => ImportSteps.ImportKeeps(l, review, year, content);
    }
  }

  lemma DoIs(l: Ledger, s: Step)
    ensures match s
      case NewYear(name, first, last, periods) => Do(l, s) == FiscalYears.CreateYear(l, name, first, last, periods)
      case LockPeriod(year, period, lock) => Do(l, s) == FiscalYears.SetPeriodStatus(l, year, period, lock)
      case CloseYear(year) => Do(l, s) == FiscalYears.Close(l, year)
      case NewSeries(year, code, name) => Do(l, s) == Registry.CreateSeries(l, year, code, name)
      case EditSeries(id, code, name, active) => Do(l, s) == Registry.UpdateSeries(l, id, code, name, active)
      case NewAccount(env, number, name, kind, active, vat) =>
        Do(l, s) == Registry.CreateAccount(l, env, number, name, kind, active, vat)
      case EditAccount(env, id, change) => Do(l, s) == Registry.UpdateAccount(l, env, id, change)
      case Provision(installed) => Do(l, s) == Catalog.Provision(l, installed)
      case ActivateRows(installed, ids) => Do(l, s) == Catalog.Activate(l, installed, ids)
      case NewDraft(env, date, series, text, inputs) =>
        Do(l, s) == Journal.CreateDraft(l, env, date, series, text, inputs)
      case EditDraft(env, id, change) => Do(l, s) == Journal.UpdateDraft(l, env, id, change)
      case PostDraft(env, id, expected) => Do(l, s) == Journal.Post(l, Some(env), id, Some(expected))
      case ReverseEntry(id, date, series, text) => Do(l, s) == Journal.Reverse(l, id, date, series, text)
      case SaveIb(env, year, seen, rows) => Do(l, s) == OpeningBalances.Save(l, env, year, seen, rows)
      case PreviewCarry(env, source, target, result, actor, now) =>
        Do(l, s) == OpeningBalances.Preview(l, env, source, target, result, actor, now)
      case ConfirmCarry(env, id, actor, now) => Do(l, s) == OpeningBalances.Confirm(l, env, id, actor, now)
      case ImportSie(review, year, content) => Do(l, s) == SieImport.Import(l, review, year, SieParser.Parse(content))
  {
  }

  lemma {:induction false} NextKeeps(l: Ledger, s: Step)
    requires Inv(l)
    ensures Inv(Next(l, s)) && Grows(l, Next(l, s))
  {
    hide Inv, Grows, Do;
    StepKeeps(l, s);
    GrowsSame(l);
  }

  /** Every run keeps the ledger in order, removes nothing and changes no posted voucher and no closed year. */
  lemma {:induction false} RunKeeps(l: Ledger, steps: seq<Step>)
    requires Inv(l)
    ensures Inv(Run(l, steps)) && Grows(l, Run(l, steps))
    decreases |steps|
  {
    hide Inv, Grows, Next;
    if |steps| == 0 {
      GrowsSame(l);
    } else {
      var m := Run(l, steps[..|steps| - 1]);
      RunKeeps(l, steps[..|steps| - 1]);
      NextKeeps(m, steps[|steps| - 1]);
      GrowsTwice(l, m, Run(l, steps));
    }
  }

  /** Every state reachable from the empty ledger is in order. */
  lemma {:induction false} ReachableInOrder(steps: seq<Step>)
    ensures Inv(Run(NOTHING, steps))
  {
    hide Inv, Run;
    NothingIsInOrder();
    RunKeeps(NOTHING, steps);
  }

  /** A posted voucher keeps its lines, date, series, number, text and version through every later step. */
  lemma {:induction false} PostedNeverChanges(l: Ledger, steps: seq<Step>, i: nat)
    requires Inv(l) && i < |l.entries| && l.entries[i].posted
    ensures i < |Run(l, steps).entries| && Run(l, steps).entries[i] == l.entries[i]
  {
    hide Inv, Run;
    RunKeeps(l, steps);
    assert EntryGrows(l.entries[i], Run(l, steps).entries[i]);
  }

  // ---------------------------------------------------------------- calendar

  /** A closed year stays as it is, all its periods are locked and it has no draft. */
  lemma {:induction false} ClosedIsFinal(l: Ledger, steps: seq<Step>, y: nat)
    requires Inv(l) && y < |l.years| && l.years[y].closed
    ensures var m := Run(l, steps);
            && y < |m.years| && m.years[y] == l.years[y] && AllLocked(m.years[y]) && !HasDraft(m, y)
  {
    hide Run;
    RunKeeps(l, steps);
    var m := Run(l, steps);
    assert YearGrows(l.years[y], m.years[y]);
    assert YearOk(m.years[y]);
    forall e | e in m.entries && e.year == y ensures e.posted {
      var i :| 0 <= i < |m.entries| && m.entries[i] == e;
    }
  }

  predicate InPeriod(e: Entry, y: nat, p: nat) { e.year == y && e.period == p }

  predicate IsLocked(l: Ledger, y: nat, p: nat)
  {
    y < |l.years| && p < |l.years[y].periods| && l.years[y].periods[p].locked
  }

  /** The vouchers of a period are the same ones, unchanged. */
  predicate SameInPeriod(l: Ledger, m: Ledger, y: nat, p: nat) {
    && |l.entries| <= |m.entries|
    && (forall i :: 0 <= i < |l.entries| && (InPeriod(l.entries[i], y, p) || InPeriod(m.entries[i], y, p)) ==>
       m.entries[i] == l.entries[i])
    && (forall i :: |l.entries| <= i < |m.entries| ==> !InPeriod(m.entries[i], y, p))
  }

  lemma OpenIsNotLocked(l: Ledger, year: nat, period: nat, y: nat, p: nat)
    requires RequireOpen(l, year, Some(period)).None? && IsLocked(l, y, p)
    ensures year != y || period != p
  {
  }

  lemma DraftStaysOut(l: Ledger, env: Registers, date: Calendar.Date, series: nat, text: string, inputs: seq<LineInput>,
        y: nat, p: nat)
    requires IsLocked(l, y, p) && CreateDraft(l, env, date, series, text, inputs).Ok?
    ensures SameInPeriod(l, CreateDraft(l, env, date, series, text, inputs).value, y, p)
  {
    hide PrepareDraft, RequireOpen, IsLocked;
    var d := PrepareDraft(l, env, DayOf(date).value, series, text, inputs).value;
    OpenIsNotLocked(l, d.year, d.period, y, p);
  }

  lemma UpdateStaysOut(l: Ledger, env: Registers, id: nat, c: DraftChange, y: nat, p: nat)
    requires IsLocked(l, y, p) && UpdateDraft(l, env, id, c).Ok?
    ensures SameInPeriod(l, UpdateDraft(l, env, id, c).value, y, p)
  {
    hide PrepareDraft, RequireOpen, IsLocked, TargetYear;
    var d := PreparedChange(l, env, l.entries[id], c).value;
    OpenIsNotLocked(l, d.year, d.period, y, p);
    OpenIsNotLocked(l, l.entries[id].year, l.entries[id].period, y, p);
  }

  lemma PostStaysOut(l: Ledger, env: Option<Registers>, id: nat, expected: Option<int>, y: nat, p: nat)
    requires IsLocked(l, y, p) && Post(l, env, id, expected).Ok?
    ensures SameInPeriod(l, Post(l, env, id, expected).value, y, p)
  {
    hide RequireOpen, IsLocked, ReferenceError, Postable, InCalendar, FrozenLines;
    OpenIsNotLocked(l, l.entries[id].year, l.entries[id].period, y, p);
  }

  lemma {:induction false} ReverseStaysOut(l: Ledger, id: nat, date: Calendar.Date, series: nat, text: Option<string>,
        y: nat, p: nat)
    requires Inv(l) && IsLocked(l, y, p) && Reverse(l, id, date, series, text).Ok?
    ensures SameInPeriod(l, Reverse(l, id, date, series, text).value, y, p)
  {
    hide Inv, RequireOpen, IsLocked, Postable, InCalendar, Resolve, Post, Corrected;
    ReverseAllowed(l, id, date, series, text);
    var day := DayOf(date).value;
    var scope := Resolve(l, day).value;
    ReverseShape(l, Correction(l, id, scope, day, series, text));
    OpenIsNotLocked(l, scope.0, scope.1, y, p);
  }

  lemma {:induction false} VoucherStaysOut(l: Ledger, year: nat, v: SieParser.Voucher, y: nat, p: nat)
    requires year < |l.years| && IsLocked(l, y, p) && SieImport.WithVoucher(l, year, v).Ok?
    ensures SameInPeriod(l, SieImport.WithVoucher(l, year, v).value, y, p)
  {
    hide RequireOpen, IsLocked, SieImport.IsoDay, SieImport.LineDatesError, SieImport.LinesOf;
    var period := SieImport.FindPeriod(l.years[year].periods, SieImport.IsoDay(v.date).value).value;
    OpenIsNotLocked(l, year, period, y, p);
  }

  lemma {:induction false} VouchersStayOut(l: Ledger, year: nat, vs: seq<SieParser.Voucher>, y: nat, p: nat)
    requires year < |l.years| && IsLocked(l, y, p) && SieImport.WithVouchers(l, year, vs).Ok?
    ensures SameInPeriod(l, SieImport.WithVouchers(l, year, vs).value, y, p)
  {
    if |vs| > 0 {
      hide SieImport.WithVoucher, SameInPeriod;
      var m := SieImport.WithVouchers(l, year, vs[..|vs| - 1]).value;
      VouchersStayOut(l, year, vs[..|vs| - 1], y, p);
      VoucherStaysOut(m, year, vs[|vs| - 1], y, p);
      SameTwice(l, m, SieImport.WithVouchers(l, year, vs).value, y, p);
    }
  }

  lemma SameTwice(l: Ledger, m: Ledger, n: Ledger, y: nat, p: nat)
    requires SameInPeriod(l, m, y, p) && SameInPeriod(m, n, y, p)
    ensures SameInPeriod(l, n, y, p)
  {
  }

  lemma {:induction false} ImportStaysOut(l: Ledger, r: SieImport.Review, year: nat, doc: SieParser.Document, y: nat,
        p: nat)
    requires IsLocked(l, y, p) && SieImport.Import(l, r, year, doc).Ok?
    ensures SameInPeriod(l, SieImport.Import(l, r, year, doc).value, y, p)
  {
    hide SieImport.ImportRefusal, SieImport.ActivateAll, SieImport.AddAccounts, SieImport.OpeningRows,
         SieImport.WithVouchers, SameInPeriod;
    ImportNeedsYear(l, r, year, doc);
    var m := SieImport.WithAccounts(l, r, doc);
    var n := SieImport.WithOpenings(m, year, doc).value;
    assert n.entries == l.entries && IsLocked(n, y, p);
    VouchersStayOut(n, year, doc.vouchers, y, p);
    SameEntries(l, n, y, p);
    SameTwice(l, n, SieImport.Import(l, r, year, doc).value, y, p);
  }

  lemma ImportNeedsYear(l: Ledger, r: SieImport.Review, year: nat, doc: SieParser.Document)
    requires SieImport.ImportRefusal(l, r, year, doc).None?
    ensures year < |l.years|
  {
    hide SieImport.HasConflict, SieImport.MatchesYear, SieImport.NeedsActivation;
  }

  lemma SameEntries(l: Ledger, m: Ledger, y: nat, p: nat)
    requires m.entries == l.entries
    ensures SameInPeriod(l, m, y, p)
  {
  }

  /** The steps that leave the vouchers alone. */
  predicate WritesVouchers(s: Step) { s.NewDraft? || s.EditDraft? || s.PostDraft? || s.ReverseEntry? || s.ImportSie? }

  lemma OtherStepsSame(l: Ledger, s: Step)
    requires !WritesVouchers(s) && Do(l, s).Ok?
    ensures Do(l, s).value.entries == l.entries
  {
    hide OpeningBalances.Calculate, OpeningBalances.Validation, OpeningBalances.WriteRefusal, Registry.AccountRefusal,
         RequireOpen, OpeningBalances.ConfirmRefusal, OpeningBalances.PlanOf, Calendar.Tiles, AllLocked, HasDraft;
  }

  /** While a period is locked no step adds, changes, moves in or moves out a voucher of it. */
  lemma {:induction false} LockedPeriodIsFrozen(l: Ledger, s: Step, y: nat, p: nat)
    requires Inv(l) && IsLocked(l, y, p)
    ensures SameInPeriod(l, Next(l, s), y, p)
  {
    hide Inv, IsLocked, SameInPeriod, Do, Journal.Post, Journal.Reverse, Journal.CreateDraft, Journal.UpdateDraft,
         SieImport.Import, SieParser.Parse;
    SameEntries(l, l, y, p);
    DoIs(l, s);
    if Do(l, s).Ok? {
      match s {
        case NewDraft(env, date, series, text, inputs) => DraftStaysOut(l, env, date, series, text, inputs, y, p);
        case EditDraft(env, id, change) => UpdateStaysOut(l, env, id, change, y, p);
        case PostDraft(env, id, expected) => PostStaysOut(l, Some(env), id, Some(expected), y, p);
        case ReverseEntry(id, date, series, text) => ReverseStaysOut(l, id, date, series, text, y, p);
        case ImportSie(review, year, content) => ImportStaysOut(l, review, year, SieParser.Parse(content), y, p);
        case _ => OtherStepsSame(l, s); SameEntries(l, Do(l, s).value, y, p);
      }
    }
  }

  /** Over a whole run in which the period stays locked. */
  lemma {:induction false} LockedPeriodStaysFrozen(l: Ledger, steps: seq<Step>, y: nat, p: nat)
    requires Inv(l) && forall k :: 0 <= k <= |steps| ==> IsLocked(Run(l, steps[..k]), y, p)
    ensures SameInPeriod(l, Run(l, steps), y, p)
    decreases |steps|
  {
    hide Inv, IsLocked, SameInPeriod, Next;
    if |steps| == 0 {
      SameEntries(l, l, y, p);
    } else {
      var front := steps[..|steps| - 1];
      forall k | 0 <= k <= |front| ensures IsLocked(Run(l, front[..k]), y, p) { assert front[..k] == steps[..k]; }
      LockedPeriodStaysFrozen(l, front, y, p);
      RunKeeps(l, front);
      assert steps[..|front|] == front && IsLocked(Run(l, steps[..|front|]), y, p);
      LockedPeriodIsFrozen(Run(l, front), steps[|front|], y, p);
      SameTwice(l, Run(l, front), Run(l, steps), y, p);
    }
  }

  // ---------------------------------------------------------------- calendar look-up

  lemma {:induction false} OneYearOnly(years: seq<Year>, day: int, y: nat)
    requires YearsApart(years) && y < |years| && Holds(years[y].first, years[y].last, day)
    ensures YearsWith(years, day) == [y]
  {
    var n := |years| - 1;
    if y == n {
      NoYear(years[..n], day, years[n]);
    } else {
      OneYearOnly(years[..n], day, y);
      assert !FiscalYears.Overlaps(years[y], years[n].first, years[n].last);
    }
  }

  lemma {:induction false} NoYear(years: seq<Year>, day: int, other: Year)
    requires Holds(other.first, other.last, day)
    requires forall i :: 0 <= i < |years| ==> !FiscalYears.Overlaps(years[i], other.first, other.last)
    ensures YearsWith(years, day) == []
  {
    if |years| > 0 { NoYear(years[..|years| - 1], day, other); }
  }

  lemma {:induction false} NoPeriod(periods: seq<Period>, day: int)
    requires forall i :: 0 <= i < |periods| ==> !Holds(periods[i].first, periods[i].last, day)
    ensures PeriodsWith(periods, day) == []
  {
    if |periods| > 0 { NoPeriod(periods[..|periods| - 1], day); }
  }

  lemma {:induction false} PeriodsOrdered(y: Year, p: nat, q: nat)
    requires YearOk(y) && p < q < |y.periods|
    ensures y.periods[p].last < y.periods[q].first
    decreases q - p
  {
    assert y.periods[q - 1].last + 1 == y.periods[q].first;
    if p < q - 1 { PeriodsOrdered(y, p, q - 1); }
  }

  lemma {:induction false} SomePeriod(y: Year, day: int, n: nat) returns (p: nat)
    requires YearOk(y) && y.first <= day && n < |y.periods| && day <= y.periods[n].last
    ensures p < |y.periods| && Holds(y.periods[p].first, y.periods[p].last, day)
  {
    if n == 0 || y.periods[n].first <= day { p := n; }
    else {
      assert y.periods[n - 1].last + 1 == y.periods[n].first;
      p := SomePeriod(y, day, n - 1);
    }
  }

  lemma {:induction false} OnePeriodOnly(periods: seq<Period>, day: int, p: nat)
    requires forall i, j :: 0 <= i < j < |periods| ==> periods[i].last < periods[j].first
    requires p < |periods| && Holds(periods[p].first, periods[p].last, day)
    ensures PeriodsWith(periods, day) == [p]
  {
    var n := |periods| - 1;
    if p == n {
      NoPeriod(periods[..n], day);
    } else {
      OnePeriodOnly(periods[..n], day, p);
      assert periods[p].last < periods[n].first;
    }
  }

  /** Every day covered by some year belongs to exactly that year and to exactly one of its periods. */
  lemma ResolveFindsTheDay(l: Ledger, day: int, y: nat)
    requires Inv(l) && y < |l.years| && Holds(l.years[y].first, l.years[y].last, day)
    ensures Resolve(l, day).Ok? && Resolve(l, day).value.0 == y
    ensures forall p ::
            0 <= p < |l.years[y].periods| && Holds(l.years[y].periods[p].first, l.years[y].periods[p].last, day) ==>
              Resolve(l, day).value.1 == p
  {
    OneYearOnly(l.years, day, y);
    var year := l.years[y];
    assert YearOk(year);
    var p := SomePeriod(year, day, |year.periods| - 1);
    forall i, j | 0 <= i < j < |year.periods| ensures year.periods[i].last < year.periods[j].first {
      PeriodsOrdered(year, i, j);
    }
    OnePeriodOnly(year.periods, day, p);
    hide YearsWith, PeriodsWith, YearOk, Inv;
    forall q | 0 <= q < |year.periods| && Holds(year.periods[q].first, year.periods[q].last, day) ensures q == p {
      assert q in PeriodsWith(year.periods, day);
    }
  }

  // ---------------------------------------------------------------- numbering

  /** A posted voucher has a number from 1 up to the counter of its series. */
  lemma {:induction false} NumbersAreBelowCounter(steps: seq<Step>, i: nat)
    requires i < |Run(NOTHING, steps).entries| && Run(NOTHING, steps).entries[i].posted
    ensures var l := Run(NOTHING, steps);
            && l.entries[i].number.Some? && l.entries[i].series < |l.series|
            && 1 <= l.entries[i].number.value < l.series[l.entries[i].series].next
  {
    hide Run;
    ReachableInOrder(steps);
    assert EntryOk(Run(NOTHING, steps), Run(NOTHING, steps).entries[i]);
  }

  /** Posted numbers of a series lie below its counter and never repeat. */
  lemma {:induction false} NumbersAreUnique(steps: seq<Step>, i: nat, j: nat)
    requires var l := Run(NOTHING, steps);
             i < j < |l.entries| && l.entries[i].posted && l.entries[j].posted
               && l.entries[i].series == l.entries[j].series
    ensures var l := Run(NOTHING, steps);
            && l.entries[i].number.Some? && l.entries[j].number.Some? && l.entries[i].number != l.entries[j].number
            && l.entries[i].series < |l.series|
            && 1 <= l.entries[i].number.value < l.series[l.entries[i].series].next
            && 1 <= l.entries[j].number.value < l.series[l.entries[i].series].next
  {
    hide Run;
    ReachableInOrder(steps);
    var l := Run(NOTHING, steps);
    assert EntryOk(l, l.entries[i]) && EntryOk(l, l.entries[j]);
    assert !SameNumber(l.entries[i], l.entries[j]);
  }

  predicate Uses(l: Ledger, s: nat, n: int)
  {
    exists i :: 0 <= i < |l.entries| && l.entries[i].posted && l.entries[i].series == s
      && l.entries[i].number == Some(n)
  }

  /** Every number below a counter is posted. */
  predicate Gapless(l: Ledger) { forall s, n :: 0 <= s < |l.series| && 1 <= n < l.series[s].next ==> Uses(l, s, n) }

  lemma UsesStays(l: Ledger, m: Ledger, s: nat, n: int)
    requires Grows(l, m) && Uses(l, s, n)
    ensures Uses(m, s, n)
  {
    var i :| 0 <= i < |l.entries| && l.entries[i].posted && l.entries[i].series == s && l.entries[i].number == Some(n);
    assert EntryGrows(l.entries[i], m.entries[i]);
  }

  lemma SameCountersGapless(l: Ledger, m: Ledger)
    requires Gapless(l) && Grows(l, m)
    requires forall s :: 0 <= s < |m.series| ==> m.series[s].next == if s < |l.series| then l.series[s].next else 1
    ensures Gapless(m)
  {
    forall s, n | 0 <= s < |m.series| && 1 <= n < m.series[s].next ensures Uses(m, s, n) {
      assert Uses(l, s, n);
      UsesStays(l, m, s, n);
    }
  }

  lemma OneMoreGapless(l: Ledger, m: Ledger, s: nat, i: nat)
    requires Gapless(l) && Grows(l, m) && s < |l.series|
    requires m.series == l.series[s := l.series[s].(next := l.series[s].next + 1)]
    requires i < |m.entries| && m.entries[i].posted && m.entries[i].series == s
    requires m.entries[i].number == Some(l.series[s].next)
    ensures Gapless(m)
  {
    forall t, n | 0 <= t < |m.series| && 1 <= n < m.series[t].next ensures Uses(m, t, n) {
      if t != s || n < l.series[s].next {
        assert Uses(l, t, n);
        UsesStays(l, m, t, n);
      }
    }
  }

  predicate Allocates(s: Step) { s.PostDraft? || s.ReverseEntry? || s.ImportSie? }

  lemma OtherCounters(l: Ledger, s: Step)
    requires !Allocates(s) && Do(l, s).Ok?
    ensures var m := Do(l, s).value;
            forall t :: 0 <= t < |m.series| ==> m.series[t].next == if t < |l.series| then l.series[t].next else 1
  {
    hide OpeningBalances.Calculate, OpeningBalances.Validation, OpeningBalances.WriteRefusal, Registry.AccountRefusal,
         RequireOpen, OpeningBalances.ConfirmRefusal, OpeningBalances.PlanOf, Calendar.Tiles, AllLocked, HasDraft,
         Journal.PrepareDraft, Journal.ChangeRefusal, SeriesPosted, Registry.HasSeries;
  }

  lemma PostIsGapless(l: Ledger, env: Option<Registers>, id: nat, expected: Option<int>)
    requires Inv(l) && Gapless(l) && Post(l, env, id, expected).Ok?
    ensures Gapless(Post(l, env, id, expected).value)
  {
    hide Inv, Grows, Gapless, PostRefusal, FrozenLines;
    PostKeeps(l, env, id, expected);
    PostAllowed(l, env, id, expected);
    OneMoreGapless(l, Post(l, env, id, expected).value, l.entries[id].series, id);
  }

  lemma {:induction false} ReverseIsGapless(l: Ledger, id: nat, date: Calendar.Date, series: nat, text: Option<string>)
    requires Inv(l) && Gapless(l) && Reverse(l, id, date, series, text).Ok?
    ensures Gapless(Reverse(l, id, date, series, text).value)
  {
    hide Inv, Grows, Gapless, ReverseRefusal, Post, Resolve, Postable, Corrected;
    ReverseKeeps(l, id, date, series, text);
    ReverseAllowed(l, id, date, series, text);
    ReverseShape(l, Correction(l, id, Resolve(l, DayOf(date).value).value, DayOf(date).value, series, text));
    OneMoreGapless(l, Reverse(l, id, date, series, text).value, series, |l.entries|);
  }

  lemma {:induction false} StepIsGapless(l: Ledger, s: Step)
    requires Inv(l) && Gapless(l) && !s.ImportSie?
    ensures Gapless(Next(l, s))
  {
    hide Inv, Grows, Gapless, Do, Journal.Post, Journal.Reverse;
    DoIs(l, s);
    if Do(l, s).Ok? {
      if s.PostDraft? {
        PostIsGapless(l, Some(s.env), s.id, Some(s.expected));
      } else if s.ReverseEntry? {
        ReverseIsGapless(l, s.id, s.date, s.series, s.reason);
      } else {
        StepKeeps(l, s);
        OtherCounters(l, s);
        SameCountersGapless(l, Do(l, s).value);
      }
    }
  }

  lemma {:induction false} RunIsGapless(l: Ledger, steps: seq<Step>)
    requires Inv(l) && Gapless(l) && forall s :: s in steps ==> !s.ImportSie?
    ensures Gapless(Run(l, steps))
    decreases |steps|
  {
    hide Inv, Gapless, Next;
    if |steps| > 0 {
      RunIsGapless(l, steps[..|steps| - 1]);
      RunKeeps(l, steps[..|steps| - 1]);
      StepIsGapless(Run(l, steps[..|steps| - 1]), steps[|steps| - 1]);
    }
  }

  /** Without imports the posted numbers of a series are exactly 1 up to its counter, in spite of every
      refused or failed request. */
  lemma {:induction false} NumbersHaveNoGaps(steps: seq<Step>, s: nat, n: int)
    requires (forall x :: x in steps ==> !x.ImportSie?) && s < |Run(NOTHING, steps).series|
    ensures Uses(Run(NOTHING, steps), s, n) <==> 1 <= n < Run(NOTHING, steps).series[s].next
  {
    hide Run;
    ReachableInOrder(steps);
    NothingIsInOrder();
    RunIsGapless(NOTHING, steps);
    var l := Run(NOTHING, steps);
    if Uses(l, s, n) {
      var i :| 0 <= i < |l.entries| && l.entries[i].posted && l.entries[i].series == s
        && l.entries[i].number == Some(n);
      assert EntryOk(l, l.entries[i]);
    }
  }

  // ---------------------------------------------------------------- versions

  /** The step writes draft `id` under an expected version. */
  predicate WritesUnder(s: Step, id: nat, version: int) {
    || (s.EditDraft? && s.id == id && s.draftChange.expected == version)
    || (s.PostDraft? && s.id == id && s.expected == version)
  }

  lemma {:induction false} WriteRaisesVersion(l: Ledger, s: Step, id: nat, version: int)
    requires WritesUnder(s, id, version) && Do(l, s).Ok?
    ensures id < |l.entries| && l.entries[id].version == version
    ensures id < |Do(l, s).value.entries| && Do(l, s).value.entries[id].version == version + 1
  {
    hide RequireOpen, PrepareDraft, ReferenceError, Postable, InCalendar, FrozenLines, TargetYear;
    DoIs(l, s);
  }

  /** Two writers that saw the same version never both commit, whatever happens between them. */
  lemma {:induction false} NoLostUpdate(l: Ledger, first: Step, between: seq<Step>, second: Step, id: nat, version: int)
    requires Inv(l) && WritesUnder(first, id, version) && WritesUnder(second, id, version) && Do(l, first).Ok?
    ensures Do(Run(Next(l, first), between), second).Err?
  {
    hide Inv, Do, Run;
    WriteRaisesVersion(l, first, id, version);
    NextKeeps(l, first);
    var m := Next(l, first);
    RunKeeps(m, between);
    var n := Run(m, between);
    assert EntryGrows(m.entries[id], n.entries[id]);
    if Do(n, second).Ok? { WriteRaisesVersion(n, second, id, version); }
  }

  // ---------------------------------------------------------------- corrections and totals

  /** Lines chosen by account, project, cost centre and VAT code; an absent choice takes every line. */
  datatype Choice = Choice(account: Option<nat>, project: Option<Option<string>>, centre: Option<Option<string>>,
    vatCode: Option<Option<string>>)

  predicate Chosen(c: Choice, x: Line) {
    && (c.account.Some? ==> x.account == c.account.value) && (c.project.Some? ==> x.project == c.project.value)
    && (c.centre.Some? ==> x.centre == c.centre.value) && (c.vatCode.Some? ==> x.vatCode == c.vatCode.value)
  }

  function NetChosen(c: Choice): Line -> int { (x: Line) => if Chosen(c, x) then x.debit - x.credit else 0 }

  lemma {:induction false} MirrorNegates(xs: seq<Line>, c: Choice)
    ensures SumOf(Map(xs, Mirror()), NetChosen(c)) == -SumOf(xs, NetChosen(c))
  {
    if |xs| > 0 {
      var n := |xs| - 1;
      assert Map(xs, Mirror())[..n] == Map(xs[..n], Mirror());
      MirrorNegates(xs[..n], c);
      assert Chosen(c, Mirror()(xs[n])) == Chosen(c, xs[n]);
    }
  }

  lemma OneCorrection(entries: seq<Entry>, i: nat, j: nat)
    requires EntriesApart(entries) && i < |entries| && j < |entries| && entries[i].reverses.Some?
    requires entries[j].reverses == entries[i].reverses
    ensures i == j
  {
  }

  /** A voucher and its correction net to zero for every account, project, cost centre and VAT code; the
      corrected voucher is posted, is no correction itself, and has no other correction. */
  lemma {:induction false} CorrectionNetsToZero(steps: seq<Step>, i: nat, c: Choice)
    requires var l := Run(NOTHING, steps); i < |l.entries| && l.entries[i].reverses.Some?
    ensures var l := Run(NOTHING, steps);
            && l.entries[i].posted && l.entries[i].reverses.value < |l.entries|
            && var o := l.entries[l.entries[i].reverses.value];
               && o.posted && o.reverses.None?
               && SumOf(o.lines, NetChosen(c)) + SumOf(l.entries[i].lines, NetChosen(c)) == 0
               && forall j :: 0 <= j < |l.entries| && l.entries[j].reverses == l.entries[i].reverses ==> j == i
  {
    hide Run;
    ReachableInOrder(steps);
    var l := Run(NOTHING, steps);
    assert EntryOk(l, l.entries[i]);
    MirrorNegates(l.entries[l.entries[i].reverses.value].lines, c);
    hide EntryOk, YearsOk, SeriesOk, AccountsOk, CarriesOk;
    forall j | 0 <= j < |l.entries| && l.entries[j].reverses == l.entries[i].reverses ensures j == i {
      OneCorrection(l.entries, i, j);
    }
  }

  function PostedSide(side: Line -> int): Entry -> int { (e: Entry) => if e.posted then SumOf(e.lines, side) else 0 }

  /** Total posted debit equals total posted credit in every reachable state. */
  lemma {:induction false} BooksBalance(steps: seq<Step>)
    ensures SumOf(Run(NOTHING, steps).entries, PostedSide(DebitOf()))
            == SumOf(Run(NOTHING, steps).entries, PostedSide(CreditOf()))
  {
    hide Run;
    ReachableInOrder(steps);
    var l := Run(NOTHING, steps);
    forall e | e in l.entries ensures PostedSide(DebitOf())(e) == PostedSide(CreditOf())(e) {
      var i :| 0 <= i < |l.entries| && l.entries[i] == e;
      assert EntryOk(l, e);
    }
    hide Inv;
    SumExt(l.entries, PostedSide(DebitOf()), PostedSide(CreditOf()));
  }
}
