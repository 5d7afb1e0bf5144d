/** A case: opening balances are imported from a file into a year that is locked. */
module LockedCase {
  import opened Common
  import opened LedgerModel
  import opened LedgerMachine
  import AccountingData
  import Calendar
  import FiscalYears
  import LedgerSafety
  import OpeningBalances
  import OpeningsFile
  import Registry
  import SieImport
  import SieLines
  import SieParser
  import SieText

  // ---------------------------------------------------------------- the ledger

  const FIRST := Calendar.Date(2026, 1, 1)
  const LAST := Calendar.Date(2026, 1, 31)

  /** Every account is eligible; there are no codes. */
  function Env(): Registers { Registers((a: Account) => true, {}, {}, {}, map[]) }

  /** The fiscal year January 2026, two accounts, and its only period locked. */
  function Setup(): seq<Step> {
    var first, last := Calendar.DayNumber(FIRST), Calendar.DayNumber(LAST);
    [NewYear("2026", first, last, [Calendar.Period(1, first, last)]),
     NewAccount(Env(), "1910", "Kassa", Asset, true, None),
     NewAccount(Env(), "2010", "Eget kapital", Equity, true, None),
     LockPeriod(0, 0, true)]
  }

  /** A year with a cash and an equity account whose first period is locked. */
  function LockedLedger(start: int, end: int): Ledger {
    Ledger([Year(start, end, false, [Period(start, end, true)], [], 0)],
           [Account("1910", "Kassa", Asset, true, false, None),
             Account("2010", "Eget kapital", Equity, true, false, None)], [], [], [])
  }

  lemma RunSnoc(l: Ledger, steps: seq<Step>, s: Step)
    ensures Run(l, steps + [s]) == Next(Run(l, steps), s)
  {
    assert (steps + [s])[..|steps|] == steps;
  }

  function YearStep(first: int, last: int): Step { NewYear("2026", first, last, [Calendar.Period(1, first, last)]) }

  /** The ledger of the case before the accounts are added and the period is locked. */
  function YearOnly(first: int, last: int): Ledger {
    NOTHING.(years := [Year(first, last, false, [Period(first, last, false)], [], 0)])
  }

  lemma YearAdded(first: int, last: int)
    requires first <= last
    ensures Next(NOTHING, YearStep(first, last)) == YearOnly(first, last)
  {
    assert SieLines.Trim("2026") != "";
    LedgerSafety.DoIs(NOTHING, YearStep(first, last));
    hide Do, SieLines.Trim;
    var periods := [Calendar.Period(1, first, last)];
    assert Map(periods, FiscalYears.OpenPeriod()) == [Period(first, last, false)];
  }

  lemma AccountAdded(l: Ledger, number: string, name: string, kind: Kind)
    requires forall a :: a in l.accounts ==> a.number != number
    ensures Next(l, NewAccount(Env(), number, name, kind, true, None))
            == l.(accounts := l.accounts + [Account(number, name, kind, true, false, None)])
  {
    LedgerSafety.DoIs(l, NewAccount(Env(), number, name, kind, true, None));
    hide Do;
    assert Env().eligible(Account(number, name, kind, true, false, None));
    assert Registry.CreateAccount(l, Env(), number, name, kind, true, None)
           == Ok(l.(accounts := l.accounts + [Account(number, name, kind, true, false, None)]));
  }

  lemma PeriodLocked(l: Ledger, p: Period)
    requires |l.years| == 1 && !l.years[0].closed && l.years[0].periods == [p]
    ensures Next(l, LockPeriod(0, 0, true)) == l.(years := [l.years[0].(periods := [p.(locked := true)])])
  {
    LedgerSafety.DoIs(l, LockPeriod(0, 0, true));
    hide Do;
    var y := l.years[0].(periods := [p.(locked := true)]);
    assert l.years[0].periods[0 := p.(locked := true)] == y.periods && l.years[0 := y] == [y];
  }

  lemma January()
    ensures Calendar.DayNumber(LAST) == Calendar.DayNumber(FIRST) + 30
    ensures Calendar.MonthIndex(LAST) == Calendar.MonthIndex(FIRST) && Calendar.Valid(FIRST) && Calendar.Valid(LAST)
  {
    hide Calendar.MonthStart;
  }

  lemma SetupParts(first: int, last: int)
    requires first <= last
    ensures var none: seq<Step> := [];
            var l := Run(NOTHING, none + [YearStep(first, last)]
                                                + [NewAccount(Env(), "1910", "Kassa", Asset, true, None)]
                                                + [NewAccount(Env(), "2010", "Eget kapital", Equity, true, None)]
                                                + [LockPeriod(0, 0, true)]);
            l == LockedLedger(first, last)
  {
    var none: seq<Step> := [];
    var a, b := NewAccount(Env(), "1910", "Kassa", Asset, true, None),
      NewAccount(Env(), "2010", "Eget kapital", Equity, true, None);
    hide Next, Run;
    var y := YearOnly(first, last);
    NothingRun(NOTHING);
    RunSnoc(NOTHING, none, YearStep(first, last));
    RunSnoc(NOTHING, none + [YearStep(first, last)], a);
    RunSnoc(NOTHING, none + [YearStep(first, last)] + [a], b);
    RunSnoc(NOTHING, none + [YearStep(first, last)] + [a] + [b], LockPeriod(0, 0, true));
    YearAdded(first, last);
    AccountAdded(y, "1910", "Kassa", Asset);
    var z := y.(accounts := y.accounts + [Account("1910", "Kassa", Asset, true, false, None)]);
    AccountAdded(z, "2010", "Eget kapital", Equity);
    PeriodLocked(z.(accounts := z.accounts + [Account("2010", "Eget kapital", Equity, true, false, None)]),
      Period(first, last, false));
  }

  lemma NothingRun(l: Ledger)
    ensures Run(l, []) == l
  {
  }

  /** The setup leads to that ledger; its one period is the calendar month. */
  lemma SetupLeadsThere()
    ensures Run(NOTHING, Setup()) == LockedLedger(Calendar.DayNumber(FIRST), Calendar.DayNumber(LAST))
    ensures Calendar.OnePerMonth([Calendar.Period(1, Calendar.DayNumber(FIRST), Calendar.DayNumber(LAST))],
                                 Calendar.MonthIndex(FIRST), Calendar.DayNumber(FIRST), Calendar.DayNumber(LAST))
  {
    hide Run, Calendar.DayNumber, LockedLedger;
    January();
    var first, last := Calendar.DayNumber(FIRST), Calendar.DayNumber(LAST);
    SetupParts(first, last);
    OneMonth();
    var none: seq<Step> := [];
    assert Setup() == none + [YearStep(first, last)] + [NewAccount(Env(), "1910", "Kassa", Asset, true, None)]
                      + [NewAccount(Env(), "2010", "Eget kapital", Equity, true, None)] + [LockPeriod(0, 0, true)];
  }

  lemma OneMonth()
    ensures Calendar.OnePerMonth([Calendar.Period(1, Calendar.DayNumber(FIRST), Calendar.DayNumber(LAST))],
                                 Calendar.MonthIndex(FIRST), Calendar.DayNumber(FIRST), Calendar.DayNumber(LAST))
  {
    January();
    Calendar.DayInItsMonth(FIRST);
    Calendar.DayInItsMonth(LAST);
    hide Calendar.DayNumber, Calendar.MonthStart;
  }

  lemma NoVouchersLeft(l: Ledger, doc: SieParser.Document)
    requires |l.years| > 0 && doc.vouchers == []
    ensures SieImport.WithVouchers(l, 0, doc.vouchers) == Ok(l)
  {
  }

  lemma {:induction false} Accepted(l: Ledger, r: SieImport.Review, doc: SieParser.Document)
    requires |l.years| == 1 && l.years[0].ib == [] && !l.years[0].closed && l.entries == [] && r.catalog == map[]
    requires !r.objectConflict
    requires l.accounts == LockedLedger(0, 0).accounts && doc.errors == []
    requires doc.fiscalYear.Some? && SieImport.MatchesYear(l.years[0], doc.fiscalYear.value)
    requires doc.accounts == [] && doc.vouchers == [] && |doc.openings| == 2 && doc.openings[0].account == "1910"
    requires doc.openings[1].account == "2010"
    ensures SieImport.ImportRefusal(l, r, 0, doc).None?
  {
    hide SieImport.HasConflict, SieImport.NeedsActivation, SieImport.Numbers, SieImport.MatchesYear;
    NoConflict(l, r, doc);
  }

  lemma NoConflict(l: Ledger, r: SieImport.Review, doc: SieParser.Document)
    requires |l.years| == 1 && l.years[0].ib == [] && l.entries == [] && r.catalog == map[] && !r.objectConflict
    requires l.accounts == LockedLedger(0, 0).accounts
    requires doc.accounts == [] && doc.vouchers == [] && |doc.openings| == 2 && doc.openings[0].account == "1910"
    requires doc.openings[1].account == "2010"
    ensures !SieImport.HasConflict(l, r, 0, doc)
    ensures forall n :: n in SieImport.Numbers(doc) ==> !SieImport.NeedsActivation(l, r, doc, n)
  {
    var ns := SieImport.Numbers(doc);
    assert SieParser.AllLines(doc.vouchers) == [];
    assert ns == ["1910", "2010"];
    assert l.accounts[..1] == [l.accounts[0]];
    assert FindAccount(l.accounts, "2010") == Some(1) && FindAccount(l.accounts, "1910") == Some(0);
    hide SieImport.Numbers, SieImport.Uses, FindAccount;
  }

  lemma {:induction false} NothingActivated(l: Ledger, r: SieImport.Review, doc: SieParser.Document,
        numbers: seq<string>)
    requires r.catalog == map[]
    ensures SieImport.ActivateAll(l, r, doc, numbers) == l.accounts
  {
    if |numbers| > 0 { NothingActivated(l, r, doc, numbers[..|numbers| - 1]); }
  }

  lemma SameAccounts(l: Ledger, r: SieImport.Review, doc: SieParser.Document)
    requires r.catalog == map[] && doc.accounts == []
    ensures SieImport.WithAccounts(l, r, doc) == l
  {
    NothingActivated(l, r, doc, SieImport.Numbers(doc));
  }

  lemma {:induction false} OpeningsRead(l: Ledger, doc: SieParser.Document)
    requires l.accounts == LockedLedger(0, 0).accounts && doc.openings == OpeningsFile.READ.openings
    ensures SieImport.OpeningRows(l, doc.openings) == Ok([IbRow(0, 10000, 0), IbRow(1, 0, 10000)])
  {
    hide SieParser.CentsOf;
    OpeningsFile.ReadCents();
    assert l.accounts[..1] == [l.accounts[0]];
    assert FindAccount(l.accounts, "2010") == Some(1) && FindAccount(l.accounts, "1910") == Some(0);
    hide FindAccount;
    var a, b := doc.openings[0], doc.openings[1];
    assert SieImport.OpeningRow(l, a) == Ok([IbRow(0, 10000, 0)])
      && SieImport.OpeningRow(l, b) == Ok([IbRow(1, 0, 10000)]);
    hide SieImport.OpeningRow;
    TwoRows(l, doc.openings);
    assert [IbRow(0, 10000, 0)] + [IbRow(1, 0, 10000)] == [IbRow(0, 10000, 0), IbRow(1, 0, 10000)];
  }

  lemma TwoRows(l: Ledger, openings: seq<SieParser.Opening>)
    requires |openings| == 2 && SieImport.OpeningRow(l, openings[0]).Ok? && SieImport.OpeningRow(l, openings[1]).Ok?
    ensures SieImport.OpeningRows(l, openings)
            == Ok(SieImport.OpeningRow(l, openings[0]).value + SieImport.OpeningRow(l, openings[1]).value)
  {
    hide SieImport.OpeningRow;
    var one := openings[..1];
    assert one[..0] == [] && SieImport.OpeningRows(l, one[..0]) == Ok([]);
    assert [] + SieImport.OpeningRow(l, openings[0]).value == SieImport.OpeningRow(l, openings[0]).value;
    assert SieImport.OpeningRows(l, one) == Ok(SieImport.OpeningRow(l, openings[0]).value);
  }

  lemma {:induction false} OpeningsAccepted(l: Ledger, doc: SieParser.Document)
    requires |l.years| == 1 && l.years[0].ib == [] && l.entries == [] && l.accounts == LockedLedger(0, 0).accounts
    requires SieImport.OpeningRows(l, doc.openings) == Ok([IbRow(0, 10000, 0), IbRow(1, 0, 10000)])
    ensures SieImport.WithOpenings(l, 0, doc)
            == Ok(OpeningBalances.WithIb(l, 0, [IbRow(0, 10000, 0), IbRow(1, 0, 10000)]))
  {
    var rows := [IbRow(0, 10000, 0), IbRow(1, 0, 10000)];
    var m := OpeningBalances.WithIb(l, 0, rows);
    assert rows[..0] == [] && rows[..1] == [rows[0]];
    assert AccountingData.RowSound(m, rows[..0], rows[0]) && AccountingData.RowSound(m, rows[..1], rows[1]);
    assert AccountingData.RowsSound(m, rows);
    SumSnoc([rows[0]], rows[1], IbDebit());
    SumSnoc([rows[0]], rows[1], IbCredit());
    SumOne(rows[0], IbDebit());
    SumOne(rows[0], IbCredit());
    assert [rows[0]] + [rows[1]] == rows;
    hide SieImport.OpeningRows, AccountingData.RowsSound, SumOf;
  }

  // ---------------------------------------------------------------- the import

  lemma JanuaryDays()
    ensures SieImport.IsoDay(OpeningsFile.SPAN.start) == Some(Calendar.DayNumber(FIRST))
    ensures SieImport.IsoDay(OpeningsFile.SPAN.end) == Some(Calendar.DayNumber(LAST))
  {
    hide SieText.ParseDate, SieText.DateOf, SieText.WithoutDashes, Calendar.DayNumber;
    OpeningsFile.FileDates();
    DashesDropped("20260101", OpeningsFile.SPAN.start);
    DashesDropped("20260131", OpeningsFile.SPAN.end);
  }

  lemma DashesDropped(digits: string, iso: string)
    requires SieText.ParseDate(digits) == Some(iso)
    ensures SieText.WithoutDashes(iso) == digits
  {
    SieText.IsoRoundTrip(digits);
    hide SieText.WithoutDashes;
  }

  /** No catalogue, nothing to confirm. */
  const REVIEW := SieImport.Review(map[], false, false, false)

  lemma LedgerTakesDocument(l: Ledger)
    requires l == LockedLedger(Calendar.DayNumber(FIRST), Calendar.DayNumber(LAST))
    ensures SieImport.Import(l, REVIEW, 0, OpeningsFile.READ)
            == Ok(OpeningBalances.WithIb(l, 0, [IbRow(0, 10000, 0), IbRow(1, 0, 10000)]))
  {
    var doc := OpeningsFile.READ;
    JanuaryDays();
    hide SieImport.IsoDay, SieImport.WithAccounts, SieImport.WithOpenings, SieImport.Numbers, SieImport.ImportRefusal,
         SieImport.OpeningRows, SieImport.HasConflict, SieImport.NeedsActivation, Calendar.DayNumber;
    Accepted(l, REVIEW, doc);
    SameAccounts(l, REVIEW, doc);
    OpeningsRead(l, doc);
    OpeningsAccepted(l, doc);
    NoVouchersLeft(OpeningBalances.WithIb(l, 0, [IbRow(0, 10000, 0), IbRow(1, 0, 10000)]), doc);
    hide SieImport.WithVouchers;
  }

  lemma FileDoes(l: Ledger)
    requires l == LockedLedger(Calendar.DayNumber(FIRST), Calendar.DayNumber(LAST))
    ensures Do(l, ImportSie(REVIEW, 0, OpeningsFile.File()))
            == Ok(OpeningBalances.WithIb(l, 0, [IbRow(0, 10000, 0), IbRow(1, 0, 10000)]))
  {
    hide *;
    LedgerSafety.DoIs(l, ImportSie(REVIEW, 0, OpeningsFile.File()));
    OpeningsFile.FileIsRead();
    LedgerTakesDocument(l);
  }

  lemma WritesRows(l: Ledger, first: int, last: int)
    requires l == LockedLedger(first, last)
    ensures |l.years| == 1 && HasLocked(l.years[0]) && l.years[0].ib == []
    ensures OpeningBalances.WithIb(l, 0, [IbRow(0, 10000, 0), IbRow(1, 0, 10000)]).years[0].ib
            == [IbRow(0, 10000, 0), IbRow(1, 0, 10000)]
  {
    PeriodIsLocked(first, last);
  }

  lemma NextOfDo(l: Ledger, s: Step, m: Ledger)
    requires Do(l, s) == Ok(m)
    ensures Next(l, s) == m
  {
    hide Do;
  }

  /** The case: in a reachable ledger whose only period is locked, the file of two #IB records is imported, and
      the opening balances of the locked year change. */
  lemma LockedYearTakesImport()
    ensures var l := Run(NOTHING, Setup());
            var s := ImportSie(REVIEW, 0, OpeningsFile.File());
            && |l.years| == 1 && HasLocked(l.years[0]) && l.years[0].ib == [] && Do(l, s).Ok?
            && |Next(l, s).years| == 1 && Next(l, s).years[0].ib == [IbRow(0, 10000, 0), IbRow(1, 0, 10000)]
  {
    hide *;
    var l := Run(NOTHING, Setup());
    January();
    SetupLeadsThere();
    FileDoes(l);
    WritesRows(l, Calendar.DayNumber(FIRST), Calendar.DayNumber(LAST));
    var m := OpeningBalances.WithIb(l, 0, [IbRow(0, 10000, 0), IbRow(1, 0, 10000)]);
    NextOfDo(l, ImportSie(REVIEW, 0, OpeningsFile.File()), m);
    OneYear(l, [IbRow(0, 10000, 0), IbRow(1, 0, 10000)]);
  }

  lemma OneYear(l: Ledger, rows: seq<IbRow>)
    requires |l.years| == 1
    ensures |OpeningBalances.WithIb(l, 0, rows).years| == 1
  {
  }

  lemma PeriodIsLocked(first: int, last: int)
    ensures HasLocked(LockedLedger(first, last).years[0])
  {
    var periods := LockedLedger(first, last).years[0].periods;
    assert periods[0] in periods;
  }
}
