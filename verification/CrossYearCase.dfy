/** A case: a correction booked in the year after its voucher takes the line dates of an imported voucher along. */
module CrossYearCase {
  import opened Common
  import opened LedgerModel
  import opened LedgerMachine
  import opened LockedCase
  import opened SieLedger
  import opened SieYearExport
  import AccountingData
  import Calendar
  import DatedFile
  import FiscalYears
  import Journal
  import LedgerSafety
  import OpeningsFile
  import ServiceLaws
  import SieAccepts
  import SieExport
  import SieImport
  import SieLines
  import SieParser
  import SiePrints
  import SieText
  import SieTokens
  import SieWholeTrip
  import StoredForm
  import Vat

  // ---------------------------------------------------------------- the run

  const FEBRUARY := Calendar.Date(2026, 2, 1)
  const MIDDLE := Calendar.Date(2026, 2, 15)
  const END := Calendar.Date(2026, 2, 28)

  function MonthStep(name: string, first: int, last: int): Step {
    NewYear(name, first, last, [Calendar.Period(1, first, last)])
  }

  /** Fiscal years of one month, two accounts, a series in the second year, and the file read into the first. */
  function Booking(): seq<Step> {
    [MonthStep("2026-01", Calendar.DayNumber(FIRST), Calendar.DayNumber(LAST)),
     MonthStep("2026-02", Calendar.DayNumber(FEBRUARY), Calendar.DayNumber(END)),
     NewAccount(Env(), "1910", "Kassa", Asset, true, None),
     NewAccount(Env(), "2010", "Eget kapital", Equity, true, None),
     NewSeries(1, "A", "A"),
     ImportSie(REVIEW, 0, DatedFile.Text())]
  }

  /** The imported voucher is corrected in the middle of February. */
  const CORRECTION := ReverseEntry(0, MIDDLE, 0, None)

  function FirstDay(): int { Calendar.DayNumber(FIRST) }

  // ---------------------------------------------------------------- its ledgers

  function OneMonth(first: int, last: int): Year { Year(first, last, false, [Period(first, last, false)], [], 0) }

  const KASSA := Account("1910", "Kassa", Asset, true, false, None)
  const KAPITAL := Account("2010", "Eget kapital", Equity, true, false, None)

  /** Two years from day `first` on, of 31 and 28 days. */
  function Years(first: int): seq<Year> { [OneMonth(first, first + 30), OneMonth(first + 31, first + 58)] }

  function Before(first: int): Ledger { Ledger(Years(first), [KASSA, KAPITAL], [Series(1, "A", 1, true)], [], []) }

  function BookedLine(account: nat, debit: int, credit: int, day: int): Line {
    Line(account, debit, credit, Some(day), None, None, None, None, Vat.Unclassified, None, Vat.Absent)
  }

  function BookedEntry(first: int): Entry {
    Entry(0, 0, 1, first + 14, "SIE-import", true, 2, Some(1),
          [BookedLine(0, 10000, 0, first + 9), BookedLine(1, 0, 10000, first + 9)], None, Imported)
  }

  function Booked(first: int): Ledger {
    Ledger(Years(first), [KASSA, KAPITAL], [Series(1, "A", 1, true), Series(0, "A", 2, true)], [BookedEntry(first)], [])
  }

  lemma MonthDays()
    ensures FirstDay() == Calendar.DayNumber(FIRST) && Calendar.DayNumber(LAST) == FirstDay() + 30
    ensures Calendar.DayNumber(FEBRUARY) == FirstDay() + 31
    ensures Calendar.DayNumber(MIDDLE) == FirstDay() + 45
    ensures Calendar.DayNumber(END) == FirstDay() + 58
    ensures Calendar.Valid(FIRST) && Calendar.Valid(LAST) && Calendar.Valid(FEBRUARY)
    ensures Calendar.Valid(MIDDLE) && Calendar.Valid(END)
  {
    FebruaryStart();
    hide Calendar.MonthStart;
  }

  lemma FebruaryStart()
    ensures Calendar.MonthStart(24313) == Calendar.MonthStart(24312) + 31
  {
  }

  lemma MonthsOfDates()
    ensures Calendar.MonthIndex(FIRST) == 24312 == Calendar.MonthIndex(LAST)
    ensures Calendar.MonthIndex(FEBRUARY) == 24313 == Calendar.MonthIndex(END)
  {
  }

  /** The periods requested are the calendar months. */
  lemma PeriodsAreMonths()
    ensures Calendar.OnePerMonth([Calendar.Period(1, Calendar.DayNumber(FIRST), Calendar.DayNumber(LAST))],
                                 Calendar.MonthIndex(FIRST), Calendar.DayNumber(FIRST), Calendar.DayNumber(LAST))
    ensures Calendar.OnePerMonth([Calendar.Period(1, Calendar.DayNumber(FEBRUARY), Calendar.DayNumber(END))],
                                 Calendar.MonthIndex(FEBRUARY), Calendar.DayNumber(FEBRUARY), Calendar.DayNumber(END))
  {
    LockedCase.OneMonth();
    MonthDays();
    MonthsOfDates();
    Calendar.DayInItsMonth(FEBRUARY);
    Calendar.DayInItsMonth(END);
    hide Calendar.DayNumber, Calendar.MonthStart;
  }

  lemma YearJoins(l: Ledger, name: string, first: int, last: int)
    requires first <= last && SieLines.Trim(name) != ""
    requires forall y :: y in l.years ==> !FiscalYears.Overlaps(y, first, last)
    ensures Next(l, MonthStep(name, first, last)) == l.(years := l.years + [OneMonth(first, last)])
  {
    LedgerSafety.DoIs(l, MonthStep(name, first, last));
    hide Do, SieLines.Trim, FiscalYears.Overlaps;
    var periods := [Calendar.Period(1, first, last)];
    assert Map(periods, FiscalYears.OpenPeriod()) == [Period(first, last, false)];
  }

  lemma Named()
    ensures SieLines.Trim("2026-01") != "" && SieLines.Trim("2026-02") != "" && SieLines.Trim("A") != ""
  {
  }

  lemma SeriesJoins(l: Ledger, year: nat, code: string)
    requires year < |l.years| && !l.years[year].closed && l.series == [] && SieLines.Trim(code) != ""
    ensures Next(l, NewSeries(year, code, code)) == l.(series := [Series(year, code, 1, true)])
  {
    LedgerSafety.DoIs(l, NewSeries(year, code, code));
    hide Do, SieLines.Trim;
    assert l.series + [Series(year, code, 1, true)] == [Series(year, code, 1, true)];
  }

  lemma YearsJoined(first: int)
    ensures var one := Next(NOTHING, MonthStep("2026-01", first, first + 30));
            Next(one, MonthStep("2026-02", first + 31, first + 58)) == NOTHING.(years := Years(first))
  {
    hide Next, SieLines.Trim;
    Named();
    YearJoins(NOTHING, "2026-01", first, first + 30);
    var one := NOTHING.(years := NOTHING.years + [OneMonth(first, first + 30)]);
    YearJoins(one, "2026-02", first + 31, first + 58);
    assert one.years + [OneMonth(first + 31, first + 58)] == Years(first);
  }

  lemma AccountsJoined(first: int)
    ensures Next(Next(NOTHING.(years := Years(first)), NewAccount(Env(), "1910", "Kassa", Asset, true, None)),
                 NewAccount(Env(), "2010", "Eget kapital", Equity, true, None))
            == NOTHING.(years := Years(first), accounts := [KASSA, KAPITAL])
  {
    hide Next, Years;
    var l := NOTHING.(years := Years(first));
    AccountAdded(l, "1910", "Kassa", Asset);
    var one := l.(accounts := l.accounts + [KASSA]);
    AccountAdded(one, "2010", "Eget kapital", Equity);
    assert one.accounts + [KAPITAL] == [KASSA, KAPITAL];
  }

  lemma SeriesJoined(first: int)
    ensures Next(NOTHING.(years := Years(first), accounts := [KASSA, KAPITAL]), NewSeries(1, "A", "A")) == Before(first)
  {
    hide Next, SieLines.Trim;
    Named();
    SeriesJoins(NOTHING.(years := Years(first), accounts := [KASSA, KAPITAL]), 1, "A");
  }

  // ---------------------------------------------------------------- the import

  lemma Accepted(l: Ledger, doc: SieParser.Document)
    requires l == Before(FirstDay()) && doc == DatedFile.Document()
    ensures SieImport.ImportRefusal(l, REVIEW, 0, doc).None?
  {
    JanuaryDays();
    MonthDays();
    hide SieImport.HasConflict, SieImport.NeedsActivation, SieImport.Numbers, SieImport.IsoDay, Calendar.DayNumber,
         DatedFile.Booked;
    NoConflict(l, doc);
  }

  lemma NumbersOfFile(doc: SieParser.Document)
    requires doc == DatedFile.Document()
    ensures SieImport.Numbers(doc) == ["1910", "2010"]
  {
    hide SieText.CentsMoney;
    var v := DatedFile.Booked();
    assert [v][..0] == [];
    assert SieParser.AllLines([v]) == v.transactions;
  }

  lemma NoConflict(l: Ledger, doc: SieParser.Document)
    requires l.accounts == [KASSA, KAPITAL] && l.entries == [] && |l.years| > 0 && doc == DatedFile.Document()
    ensures !SieImport.HasConflict(l, REVIEW, 0, doc)
    ensures forall n :: !SieImport.NeedsActivation(l, REVIEW, doc, n)
  {
    hide SieText.CentsMoney;
    NumbersOfFile(doc);
    Found(l);
    hide SieImport.Numbers, SieImport.Uses, FindAccount, DatedFile.Booked;
  }

  lemma Found(l: Ledger)
    requires l.accounts == [KASSA, KAPITAL]
    ensures FindAccount(l.accounts, "1910") == Some(0) && FindAccount(l.accounts, "2010") == Some(1)
  {
    assert l.accounts[..1] == [KASSA];
  }

  lemma NoOpenings(l: Ledger, doc: SieParser.Document)
    requires l == Before(FirstDay()) && doc == DatedFile.Document()
    ensures SieImport.WithOpenings(l, 0, doc) == Ok(l)
  {
    hide Calendar.DayNumber, DatedFile.Booked;
    NoIb(l);
    hide AccountingData.ContextError;
  }

  lemma NoIb(l: Ledger)
    requires |l.years| > 0 && l.years[0].ib == [] && |l.accounts| == 2
    ensures AccountingData.ContextError(l, 0).None?
  {
  }

  lemma FileDays()
    ensures SieImport.IsoDay("2026-01-15") == Some(FirstDay() + 14)
    ensures SieImport.IsoDay("2026-01-10") == Some(FirstDay() + 9)
  {
    hide SieText.ParseDate, SieText.DateOf, SieText.WithoutDashes, Calendar.DayNumber;
    DatedFile.DatesAreRead();
    DatedFile.JanuaryOrder();
    DashesDropped("20260115", "2026-01-15");
    DashesDropped("20260110", "2026-01-10");
  }

  lemma LineRead(a: nat, account: string, cents: int, day: int)
    requires SieText.MoneyCents(SieText.CentsMoney(cents)) == Some(cents) && cents != 0
    requires SieImport.IsoDay("2026-01-10") == Some(day)
    ensures SieImport.LineOf(a, DatedFile.DatedTransaction(account, cents))
            == BookedLine(a, if cents > 0 then cents else 0, if cents < 0 then -cents else 0, day)
  {
    hide SieText.MoneyCents, SieText.CentsMoney, SieImport.IsoDay;
  }

  lemma LinesRead(l: Ledger, day: int)
    requires l.accounts == [KASSA, KAPITAL] && SieImport.IsoDay("2026-01-10") == Some(day)
    ensures SieImport.LinesOf(l, DatedFile.Booked().transactions)
            == Ok([BookedLine(0, 10000, 0, day), BookedLine(1, 0, 10000, day)])
  {
    hide SieText.MoneyCents, SieText.CentsMoney, SieImport.IsoDay;
    OpeningsFile.FileAmounts();
    Found(l);
    LineRead(0, "1910", 10000, day);
    LineRead(1, "2010", -10000, day);
    hide SieImport.LineOf, FindAccount, BookedLine;
    var a, b := DatedFile.DatedTransaction("1910", 10000), DatedFile.DatedTransaction("2010", -10000);
    var xs := [a, b];
    assert xs[..1] == [a] && [a][..0] == [];
    var la, lb := SieImport.LineOf(0, a), SieImport.LineOf(1, b);
    assert SieImport.LinesOf(l, []) == Ok([]) && [] + [la] == [la] && [la] + [lb] == [la, lb];
    assert SieImport.LinesOf(l, [a]) == Ok([la]);
    assert SieImport.LinesOf(l, xs) == Ok([la] + [lb]);
  }

  lemma DayFits(l: Ledger, first: int, date: string, day: int)
    requires l == Before(first) && SieImport.IsoDay(date) == Some(day) && first <= day <= first + 30
    ensures SieImport.FindPeriod(l.years[0].periods, day) == Some(0)
    ensures RequireOpen(l, 0, Some(0)).None?
  {
    hide SieImport.IsoDay;
    assert l.years[0].periods[..0] == [];
  }

  lemma BeforeParts(first: int)
    ensures Before(first).accounts == [KASSA, KAPITAL] && Before(first).entries == [] && |Before(first).years| == 2
    ensures Before(first).series == [Series(1, "A", 1, true)]
  {
  }

  lemma LineDatesOpen(l: Ledger, first: int)
    requires l == Before(first) && SieImport.IsoDay("2026-01-10") == Some(first + 9)
    ensures SieImport.LineDatesError(l, 0, DatedFile.Booked().transactions).None?
  {
    hide SieImport.IsoDay, SieText.CentsMoney, SieImport.FindPeriod, Before, RequireOpen;
    BeforeParts(first);
    DayFits(l, first, "2026-01-10", first + 9);
    var a, b := DatedFile.DatedTransaction("1910", 10000), DatedFile.DatedTransaction("2010", -10000);
    var xs := [a, b];
    assert SieImport.LineDateError(l, 0, a).None? && SieImport.LineDateError(l, 0, b).None?;
    assert xs[..1] == [a] && [a][..0] == [];
    assert SieImport.LineDatesError(l, 0, [a]).None?;
    assert SieImport.LineDatesError(l, 0, xs).None?;
  }

  lemma NotRefused(l: Ledger, first: int)
    requires l == Before(first) && SieImport.IsoDay("2026-01-15") == Some(first + 14)
    requires SieImport.IsoDay("2026-01-10") == Some(first + 9)
    ensures SieImport.VoucherRefusal(l, 0, DatedFile.Booked()).None?
  {
    hide SieImport.IsoDay, SieText.CentsMoney, SieImport.LinesOf, SieImport.FindPeriod, Before, BookedLine, RequireOpen,
         SieImport.LineDatesError;
    BeforeParts(first);
    DayFits(l, first, "2026-01-15", first + 14);
    LinesRead(l, first + 9);
    LineDatesOpen(l, first);
  }

  /** No series of that code in the first year: one is created, its counter behind the number read. */
  lemma SeriesMade(l: Ledger, first: int)
    requires l == Before(first)
    ensures SieImport.WithSeriesFor(l, 0, "A", 1)
            == (l.(series := [Series(1, "A", 1, true), Series(0, "A", 2, true)]), 1)
  {
    hide Before;
    BeforeParts(first);
    var made := Series(0, "A", 2, true);
    assert l.series[..0] == [] && SieImport.FindSeries(l.series, 0, "A").None?;
    assert l.series + [made] == [Series(1, "A", 1, true), made];
    assert [Series(1, "A", 1, true), made][1 := made] == [Series(1, "A", 1, true), made];
    assert SieImport.MaxNumber(l.entries, 1) == 0;
  }

  lemma VoucherTaken(l: Ledger, first: int)
    requires l == Before(first) && SieImport.IsoDay("2026-01-15") == Some(first + 14)
    requires SieImport.IsoDay("2026-01-10") == Some(first + 9)
    ensures SieImport.WithVouchers(l, 0, [DatedFile.Booked()]) == Ok(Booked(first))
  {
    hide SieImport.IsoDay, SieText.CentsMoney, SieImport.LinesOf, SieImport.FindPeriod, BookedLine, RequireOpen,
         SieImport.VoucherRefusal, SieImport.WithSeriesFor, SieText.Value;
    NotRefused(l, first);
    DayFits(l, first, "2026-01-15", first + 14);
    LinesRead(l, first + 9);
    SeriesMade(l, first);
    DatedFile.HeadTexts();
    var v := DatedFile.Booked();
    assert [v][..0] == [] && l.entries == [] && [] + [BookedEntry(first)] == [BookedEntry(first)];
    assert SieImport.WithVoucher(l, 0, v) == Ok(Booked(first));
  }

  lemma FileTaken(l: Ledger)
    requires l == Before(FirstDay())
    ensures SieImport.Import(l, REVIEW, 0, DatedFile.Document()) == Ok(Booked(FirstDay()))
  {
    hide *;
    var doc := DatedFile.Document();
    FileContent();
    NoCatalog();
    BeforeParts(FirstDay());
    Accepted(l, doc);
    SameAccounts(l, REVIEW, doc);
    NoOpenings(l, doc);
    FileDays();
    VoucherTaken(l, FirstDay());
    ImportIs(l, doc);
  }

  lemma ImportIs(l: Ledger, doc: SieParser.Document)
    requires SieImport.ImportRefusal(l, REVIEW, 0, doc).None? && SieImport.WithAccounts(l, REVIEW, doc) == l
    requires |l.years| > 0 && SieImport.WithOpenings(l, 0, doc) == Ok(l)
    ensures SieImport.Import(l, REVIEW, 0, doc) == SieImport.WithVouchers(l, 0, doc.vouchers)
  {
    hide SieImport.ImportRefusal, SieImport.WithAccounts, SieImport.WithOpenings, SieImport.WithVouchers;
  }

  lemma FileContent()
    ensures DatedFile.Document().accounts == [] && DatedFile.Document().vouchers == [DatedFile.Booked()]
  {
  }

  lemma NoCatalog()
    ensures REVIEW.catalog == map[]
  {
  }

  lemma FileBooked(first: int)
    requires first == FirstDay()
    ensures Next(Before(first), ImportSie(REVIEW, 0, DatedFile.Text())) == Booked(first)
  {
    hide *;
    LedgerSafety.DoIs(Before(first), ImportSie(REVIEW, 0, DatedFile.Text()));
    DatedFile.TextIsRead();
    FileTaken(Before(first));
    NextOfDo(Before(first), ImportSie(REVIEW, 0, DatedFile.Text()), Booked(first));
  }

  // ---------------------------------------------------------------- the whole run

  lemma RunParts(first: int)
    requires first == FirstDay()
    ensures var none: seq<Step> := [];
            Run(NOTHING, none + [MonthStep("2026-01", first, first + 30)]
                         + [MonthStep("2026-02", first + 31, first + 58)]
                         + [NewAccount(Env(), "1910", "Kassa", Asset, true, None)]
                         + [NewAccount(Env(), "2010", "Eget kapital", Equity, true, None)] + [NewSeries(1, "A", "A")]
                         + [ImportSie(REVIEW, 0, DatedFile.Text())]) == Booked(first)
  {
    hide *;
    var none: seq<Step> := [];
    var a, b := MonthStep("2026-01", first, first + 30), MonthStep("2026-02", first + 31, first + 58);
    var c := NewAccount(Env(), "1910", "Kassa", Asset, true, None);
    var d := NewAccount(Env(), "2010", "Eget kapital", Equity, true, None);
    var e, f := NewSeries(1, "A", "A"), ImportSie(REVIEW, 0, DatedFile.Text());
    NothingRun(NOTHING);
    RunSnoc(NOTHING, none, a);
    RunSnoc(NOTHING, none + [a], b);
    RunSnoc(NOTHING, none + [a] + [b], c);
    RunSnoc(NOTHING, none + [a] + [b] + [c], d);
    RunSnoc(NOTHING, none + [a] + [b] + [c] + [d], e);
    RunSnoc(NOTHING, none + [a] + [b] + [c] + [d] + [e], f);
    YearsJoined(first);
    AccountsJoined(first);
    SeriesJoined(first);
    FileBooked(first);
  }

  lemma BookingIsRun()
    ensures Run(NOTHING, Booking()) == Booked(FirstDay())
  {
    hide Run, Calendar.DayNumber, Booked;
    MonthDays();
    var first := FirstDay();
    RunParts(first);
    var none: seq<Step> := [];
    assert Booking() == none + [MonthStep("2026-01", first, first + 30)]
                        + [MonthStep("2026-02", first + 31, first + 58)]
                        + [NewAccount(Env(), "1910", "Kassa", Asset, true, None)]
                        + [NewAccount(Env(), "2010", "Eget kapital", Equity, true, None)] + [NewSeries(1, "A", "A")]
                        + [ImportSie(REVIEW, 0, DatedFile.Text())];
  }

  // ---------------------------------------------------------------- the correction

  lemma MiddleResolves(l: Ledger, first: int)
    requires l.years == Years(first)
    ensures Resolve(l, first + 45) == Ok((1, 0))
  {
    var ys := l.years;
    assert ys[..1] == [ys[0]] && ys[..1][..0] == [];
    assert YearsWith(ys[..1], first + 45) == [];
    assert YearsWith(ys, first + 45) == [1];
    var ps := ys[1].periods;
    assert ps[..0] == [];
    assert PeriodsWith(ps, first + 45) == [0];
    hide YearsWith, PeriodsWith;
  }

  lemma BookedPostable(first: int)
    ensures Journal.Postable(BookedEntry(first).lines)
    ensures Journal.Postable(Map(BookedEntry(first).lines, Journal.Mirror()))
  {
    var a, b := BookedLine(0, 10000, 0, first + 9), BookedLine(1, 0, 10000, first + 9);
    var xs := [a, b];
    TwoSum(a, b, DebitOf());
    TwoSum(a, b, CreditOf());
    var c, d := Journal.Mirror()(a), Journal.Mirror()(b);
    TwoSum(c, d, DebitOf());
    TwoSum(c, d, CreditOf());
    assert Map(xs, Journal.Mirror()) == [c, d];
    hide SumOf;
  }

  lemma TwoSum<T(!new)>(a: T, b: T, f: T -> int)
    ensures SumOf([a, b], f) == f(a) + f(b)
  {
    SumOne(a, f);
    SumSnoc([a], b, f);
    assert [a] + [b] == [a, b];
  }

  lemma CorrectionAllowed(l: Ledger, first: int)
    requires l == Booked(first) && Journal.DayOf(MIDDLE) == Some(first + 45)
    ensures Journal.ReverseRefusal(l, 0, MIDDLE, 0, None).None?
  {
    hide Journal.DayOf, Resolve, Journal.Postable;
    MiddleResolves(l, first);
    BookedPostable(first);
  }

  lemma CorrectionPosts(l: Ledger, first: int)
    requires l == Booked(first)
    ensures var created := Journal.Correction(l, 0, (1, 0), first + 45, 0, None);
            Journal.PostRefusal(l.(entries := l.entries + [created]), None, 1, None).None?
  {
    hide Journal.Postable, Journal.GeneratedText;
    BookedPostable(first);
  }

  lemma CorrectionMade(l: Ledger, first: int)
    requires l == Booked(first) && Journal.DayOf(MIDDLE) == Some(first + 45)
    ensures Journal.Reverse(l, 0, MIDDLE, 0, None).Ok?
  {
    hide Journal.DayOf, Resolve, Journal.ReverseRefusal, Journal.PostRefusal, Journal.Correction;
    CorrectionAllowed(l, first);
    MiddleResolves(l, first);
    CorrectionPosts(l, first);
  }

  lemma CorrectionIs(first: int, m: Ledger)
    requires Journal.DayOf(MIDDLE) == Some(first + 45)
    requires Journal.Reverse(Booked(first), 0, MIDDLE, 0, None) == Ok(m)
    ensures |m.entries| == 2 && m.entries[1].year == 1 && BringsDates(m, m.entries[1])
  {
    hide Journal.DayOf, Journal.Reverse, RequireOpen;
    var l := Booked(first);
    ServiceLaws.CorrectionMirrors(l, 0, MIDDLE, 0, None);
    assert m.entries[0] == m.entries[..1][0] == BookedEntry(first);
    assert BookedEntry(first).lines[0] in BookedEntry(first).lines;
  }

  lemma MiddleDay()
    ensures Journal.DayOf(MIDDLE) == Some(FirstDay() + 45)
  {
    hide Calendar.DayNumber;
    MonthDays();
  }

  lemma CorrectionBooked()
    ensures var m := Run(NOTHING, Booking() + [CORRECTION]);
            |m.entries| == 2 && m.entries[1].year == 1 && BringsDates(m, m.entries[1])
  {
    hide *;
    var first := FirstDay();
    BookingIsRun();
    RunSnoc(NOTHING, Booking(), CORRECTION);
    MiddleDay();
    CorrectionMade(Booked(first), first);
    CorrectionStep(Booked(first));
    CorrectionIs(first, Journal.Reverse(Booked(first), 0, MIDDLE, 0, None).value);
  }

  lemma CorrectionStep(l: Ledger)
    requires Journal.Reverse(l, 0, MIDDLE, 0, None).Ok?
    ensures Next(l, CORRECTION) == Journal.Reverse(l, 0, MIDDLE, 0, None).value
  {
    LedgerSafety.DoIs(l, CORRECTION);
    hide Do, Journal.Reverse;
  }

  // ---------------------------------------------------------------- the export of the second year

  lemma BookingNamesDays()
    ensures StoredForm.AllNameDays(Booking()) && StoredForm.AllNameDays(Booking() + [CORRECTION])
  {
    hide Calendar.DayNumber, Calendar.Valid;
    MonthDays();
    StoredForm.DateIsDay(FIRST);
    StoredForm.DateIsDay(LAST);
    StoredForm.DateIsDay(FEBRUARY);
    StoredForm.DateIsDay(END);
    hide StoredForm.IsDay;
  }

  predicate IsLetter(c: char) { 'a' <= c <= 'z' || 'A' <= c <= 'Z' || c == ' ' }

  predicate Letters(s: string) { forall c :: c in s ==> IsLetter(c) }

  lemma LettersAreText(s: string)
    requires s != "" && |s| <= 160 && Letters(s)
    ensures SiePrints.IsText(s) && SieAccepts.IsName(s)
  {
    SiePrints.AsciiEncodable(s);
    PlainText(s);
  }

  lemma PartsAreLetters(s: string, t: string)
    requires Letters(s + t)
    ensures Letters(s) && Letters(t)
  {
    hide IsLetter;
    assert forall c :: c in s ==> c in s + t;
    assert forall c :: c in t ==> c in s + t;
  }

  lemma {:induction false} PlainText(s: string)
    requires Letters(s)
    ensures SieTokens.Unambiguous(s) && SieParser.Units(s) == |s|
    decreases |s|
  {
    if |s| > 0 {
      var n := |s| - 1;
      assert s[0] in s && s[n] in s;
      assert s == [s[0]] + s[1..] && s == s[..n] + [s[n]];
      PartsAreLetters([s[0]], s[1..]);
      PartsAreLetters(s[..n], [s[n]]);
      PlainText(s[1..]);
      PlainText(s[..n]);
    }
  }

  lemma AccountsNamed()
    ensures AccountNamed(KASSA) && AccountNamed(KAPITAL)
  {
    hide SiePrints.IsText, SieAccepts.IsName;
    LettersAreText("Kassa");
    LettersAreText("Eget kapital");
  }

  lemma NothingInYear(l: Ledger, first: int)
    requires l == Booked(first)
    ensures PostedLines(l.entries, 1) == []
    ensures forall a: nat :: a < |l.accounts| ==> BalanceAmountsFit(l, 1, a)
  {
    assert l.entries[..0] == [];
    PowerPositive();
    hide SieText.Pow10;
  }

  lemma PowerPositive()
    ensures SieText.Pow10(18) > 0
  {
    hide SieText.Pow10;
    SieText.PowGrows(0, 18);
  }

  lemma BookedFits(l: Ledger, first: int, names: Names)
    requires l == Booked(first) && NamesFit(names)
    ensures YearFits(l, 1, names)
  {
    hide *;
    BookedParts(first);
    YearFitsIs(l, 1, names);
    AccountsNamed();
    NothingInYear(l, first);
  }

  lemma BookedParts(first: int)
    ensures |Booked(first).years| == 2 && Booked(first).accounts == [KASSA, KAPITAL] && SizesFit(Booked(first), 1)
    ensures forall e :: e in Booked(first).entries ==> !PostedOf(1)(e)
  {
  }

  /** The case: two one-month years, and a voucher read from a file into the first with a date on each line. The second
      year can be exported under all names that can be written; once the voucher is corrected in that year, under no
      names at all. */
  lemma CorrectionBarsYear(names: Names, collate: SieExport.Collation)
    requires forall o :: o in names.objects ==> SieParser.IsDimension(o.dimension)
    ensures var l, m := Run(NOTHING, Booking()), Run(NOTHING, Booking() + [CORRECTION]);
            && Do(l, CORRECTION).Ok? && |m.entries| == 2 && m.entries[1].year == 1 && BringsDates(m, m.entries[1])
            && (NamesFit(names) ==> SieWholeTrip.ExportYear(l, 1, names, collate).Ok?)
            && SieWholeTrip.ExportYear(m, 1, names, collate).Err?
  {
    hide *;
    BookingNamesDays();
    BookingIsRun();
    CorrectionBooked();
    CorrectionDone();
    var l, m := Run(NOTHING, Booking()), Run(NOTHING, Booking() + [CORRECTION]);
    if NamesFit(names) { BookedFits(l, FirstDay(), names); }
    BookedParts(FirstDay());
    ReachableYearExportsIff(Booking(), 1, names, collate);
    CrossYearCorrectionBarsExport(Booking() + [CORRECTION], m.entries[1], names, collate);
  }

  lemma CorrectionDone()
    ensures Do(Run(NOTHING, Booking()), CORRECTION).Ok?
  {
    hide *;
    BookingIsRun();
    MiddleDay();
    CorrectionMade(Booked(FirstDay()), FirstDay());
    LedgerSafety.DoIs(Booked(FirstDay()), CORRECTION);
    ReverseOfStep();
  }

  lemma ReverseOfStep()
    ensures CORRECTION == ReverseEntry(0, MIDDLE, 0, None)
  {
  }
}
