/** When a year of the ledger can be exported as SIE, and what a correction dated in another year does to that. */
module SieYearExport {
  import opened Common
  import opened LedgerModel
  import opened LedgerMachine
  import opened SieImport
  import opened SieLedger
  import AccountingData
  import Calendar
  import ImportSteps
  import Journal
  import LedgerSafety
  import OpeningBalances
  import ReportLaws
  import SieAccepts
  import SieExport
  import SieExportable
  import SieLines
  import SieParser
  import SiePrints
  import SieReplay
  import SieRoundTrip
  import SieText
  import SieTokens
  import SieWholeTrip
  import StoredForm

  // ---------------------------------------------------------------- days with an ISO date

  /** The day has a four-digit ISO date. */
  predicate HasIso(day: int) { IsoDay(DayText(day)) == Some(day) }

  /** Every date of the calendar does. */
  lemma {:induction false} DateHasIso(d: Calendar.Date)
    requires Calendar.Valid(d)
    ensures HasIso(Calendar.DayNumber(d))
  {
    DayIsText(d);
    var y, m, t := Padded(d.year, 4), Padded(d.month, 2), Padded(d.day, 2);
    var digits := y + m + t;
    PaddedReads(d.year, 4);
    PaddedReads(d.month, 2);
    PaddedReads(d.day, 2);
    PowersOfTen();
    assert digits[..4] == y && digits[4..6] == m && digits[6..] == t;
    hide Padded, IsoText, Calendar.DayNumber, SieText.WithoutDashes, SieText.Pow10, SieText.Value;
    assert SieText.IsDigits(digits);
    assert SieText.DateOf(digits) == d;
    assert SieText.Iso(digits) == y + "-" + m + "-" + t;
    SieText.IsoRoundTrip(digits);
  }

  lemma PowersOfTen()
    ensures SieText.Pow10(2) == 100 && SieText.Pow10(4) == 10000
  {
    assert SieText.Pow10(1) == 10 * SieText.Pow10(0) && SieText.Pow10(2) == 10 * SieText.Pow10(1);
    assert SieText.Pow10(3) == 10 * SieText.Pow10(2) && SieText.Pow10(4) == 10 * SieText.Pow10(3);
  }

  lemma {:induction false} PaddedReads(n: nat, k: nat)
    requires n < SieText.Pow10(k)
    ensures SieText.IsDigits(Padded(n, k)) && SieText.Value(Padded(n, k)) == n
  {
    if k > 0 {
      PaddedReads(n / 10, k - 1);
      var s := Padded(n, k);
      assert s[..|s| - 1] == Padded(n / 10, k - 1);
      SieText.DigitValueOfChar(n % 10);
    }
  }

  lemma IsoReads(day: int)
    requires HasIso(day)
    ensures DayText(day) != "" && SieText.SieDate(DayText(day)).Some?
    ensures SieRoundTrip.CanonicalDay(DayText(day)) == DayText(day)
    ensures SieText.SieDate(DayText(day)).Some? && SieText.CanonicalDate(DayText(day)) == DayText(day)
  {
    hide DayText, SieText.WithoutDashes, Calendar.DayNumber, Calendar.Valid;
  }

  lemma IsoBefore(a: int, b: int)
    requires HasIso(a) && HasIso(b)
    ensures SieText.Less(DayText(a), DayText(b)) <==> a < b
  {
    hide DayText, Calendar.DayNumber, Calendar.Valid, SieText.Less;
    SieText.IsoOrder(SieText.WithoutDashes(DayText(a)), SieText.WithoutDashes(DayText(b)));
    hide SieText.WithoutDashes;
  }

  predicate DatedEntry(e: Entry) {
    HasIso(e.date) && forall x :: x in e.lines && x.date.Some? ==> HasIso(x.date.value)
  }

  /** The dates of the year and of what is posted in it are days of the calendar. */
  predicate Dated(l: Ledger, year: nat)
    requires year < |l.years|
  {
    && HasIso(l.years[year].first) && HasIso(l.years[year].last)
    && forall e :: e in l.entries && PostedOf(year)(e) ==> DatedEntry(e)
  }

  // ---------------------------------------------------------------- what the export of a year needs

  predicate NamesFit(names: Names) {
    && SieText.SieDate(names.generated).Some? && SiePrints.IsText(names.name)
    && (names.number.Some? && names.number.value != "" ==> SiePrints.IsText(names.number.value))
    && (forall o :: o in names.objects ==> SieExportable.ObjectPrintsWell(o))
    && SieAccepts.Unique(names.objects, SieAccepts.ObjectKey())
  }

  predicate AccountNamed(a: Account) {
    SieParser.IsAccountNumber(a.number) && SiePrints.IsText(a.name) && SieAccepts.IsName(a.name)
  }

  predicate AmountFits(v: int) { Abs(v) < SieText.Pow10(18) }

  predicate Known(names: Names, dimension: string, id: Option<string>) {
    id.Some? ==> exists c :: c in names.objects && c.dimension == dimension && c.id == id.value
  }

  predicate IsRemark(s: string) { SiePrints.IsText(s) && SieParser.Units(s) <= 500 }

  /** The line is dated in the year, if at all, and names known objects. */
  predicate LineExports(y: Year, names: Names, e: Entry, x: Line) {
    && AmountFits(x.debit - x.credit) && IsRemark(if x.text.Some? then x.text.value else e.text)
    && (x.date.Some? ==> y.first <= x.date.value <= y.last)
    && Known(names, "6", x.project) && Known(names, "1", x.centre)
  }

  predicate EntryExports(l: Ledger, y: Year, names: Names, e: Entry) {
    && e.series < |l.series| && SieParser.IsIdentifier(l.series[e.series].code)
    && e.number.Some? && 1 <= e.number.value < 2147483647
    && IsRemark(e.text) && forall x :: x in e.lines ==> LineExports(y, names, e, x)
  }

  predicate BalanceAmountsFit(l: Ledger, year: nat, a: nat)
    requires year < |l.years|
  {
    AmountFits(AccountingData.OpeningNet(l.years[year].ib, a)) && AmountFits(ClosingOn(l, year, a))
  }

  predicate SizesFit(l: Ledger, year: nat)
    requires year < |l.years|
  {
    |l.accounts| <= AccountingData.MAX_ROWS && |l.years[year].ib| <= AccountingData.MAX_ROWS
  }

  /** Everything the export of a year in order needs. */
  predicate YearFits(l: Ledger, year: nat, names: Names)
    requires year < |l.years|
  {
    && SizesFit(l, year) && NamesFit(names)
    && (forall a :: a in l.accounts ==> AccountNamed(a))
    && (forall a: nat :: a < |l.accounts| ==> BalanceAmountsFit(l, year, a))
    && (forall e :: e in l.entries && PostedOf(year)(e) ==> EntryExports(l, l.years[year], names, e))
  }

  // ---------------------------------------------------------------- accounts and header

  lemma AccountsIff(accounts: seq<Account>)
    ensures (forall a :: a in Map(accounts, ExportedAccount()) ==> SieExportable.AccountFits(a)) <==>
            forall a :: a in accounts ==> AccountNamed(a)
    ensures AccountsOk(accounts) ==> SieAccepts.Unique(Map(accounts, ExportedAccount()), SieAccepts.AccountKey())
  {
    hide SiePrints.IsText, SieAccepts.IsName, SieParser.IsAccountNumber;
    var m := Map(accounts, ExportedAccount());
    forall a | a in accounts ensures ExportedAccount()(a) in m {
      var i :| 0 <= i < |accounts| && accounts[i] == a;
      assert m[i] == ExportedAccount()(a);
    }
    forall b | b in m ensures exists a :: a in accounts && b == ExportedAccount()(a) {
      var i :| 0 <= i < |m| && m[i] == b;
      assert accounts[i] in accounts;
    }
    forall a ensures SieExportable.AccountFits(ExportedAccount()(a)) == AccountNamed(a) {}
  }

  lemma SpanInOrder(y: Year)
    requires YearOk(y)
    ensures y.first <= y.last
  {
    ImportSteps.PeriodInYear(y, 0);
  }

  lemma HeaderIff(l: Ledger, year: nat, names: Names)
    requires Inv(l) && year < |l.years| && Dated(l, year)
    ensures var data := ExportDataOf(l, year, names);
            && SieAccepts.YearInOrder(data.year)
            && (SiePrints.HeaderFits(data) <==>
                SieText.SieDate(names.generated).Some? && SiePrints.IsText(names.name)
                && (names.number.Some? && names.number.value != "" ==> SiePrints.IsText(names.number.value)))
  {
    var y := l.years[year];
    assert YearOk(y);
    hide Inv, YearOk, ExportedVouchers, ExportedBalance, SiePrints.IsText, SieText.SieDate, DayText, HasIso,
         SieText.Less, SieText.CanonicalDate, DatedEntry;
    SpanInOrder(y);
    IsoReads(y.first);
    IsoReads(y.last);
    IsoBefore(y.last, y.first);
  }

  // ---------------------------------------------------------------- one line

  lemma MoneyFits(v: int)
    ensures SieText.MoneyCents(SieText.CentsMoney(v)).Some? <==> AmountFits(v)
    ensures AmountFits(v) ==> SieParser.CentsOf(SieText.CentsMoney(v)) == v
  {
    SieText.MoneyRoundTrip(v);
    hide SieText.MoneyCents, SieText.CentsMoney, SieText.Pow10;
  }

  lemma KnownIsIdentifier(names: Names, dimension: string, id: Option<string>)
    requires NamesFit(names) && id.Some? && Known(names, dimension, id)
    ensures SieParser.IsIdentifier(id.value)
  {
    var c :| c in names.objects && c.dimension == dimension && c.id == id.value;
    assert SieExportable.ObjectPrintsWell(c);
  }

  lemma ObjectsIff(names: Names, x: Line)
    requires NamesFit(names)
    ensures SieAccepts.Unique(ObjectsOf(x), SieAccepts.DimensionKey())
    ensures (forall o :: o in ObjectsOf(x) ==> SieAccepts.RefFits(o) && SieExportable.DeclaredIn(names.objects, o))
            <==> Known(names, "6", x.project) && Known(names, "1", x.centre)
  {
    if Known(names, "6", x.project) && x.project.Some? { KnownIsIdentifier(names, "6", x.project); }
    if Known(names, "1", x.centre) && x.centre.Some? { KnownIsIdentifier(names, "1", x.centre); }
    var os := ObjectsOf(x);
    hide SieParser.IsIdentifier, NamesFit;
    assert x.project.Some? ==> SieTokens.ObjectRef("6", x.project.value) in os;
    assert x.centre.Some? ==> SieTokens.ObjectRef("1", x.centre.value) in os;
  }

  lemma LineDateIff(l: Ledger, year: nat, names: Names, day: int)
    requires year < |l.years| && HasIso(l.years[year].first) && HasIso(l.years[year].last) && HasIso(day)
    ensures SieExportable.Within(DayText(day), ExportDataOf(l, year, names).year) <==>
            l.years[year].first <= day <= l.years[year].last
  {
    var y := l.years[year];
    IsoReads(day);
    IsoReads(y.first);
    IsoReads(y.last);
    IsoBefore(day, y.first);
    IsoBefore(y.last, day);
    hide DayText, HasIso, SieRoundTrip.CanonicalDay, SieText.Less, ExportedVouchers, ExportedBalance, Map;
  }

  /** What printing and checking ask of one line. */
  predicate LineStands(data: SieExport.ExportData, t: SieParser.Transaction) {
    && SieParser.IsAccountNumber(t.account) && SieAccepts.Unique(t.objects, SieAccepts.DimensionKey())
    && (forall o :: o in t.objects ==> SieAccepts.RefFits(o) && SieExportable.DeclaredIn(data.objects, o))
    && SieText.MoneyCents(t.amount).Some? && SiePrints.DateFits(t.date) && IsRemark(SiePrints.TextOrNone(t.text))
    && (t.date.Some? && t.date.value != "" ==> SieExportable.Within(t.date.value, data.year))
  }

  lemma LineStandsIff(data: SieExport.ExportData, t: SieParser.Transaction)
    ensures SieExportable.LinePrintsWell(t) && SieExportable.LineChecks(data, t) <==> LineStands(data, t)
  {
    hide SieText.MoneyCents, SiePrints.DateFits, SiePrints.IsText, SieParser.Units, SieExportable.Within,
         SieExportable.DeclaredIn, SieAccepts.RefFits, SieAccepts.Unique, SieParser.IsAccountNumber;
  }

  /** The fields of an exported line. */
  lemma LineFields(l: Ledger, e: Entry, x: Line)
    ensures var t := ExportedLine(l, e)(x);
            && t.account == NumberOf(l, x.account) && t.amount == SieText.CentsMoney(x.debit - x.credit)
               && t.objects == ObjectsOf(x)
            && t.date == (if x.date.Some? then Some(DayText(x.date.value)) else None)
            && SiePrints.TextOrNone(t.text) == if x.text.Some? then x.text.value else e.text
  {
    hide NumberOf, SieText.CentsMoney, DayText, ObjectsOf;
  }

  lemma DateIff(l: Ledger, year: nat, names: Names, date: Option<int>)
    requires year < |l.years| && HasIso(l.years[year].first) && HasIso(l.years[year].last)
             && (date.Some? ==> HasIso(date.value))
    ensures var t := if date.Some? then Some(DayText(date.value)) else None;
            && SiePrints.DateFits(t)
            && ((t.Some? && t.value != "" ==> SieExportable.Within(t.value, ExportDataOf(l, year, names).year))
                <==> (date.Some? ==> l.years[year].first <= date.value <= l.years[year].last))
  {
    hide DayText, HasIso, SieText.SieDate, SieExportable.Within, ExportDataOf;
    if date.Some? {
      IsoReads(date.value);
      LineDateIff(l, year, names, date.value);
    }
  }

  lemma LineExportsIs(y: Year, names: Names, e: Entry, x: Line)
    ensures LineExports(y, names, e, x) <==>
            AmountFits(x.debit - x.credit) && IsRemark(if x.text.Some? then x.text.value else e.text)
            && (x.date.Some? ==> y.first <= x.date.value <= y.last)
               && (Known(names, "6", x.project) && Known(names, "1", x.centre))
  {
    hide AmountFits, IsRemark, Known;
  }

  lemma LineStandsIs(l: Ledger, data: SieExport.ExportData, e: Entry, x: Line)
    ensures var t := ExportedLine(l, e)(x);
            var date := if x.date.Some? then Some(DayText(x.date.value)) else None;
            LineStands(data, t) <==>
            SieParser.IsAccountNumber(NumberOf(l, x.account))
              && SieAccepts.Unique(ObjectsOf(x), SieAccepts.DimensionKey())
            && (forall o :: o in ObjectsOf(x) ==> SieAccepts.RefFits(o) && SieExportable.DeclaredIn(data.objects, o))
            && SieText.MoneyCents(SieText.CentsMoney(x.debit - x.credit)).Some? && SiePrints.DateFits(date)
            && IsRemark(if x.text.Some? then x.text.value else e.text)
            && (date.Some? && date.value != "" ==> SieExportable.Within(date.value, data.year))
  {
    LineFields(l, e, x);
    hide NumberOf, SieText.CentsMoney, DayText, ObjectsOf, ExportedLine, SieText.MoneyCents, SiePrints.DateFits,
         IsRemark, SieExportable.Within, SieExportable.DeclaredIn, SieAccepts.RefFits, SieAccepts.Unique,
         SieParser.IsAccountNumber, SiePrints.TextOrNone;
  }

  lemma LineIff(l: Ledger, year: nat, names: Names, e: Entry, x: Line)
    requires year < |l.years| && HasIso(l.years[year].first) && HasIso(l.years[year].last) && NamesFit(names)
    requires (x.date.Some? ==> HasIso(x.date.value)) && SieParser.IsAccountNumber(NumberOf(l, x.account))
    ensures var t := ExportedLine(l, e)(x);
            SieExportable.LinePrintsWell(t) && SieExportable.LineChecks(ExportDataOf(l, year, names), t)
            <==> LineExports(l.years[year], names, e, x)
  {
    hide *;
    var data := ExportDataOf(l, year, names);
    ObjectsAre(l, year, names);
    LineStandsIff(data, ExportedLine(l, e)(x));
    LineStandsIs(l, data, e, x);
    LineExportsIs(l.years[year], names, e, x);
    MoneyFits(x.debit - x.credit);
    ObjectsIff(names, x);
    DateIff(l, year, names, x.date);
  }

  lemma ObjectsAre(l: Ledger, year: nat, names: Names)
    requires year < |l.years|
    ensures ExportDataOf(l, year, names).objects == names.objects
  {
    hide ExportedVouchers, ExportedBalance, Map;
  }

  // ---------------------------------------------------------------- one voucher

  lemma {:induction false} FirstDigit(n: nat)
    requires n >= 1
    ensures SieText.Digits(n)[0] != '0'
  {
    if n >= 10 { FirstDigit(n / 10); }
  }

  lemma PowTen(n: nat)
    requires n < 2147483647
    ensures n < SieText.Pow10(10)
  {
    PowersOfTen();
    assert SieText.Pow10(10) >= 2147483647 by {
      assert SieText.Pow10(5) == 10 * SieText.Pow10(4) && SieText.Pow10(6) == 10 * SieText.Pow10(5);
      assert SieText.Pow10(7) == 10 * SieText.Pow10(6) && SieText.Pow10(8) == 10 * SieText.Pow10(7);
      assert SieText.Pow10(9) == 10 * SieText.Pow10(8) && SieText.Pow10(10) == 10 * SieText.Pow10(9);
    }
  }

  lemma NumberIff(n: nat)
    requires n >= 1
    ensures SieParser.IsVoucherNumber(SieText.Digits(n)) <==> n < 2147483647
  {
    SieText.ValueOfDigits(n);
    FirstDigit(n);
    if n < 2147483647 {
      PowTen(n);
      SieText.DigitCount(n, 10);
    }
    hide SieText.Digits, SieText.Value, SieText.Pow10;
  }

  function NetNonZero(): Line -> bool { (x: Line) => x.debit - x.credit != 0 }

  lemma NothingMoves(xs: seq<Line>, accounts: nat)
    requires forall x :: x in xs ==> LineOk(accounts, x)
    ensures Filter(xs, NetNonZero()) == [] ==> SumOf(xs, DebitOf()) == 0
  {
    if Filter(xs, NetNonZero()) == [] {
      forall x | x in xs ensures DebitOf()(x) == 0 { assert !NetNonZero()(x); }
      SumZero(xs, DebitOf());
    }
  }

  lemma OneMoves(xs: seq<Line>)
    ensures |xs| == 1 ==> xs[0] in xs && SumOf(xs, NetOf()) == NetOf()(xs[0])
  {
    if |xs| == 1 {
      assert xs == [xs[0]];
      SumOne(xs[0], NetOf());
    }
  }

  /** A posted voucher has two lines that move something. */
  lemma TwoLinesMove(xs: seq<Line>, accounts: nat)
    requires Journal.Postable(xs) && forall x :: x in xs ==> LineOk(accounts, x)
    ensures SumOf(xs, NetOf()) == 0 && |Filter(xs, NetNonZero())| >= 2
  {
    SumAdd(xs, NetOf(), CreditOf(), DebitOf());
    SumFilter(xs, NetNonZero(), NetOf());
    SumExt(xs, Where(NetNonZero(), NetOf()), NetOf());
    NothingMoves(xs, accounts);
    OneMoves(Filter(xs, NetNonZero()));
    hide SumOf;
  }

  lemma BalancedExport(l: Ledger, e: Entry)
    requires Journal.Postable(e.lines)
    requires forall x :: x in e.lines ==> LineOk(|l.accounts|, x) && AmountFits(x.debit - x.credit)
    ensures SieParser.Balanced(ExportedVoucher(l)(e))
  {
    TwoLinesMove(e.lines, |l.accounts|);
    var g := ExportedLine(l, e);
    hide DayText, ObjectsOf, NumberOf, SieText.CentsMoney, SieParser.CentsOf, AmountFits, Journal.Postable, LineOk;
    forall x | x in e.lines
      ensures SieParser.LineCents()(g(x)) == NetOf()(x) && SieParser.NonZero()(g(x)) == NetNonZero()(x)
    {
      MoneyFits(x.debit - x.credit);
    }
    hide ExportedLine;
    SumMap(e.lines, g, SieParser.LineCents());
    SumExt(e.lines, Then(g, SieParser.LineCents()), NetOf());
    FilterMap(e.lines, g, SieParser.NonZero());
    FilterExt(e.lines, Then(g, SieParser.NonZero()), NetNonZero());
  }

  lemma VoucherParts(l: Ledger, year: nat, e: Entry)
    requires Inv(l) && e in l.entries && PostedOf(year)(e)
    ensures year < |l.years| && e.year == year && e.series < |l.series| && e.number.Some? && e.number.value >= 1
    ensures Journal.Postable(e.lines) && (forall x :: x in e.lines ==> LineOk(|l.accounts|, x))
    ensures l.years[year].first <= e.date <= l.years[year].last
  {
    assert EntryOk(l, e);
  }

  lemma LineAccounts(l: Ledger, e: Entry, x: Line)
    requires x in e.lines && LineOk(|l.accounts|, x)
    requires forall a :: a in l.accounts ==> SieParser.IsAccountNumber(a.number)
    ensures SieParser.IsAccountNumber(NumberOf(l, x.account))
  {
    hide SieParser.IsAccountNumber;
    assert l.accounts[x.account] in l.accounts;
  }

  function LinePart(data: SieExport.ExportData): SieParser.Transaction -> bool {
    (t: SieParser.Transaction) => SieExportable.LinePrintsWell(t) && SieExportable.LineChecks(data, t)
  }

  predicate VoucherStands(data: SieExport.ExportData, v: SieParser.Voucher) {
    && SieAccepts.HeadFits(v) && SieText.SieDate(v.date).Some? && SiePrints.IsText(v.text)
    && SieParser.Balanced(v) && SieExportable.Within(v.date, data.year)
    && forall t :: t in v.transactions ==> LinePart(data)(t)
  }

  lemma VoucherStandsIff(data: SieExport.ExportData, v: SieParser.Voucher)
    ensures SieExportable.VoucherPrintsWell(v) && SieExportable.VoucherChecks(data, v) <==> VoucherStands(data, v)
  {
    hide SieAccepts.HeadFits, SieText.SieDate, SiePrints.IsText, SieParser.Balanced, SieExportable.Within,
         SieExportable.LinePrintsWell, SieExportable.LineChecks;
    assert forall t :: LinePart(data)(t) == (SieExportable.LinePrintsWell(t) && SieExportable.LineChecks(data, t));
  }

  lemma VoucherFields(l: Ledger, e: Entry)
    requires e.series < |l.series| && e.number.Some? && e.number.value >= 0
    ensures var v := ExportedVoucher(l)(e);
            && v.transactions == Map(e.lines, ExportedLine(l, e)) && v.date == DayText(e.date) && v.text == e.text
            && v.series == l.series[e.series].code && v.number == SieText.Digits(e.number.value)
  {
    hide ExportedLine, DayText, SieText.Digits;
  }

  lemma LinesIff(l: Ledger, year: nat, names: Names, e: Entry)
    requires year < |l.years| && HasIso(l.years[year].first) && HasIso(l.years[year].last) && NamesFit(names)
    requires DatedEntry(e) && (forall a :: a in l.accounts ==> SieParser.IsAccountNumber(a.number))
    requires forall x :: x in e.lines ==> LineOk(|l.accounts|, x)
    ensures (forall t :: t in Map(e.lines, ExportedLine(l, e)) ==> LinePart(ExportDataOf(l, year, names))(t))
            <==> forall x :: x in e.lines ==> LineExports(l.years[year], names, e, x)
  {
    var data := ExportDataOf(l, year, names);
    hide NamesFit, ExportDataOf, HasIso, SieParser.IsAccountNumber, LineExports, SieExportable.LinePrintsWell,
         SieExportable.LineChecks, LineOk, ExportedLine, Map;
    SieExportable.MapAll(e.lines, ExportedLine(l, e), LinePart(data));
    forall x | x in e.lines ensures LinePart(data)(ExportedLine(l, e)(x)) == LineExports(l.years[year], names, e, x) {
      LineAccounts(l, e, x);
      LineIff(l, year, names, e, x);
    }
  }

  lemma DatedParts(l: Ledger, year: nat, e: Entry)
    requires year < |l.years| && Dated(l, year) && e in l.entries && PostedOf(year)(e)
    ensures HasIso(l.years[year].first) && HasIso(l.years[year].last) && DatedEntry(e) && HasIso(e.date)
  {
    hide HasIso;
  }

  lemma HeadIff(l: Ledger, e: Entry)
    requires e.series < |l.series| && e.number.Some? && e.number.value >= 1
    ensures var v := ExportedVoucher(l)(e);
            SieAccepts.HeadFits(v) && SiePrints.IsText(v.text) <==>
            SieParser.IsIdentifier(l.series[e.series].code) && e.number.value < 2147483647 && IsRemark(e.text)
  {
    hide ExportedVoucher, SiePrints.IsText, SieParser.Units, SieParser.IsIdentifier, SieParser.IsVoucherNumber,
         SieText.Digits, ExportedLine;
    VoucherFields(l, e);
    NumberIff(e.number.value);
  }

  lemma DayIff(l: Ledger, year: nat, names: Names, e: Entry)
    requires year < |l.years| && HasIso(l.years[year].first) && HasIso(l.years[year].last) && HasIso(e.date)
    requires e.series < |l.series| && e.number.Some? && e.number.value >= 0
    ensures var v := ExportedVoucher(l)(e);
            SieText.SieDate(v.date).Some?
              && (SieExportable.Within(v.date, ExportDataOf(l, year, names).year) <==>
                 l.years[year].first <= e.date <= l.years[year].last)
  {
    hide *;
    VoucherFields(l, e);
    IsoReads(e.date);
    LineDateIff(l, year, names, e.date);
  }

  lemma EntryExportsIs(l: Ledger, y: Year, names: Names, e: Entry)
    requires e.series < |l.series| && e.number.Some? && e.number.value >= 1
    ensures EntryExports(l, y, names, e) <==>
            (SieParser.IsIdentifier(l.series[e.series].code) && e.number.value < 2147483647 && IsRemark(e.text))
            && forall x :: x in e.lines ==> LineExports(y, names, e, x)
  {
    hide SieParser.IsIdentifier, IsRemark, LineExports;
  }

  lemma VoucherStandsIs(l: Ledger, data: SieExport.ExportData, e: Entry)
    requires e.series < |l.series| && e.number.Some? && e.number.value >= 1
    ensures var v := ExportedVoucher(l)(e);
            VoucherStands(data, v) <==>
            SieAccepts.HeadFits(v) && SiePrints.IsText(v.text) && SieText.SieDate(v.date).Some? && SieParser.Balanced(v)
            && SieExportable.Within(v.date, data.year) && forall t :: t in Map(e.lines, ExportedLine(l, e)) ==>
               LinePart(data)(t)
  {
    VoucherFields(l, e);
    hide ExportedVoucher, SieAccepts.HeadFits, SiePrints.IsText, SieText.SieDate, SieParser.Balanced,
         SieExportable.Within, LinePart, Map, ExportedLine;
  }

  lemma BalancedWhenFits(l: Ledger, y: Year, names: Names, e: Entry)
    requires Journal.Postable(e.lines)
    requires forall x :: x in e.lines ==> LineOk(|l.accounts|, x) && LineExports(y, names, e, x)
    ensures SieParser.Balanced(ExportedVoucher(l)(e))
  {
    hide *;
    forall x | x in e.lines ensures AmountFits(x.debit - x.credit) { LineAmount(y, names, e, x); }
    BalancedExport(l, e);
  }

  lemma VoucherIff(l: Ledger, year: nat, names: Names, e: Entry)
    requires Inv(l) && e in l.entries && PostedOf(year)(e) && NamesFit(names)
    requires year < |l.years| && Dated(l, year) && forall a :: a in l.accounts ==> SieParser.IsAccountNumber(a.number)
    ensures var v := ExportedVoucher(l)(e);
            SieExportable.VoucherPrintsWell(v) && SieExportable.VoucherChecks(ExportDataOf(l, year, names), v)
            <==> EntryExports(l, l.years[year], names, e)
  {
    hide *;
    var v, y, data := ExportedVoucher(l)(e), l.years[year], ExportDataOf(l, year, names);
    VoucherParts(l, year, e);
    DatedParts(l, year, e);
    VoucherStandsIff(data, v);
    VoucherStandsIs(l, data, e);
    HeadIff(l, e);
    DayIff(l, year, names, e);
    LinesIff(l, year, names, e);
    EntryExportsIs(l, y, names, e);
    if forall x :: x in e.lines ==> LineExports(y, names, e, x) { BalancedWhenFits(l, y, names, e); }
  }

  lemma LineAmount(y: Year, names: Names, e: Entry, x: Line)
    requires LineExports(y, names, e, x)
    ensures AmountFits(x.debit - x.credit)
  {
  }

  // ---------------------------------------------------------------- balances

  lemma AccountAt(l: Ledger, a: nat)
    requires a < |l.accounts| && forall x :: x in l.accounts ==> SieParser.IsAccountNumber(x.number)
    ensures NumberOf(l, a) == l.accounts[a].number && SieParser.IsAccountNumber(NumberOf(l, a))
  {
    hide SieParser.IsAccountNumber;
    assert l.accounts[a] in l.accounts;
  }

  lemma ResultOpens(l: Ledger, year: nat, a: nat)
    requires Inv(l) && year < |l.years| && a < |l.accounts|
    requires SieExport.IsResultKind(SieExport.KindIn(Map(l.accounts, ExportedAccount()), l.accounts[a].number))
    ensures AccountingData.OpeningNet(l.years[year].ib, a) == 0
  {
    assert AccountsOk(l.accounts);
    hide Inv, SieExport.KindIn, SieExport.IsResultKind, AccountingData.OpeningNet, Map;
    var b := SieWholeTrip.ResultAccountIn(l.accounts, l.accounts[a].number);
    assert a < b || a == b || b < a;
    SieWholeTrip.ResultOpensAtZero(l, year, a);
  }

  lemma BalanceIff(l: Ledger, year: nat, a: nat)
    requires Inv(l) && year < |l.years| && a < |l.accounts|
    requires forall x :: x in l.accounts ==> SieParser.IsAccountNumber(x.number)
    ensures SiePrints.BalanceFits(Map(l.accounts, ExportedAccount()), ExportedBalance(l, year)(a)) <==>
            BalanceAmountsFit(l, year, a)
  {
    AccountAt(l, a);
    var b := ExportedBalance(l, year)(a);
    var accounts := Map(l.accounts, ExportedAccount());
    hide Inv, SieExport.KindIn, SieExport.IsResultKind, AccountingData.OpeningNet, ClosingOn, Map, SieText.MoneyCents,
         SieText.CentsMoney, AmountFits, SieParser.IsAccountNumber;
    MoneyFits(AccountingData.OpeningNet(l.years[year].ib, a));
    MoneyFits(ClosingOn(l, year, a));
    if SieExport.IsResultKind(SieExport.KindIn(accounts, l.accounts[a].number)) { ResultOpens(l, year, a); }
    MoneyIsRead(AccountingData.OpeningNet(l.years[year].ib, a));
  }

  lemma MoneyIsRead(v: int)
    ensures AmountFits(v) ==> SieText.MoneyCents(SieText.CentsMoney(v)) == Some(v)
  {
    SieText.MoneyRoundTrip(v);
    hide SieText.MoneyCents, SieText.CentsMoney, SieText.Pow10;
  }

  function FitsPart(accounts: seq<SieParser.Account>): SieExport.ExportBalance -> bool {
    (b: SieExport.ExportBalance) => SiePrints.BalanceFits(accounts, b)
  }

  lemma BalancesIff(l: Ledger, year: nat)
    requires Inv(l) && year < |l.years| && forall x :: x in l.accounts ==> SieParser.IsAccountNumber(x.number)
    ensures (forall b :: b in Map(OpeningBalances.Upto(|l.accounts|), ExportedBalance(l, year)) ==>
              SiePrints.BalanceFits(Map(l.accounts, ExportedAccount()), b))
            <==> forall a: nat :: a < |l.accounts| ==> BalanceAmountsFit(l, year, a)
  {
    var ks, accounts := OpeningBalances.Upto(|l.accounts|), Map(l.accounts, ExportedAccount());
    UptoMembers(|l.accounts|);
    hide Inv, SiePrints.BalanceFits, BalanceAmountsFit, ExportedBalance, Map, SieParser.IsAccountNumber,
         OpeningBalances.Upto;
    SieExportable.MapAll(ks, ExportedBalance(l, year), FitsPart(accounts));
    forall a | a in ks ensures FitsPart(accounts)(ExportedBalance(l, year)(a)) == BalanceAmountsFit(l, year, a) {
      BalanceIff(l, year, a);
    }
    assert forall b :: FitsPart(accounts)(b) == SiePrints.BalanceFits(accounts, b);
  }

  lemma UptoMembers(n: nat)
    ensures forall a: nat :: a in OpeningBalances.Upto(n) <==> a < n
  {
    var ks := OpeningBalances.Upto(n);
    forall a: nat | a < n ensures a in ks { assert ks[a] == a; }
  }

  lemma BalancesUnique(l: Ledger, year: nat)
    requires AccountsOk(l.accounts) && year < |l.years|
    ensures SieAccepts.Unique(Map(OpeningBalances.Upto(|l.accounts|), ExportedBalance(l, year)),
            SieExportable.BalanceKey())
  {
    hide AccountingData.OpeningNet, ClosingOn, SieText.CentsMoney;
  }

  lemma OpeningsBalance(l: Ledger, year: nat)
    requires Inv(l) && year < |l.years| && forall a: nat :: a < |l.accounts| ==> BalanceAmountsFit(l, year, a)
    ensures SumOf(Map(OpeningBalances.Upto(|l.accounts|), ExportedBalance(l, year)), SieExportable.OpeningRead()) == 0
  {
    var ks, ib, g := OpeningBalances.Upto(|l.accounts|), l.years[year].ib, ExportedBalance(l, year);
    assert IbOk(l, ib);
    UptoMembers(|l.accounts|);
    hide Inv, IbOk, AccountingData.OpeningNet, ClosingOn, SieText.CentsMoney, SieParser.CentsOf, AmountFits,
         OpeningBalances.Upto;
    ReportLaws.OpeningsPair(l, ib);
    forall a | a in ks ensures Then(g, SieExportable.OpeningRead())(a) == ReportLaws.OpeningOf(ib)(a) {
      assert BalanceAmountsFit(l, year, a);
      MoneyFits(AccountingData.OpeningNet(ib, a));
    }
    SumMap(ks, g, SieExportable.OpeningRead());
    SumExt(ks, Then(g, SieExportable.OpeningRead()), ReportLaws.OpeningOf(ib));
  }

  // ---------------------------------------------------------------- movements

  function EntryNet(a: nat): Entry -> int { (e: Entry) => SumOf(e.lines, NetOn(a)) }

  lemma {:induction false} PostedSum(entries: seq<Entry>, year: nat, a: nat)
    ensures SumOf(PostedLines(entries, year), NetOn(a)) == SumOf(Filter(entries, PostedOf(year)), EntryNet(a))
  {
    if |entries| > 0 {
      var front, e := entries[..|entries| - 1], entries[|entries| - 1];
      PostedSum(front, year, a);
      if PostedOf(year)(e) {
        SumAppend(PostedLines(front, year), e.lines, NetOn(a));
        SumSnoc(Filter(front, PostedOf(year)), e, EntryNet(a));
      }
    }
  }

  lemma LineMoves(l: Ledger, e: Entry, x: Line, a: nat)
    requires AccountsOk(l.accounts) && a < |l.accounts| && x.account < |l.accounts| && AmountFits(x.debit - x.credit)
    ensures SieParser.OnAccount(NumberOf(l, a))(ExportedLine(l, e)(x)) == NetOn(a)(x)
  {
    MoneyFits(x.debit - x.credit);
    LineFields(l, e, x);
    hide ExportedLine, SieText.CentsMoney, SieParser.CentsOf, AmountFits;
    assert x.account < a || x.account == a || a < x.account;
  }

  lemma EntryMoves(l: Ledger, e: Entry, a: nat)
    requires AccountsOk(l.accounts) && a < |l.accounts|
    requires forall x :: x in e.lines ==> x.account < |l.accounts| && AmountFits(x.debit - x.credit)
    ensures SieExportable.MovedOn(NumberOf(l, a))(ExportedVoucher(l)(e)) == EntryNet(a)(e)
  {
    var g, f := ExportedLine(l, e), SieParser.OnAccount(NumberOf(l, a));
    assert ExportedVoucher(l)(e).transactions == Map(e.lines, g);
    hide AccountsOk, ExportedLine, ExportedVoucher, AmountFits, NumberOf, SieParser.OnAccount, NetOn;
    forall x | x in e.lines ensures Then(g, f)(x) == NetOn(a)(x) { LineMoves(l, e, x, a); }
    SumMap(e.lines, g, f);
    SumExt(e.lines, Then(g, f), NetOn(a));
  }

  /** The exported vouchers move what the posted lines of the year do. */
  lemma VouchersMove(l: Ledger, year: nat, a: nat)
    requires AccountsOk(l.accounts) && a < |l.accounts|
    requires forall e :: e in l.entries && PostedOf(year)(e) ==> forall x :: x in e.lines ==>
             x.account < |l.accounts| && AmountFits(x.debit - x.credit)
    ensures SumOf(ExportedVouchers(l, year), SieExportable.MovedOn(NumberOf(l, a)))
            == SumOf(PostedLines(l.entries, year), NetOn(a))
  {
    var posted := Filter(l.entries, PostedOf(year));
    var sorted := Sort(posted, ByDateNumber());
    var g, f := ExportedVoucher(l), SieExportable.MovedOn(NumberOf(l, a));
    assert ExportedVouchers(l, year) == Map(sorted, g);
    SieExportable.SortedAll(posted, ByDateNumber());
    hide AccountsOk, ExportedVoucher, AmountFits, NumberOf, SieExportable.MovedOn, EntryNet, Sort, Filter,
         ExportedVouchers;
    PostedSum(l.entries, year, a);
    SumMap(sorted, g, f);
    forall e | e in sorted ensures Then(g, f)(e) == EntryNet(a)(e) { EntryMoves(l, e, a); }
    SumExt(sorted, Then(g, f), EntryNet(a));
    SumPermuted(sorted, posted, EntryNet(a));
  }

  lemma PostedFit(l: Ledger, year: nat, names: Names, e: Entry, x: Line)
    requires Inv(l) && year < |l.years| && e in l.entries && PostedOf(year)(e)
    requires EntryExports(l, l.years[year], names, e) && x in e.lines
    ensures x.account < |l.accounts| && AmountFits(x.debit - x.credit)
  {
    VoucherParts(l, year, e);
    hide Inv, AmountFits, IsRemark, Known, SieParser.IsIdentifier;
    assert LineOk(|l.accounts|, x);
  }

  lemma ClosingIs(l: Ledger, year: nat, a: nat)
    requires year < |l.years| && BalanceAmountsFit(l, year, a)
    ensures var b := ExportedBalance(l, year)(a);
            SieParser.CentsOf(b.closing) == SieParser.CentsOf(b.opening) + SumOf(PostedLines(l.entries, year), NetOn(a))
  {
    hide AccountingData.OpeningNet, PostedLines, SumOf, SieText.CentsMoney, SieParser.CentsOf, AmountFits;
    MoneyFits(AccountingData.OpeningNet(l.years[year].ib, a));
    MoneyFits(ClosingOn(l, year, a));
  }

  /** In a ledger in order the balances of an export always agree with its vouchers. */
  lemma BalancesAgree(l: Ledger, year: nat, names: Names)
    requires Inv(l) && year < |l.years| && forall a: nat :: a < |l.accounts| ==> BalanceAmountsFit(l, year, a)
    requires forall e :: e in l.entries && PostedOf(year)(e) ==> EntryExports(l, l.years[year], names, e)
    ensures SieExportable.BalancesCheck(ExportDataOf(l, year, names))
  {
    var data := ExportDataOf(l, year, names);
    var bs := Map(OpeningBalances.Upto(|l.accounts|), ExportedBalance(l, year));
    assert AccountsOk(l.accounts) && data.balances == bs && data.vouchers == ExportedVouchers(l, year);
    hide Inv, AccountsOk, ExportDataOf, EntryExports, AmountFits, ExportedVouchers, PostedLines, SumOf,
         SieParser.CentsOf, SieAccepts.Unique, BalanceAmountsFit, AccountingData.OpeningNet, ClosingOn,
         SieText.CentsMoney, SieExportable.MovedOn;
    BalancesUnique(l, year);
    OpeningsBalance(l, year);
    forall e, x | e in l.entries && PostedOf(year)(e) && x in e.lines
      ensures x.account < |l.accounts| && AmountFits(x.debit - x.credit)
    {
      PostedFit(l, year, names, e, x);
    }
    forall b | b in data.balances
      ensures SieParser.CentsOf(b.closing)
              == SieParser.CentsOf(b.opening) + SumOf(data.vouchers, SieExportable.MovedOn(b.account))
    {
      var a := SieWholeTrip.BalanceOf(l, year, b);
      ClosingIs(l, year, a);
      VouchersMove(l, year, a);
    }
  }

  // ---------------------------------------------------------------- voucher identities

  function IdentityOf(l: Ledger): Entry -> (string, string) { Then(ExportedVoucher(l), SieAccepts.VoucherKey()) }

  lemma DigitsDiffer(m: nat, n: nat)
    requires m != n
    ensures SieText.Digits(m) != SieText.Digits(n)
  {
    SieText.ValueOfDigits(m);
    SieText.ValueOfDigits(n);
    hide SieText.Digits, SieText.Value;
  }

  lemma IdentitiesDiffer(l: Ledger, year: nat, i: nat, j: nat)
    requires Inv(l) && i < j < |l.entries| && PostedOf(year)(l.entries[i]) && PostedOf(year)(l.entries[j])
    ensures IdentityOf(l)(l.entries[i]) != IdentityOf(l)(l.entries[j])
  {
    var d, e := l.entries[i], l.entries[j];
    assert EntryOk(l, d) && EntryOk(l, e) && !SameNumber(d, e);
    VoucherFields(l, d);
    VoucherFields(l, e);
    if d.series == e.series { DigitsDiffer(d.number.value, e.number.value); }
    hide ExportedVoucher, SieText.Digits, EntryOk, YearsOk, CarriesOk, AccountsOk;
  }

  lemma {:induction false} FilterUnique<T(!new), K>(s: seq<T>, p: T -> bool, key: T -> K)
    requires forall i, j :: 0 <= i < j < |s| && p(s[i]) && p(s[j]) ==> key(s[i]) != key(s[j])
    ensures SieAccepts.Unique(Filter(s, p), key)
  {
    if |s| > 0 {
      var front, x := s[..|s| - 1], s[|s| - 1];
      FilterUnique(front, p, key);
      if p(x) {
        var r := Filter(front, p);
        forall y | y in r ensures key(y) != key(x) {
          var i :| 0 <= i < |front| && front[i] == y;
          assert s[i] == y && p(s[i]);
        }
        SieAccepts.UniqueSnoc(r, x, key);
      }
    }
  }

  lemma VouchersUnique(l: Ledger, year: nat)
    requires Inv(l)
    ensures SieAccepts.Unique(ExportedVouchers(l, year), SieAccepts.VoucherKey())
  {
    var posted := Filter(l.entries, PostedOf(year));
    var sorted := Sort(posted, ByDateNumber());
    hide Inv, Filter, Sort, ExportedVoucher, IdentityOf;
    forall i, j | 0 <= i < j < |l.entries| && PostedOf(year)(l.entries[i]) && PostedOf(year)(l.entries[j])
      ensures IdentityOf(l)(l.entries[i]) != IdentityOf(l)(l.entries[j])
    {
      IdentitiesDiffer(l, year, i, j);
    }
    FilterUnique(l.entries, PostedOf(year), IdentityOf(l));
    SieAccepts.UniquePermuted(sorted, posted, IdentityOf(l));
    UniqueMap(l, sorted);
  }

  lemma UniqueMap(l: Ledger, s: seq<Entry>)
    requires SieAccepts.Unique(s, IdentityOf(l))
    ensures SieAccepts.Unique(Map(s, ExportedVoucher(l)), SieAccepts.VoucherKey())
  {
    hide ExportedVoucher;
    var m := Map(s, ExportedVoucher(l));
    forall i, j | 0 <= i < j < |m| ensures SieAccepts.VoucherKey()(m[i]) != SieAccepts.VoucherKey()(m[j]) {
      assert IdentityOf(l)(s[i]) != IdentityOf(l)(s[j]);
    }
  }

  // ---------------------------------------------------------------- the whole year

  function StandsPart(data: SieExport.ExportData): SieParser.Voucher -> bool {
    (v: SieParser.Voucher) => SieExportable.VoucherPrintsWell(v) && SieExportable.VoucherChecks(data, v)
  }

  lemma EntriesIff(l: Ledger, year: nat, names: Names)
    requires Inv(l) && year < |l.years| && Dated(l, year) && NamesFit(names)
    requires forall a :: a in l.accounts ==> SieParser.IsAccountNumber(a.number)
    ensures (forall v :: v in ExportedVouchers(l, year) ==> StandsPart(ExportDataOf(l, year, names))(v))
            <==> forall e :: e in l.entries && PostedOf(year)(e) ==> EntryExports(l, l.years[year], names, e)
  {
    var data := ExportDataOf(l, year, names);
    var posted := Filter(l.entries, PostedOf(year));
    var sorted := Sort(posted, ByDateNumber());
    SieExportable.SortedAll(posted, ByDateNumber());
    assert ExportedVouchers(l, year) == Map(sorted, ExportedVoucher(l));
    hide Inv, Dated, NamesFit, SieParser.IsAccountNumber, ExportDataOf, EntryExports, ExportedVoucher,
         SieExportable.VoucherPrintsWell, SieExportable.VoucherChecks, Sort, Filter, ExportedVouchers, Map;
    SieExportable.MapAll(sorted, ExportedVoucher(l), StandsPart(data));
    forall e | e in sorted ensures StandsPart(data)(ExportedVoucher(l)(e)) == EntryExports(l, l.years[year], names, e) {
      VoucherIff(l, year, names, e);
    }
  }

  /** The parts of exported data. */
  lemma DataParts(l: Ledger, year: nat, names: Names)
    requires year < |l.years|
    ensures var data := ExportDataOf(l, year, names);
            && data.accounts == Map(l.accounts, ExportedAccount()) && data.objects == names.objects
            && data.balances == Map(OpeningBalances.Upto(|l.accounts|), ExportedBalance(l, year))
            && data.vouchers == ExportedVouchers(l, year)
  {
    hide ExportedVouchers, ExportedBalance, ExportedAccount, Map;
  }

  lemma ExportableIs(data: SieExport.ExportData)
    ensures SieExportable.Exportable(data) <==>
            (SiePrints.HeaderFits(data) && SieAccepts.YearInOrder(data.year))
            && ((forall a :: a in data.accounts ==> SieExportable.AccountFits(a))
               && SieAccepts.Unique(data.accounts, SieAccepts.AccountKey()))
            && ((forall b :: b in data.balances ==> SiePrints.BalanceFits(data.accounts, b))
               && SieExportable.BalancesCheck(data))
            && ((forall o :: o in data.objects ==> SieExportable.ObjectPrintsWell(o))
               && SieAccepts.Unique(data.objects, SieAccepts.ObjectKey()))
            && ((forall v :: v in data.vouchers ==> StandsPart(data)(v))
               && SieAccepts.Unique(data.vouchers, SieAccepts.VoucherKey()))
  {
    hide SiePrints.HeaderFits, SieAccepts.YearInOrder, SieExportable.AccountFits, SieAccepts.Unique,
         SiePrints.BalanceFits, SieExportable.BalancesCheck, SieExportable.ObjectPrintsWell,
         SieExportable.VoucherPrintsWell, SieExportable.VoucherChecks;
    assert forall v ::
      StandsPart(data)(v) == (SieExportable.VoucherPrintsWell(v) && SieExportable.VoucherChecks(data, v));
  }

  predicate HeadNamesFit(names: Names) {
    && SieText.SieDate(names.generated).Some? && SiePrints.IsText(names.name)
    && (names.number.Some? && names.number.value != "" ==> SiePrints.IsText(names.number.value))
  }

  lemma YearFitsIs(l: Ledger, year: nat, names: Names)
    requires year < |l.years|
    ensures YearFits(l, year, names) <==>
            SizesFit(l, year) && NamesFit(names) && (forall a :: a in l.accounts ==> AccountNamed(a))
            && (forall a: nat :: a < |l.accounts| ==> BalanceAmountsFit(l, year, a))
            && (forall e :: e in l.entries && PostedOf(year)(e) ==> EntryExports(l, l.years[year], names, e))
    ensures NamesFit(names) <==>
            HeadNamesFit(names) && (forall o :: o in names.objects ==> SieExportable.ObjectPrintsWell(o))
                                 && SieAccepts.Unique(names.objects, SieAccepts.ObjectKey())
  {
    hide SizesFit, AccountNamed, BalanceAmountsFit, EntryExports, SiePrints.IsText, SieText.SieDate,
         SieExportable.ObjectPrintsWell, SieAccepts.Unique;
  }

  lemma InvAccounts(l: Ledger)
    requires Inv(l)
    ensures AccountsOk(l.accounts)
  {
  }

  lemma HeadIs(l: Ledger, year: nat, names: Names)
    requires Inv(l) && year < |l.years| && Dated(l, year)
    ensures SieAccepts.YearInOrder(ExportDataOf(l, year, names).year)
    ensures SiePrints.HeaderFits(ExportDataOf(l, year, names)) <==> HeadNamesFit(names)
  {
    HeaderIff(l, year, names);
    hide Inv, Dated, ExportDataOf, SiePrints.HeaderFits, SieAccepts.YearInOrder, SiePrints.IsText, SieText.SieDate;
  }

  lemma NamedAreNumbered(accounts: seq<Account>)
    requires forall a :: a in accounts ==> AccountNamed(a)
    ensures forall a :: a in accounts ==> SieParser.IsAccountNumber(a.number)
  {
  }

  lemma DataIff(l: Ledger, year: nat, names: Names)
    requires Inv(l) && year < |l.years| && Dated(l, year) && SizesFit(l, year)
    requires forall a :: a in l.accounts ==> SieParser.IsAccountNumber(a.number)
    ensures SieExportable.Exportable(ExportDataOf(l, year, names)) <==> YearFits(l, year, names)
  {
    hide *;
    var data := ExportDataOf(l, year, names);
    ExportableIs(data);
    YearFitsIs(l, year, names);
    DataParts(l, year, names);
    InvAccounts(l);
    HeadIs(l, year, names);
    AccountsIff(l.accounts);
    BalancesIff(l, year);
    VouchersUnique(l, year);
    if NamesFit(names) {
      EntriesIff(l, year, names);
      if (forall a: nat :: a < |l.accounts| ==> BalanceAmountsFit(l, year, a))
         && (forall e :: e in l.entries && PostedOf(year)(e) ==> EntryExports(l, l.years[year], names, e)) {
        BalancesAgree(l, year, names);
      }
    }
  }

  lemma NumberIsNumber(s: string)
    requires SieParser.IsAccountNumber(s)
    ensures SieReplay.IsNumber(s)
  {
  }

  lemma LineWell(l: Ledger, e: Entry, x: Line)
    requires LineOk(|l.accounts|, x) && x in e.lines
    requires forall a :: a in l.accounts ==> SieParser.IsAccountNumber(a.number)
    ensures SieRoundTrip.WellFormedLine(ExportedLine(l, e)(x))
  {
    LineAccounts(l, e, x);
    LineFields(l, e, x);
    hide ExportedLine, NumberOf, SieText.CentsMoney, SieParser.IsAccountNumber, LineOk;
    NumberIsNumber(NumberOf(l, x.account));
  }

  lemma VoucherWell(l: Ledger, year: nat, e: Entry)
    requires Inv(l) && e in l.entries && PostedOf(year)(e)
    requires forall a :: a in l.accounts ==> SieParser.IsAccountNumber(a.number)
    ensures SieRoundTrip.WellFormedVoucher(ExportedVoucher(l)(e))
  {
    VoucherParts(l, year, e);
    VoucherFields(l, e);
    hide Inv, ExportedVoucher, ExportedLine, SieRoundTrip.WellFormedLine, LineOk, SieParser.IsAccountNumber,
         SieText.Digits;
    var v := ExportedVoucher(l)(e);
    forall t | t in v.transactions ensures SieRoundTrip.WellFormedLine(t) {
      var i :| 0 <= i < |v.transactions| && v.transactions[i] == t;
      assert e.lines[i] in e.lines;
      LineWell(l, e, e.lines[i]);
    }
  }

  lemma DataWell(l: Ledger, year: nat, names: Names)
    requires Inv(l) && year < |l.years| && (forall a :: a in l.accounts ==> SieParser.IsAccountNumber(a.number))
    requires forall o :: o in names.objects ==> SieParser.IsDimension(o.dimension)
    ensures SieRoundTrip.WellFormed(ExportDataOf(l, year, names))
  {
    var posted := Filter(l.entries, PostedOf(year));
    var sorted := Sort(posted, ByDateNumber());
    SieExportable.SortedAll(posted, ByDateNumber());
    DataParts(l, year, names);
    var vs := ExportedVouchers(l, year);
    assert vs == Map(sorted, ExportedVoucher(l));
    hide Inv, SieParser.IsAccountNumber, SieRoundTrip.WellFormedVoucher, ExportedVoucher, ExportDataOf,
         ExportedVouchers, Sort, Filter, SieParser.IsDimension;
    forall v | v in vs ensures SieRoundTrip.WellFormedVoucher(v) {
      var i :| 0 <= i < |vs| && vs[i] == v;
      assert sorted[i] in sorted;
      VoucherWell(l, year, sorted[i]);
    }
  }

  lemma {:induction false} EachOk<T(!new)>(s: seq<T>, f: T -> SieExport.Records)
    requires SieExport.Each(s, f).Ok?
    ensures forall x :: x in s ==> f(x).Ok?
  {
    if |s| > 0 { EachOk(s[..|s| - 1], f); }
  }

  /** An account whose number is no account number of the format stops every export. */
  lemma ExportNeedsNumbers(data: SieExport.ExportData, collate: SieExport.Collation)
    requires SieExport.Export(data, collate).Ok?
    ensures forall a :: a in data.accounts ==> SieParser.IsAccountNumber(a.number)
  {
    SieExportable.PrintsMeans(data, collate);
    var accounts := Sort(data.accounts, SieExport.ByNumber(collate));
    SieExportable.SortedAll(data.accounts, SieExport.ByNumber(collate));
    assert SieExport.AllRecords(data, collate).Ok? ==> SieExport.Each(accounts, SieExport.AccountRecords()).Ok? by {
      hide SieExport.Each, SieExport.HeaderRecords, Sort, SieExport.AccountRecords, SieExport.BalanceRecords,
           SieExport.ObjectRecords, SieExport.VoucherRecords;
    }
    EachOk(accounts, SieExport.AccountRecords());
    hide SieExport.Export, SieExport.AllRecords, SieExport.Each, Sort, SieParser.IsAccountNumber;
    forall a | a in data.accounts ensures SieParser.IsAccountNumber(a.number) {
      assert a in accounts; NumberedRecord(a);
    }
  }

  lemma NumberedRecord(a: SieParser.Account)
    requires SieExport.AccountRecords()(a).Ok?
    ensures SieParser.IsAccountNumber(a.number)
  {
  }

  lemma NumbersOf(l: Ledger, year: nat, names: Names)
    requires year < |l.years|
    requires forall a :: a in ExportDataOf(l, year, names).accounts ==> SieParser.IsAccountNumber(a.number)
    ensures forall a :: a in l.accounts ==> SieParser.IsAccountNumber(a.number)
  {
    DataParts(l, year, names);
    hide ExportDataOf, SieParser.IsAccountNumber;
    forall a | a in l.accounts ensures SieParser.IsAccountNumber(a.number) {
      var i :| 0 <= i < |l.accounts| && l.accounts[i] == a;
      assert ExportDataOf(l, year, names).accounts[i].number == a.number;
    }
  }

  lemma ContextIff(l: Ledger, year: nat)
    requires Inv(l)
    ensures AccountingData.ContextError(l, year).None? <==> year < |l.years| && SizesFit(l, year)
  {
    if year < |l.years| && SizesFit(l, year) { ReportLaws.ContextIsSound(l, year); }
    hide Inv, AccountingData.RowsSound, SumOf;
  }

  lemma ExportYearIs(l: Ledger, year: nat, names: Names, collate: SieExport.Collation)
    ensures SieWholeTrip.ExportYear(l, year, names, collate).Ok? <==>
            AccountingData.ContextError(l, year).None? && year < |l.years|
              && SieExport.Export(ExportDataOf(l, year, names), collate).Ok?
  {
    hide ExportDataOf, SieExport.AllRecords, SieExport.Texts, SieLines.Joined, SieParser.Parse, SieText.Encode;
  }

  /** The export of a year of a ledger in order succeeds exactly when the names of the organization, of its accounts,
      series and objects can be written, amounts and voucher numbers are within the format, and every line of the year
      is dated in the year, if at all, and names known objects. Neither the read-back check nor the balances can refuse
      anything else. */
  lemma YearExportsIff(l: Ledger, year: nat, names: Names, collate: SieExport.Collation)
    requires Inv(l) && (year < |l.years| ==> Dated(l, year))
    requires forall o :: o in names.objects ==> SieParser.IsDimension(o.dimension)
    ensures SieWholeTrip.ExportYear(l, year, names, collate).Ok? <==> year < |l.years| && YearFits(l, year, names)
  {
    hide *;
    ExportYearIs(l, year, names, collate);
    ContextIff(l, year);
    if year < |l.years| {
      YearFitsIs(l, year, names);
      var data := ExportDataOf(l, year, names);
      if SieExport.Export(data, collate).Ok? {
        ExportNeedsNumbers(data, collate);
        NumbersOf(l, year, names);
      }
      if YearFits(l, year, names) { NamedAreNumbered(l.accounts); }
      if SizesFit(l, year) && forall a :: a in l.accounts ==> SieParser.IsAccountNumber(a.number) {
        DataWell(l, year, names);
        SieExportable.ExportSucceedsIff(data, collate);
        DataIff(l, year, names);
      }
    }
  }

  // ---------------------------------------------------------------- in every run

  lemma DayHasIso(n: int)
    requires StoredForm.IsDay(n)
    ensures HasIso(n)
  {
    hide HasIso, Calendar.DayNumber, Calendar.Valid;
    var d: Calendar.Date :| Journal.DayOf(d) == Some(n);
    ValidDay(d);
    DateHasIso(d);
  }

  lemma ValidDay(d: Calendar.Date)
    requires Journal.DayOf(d).Some?
    ensures Calendar.Valid(d) && Journal.DayOf(d).value == Calendar.DayNumber(d)
  {
    hide Calendar.DayNumber;
  }

  lemma EntryIsDated(e: Entry)
    requires StoredForm.EntryInForm(e)
    ensures DatedEntry(e)
  {
    hide HasIso, StoredForm.IsDay, StoredForm.Stands;
    DayHasIso(e.date);
    forall x | x in e.lines && x.date.Some? ensures HasIso(x.date.value) { DayHasIso(x.date.value); }
  }

  lemma FormIsDated(l: Ledger, year: nat)
    requires StoredForm.InForm(l) && year < |l.years|
    ensures Dated(l, year)
  {
    hide HasIso, StoredForm.IsDay, StoredForm.EntryInForm, DatedEntry, PostedOf;
    assert l.years[year] in l.years;
    DayHasIso(l.years[year].first);
    DayHasIso(l.years[year].last);
    forall e | e in l.entries ensures DatedEntry(e) { EntryIsDated(e); }
  }

  /** In every ledger whose years were requested by dates, a year can be exported exactly when it fits. */
  lemma ReachableYearExportsIff(steps: seq<Step>, year: nat, names: Names, collate: SieExport.Collation)
    requires StoredForm.AllNameDays(steps) && forall o :: o in names.objects ==> SieParser.IsDimension(o.dimension)
    ensures SieWholeTrip.ExportYear(Run(NOTHING, steps), year, names, collate).Ok? <==>
            year < |Run(NOTHING, steps).years| && YearFits(Run(NOTHING, steps), year, names)
  {
    hide *;
    LedgerSafety.ReachableInOrder(steps);
    StoredForm.ReachableInForm(steps);
    if year < |Run(NOTHING, steps).years| { FormIsDated(Run(NOTHING, steps), year); }
    YearExportsIff(Run(NOTHING, steps), year, names, collate);
  }

  // ---------------------------------------------------------------- a correction dated in another year

  predicate Undated(xs: seq<Line>) { forall x :: x in xs ==> x.date.None? }

  /** The entry corrects, in its year, a voucher of another year whose lines carry dates. */
  predicate BringsDates(l: Ledger, e: Entry) {
    && e.reverses.Some? && e.reverses.value < |l.entries|
    && var o := l.entries[e.reverses.value]; o.year != e.year && !Undated(o.lines)
  }

  /** Every line date of what is posted in the year lies in it. */
  predicate LineDatesFit(l: Ledger, year: nat)
    requires year < |l.years|
  {
    forall e :: e in l.entries && PostedOf(year)(e) ==> StoredForm.DatedIn(l.years[year], e.lines)
  }

  lemma MirrorKeepsDates(y: Year, xs: seq<Line>)
    ensures StoredForm.DatedIn(y, Map(xs, Journal.Mirror())) <==> StoredForm.DatedIn(y, xs)
  {
    var m := Map(xs, Journal.Mirror());
    forall x | x in xs ensures exists z :: z in m && z.date == x.date {
      var i :| 0 <= i < |xs| && xs[i] == x;
      assert m[i] in m && m[i].date == x.date;
    }
    forall z | z in m ensures exists x :: x in xs && z.date == x.date {
      var i :| 0 <= i < |m| && m[i] == z;
      assert xs[i] in xs && xs[i].date == z.date;
    }
  }

  lemma OtherYearsDates(l: Ledger, a: nat, b: nat, xs: seq<Line>)
    requires YearsApart(l.years) && a < |l.years| && b < |l.years| && a != b && StoredForm.DatedIn(l.years[a], xs)
    ensures StoredForm.DatedIn(l.years[b], xs) <==> Undated(xs)
  {
    hide YearsApart;
    if !Undated(xs) {
      var x :| x in xs && x.date.Some?;
      YearsDisjoint(l, a, b, x.date.value);
    }
  }

  lemma CorrectionParts(l: Ledger, e: Entry)
    requires Inv(l) && e in l.entries
    ensures e.year < |l.years| && YearsApart(l.years)
    ensures e.reverses.Some? ==> e.posted && e.reverses.value < |l.entries|
    ensures e.reverses.Some? ==>
              var o := l.entries[e.reverses.value];
              o in l.entries && o.reverses.None? && o.year < |l.years| && e.lines == Map(o.lines, Journal.Mirror())
  {
    assert EntryOk(l, e);
    if e.reverses.Some? { assert EntryOk(l, l.entries[e.reverses.value]); }
  }

  /** A posted voucher has the dates of its year unless it brings them from another one. */
  lemma DatedUnless(l: Ledger, e: Entry)
    requires Inv(l) && StoredForm.AllOwnDates(l) && e in l.entries
    ensures e.year < |l.years| && (StoredForm.DatedIn(l.years[e.year], e.lines) <==> !BringsDates(l, e))
  {
    hide Inv, YearsApart, StoredForm.DatedIn, Journal.Mirror;
    CorrectionParts(l, e);
    assert StoredForm.OwnDates(l, e);
    if e.reverses.Some? {
      var o := l.entries[e.reverses.value];
      assert StoredForm.OwnDates(l, o);
      MirrorKeepsDates(l.years[e.year], o.lines);
      if o.year != e.year { OtherYearsDates(l, o.year, e.year, o.lines); }
    }
  }

  lemma FitIff(l: Ledger, year: nat)
    requires Inv(l) && StoredForm.AllOwnDates(l) && year < |l.years|
    ensures LineDatesFit(l, year) <==> forall e :: e in l.entries && e.year == year ==> !BringsDates(l, e)
  {
    hide Inv, StoredForm.AllOwnDates, StoredForm.DatedIn, BringsDates;
    forall e | e in l.entries && e.year == year
      ensures StoredForm.DatedIn(l.years[year], e.lines) <==> !BringsDates(l, e)
      ensures BringsDates(l, e) ==> e.posted
    {
      DatedUnless(l, e);
      BringerIsPosted(l, e);
    }
  }

  lemma BringerIsPosted(l: Ledger, e: Entry)
    requires Inv(l) && e in l.entries
    ensures BringsDates(l, e) ==> e.posted
  {
    hide Inv;
    CorrectionParts(l, e);
  }

  /** In every reachable ledger the line dates of a year fit unless a correction in it brings them from another. */
  lemma LineDatesFitIff(steps: seq<Step>, year: nat)
    requires year < |Run(NOTHING, steps).years|
    ensures LineDatesFit(Run(NOTHING, steps), year) <==>
            forall e :: e in Run(NOTHING, steps).entries && e.year == year ==> !BringsDates(Run(NOTHING, steps), e)
  {
    hide *;
    LedgerSafety.ReachableInOrder(steps);
    StoredForm.ReachableOwnDates(steps);
    FitIff(Run(NOTHING, steps), year);
  }

  lemma FittingDates(l: Ledger, year: nat, names: Names)
    requires year < |l.years| && YearFits(l, year, names)
    ensures LineDatesFit(l, year)
  {
    hide SizesFit, NamesFit, AccountNamed, BalanceAmountsFit, IsRemark, AmountFits, Known, SieParser.IsIdentifier;
  }

  lemma BroughtDoNotFit(l: Ledger, e: Entry)
    requires Inv(l) && StoredForm.AllOwnDates(l) && e in l.entries && BringsDates(l, e)
    ensures e.year < |l.years| && !LineDatesFit(l, e.year)
  {
    hide Inv, StoredForm.AllOwnDates, StoredForm.DatedIn, BringsDates;
    DatedUnless(l, e);
    BringerIsPosted(l, e);
  }

  /** A correction copies the line dates of its voucher. Posted in another year than its voucher, it bars the export of
      that year under every name and in every order of texts. */
  lemma CrossYearCorrectionBarsExport(steps: seq<Step>, e: Entry, names: Names, collate: SieExport.Collation)
    requires StoredForm.AllNameDays(steps) && forall o :: o in names.objects ==> SieParser.IsDimension(o.dimension)
    requires e in Run(NOTHING, steps).entries && BringsDates(Run(NOTHING, steps), e)
    ensures SieWholeTrip.ExportYear(Run(NOTHING, steps), e.year, names, collate).Err?
  {
    hide *;
    var l := Run(NOTHING, steps);
    LedgerSafety.ReachableInOrder(steps);
    StoredForm.ReachableOwnDates(steps);
    BroughtDoNotFit(l, e);
    if YearFits(l, e.year, names) { FittingDates(l, e.year, names); }
    ReachableYearExportsIff(steps, e.year, names, collate);
  }

  lemma YearsDisjoint(l: Ledger, a: nat, b: nat, day: int)
    requires YearsApart(l.years) && a < |l.years| && b < |l.years| && a != b
    requires l.years[a].first <= day <= l.years[a].last
    ensures !(l.years[b].first <= day <= l.years[b].last)
  {
    assert a < b || b < a;
  }
}
