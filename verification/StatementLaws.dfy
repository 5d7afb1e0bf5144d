/** What the lines of the reports mean, read off the books: trial balance, general ledger, balance sheet and income
    statement. */
module StatementLaws {
  import opened Common
  import opened LedgerModel
  import opened LedgerMachine
  import opened AccountingData
  import opened Reports
  import OpeningBalances
  import ReportLaws
  import SieText

  // ---------------------------------------------------------------- what is booked in an interval

  /** Debit, credit, and debit less credit of the lines of an account. */
  function DebitsOn(a: nat): Line -> int { (x: Line) => if x.account == a then x.debit else 0 }

  function CreditsOn(a: nat): Line -> int { (x: Line) => if x.account == a then x.credit else 0 }

  function NetsOn(a: nat): Line -> int { (x: Line) => if x.account == a then x.debit - x.credit else 0 }

  /** A weight of lines, summed up over the vouchers posted in the interval. */
  function BookedIn(year: nat, from: int, to: int, f: Line -> int): Entry -> int {
    (e: Entry) => if e.posted && e.year == year && from <= e.date <= to then SumOf(e.lines, f) else 0
  }

  lemma LinesAreBooked(entries: seq<Entry>, year: nat, from: int, to: int, f: Line -> int)
    ensures SumOf(LinesIn(entries, year, from, to), f) == SumOf(entries, BookedIn(year, from, to, f))
  {
    ReportLaws.SumOfLinesIn(entries, year, from, to, f);
    SumExt(entries, Where(Posting(year, from, to), ReportLaws.Weight(f)), BookedIn(year, from, to, f));
  }

  lemma MovedIsBooked(l: Ledger, year: nat, from: int, to: int, a: nat)
    ensures DebitMoved(l, year, from, to, NO_DIMENSIONS, a) == SumOf(l.entries, BookedIn(year, from, to, DebitsOn(a)))
    ensures CreditMoved(l, year, from, to, NO_DIMENSIONS, a) == SumOf(l.entries, BookedIn(year, from, to, CreditsOn(a)))
    ensures NetMoved(l, year, from, to, NO_DIMENSIONS, a) == SumOf(l.entries, BookedIn(year, from, to, NetsOn(a)))
  {
    var lines := LinesIn(l.entries, year, from, to);
    SumExt(lines, DebitOn(a, NO_DIMENSIONS), DebitsOn(a));
    SumExt(lines, CreditOn(a, NO_DIMENSIONS), CreditsOn(a));
    SumAdd(lines, NetsOn(a), CreditsOn(a), DebitsOn(a));
    LinesAreBooked(l.entries, year, from, to, DebitsOn(a));
    LinesAreBooked(l.entries, year, from, to, CreditsOn(a));
    LinesAreBooked(l.entries, year, from, to, NetsOn(a));
  }

  // ---------------------------------------------------------------- trial balance

  /** Debit less credit of the opening rows of an account. */
  function OpenedOn(a: nat): IbRow -> int { (r: IbRow) => if r.account == a then r.debit - r.credit else 0 }

  /** A balance stands on one side. */
  predicate OneSided(debit: int, credit: int) { debit >= 0 && credit >= 0 && (debit == 0 || credit == 0) }

  /** The row of an account: its opening balance is the opening row plus what was booked in the year before the
      interval, its movements are the debit and the credit booked in the interval, and its closing balance is the
      opening balance with the movements; balances stand on one side. */
  lemma TrialReadsBooks(l: Ledger, year: nat, from: int, to: int, t: Trial, a: nat)
    requires TrialBalance(l, year, from, to) == Ok(t) && a < |l.accounts|
    ensures year < |l.years| && a < |t.rows|
    ensures var row := t.rows[a];
            && row.openingDebit - row.openingCredit
               == SumOf(l.years[year].ib, OpenedOn(a))
                  + SumOf(l.entries, BookedIn(year, l.years[year].first, from - 1, NetsOn(a)))
            && row.periodDebit == SumOf(l.entries, BookedIn(year, from, to, DebitsOn(a)))
            && row.periodCredit == SumOf(l.entries, BookedIn(year, from, to, CreditsOn(a)))
            && row.closingDebit - row.closingCredit
               == row.openingDebit - row.openingCredit + row.periodDebit - row.periodCredit
            && OneSided(row.openingDebit, row.openingCredit) && OneSided(row.closingDebit, row.closingCredit)
  {
    ReportLaws.TrialParts(l, year, from, to, t);
    MovedIsBooked(l, year, from, to, a);
    MovedIsBooked(l, year, l.years[year].first, from - 1, a);
    SumExt(l.years[year].ib, IbOn(a), OpenedOn(a));
    NothingBefore(l, year, from, a);
    hide TrialBalance, DebitMoved, CreditMoved, SumOf;
  }

  lemma NothingBefore(l: Ledger, year: nat, from: int, a: nat)
    requires year < |l.years|
    ensures from <= l.years[year].first ==>
            SumOf(l.entries, BookedIn(year, l.years[year].first, from - 1, NetsOn(a))) == 0
  {
    if from <= l.years[year].first { SumZero(l.entries, BookedIn(year, l.years[year].first, from - 1, NetsOn(a))); }
  }

  function OpeningDebits(): TrialRow -> int { (r: TrialRow) => r.openingDebit }

  function OpeningCredits(): TrialRow -> int { (r: TrialRow) => r.openingCredit }

  function PeriodDebits(): TrialRow -> int { (r: TrialRow) => r.periodDebit }

  function PeriodCredits(): TrialRow -> int { (r: TrialRow) => r.periodCredit }

  function ClosingDebits(): TrialRow -> int { (r: TrialRow) => r.closingDebit }

  function ClosingCredits(): TrialRow -> int { (r: TrialRow) => r.closingCredit }

  /** The totals add up the rows, column by column. */
  lemma TotalsAddUp(l: Ledger, year: nat, from: int, to: int, t: Trial)
    requires TrialBalance(l, year, from, to) == Ok(t)
    ensures t.totals.openingDebit == SumOf(t.rows, OpeningDebits())
    ensures t.totals.openingCredit == SumOf(t.rows, OpeningCredits())
    ensures t.totals.periodDebit == SumOf(t.rows, PeriodDebits())
    ensures t.totals.periodCredit == SumOf(t.rows, PeriodCredits())
    ensures t.totals.closingDebit == SumOf(t.rows, ClosingDebits())
    ensures t.totals.closingCredit == SumOf(t.rows, ClosingCredits())
  {
    SumExt(t.rows, SideOf(OpeningDebit), OpeningDebits());
    SumExt(t.rows, SideOf(OpeningCredit), OpeningCredits());
    SumExt(t.rows, SideOf(PeriodDebit), PeriodDebits());
    SumExt(t.rows, SideOf(PeriodCredit), PeriodCredits());
    SumExt(t.rows, SideOf(ClosingDebit), ClosingDebits());
    SumExt(t.rows, SideOf(ClosingCredit), ClosingCredits());
    hide ContextError, TrialRowOf, SumOf;
  }

  // ---------------------------------------------------------------- general ledger

  /** The rows repeat debit and credit of the lines, and each balance is the one before with the line. */
  predicate RowsRun(opening: int, lines: seq<Line>, rows: seq<LedgerRow>) {
    |rows| == |lines| && forall i :: 0 <= i < |rows| ==> RowFollows(opening, lines[i], rows, i)
  }

  predicate RowFollows(opening: int, x: Line, rows: seq<LedgerRow>, i: nat)
    requires i < |rows|
  {
    && rows[i].debit == x.debit && rows[i].credit == x.credit
    && rows[i].running == (if i == 0 then opening else rows[i - 1].running) + x.debit - x.credit
  }

  lemma {:induction false} RunningRowsRun(opening: int, lines: seq<Line>)
    ensures RowsRun(opening, lines, RunningRows(opening, lines))
    ensures lines != [] ==>
              |RunningRows(opening, lines)| == |lines|
              && RunningRows(opening, lines)[|lines| - 1].running == opening + SumOf(lines, NetOf())
  {
    if |lines| > 0 {
      var n := |lines| - 1;
      RunningRowsRun(opening, lines[..n]);
      assert n == 0 ==> SumOf(lines[..n], NetOf()) == 0;
      var row := LedgerRow(lines[n].debit, lines[n].credit, opening + SumOf(lines, NetOf()));
      RowsSnoc(opening, lines[..n], RunningRows(opening, lines[..n]), lines[n], row);
      assert lines == lines[..n] + [lines[n]];
    }
  }

  lemma RowsSnoc(opening: int, lines: seq<Line>, rows: seq<LedgerRow>, x: Line, row: LedgerRow)
    requires RowsRun(opening, lines, rows) && row.debit == x.debit && row.credit == x.credit
    requires row.running == (if rows == [] then opening else rows[|rows| - 1].running) + x.debit - x.credit
    ensures RowsRun(opening, lines + [x], rows + [row])
  {
    forall i | 0 <= i < |rows + [row]| ensures RowFollows(opening, (lines + [x])[i], rows + [row], i) {
      if i < |rows| { assert RowFollows(opening, lines[i], rows, i); }
    }
  }

  /** By date, then series, then number. */
  predicate InPostingOrder(es: seq<Entry>) {
    forall i, j :: 0 <= i < j < |es| ==>
      || es[i].date < es[j].date
      || (es[i].date == es[j].date && es[i].series < es[j].series)
      || (es[i].date == es[j].date && es[i].series == es[j].series && Numbered(es[i]) <= Numbered(es[j]))
  }

  function Numbered(e: Entry): int { if e.number.Some? then e.number.value else 0 }

  lemma PostingOrders()
    ensures Orders(ByPosting())
  {
  }

  /** The vouchers posted in the interval, each once. */
  ghost predicate PostedOnes(l: Ledger, year: nat, from: int, to: int, es: seq<Entry>) {
    forall e ::
      multiset(es)[e] == if e.posted && e.year == year && from <= e.date <= to then multiset(l.entries)[e] else 0
  }

  lemma {:induction false} FilterCount<T(!new)>(s: seq<T>, p: T -> bool, x: T)
    ensures multiset(Filter(s, p))[x] == if p(x) then multiset(s)[x] else 0
  {
    if |s| > 0 {
      assert s == s[..|s| - 1] + [s[|s| - 1]];
      FilterCount(s[..|s| - 1], p, x);
    }
  }

  /** Lines of an account that carry the project and cost centre asked for. */
  function Asked(a: nat, d: Dimensions): Line -> bool {
    (x: Line) => x.account == a && (d.project.Some? ==> x.project == d.project)
                 && (d.centre.Some? ==> x.centre == d.centre)
  }

  lemma AskedIs(a: nat, d: Dimensions, lines: seq<Line>)
    ensures Filter(lines, Matching(a, d)) == Filter(lines, Asked(a, d))
  {
    FilterExt(lines, Matching(a, d), Asked(a, d));
  }

  lemma OrderedVouchers(l: Ledger, year: nat, from: int, to: int) returns (es: seq<Entry>)
    ensures OrderedLines(l, year, from, to) == LinesOf(es)
    ensures InPostingOrder(es) && PostedOnes(l, year, from, to, es)
  {
    hide Sort, Filter, Orders, Sorted, InPostingOrder, PostedOnes, ByPosting, Posting;
    var chosen := Filter(l.entries, Posting(year, from, to));
    es := Sort(chosen, ByPosting());
    PostingOrders();
    SortSorts(chosen, ByPosting());
    SortedIsPostingOrder(es);
    ChosenArePosted(l, year, from, to, es);
  }

  lemma SortedIsPostingOrder(es: seq<Entry>)
    requires Sorted(es, ByPosting())
    ensures InPostingOrder(es)
  {
    forall i, j | 0 <= i < j < |es|
      ensures || es[i].date < es[j].date
              || (es[i].date == es[j].date && es[i].series < es[j].series)
              || (es[i].date == es[j].date && es[i].series == es[j].series && Numbered(es[i]) <= Numbered(es[j]))
    {
      assert ByPosting()(es[i], es[j]) <= 0;
    }
  }

  lemma ChosenArePosted(l: Ledger, year: nat, from: int, to: int, es: seq<Entry>)
    requires multiset(es) == multiset(Filter(l.entries, Posting(year, from, to)))
    ensures PostedOnes(l, year, from, to, es)
  {
    hide Filter;
    forall e
      ensures multiset(es)[e]
              == if e.posted && e.year == year && from <= e.date <= to then multiset(l.entries)[e] else 0
    {
      FilterCount(l.entries, Posting(year, from, to), e);
    }
  }

  /** The general ledger lists, under each account, the lines asked for of the vouchers posted in the interval, by date,
      series and number, one row for each, with the balance running from the opening. */
  lemma LedgerListsLines(l: Ledger, year: nat, from: int, to: int, first: Option<string>, last: Option<string>,
        d: Dimensions, g: seq<AccountLedger>, x: AccountLedger)
    returns (es: seq<Entry>)
    requires GeneralLedger(l, year, from, to, first, last, d) == Ok(g) && x in g
    ensures InPostingOrder(es) && PostedOnes(l, year, from, to, es)
    ensures RowsRun(x.opening, Filter(LinesOf(es), Asked(x.account, d)), x.rows)
    ensures x.closing == if x.rows == [] then x.opening else x.rows[|x.rows| - 1].running
  {
    es := OrderedVouchers(l, year, from, to);
    hide InPostingOrder, PostedOnes, RowsRun, LinesOf;
    LedgerOf(l, year, from, to, first, last, d, g, x);
    var lines := Filter(OrderedLines(l, year, from, to), Matching(x.account, d));
    AskedIs(x.account, d, LinesOf(es));
    RunningRowsRun(x.opening, lines);
    SumEmpty();
    hide GeneralLedger, Filter, SumOf, RunningRows, OrderedLines;
    RowsAsMany(x.opening, lines, x.rows);
  }

  lemma SumEmpty()
    ensures SumOf([], NetOf()) == 0
  {
  }

  lemma RowsAsMany(opening: int, lines: seq<Line>, rows: seq<LedgerRow>)
    requires RowsRun(opening, lines, rows)
    ensures |rows| == |lines|
  {
  }

  lemma LedgerOf(l: Ledger, year: nat, from: int, to: int, first: Option<string>, last: Option<string>, d: Dimensions,
        g: seq<AccountLedger>, x: AccountLedger)
    requires GeneralLedger(l, year, from, to, first, last, d) == Ok(g) && x in g
    ensures var lines := Filter(OrderedLines(l, year, from, to), Matching(x.account, d));
            x.rows == RunningRows(x.opening, lines) && x.closing == x.opening + SumOf(lines, NetOf())
  {
    hide OrderedLines, RunningRows, LedgerError, RangeAccounts, OpeningAt, SumOf, Filter;
    var i :| 0 <= i < |g| && g[i] == x;
    assert x == AccountLedgerOf(l, year, from, to, d, RangeAccounts(l.accounts, first, last, |l.accounts|)[i]);
  }

  function AskedNet(a: nat, d: Dimensions): Line -> int {
    (x: Line) => if Asked(a, d)(x) then x.debit - x.credit else 0
  }

  lemma AskedLine(a: nat, d: Dimensions)
    ensures forall x :: Asked(a, d)(x) <==> OfAccount(a, d, x)
  {
  }

  lemma AskedMoved(l: Ledger, year: nat, from: int, to: int, d: Dimensions, a: nat)
    ensures NetMoved(l, year, from, to, d, a) == SumOf(l.entries, BookedIn(year, from, to, AskedNet(a, d)))
  {
    var lines := LinesIn(l.entries, year, from, to);
    AskedLine(a, d);
    SumExt(lines, NetOn(a, d), AskedNet(a, d));
    SumAdd(lines, NetOn(a, d), CreditOn(a, d), DebitOn(a, d));
    LinesAreBooked(l.entries, year, from, to, AskedNet(a, d));
  }

  /** The account opens with its opening row and what was booked of the lines asked for in the year before. */
  lemma LedgerOpens(l: Ledger, year: nat, from: int, to: int, first: Option<string>, last: Option<string>,
        d: Dimensions, g: seq<AccountLedger>, x: AccountLedger)
    requires GeneralLedger(l, year, from, to, first, last, d) == Ok(g) && x in g
    ensures year < |l.years|
    ensures x.opening == SumOf(l.years[year].ib, OpenedOn(x.account))
                         + SumOf(l.entries, BookedIn(year, l.years[year].first, from - 1, AskedNet(x.account, d)))
  {
    LedgerOpening(l, year, from, to, first, last, d, g, x);
    AskedMoved(l, year, l.years[year].first, from - 1, d, x.account);
    SumExt(l.years[year].ib, IbOn(x.account), OpenedOn(x.account));
    if from <= l.years[year].first {
      SumZero(l.entries, BookedIn(year, l.years[year].first, from - 1, AskedNet(x.account, d)));
    }
    hide GeneralLedger, SumOf, NetMoved;
  }

  lemma LedgerOpening(l: Ledger, year: nat, from: int, to: int, first: Option<string>, last: Option<string>,
        d: Dimensions, g: seq<AccountLedger>, x: AccountLedger)
    requires GeneralLedger(l, year, from, to, first, last, d) == Ok(g) && x in g
    ensures year < |l.years| && x.opening == OpeningAt(l, year, from, d, x.account)
  {
    hide OrderedLines, RunningRows, LedgerError, RangeAccounts, OpeningAt, SumOf, Filter;
    var i :| 0 <= i < |g| && g[i] == x;
    assert x == AccountLedgerOf(l, year, from, to, d, RangeAccounts(l.accounts, first, last, |l.accounts|)[i]);
  }

  // ---------------------------------------------------------------- balance sheet

  /** Closing debit less closing credit of the trial row of an account, when it is of that kind. */
  function ClosingOf(l: Ledger, rows: seq<TrialRow>, kind: Kind): nat -> int {
    (a: nat) =>
      if a < |l.accounts| && a < |rows| && l.accounts[a].kind == kind
      then rows[a].closingDebit - rows[a].closingCredit else 0
  }

  function KindTotal(l: Ledger, rows: seq<TrialRow>, kind: Kind): int {
    SumOf(OpeningBalances.Upto(|l.accounts|), ClosingOf(l, rows, kind))
  }

  /** The sheet shows the rows of a trial balance: assets with debit less credit, liabilities and equity with credit
      less debit, and as the result of the year, which equity includes, revenue and expenses with credit less debit. */
  predicate ShowsTrial(l: Ledger, s: Sheet, rows: seq<TrialRow>) {
    && s.assets == KindTotal(l, rows, Asset) && s.liabilities == -KindTotal(l, rows, Liability)
    && s.result == -KindTotal(l, rows, Revenue) - KindTotal(l, rows, Expense)
    && s.equity == -KindTotal(l, rows, Equity) + s.result
  }

  lemma SoundContext(l: Ledger, year: nat)
    requires ContextError(l, year).None?
    ensures year < |l.years| && IbOk(l, l.years[year].ib)
  {
    hide RowsSound, SumOf;
  }

  lemma ClosingIs(l: Ledger, year: nat, from: int, to: int, t: Trial, a: nat)
    requires TrialBalance(l, year, from, to) == Ok(t) && a < |l.accounts|
    ensures year < |l.years| && l.years[year].first <= from && a < |t.rows|
    ensures t.rows[a].closingDebit - t.rows[a].closingCredit
            == OpeningNet(l.years[year].ib, a) + NetMoved(l, year, l.years[year].first, to, NO_DIMENSIONS, a)
  {
    ReportLaws.TrialParts(l, year, from, to, t);
    hide TrialBalance, NetMoved, OpeningNet, TrialRowOf, OpeningAt, ClosingAt;
    ReportLaws.RowNets(l, year, from, to, a);
    ReportLaws.ClosingFromStart(l, year, from, to, NO_DIMENSIONS, a);
  }

  function Negated(f: nat -> int): nat -> int { (a: nat) => -f(a) }

  lemma {:induction false} SumNegative(ks: seq<nat>, f: nat -> int)
    ensures SumOf(ks, Negated(f)) == -SumOf(ks, f)
  {
    if |ks| > 0 { SumNegative(ks[..|ks| - 1], f); }
  }

  lemma GroupIsKind(l: Ledger, year: nat, from: int, to: int, t: Trial, kind: Kind)
    requires TrialBalance(l, year, from, to) == Ok(t) && year < |l.years|
    ensures GroupTotal(l, year, to, kind)
            == if kind == Asset || kind == Expense then KindTotal(l, t.rows, kind) else -KindTotal(l, t.rows, kind)
  {
    var ks, f, g := OpeningBalances.Upto(|l.accounts|), Presented(l, year, to, kind), ClosingOf(l, t.rows, kind);
    hide TrialBalance, NetMoved, OpeningNet;
    forall a | a in ks ensures f(a) == if kind == Asset || kind == Expense then g(a) else -g(a) {
      ClosingIs(l, year, from, to, t, a);
    }
    if kind == Asset || kind == Expense {
      SumExt(ks, f, g);
    } else {
      SumExt(ks, f, Negated(g));
      SumNegative(ks, g);
    }
  }

  lemma ResultIsKinds(l: Ledger, year: nat, from: int, to: int, t: Trial)
    requires TrialBalance(l, year, from, to) == Ok(t) && ContextError(l, year).None? && year < |l.years|
    ensures YearResult(l, year, to) == -KindTotal(l, t.rows, Revenue) - KindTotal(l, t.rows, Expense)
  {
    var ks := OpeningBalances.Upto(|l.accounts|);
    var f, r, e := ResultPart(l, year, to), ClosingOf(l, t.rows, Revenue), ClosingOf(l, t.rows, Expense);
    SoundContext(l, year);
    hide TrialBalance, NetMoved, OpeningNet, ContextError, IbOk;
    forall a | a in ks ensures f(a) == Negated(r)(a) + Negated(e)(a) {
      ClosingIs(l, year, from, to, t, a);
      if !IsBalanceKind(l.accounts[a].kind) { ReportLaws.ResultAccountOpensAtZero(l, l.years[year].ib, a); }
    }
    SumAdd(ks, Negated(r), Negated(e), f);
    SumNegative(ks, r);
    SumNegative(ks, e);
  }

  lemma SheetIsTrial(l: Ledger, year: nat, from: int, to: int, t: Trial)
    requires TrialBalance(l, year, from, to) == Ok(t) && year < |l.years|
    ensures ShowsTrial(l, SheetAt(l, year, to), t.rows)
  {
    TrialContext(l, year, from, to, t);
    hide TrialBalance, KindTotal, GroupTotal, YearResult, ContextError;
    GroupIsKind(l, year, from, to, t, Asset);
    GroupIsKind(l, year, from, to, t, Liability);
    GroupIsKind(l, year, from, to, t, Equity);
    ResultIsKinds(l, year, from, to, t);
  }

  lemma TrialContext(l: Ledger, year: nat, from: int, to: int, t: Trial)
    requires TrialBalance(l, year, from, to) == Ok(t)
    ensures ContextError(l, year).None?
  {
    hide ContextError, TrialRowOf, TrialTotals, GoodInterval;
  }

  /** The balance sheet shows the trial balance up to its day. */
  lemma SheetShowsTrial(l: Ledger, year: nat, date: int, comparison: Option<int>, s: Sheet, c: Option<Sheet>, from: int,
        t: Trial)
    requires BalanceSheet(l, year, date, comparison) == Ok((s, c)) && TrialBalance(l, year, from, date) == Ok(t)
    ensures ShowsTrial(l, s, t.rows) && (c.Some? <==> comparison.Some?)
  {
    SheetParts(l, year, date, comparison, s, c);
    hide BalanceSheet, TrialBalance, ShowsTrial, SheetAt;
    SheetIsTrial(l, year, from, date, t);
  }

  /** And the comparison sheet that up to the comparison day. */
  lemma ComparisonShowsTrial(l: Ledger, year: nat, date: int, comparison: int, s: Sheet, c: Sheet, from: int, t: Trial)
    requires BalanceSheet(l, year, date, Some(comparison)) == Ok((s, Some(c)))
    requires TrialBalance(l, year, from, comparison) == Ok(t)
    ensures ShowsTrial(l, c, t.rows)
  {
    SheetParts(l, year, date, Some(comparison), s, Some(c));
    hide BalanceSheet, TrialBalance, ShowsTrial, SheetAt;
    SheetIsTrial(l, year, from, comparison, t);
  }

  lemma SheetParts(l: Ledger, year: nat, date: int, comparison: Option<int>, s: Sheet, c: Option<Sheet>)
    requires BalanceSheet(l, year, date, comparison) == Ok((s, c))
    ensures year < |l.years| && s == SheetAt(l, year, date) && (c.Some? <==> comparison.Some?)
    ensures comparison.Some? ==> c == Some(SheetAt(l, year, comparison.value))
  {
    hide SheetAt, ContextError, GoodInterval;
  }

  // ---------------------------------------------------------------- income statement

  /** Credit less debit of a line on a revenue or expense account, if it carries the dimensions asked for. */
  function ResultOn(l: Ledger, d: Dimensions): Line -> int {
    (x: Line) =>
      if x.account < |l.accounts| && (l.accounts[x.account].kind == Revenue || l.accounts[x.account].kind == Expense)
         && Asked(x.account, d)(x) then x.credit - x.debit else 0
  }

  function IncomeNet(l: Ledger, year: nat, from: int, to: int, d: Dimensions): nat -> int {
    (a: nat) =>
      if KindAt(l, a) == Some(Revenue) || KindAt(l, a) == Some(Expense) then -NetMoved(l, year, from, to, d, a) else 0
  }

  /** Listing only accounts with a movement leaves nothing out. */
  lemma IncomeIsNet(l: Ledger, year: nat, from: int, to: int, d: Dimensions, shownFrom: int)
    requires year < |l.years| && (shownFrom == from || shownFrom == l.years[year].first)
    ensures IncomeTotal(l, year, from, to, d, Revenue, shownFrom)
            - IncomeTotal(l, year, from, to, d, Expense, shownFrom)
            == SumOf(OpeningBalances.Upto(|l.accounts|), IncomeNet(l, year, shownFrom, to, d))
  {
    var ks := OpeningBalances.Upto(|l.accounts|);
    var revenue := IncomePart(l, year, from, to, d, Revenue, shownFrom);
    var expense := IncomePart(l, year, from, to, d, Expense, shownFrom);
    hide NetMoved, HasMovement, OpeningBalances.Upto;
    forall a: nat ensures revenue(a) == IncomeNet(l, year, shownFrom, to, d)(a) + expense(a) {
      if !HasMovement(l, year, shownFrom, to, d, a) { ReportLaws.NoMovementNoNet(l, year, shownFrom, to, d, a); }
    }
    SumAdd(ks, IncomeNet(l, year, shownFrom, to, d), expense, revenue);
  }

  lemma IncomeIsBooked(l: Ledger, year: nat, from: int, to: int, d: Dimensions)
    ensures SumOf(OpeningBalances.Upto(|l.accounts|), IncomeNet(l, year, from, to, d))
            == SumOf(l.entries, BookedIn(year, from, to, ResultOn(l, d)))
  {
    var ks, lines, f := OpeningBalances.Upto(|l.accounts|), LinesIn(l.entries, year, from, to), ResultOn(l, d);
    var key := ReportLaws.KeyOfLine();
    Partition(lines, key, ks, f);
    forall x | x in lines ensures Among(key, ks, f)(x) == f(x) {
      if x.account < |l.accounts| { assert ks[x.account] == x.account; }
    }
    SumExt(lines, Among(key, ks, f), f);
    hide OpeningBalances.Upto;
    forall a | a in ks ensures IncomeNet(l, year, from, to, d)(a) == PerKey(lines, key, f)(a) {
      IncomeOfAccount(l, year, from, to, d, a);
    }
    SumExt(ks, IncomeNet(l, year, from, to, d), PerKey(lines, key, f));
    LinesAreBooked(l.entries, year, from, to, f);
  }

  lemma IncomeOfAccount(l: Ledger, year: nat, from: int, to: int, d: Dimensions, a: nat)
    ensures IncomeNet(l, year, from, to, d)(a)
            == SumOf(LinesIn(l.entries, year, from, to), Only(ReportLaws.KeyOfLine(), a, ResultOn(l, d)))
  {
    var lines, f := LinesIn(l.entries, year, from, to), Only(ReportLaws.KeyOfLine(), a, ResultOn(l, d));
    AskedLine(a, d);
    if KindAt(l, a) == Some(Revenue) || KindAt(l, a) == Some(Expense) {
      SumAdd(lines, f, DebitOn(a, d), CreditOn(a, d));
    } else {
      SumZero(lines, f);
    }
  }

  /** Both results of the income statement are credit less debit of what was booked on revenue and expense accounts:
      in the interval, and in the year up to its end. */
  lemma IncomeReadsBooks(l: Ledger, year: nat, from: int, to: int, d: Dimensions, i: Income)
    requires IncomeStatement(l, year, from, to, d) == Ok(i)
    ensures year < |l.years|
    ensures i.periodResult == SumOf(l.entries, BookedIn(year, from, to, ResultOn(l, d)))
    ensures i.yearToDateResult == SumOf(l.entries, BookedIn(year, l.years[year].first, to, ResultOn(l, d)))
  {
    hide IncomeTotal, IncomeNet, BookedIn, SumOf;
    IncomeIsNet(l, year, from, to, d, from);
    IncomeIsNet(l, year, from, to, d, l.years[year].first);
    IncomeIsBooked(l, year, from, to, d);
    IncomeIsBooked(l, year, l.years[year].first, to, d);
  }

  lemma {:induction false} BookedSplits(entries: seq<Entry>, year: nat, first: int, from: int, to: int, f: Line -> int)
    requires first <= from <= to
    ensures SumOf(entries, BookedIn(year, first, to, f))
            == SumOf(entries, BookedIn(year, first, from - 1, f)) + SumOf(entries, BookedIn(year, from, to, f))
  {
    SumAdd(entries, BookedIn(year, first, from - 1, f), BookedIn(year, from, to, f), BookedIn(year, first, to, f));
  }

  /** The result of a period is the result of the year at its end less that on the day before it begins. */
  lemma PeriodIsDifference(l: Ledger, year: nat, start: int, from: int, to: int, d: Dimensions, i: Income,
        before: Income)
    requires IncomeStatement(l, year, from, to, d) == Ok(i)
    requires IncomeStatement(l, year, start, from - 1, d) == Ok(before)
    ensures i.periodResult == i.yearToDateResult - before.yearToDateResult
  {
    IncomeInterval(l, year, from, to, d);
    IncomeReadsBooks(l, year, from, to, d, i);
    IncomeReadsBooks(l, year, start, from - 1, d, before);
    BookedSplits(l.entries, year, l.years[year].first, from, to, ResultOn(l, d));
    hide IncomeStatement, BookedIn, SumOf;
  }

  lemma IncomeInterval(l: Ledger, year: nat, from: int, to: int, d: Dimensions)
    requires IncomeStatement(l, year, from, to, d).Ok?
    ensures year < |l.years| && l.years[year].first <= from <= to
  {
    hide IncomeTotal;
  }

  // ---------------------------------------------------------------- when the reports answer

  /** The interval is one of the year. */
  predicate Within(l: Ledger, year: nat, from: int, to: int) {
    year < |l.years| && l.years[year].first <= from <= to <= l.years[year].last
  }

  predicate SmallEnough(l: Ledger, year: nat) {
    year < |l.years| && |l.accounts| <= 10000 && |l.years[year].ib| <= 10000
  }

  lemma ContextIff(l: Ledger, year: nat)
    requires Inv(l)
    ensures ContextError(l, year).None? <==> SmallEnough(l, year)
  {
    if SmallEnough(l, year) { ReportLaws.ContextIsSound(l, year); }
    hide Inv, RowsSound, SumOf;
  }

  lemma TrialIs(l: Ledger, year: nat, from: int, to: int)
    ensures TrialBalance(l, year, from, to).Ok? ==> ContextError(l, year).None? && Within(l, year, from, to)
    ensures Within(l, year, from, to) ==> GoodInterval(l.years[year], from, to)
  {
    hide ContextError, TrialRowOf, TrialTotals;
  }

  /** In a ledger in order the trial balance answers if and only if the interval is one of the year and the year stays
      within the size limit. */
  lemma TrialSucceedsIff(l: Ledger, year: nat, from: int, to: int)
    requires Inv(l)
    ensures TrialBalance(l, year, from, to).Ok? <==> Within(l, year, from, to) && SmallEnough(l, year)
  {
    ContextIff(l, year);
    TrialIs(l, year, from, to);
    hide Inv, TrialBalance, ContextError, GoodInterval;
    if Within(l, year, from, to) && SmallEnough(l, year) { ReportLaws.TrialBalanceSucceeds(l, year, from, to); }
  }

  lemma SheetIs(l: Ledger, year: nat, date: int, comparison: Option<int>)
    ensures BalanceSheet(l, year, date, comparison).Ok? ==>
            && ContextError(l, year).None? && year < |l.years| && Within(l, year, l.years[year].first, date)
            && (comparison.Some? ==> Within(l, year, comparison.value, date))
    ensures year < |l.years| && Within(l, year, l.years[year].first, date) ==>
            GoodInterval(l.years[year], l.years[year].first, date)
    ensures comparison.Some? && Within(l, year, comparison.value, date) ==>
            GoodInterval(l.years[year], comparison.value, date)
  {
    hide ContextError, SheetAt;
  }

  /** The account-balance service answers if and only if the day is one of the year, the year stays within the size
      limit, and every account asked for exists. */
  lemma BalancesSucceedIff(l: Ledger, year: nat, date: int, ids: set<nat>)
    requires Inv(l)
    ensures ReadBalances(l, year, date, ids).Ok? <==>
            && SmallEnough(l, year) && Within(l, year, l.years[year].first, date)
            && forall a :: a in ids ==> a < |l.accounts|
  {
    ContextIff(l, year);
    hide Inv, ContextError;
  }

  /** The balance sheet answers if and only if its day, and a comparison day not after it, lie in the year. */
  lemma SheetSucceedsIff(l: Ledger, year: nat, date: int, comparison: Option<int>)
    requires Inv(l)
    ensures BalanceSheet(l, year, date, comparison).Ok? <==>
            && SmallEnough(l, year) && Within(l, year, l.years[year].first, date)
            && (comparison.Some? ==> Within(l, year, comparison.value, date))
  {
    ContextIff(l, year);
    SheetIs(l, year, date, comparison);
    hide Inv, BalanceSheet, ContextError, GoodInterval;
    if SmallEnough(l, year) && Within(l, year, l.years[year].first, date)
       && (comparison.Some? ==> Within(l, year, comparison.value, date)) {
      ReportLaws.BalanceSheetSucceeds(l, year, date, comparison);
    }
  }

  predicate OnResult(a: Account) { a.kind == Revenue || a.kind == Expense }

  /** The income statement answers if and only if the interval is one of the year and its accounts stay within the size
      limit. */
  lemma IncomeSucceedsIff(l: Ledger, year: nat, from: int, to: int, d: Dimensions)
    ensures IncomeStatement(l, year, from, to, d).Ok? <==>
            Within(l, year, from, to) && |Filter(l.accounts, OnResult)| <= 10000
  {
    FilterExt(l.accounts, IsIncomeAccount(), OnResult);
    hide IncomeTotal, Filter;
  }

  /** The account number lies between the bounds given, in the order of texts. */
  predicate Between(number: string, first: Option<string>, last: Option<string>) {
    (first.Some? ==> !SieText.Less(number, first.value)) && (last.Some? ==> !SieText.Less(last.value, number))
  }

  lemma BetweenIs(a: Account, first: Option<string>, last: Option<string>)
    ensures InRange(a, first, last) <==> Between(a.number, first, last)
  {
    hide SieText.Less;
  }

  lemma {:induction false} RangeIs(accounts: seq<Account>, first: Option<string>, last: Option<string>, n: nat)
    requires n <= |accounts|
    ensures var r := RangeAccounts(accounts, first, last, n);
            && (forall a: nat :: a in r <==> a < n && Between(accounts[a].number, first, last))
            && forall i, j :: 0 <= i < j < |r| ==> r[i] < r[j]
  {
    if n > 0 {
      RangeIs(accounts, first, last, n - 1);
      BetweenIs(accounts[n - 1], first, last);
      hide InRange, Between;
      var before := RangeAccounts(accounts, first, last, n - 1);
      assert forall i :: 0 <= i < |before| ==> before[i] in before;
    }
  }

  /** The general ledger has one section for each account of the number range, in stored order. */
  lemma LedgerCoversRange(l: Ledger, year: nat, from: int, to: int, first: Option<string>, last: Option<string>,
        d: Dimensions, g: seq<AccountLedger>)
    requires GeneralLedger(l, year, from, to, first, last, d) == Ok(g)
    ensures forall a: nat :: a < |l.accounts| && Between(l.accounts[a].number, first, last) <==>
              exists i :: 0 <= i < |g| && g[i].account == a
    ensures forall i, j :: 0 <= i < j < |g| ==> g[i].account < g[j].account
  {
    hide *;
    RangeIs(l.accounts, first, last, |l.accounts|);
    SectionsAre(l, year, from, to, first, last, d, g);
    SectionsOf(RangeAccounts(l.accounts, first, last, |l.accounts|), g);
  }

  lemma SectionsOf(r: seq<nat>, g: seq<AccountLedger>)
    requires |g| == |r| && forall i :: 0 <= i < |g| ==> g[i].account == r[i]
    ensures forall a: nat :: a in r <==> exists i :: 0 <= i < |g| && g[i].account == a
  {
    forall a: nat ensures a in r <==> exists i :: 0 <= i < |g| && g[i].account == a {
      if a in r { var i :| 0 <= i < |r| && r[i] == a; assert g[i].account == a; }
      if i :| 0 <= i < |g| && g[i].account == a { assert r[i] in r; }
    }
  }

  lemma SectionsAre(l: Ledger, year: nat, from: int, to: int, first: Option<string>, last: Option<string>,
        d: Dimensions, g: seq<AccountLedger>)
    requires GeneralLedger(l, year, from, to, first, last, d) == Ok(g)
    ensures var r := RangeAccounts(l.accounts, first, last, |l.accounts|);
            |g| == |r| && forall i :: 0 <= i < |g| ==> g[i].account == r[i]
  {
    hide OrderedLines, RunningRows, LedgerError, RangeAccounts, OpeningAt, SumOf, Filter;
  }

  /** The general ledger answers if and only if interval and number range are in order, the year stays within the size
      limit, a dimension is asked for only without opening balances, and at most 20000 lines are to be listed. */
  lemma LedgerSucceedsIff(l: Ledger, year: nat, from: int, to: int, first: Option<string>, last: Option<string>,
        d: Dimensions)
    requires Inv(l)
    ensures GeneralLedger(l, year, from, to, first, last, d).Ok? <==>
            && Within(l, year, from, to) && SmallEnough(l, year)
            && (first.Some? && last.Some? ==> !SieText.Less(last.value, first.value))
            && (d.project.Some? || d.centre.Some? ==> forall r :: r in l.years[year].ib ==> r.debit == r.credit)
            && SumOf(RangeAccounts(l.accounts, first, last, |l.accounts|), MatchingCount(l, year, from, to, d)) <= 20000
  {
    ContextIff(l, year);
    hide Inv, ContextError, SieText.Less, RangeAccounts, MatchingCount, SumOf, Map;
  }

  /** What is counted are the lines that will be listed. */
  lemma CountIsRows(l: Ledger, year: nat, from: int, to: int, first: Option<string>, last: Option<string>,
        d: Dimensions, g: seq<AccountLedger>, x: AccountLedger)
    requires GeneralLedger(l, year, from, to, first, last, d) == Ok(g) && x in g
    ensures MatchingCount(l, year, from, to, d)(x.account) == |x.rows|
  {
    LedgerOf(l, year, from, to, first, last, d, g, x);
    var lines := Filter(OrderedLines(l, year, from, to), Matching(x.account, d));
    RunningRowsRun(x.opening, lines);
    RowsAsMany(x.opening, lines, x.rows);
    hide GeneralLedger, Filter, OrderedLines;
  }
}
