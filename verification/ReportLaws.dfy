/** In every reachable ledger the reports reconcile, agree with each other and continue from interval to interval. */
module ReportLaws {
  import opened Common
  import opened LedgerModel
  import opened LedgerMachine
  import opened AccountingData
  import opened Reports
  import LedgerSafety
  import OpeningBalances

  // ---------------------------------------------------------------- sums over accounts are sums over lines

  function KeyOfLine(): Line -> nat { (x: Line) => x.account }

  function KeyOfRow(): IbRow -> nat { (r: IbRow) => r.account }

  lemma AllKeys<T>(s: seq<T>, key: T -> nat, f: T -> int, n: nat)
    requires forall x :: x in s ==> key(x) < n
    ensures SumOf(OpeningBalances.Upto(n), PerKey(s, key, f)) == SumOf(s, f)
  {
    var ks := OpeningBalances.Upto(n);
    Partition(s, key, ks, f);
    forall x | x in s ensures Among(key, ks, f)(x) == f(x) { assert ks[key(x)] == key(x); }
    SumExt(s, Among(key, ks, f), f);
  }

  function DebitAt(l: Ledger, year: nat, from: int, to: int): nat -> int
  {
    (a: nat) => DebitMoved(l, year, from, to, NO_DIMENSIONS, a)
  }

  function CreditAt(l: Ledger, year: nat, from: int, to: int): nat -> int
  {
    (a: nat) => CreditMoved(l, year, from, to, NO_DIMENSIONS, a)
  }

  function NetAt(l: Ledger, year: nat, from: int, to: int): nat -> int
  {
    (a: nat) => NetMoved(l, year, from, to, NO_DIMENSIONS, a)
  }

  lemma {:induction false} LinesInOk(l: Ledger, entries: seq<Entry>, year: nat, from: int, to: int)
    requires forall e :: e in entries ==> EntryOk(l, e)
    ensures forall x :: x in LinesIn(entries, year, from, to) ==> LineOk(|l.accounts|, x)
    ensures Debits(LinesIn(entries, year, from, to)) == Credits(LinesIn(entries, year, from, to))
  {
    if |entries| > 0 {
      var front, e := entries[..|entries| - 1], entries[|entries| - 1];
      LinesInOk(l, front, year, from, to);
      assert EntryOk(l, e);
      hide LineOk, EntryOk;
      SumAppend(LinesIn(front, year, from, to), e.lines, DebitOf());
      SumAppend(LinesIn(front, year, from, to), e.lines, CreditOf());
    }
  }

  lemma {:induction false} MovedLines(l: Ledger, year: nat, from: int, to: int)
    requires Inv(l)
    ensures forall x :: x in LinesIn(l.entries, year, from, to) ==> KeyOfLine()(x) < |l.accounts|
    ensures Debits(LinesIn(l.entries, year, from, to)) == Credits(LinesIn(l.entries, year, from, to))
  {
    forall e | e in l.entries ensures EntryOk(l, e) { var i :| 0 <= i < |l.entries| && l.entries[i] == e; }
    LinesInOk(l, l.entries, year, from, to);
  }

  /** Debit movements of all accounts add up to the posted debit of the interval, and so do the credits. */
  lemma {:induction false} MovementsPair(l: Ledger, year: nat, from: int, to: int)
    requires Inv(l)
    ensures SumOf(OpeningBalances.Upto(|l.accounts|), DebitAt(l, year, from, to))
            == SumOf(OpeningBalances.Upto(|l.accounts|), CreditAt(l, year, from, to))
    ensures SumOf(OpeningBalances.Upto(|l.accounts|), NetAt(l, year, from, to)) == 0
  {
    var lines, ks := LinesIn(l.entries, year, from, to), OpeningBalances.Upto(|l.accounts|);
    MovedLines(l, year, from, to);
    hide Inv, LinesIn;
    AllKeys(lines, KeyOfLine(), DebitOf(), |l.accounts|);
    AllKeys(lines, KeyOfLine(), CreditOf(), |l.accounts|);
    forall a | a in ks
      ensures DebitAt(l, year, from, to)(a) == PerKey(lines, KeyOfLine(), DebitOf())(a)
      ensures CreditAt(l, year, from, to)(a) == PerKey(lines, KeyOfLine(), CreditOf())(a)
    {
      SumExt(lines, DebitOn(a, NO_DIMENSIONS), Only(KeyOfLine(), a, DebitOf()));
      SumExt(lines, CreditOn(a, NO_DIMENSIONS), Only(KeyOfLine(), a, CreditOf()));
    }
    SumExt(ks, DebitAt(l, year, from, to), PerKey(lines, KeyOfLine(), DebitOf()));
    SumExt(ks, CreditAt(l, year, from, to), PerKey(lines, KeyOfLine(), CreditOf()));
    SumAdd(ks, NetAt(l, year, from, to), CreditAt(l, year, from, to), DebitAt(l, year, from, to));
  }

  function OpeningOf(ib: seq<IbRow>): nat -> int { (a: nat) => OpeningNet(ib, a) }

  function RowNet(): IbRow -> int { (r: IbRow) => r.debit - r.credit }

  /** Opening balances of all accounts add up to zero. */
  lemma {:induction false} OpeningsPair(l: Ledger, ib: seq<IbRow>)
    requires IbOk(l, ib)
    ensures SumOf(OpeningBalances.Upto(|l.accounts|), OpeningOf(ib)) == 0
  {
    var ks := OpeningBalances.Upto(|l.accounts|);
    forall r | r in ib ensures r.account < |l.accounts| {
      var i :| 0 <= i < |ib| && ib[i] == r;
      assert RowSound(l, ib[..i], ib[i]);
    }
    AllKeys(ib, KeyOfRow(), RowNet(), |l.accounts|);
    SumAdd(ib, RowNet(), IbCredit(), IbDebit());
    forall a | a in ks ensures OpeningOf(ib)(a) == PerKey(ib, KeyOfRow(), RowNet())(a) {
      SumExt(ib, IbOn(a), Only(KeyOfRow(), a, RowNet()));
    }
    SumExt(ks, OpeningOf(ib), PerKey(ib, KeyOfRow(), RowNet()));
  }

  // ---------------------------------------------------------------- intervals

  lemma {:induction false} LinesSplit(entries: seq<Entry>, year: nat, from: int, mid: int, to: int, f: Line -> int)
    requires from <= mid + 1 && mid <= to
    ensures SumOf(LinesIn(entries, year, from, to), f)
            == SumOf(LinesIn(entries, year, from, mid), f) + SumOf(LinesIn(entries, year, mid + 1, to), f)
  {
    if |entries| > 0 {
      var front, e := entries[..|entries| - 1], entries[|entries| - 1];
      LinesSplit(front, year, from, mid, to, f);
      SumAppend(LinesIn(front, year, from, to), e.lines, f);
      SumAppend(LinesIn(front, year, from, mid), e.lines, f);
      SumAppend(LinesIn(front, year, mid + 1, to), e.lines, f);
    }
  }

  lemma {:induction false} NetSplits(l: Ledger, year: nat, from: int, mid: int, to: int, d: Dimensions, a: nat)
    requires from <= mid + 1 && mid <= to
    ensures NetMoved(l, year, from, to, d, a)
            == NetMoved(l, year, from, mid, d, a) + NetMoved(l, year, mid + 1, to, d, a)
  {
    LinesSplit(l.entries, year, from, mid, to, DebitOn(a, d));
    LinesSplit(l.entries, year, from, mid, to, CreditOn(a, d));
  }

  /** The closing balance is the opening balance plus everything moved since the start of the year, wherever
      the interval starts. */
  lemma {:induction false} ClosingFromStart(l: Ledger, year: nat, from: int, to: int, d: Dimensions, a: nat)
    requires year < |l.years| && l.years[year].first <= from <= to
    ensures ClosingAt(l, year, from, to, d, a)
            == OpeningNet(l.years[year].ib, a) + NetMoved(l, year, l.years[year].first, to, d, a)
  {
    if from > l.years[year].first { NetSplits(l, year, l.years[year].first, from - 1, to, d, a); }
    hide NetMoved, OpeningNet;
  }

  /** Splitting an interval: the second half opens where the first half closed. */
  lemma {:induction false} OpeningContinuesClosing(l: Ledger, year: nat, from: int, mid: int, d: Dimensions, a: nat)
    requires year < |l.years| && l.years[year].first <= from <= mid
    ensures OpeningAt(l, year, mid + 1, d, a) == ClosingAt(l, year, from, mid, d, a)
  {
    ClosingFromStart(l, year, from, mid, d, a);
    hide NetMoved, OpeningNet;
  }

  // ---------------------------------------------------------------- trial balance

  function OpeningSideAt(l: Ledger, year: nat, from: int): nat -> int
    requires year < |l.years|
  {
    (a: nat) => OpeningAt(l, year, from, NO_DIMENSIONS, a)
  }

  function ClosingSideAt(l: Ledger, year: nat, from: int, to: int): nat -> int
    requires year < |l.years|
  {
    (a: nat) => ClosingAt(l, year, from, to, NO_DIMENSIONS, a)
  }

  lemma {:induction false} OpeningsSumToZero(l: Ledger, year: nat, from: int)
    requires Inv(l) && year < |l.years|
    ensures SumOf(OpeningBalances.Upto(|l.accounts|), OpeningSideAt(l, year, from)) == 0
  {
    assert IbOk(l, l.years[year].ib);
    var ks, ib := OpeningBalances.Upto(|l.accounts|), l.years[year].ib;
    OpeningsPair(l, ib);
    MovementsPair(l, year, l.years[year].first, from - 1);
    hide Inv, IbOk, NetMoved, OpeningNet;
    if from > l.years[year].first {
      SumAdd(ks, OpeningOf(ib), NetAt(l, year, l.years[year].first, from - 1), OpeningSideAt(l, year, from));
    } else {
      SumExt(ks, OpeningSideAt(l, year, from), OpeningOf(ib));
    }
  }

  lemma {:induction false} ClosingsSumToZero(l: Ledger, year: nat, from: int, to: int)
    requires Inv(l) && year < |l.years|
    ensures SumOf(OpeningBalances.Upto(|l.accounts|), ClosingSideAt(l, year, from, to)) == 0
  {
    OpeningsSumToZero(l, year, from);
    MovementsPair(l, year, from, to);
    hide Inv, NetMoved, OpeningAt;
    SumAdd(OpeningBalances.Upto(|l.accounts|), OpeningSideAt(l, year, from), NetAt(l, year, from, to),
      ClosingSideAt(l, year, from, to));
  }

  lemma {:induction false} SidesPair(rows: seq<TrialRow>, ks: seq<nat>, row: nat -> TrialRow, debit: Side, credit: Side,
        net: nat -> int)
    requires rows == Map(ks, row) && SumOf(ks, net) == 0
    requires forall a :: a in ks ==> SideOf(debit)(row(a)) - SideOf(credit)(row(a)) == net(a)
    ensures SumOf(rows, SideOf(debit)) == SumOf(rows, SideOf(credit))
  {
    SumMap(ks, row, SideOf(debit));
    SumMap(ks, row, SideOf(credit));
    SumAdd(ks, net, Then(row, SideOf(credit)), Then(row, SideOf(debit)));
  }

  lemma {:induction false} RowNets(l: Ledger, year: nat, from: int, to: int, a: nat)
    requires year < |l.years|
    ensures var r := TrialRowOf(l, year, from, to)(a);
            && r.openingDebit - r.openingCredit == OpeningAt(l, year, from, NO_DIMENSIONS, a)
            && r.periodDebit - r.periodCredit == NetMoved(l, year, from, to, NO_DIMENSIONS, a)
            && r.closingDebit - r.closingCredit == ClosingAt(l, year, from, to, NO_DIMENSIONS, a)
  {
    hide OpeningAt, ClosingAt, DebitMoved, CreditMoved;
  }

  lemma {:induction false} TotalsAre(rows: seq<TrialRow>)
    ensures var t := TrialTotals(rows);
            && t.openingDebit == SumOf(rows, SideOf(OpeningDebit))
               && t.openingCredit == SumOf(rows, SideOf(OpeningCredit))
            && t.periodDebit == SumOf(rows, SideOf(PeriodDebit)) && t.periodCredit == SumOf(rows, SideOf(PeriodCredit))
            && t.closingDebit == SumOf(rows, SideOf(ClosingDebit))
               && t.closingCredit == SumOf(rows, SideOf(ClosingCredit))
  {
  }

  lemma {:induction false} TotalsPair(l: Ledger, year: nat, from: int, to: int)
    requires Inv(l) && year < |l.years|
    ensures var t := TrialTotals(Map(OpeningBalances.Upto(|l.accounts|), TrialRowOf(l, year, from, to)));
            t.openingDebit == t.openingCredit && t.periodDebit == t.periodCredit && t.closingDebit == t.closingCredit
  {
    var ks, row := OpeningBalances.Upto(|l.accounts|), TrialRowOf(l, year, from, to);
    var rows := Map(ks, row);
    OpeningsSumToZero(l, year, from);
    ClosingsSumToZero(l, year, from, to);
    MovementsPair(l, year, from, to);
    forall a: nat
      ensures SideOf(OpeningDebit)(row(a)) - SideOf(OpeningCredit)(row(a)) == OpeningSideAt(l, year, from)(a)
      ensures SideOf(PeriodDebit)(row(a)) - SideOf(PeriodCredit)(row(a)) == NetAt(l, year, from, to)(a)
      ensures SideOf(ClosingDebit)(row(a)) - SideOf(ClosingCredit)(row(a)) == ClosingSideAt(l, year, from, to)(a)
    {
      RowNets(l, year, from, to, a);
    }
    hide *;
    TotalsAre(rows);
    SidesPair(rows, ks, row, OpeningDebit, OpeningCredit, OpeningSideAt(l, year, from));
    SidesPair(rows, ks, row, PeriodDebit, PeriodCredit, NetAt(l, year, from, to));
    SidesPair(rows, ks, row, ClosingDebit, ClosingCredit, ClosingSideAt(l, year, from, to));
  }

  /** The opening balances of a year in order pass the check made before every report. */
  lemma {:induction false} ContextIsSound(l: Ledger, year: nat)
    requires Inv(l) && year < |l.years| && |l.accounts| <= MAX_ROWS && |l.years[year].ib| <= MAX_ROWS
    ensures ContextError(l, year).None?
  {
    assert IbOk(l, l.years[year].ib);
  }

  /** In every ledger in order, within the size limits, the trial balance of every interval succeeds: its
      three pairs of totals agree and the error branch is dead. */
  lemma {:induction false} TrialBalanceSucceeds(l: Ledger, year: nat, from: int, to: int)
    requires Inv(l) && year < |l.years| && |l.accounts| <= MAX_ROWS && |l.years[year].ib| <= MAX_ROWS
    requires GoodInterval(l.years[year], from, to)
    ensures TrialBalance(l, year, from, to).Ok?
    ensures var t := TrialBalance(l, year, from, to).value.totals;
            t.openingDebit == t.openingCredit && t.periodDebit == t.periodCredit && t.closingDebit == t.closingCredit
  {
    hide Inv, ContextError, TrialTotals, TrialRowOf, Map;
    ContextIsSound(l, year);
    TotalsPair(l, year, from, to);
  }

  // ---------------------------------------------------------------- balance sheet

  function ShareOf(l: Ledger, year: nat, date: int): nat -> int
    requires year < |l.years|
  {
    (a: nat) => Presented(l, year, date, Asset)(a) - Presented(l, year, date, Equity)(a)
      - Presented(l, year, date, Liability)(a) - Reports.ResultPart(l, year, date)(a)
  }

  /** A revenue or expense account has no opening balance. */
  lemma {:induction false} ResultAccountOpensAtZero(l: Ledger, ib: seq<IbRow>, a: nat)
    requires IbOk(l, ib) && a < |l.accounts| && !IsBalanceKind(l.accounts[a].kind)
    ensures OpeningNet(ib, a) == 0
  {
    forall r | r in ib ensures IbOn(a)(r) == 0 {
      var i :| 0 <= i < |ib| && ib[i] == r;
      assert RowSound(l, ib[..i], ib[i]);
    }
    SumZero(ib, IbOn(a));
  }

  lemma {:induction false} ShareIsNet(l: Ledger, year: nat, date: int, a: nat)
    requires Inv(l) && year < |l.years| && a < |l.accounts|
    ensures ShareOf(l, year, date)(a)
            == OpeningNet(l.years[year].ib, a) + NetMoved(l, year, l.years[year].first, date, NO_DIMENSIONS, a)
  {
    assert IbOk(l, l.years[year].ib);
    hide Inv, IbOk, NetMoved, OpeningNet;
    if !IsBalanceKind(l.accounts[a].kind) { ResultAccountOpensAtZero(l, l.years[year].ib, a); }
    var net := OpeningNet(l.years[year].ib, a) + NetMoved(l, year, l.years[year].first, date, NO_DIMENSIONS, a);
    match l.accounts[a].kind {
      case Asset => assert Presented(l, year, date, Asset)(a) == net;
      case Equity => assert Presented(l, year, date, Equity)(a) == -net;
      case Liability => assert Presented(l, year, date, Liability)(a) == -net;
      case Revenue => assert Reports.ResultPart(l, year, date)(a) == -net;
      case Expense => assert Reports.ResultPart(l, year, date)(a) == -net;
    }
  }

  lemma {:induction false} SheetReconciles(l: Ledger, year: nat, date: int)
    requires Inv(l) && year < |l.years|
    ensures Reconciles(SheetAt(l, year, date))
  {
    var ks, ib := OpeningBalances.Upto(|l.accounts|), l.years[year].ib;
    assert IbOk(l, ib);
    OpeningsPair(l, ib);
    MovementsPair(l, year, l.years[year].first, date);
    forall a | a in ks
      ensures ShareOf(l, year, date)(a) == OpeningOf(ib)(a) + NetAt(l, year, l.years[year].first, date)(a)
    {
      ShareIsNet(l, year, date, a);
    }
    hide Inv, IbOk, NetMoved, OpeningNet, Presented, Reports.ResultPart;
    SumAdd(ks, OpeningOf(ib), NetAt(l, year, l.years[year].first, date), ShareOf(l, year, date));
    ShareSums(l, year, date);
  }

  lemma {:induction false} ShareSums(l: Ledger, year: nat, date: int)
    requires year < |l.years|
    ensures SumOf(OpeningBalances.Upto(|l.accounts|), ShareOf(l, year, date))
            == GroupTotal(l, year, date, Asset) - GroupTotal(l, year, date, Equity)
              - GroupTotal(l, year, date, Liability) - YearResult(l, year, date)
  {
    hide Presented, Reports.ResultPart, OpeningBalances.Upto;
    ShareSum(OpeningBalances.Upto(|l.accounts|), l, year, date);
  }

  lemma {:induction false} ShareSum(ks: seq<nat>, l: Ledger, year: nat, date: int)
    requires year < |l.years|
    ensures SumOf(ks, ShareOf(l, year, date))
            == SumOf(ks, Presented(l, year, date, Asset)) - SumOf(ks, Presented(l, year, date, Equity))
               - SumOf(ks, Presented(l, year, date, Liability)) - SumOf(ks, Reports.ResultPart(l, year, date))
  {
    hide Presented, Reports.ResultPart;
    if |ks| > 0 { ShareSum(ks[..|ks| - 1], l, year, date); }
  }

  /** The balance sheet always reconciles: assets equal equity with the year's result plus liabilities, at the
      report date and at the comparison date. */
  lemma {:induction false} BalanceSheetSucceeds(l: Ledger, year: nat, date: int, comparison: Option<int>)
    requires Inv(l) && year < |l.years| && |l.accounts| <= MAX_ROWS && |l.years[year].ib| <= MAX_ROWS
    requires GoodInterval(l.years[year], l.years[year].first, date)
             && (comparison.Some? ==> GoodInterval(l.years[year], comparison.value, date))
    ensures BalanceSheet(l, year, date, comparison).Ok?
    ensures var (current, earlier) := BalanceSheet(l, year, date, comparison).value;
            current.assets == current.equity + current.liabilities
              && (earlier.Some? ==> earlier.value.assets == earlier.value.equity + earlier.value.liabilities)
  {
    hide Inv, ContextError, SheetAt;
    ContextIsSound(l, year);
    SheetReconciles(l, year, date);
    if comparison.Some? { SheetReconciles(l, year, comparison.value); }
  }

  // ---------------------------------------------------------------- income statement

  lemma {:induction false} NoMovementNoNet(l: Ledger, year: nat, from: int, to: int, d: Dimensions, a: nat)
    requires !HasMovement(l, year, from, to, d, a)
    ensures NetMoved(l, year, from, to, d, a) == 0
  {
    SumZero(LinesIn(l.entries, year, from, to), DebitOn(a, d));
    SumZero(LinesIn(l.entries, year, from, to), CreditOn(a, d));
  }

  /** In every reachable state, therefore, neither report ever refuses a valid interval within the size limits. */
  lemma {:induction false} ReachableReportsSucceed(steps: seq<Step>, year: nat, from: int, to: int,
        comparison: Option<int>)
    requires var l := Run(NOTHING, steps);
             year < |l.years| && |l.accounts| <= MAX_ROWS && |l.years[year].ib| <= MAX_ROWS
               && GoodInterval(l.years[year], from, to)
             && (comparison.Some? ==> GoodInterval(l.years[year], comparison.value, to))
    ensures TrialBalance(Run(NOTHING, steps), year, from, to).Ok?
    ensures BalanceSheet(Run(NOTHING, steps), year, to, comparison).Ok?
  {
    hide Inv, Run, TrialBalance, BalanceSheet;
    LedgerSafety.ReachableInOrder(steps);
    TrialBalanceSucceeds(Run(NOTHING, steps), year, from, to);
    BalanceSheetSucceeds(Run(NOTHING, steps), year, to, comparison);
  }

  /** The year-to-date result of the income statement is the result shown in the balance sheet at that date. */
  lemma {:induction false} IncomeIsSheetResult(l: Ledger, year: nat, from: int, to: int)
    requires year < |l.years|
    requires IncomeStatement(l, year, from, to, NO_DIMENSIONS).Ok?
    ensures IncomeStatement(l, year, from, to, NO_DIMENSIONS).value.yearToDateResult == SheetAt(l, year, to).result
  {
    var ks, first := OpeningBalances.Upto(|l.accounts|), l.years[year].first;
    var revenue := IncomePart(l, year, from, to, NO_DIMENSIONS, Revenue, first);
    var expense := IncomePart(l, year, from, to, NO_DIMENSIONS, Expense, first);
    hide NetMoved, HasMovement, OpeningBalances.Upto;
    forall a: nat ensures revenue(a) == Reports.ResultPart(l, year, to)(a) + expense(a) {
      if !HasMovement(l, year, first, to, NO_DIMENSIONS, a) { NoMovementNoNet(l, year, first, to, NO_DIMENSIONS, a); }
    }
    SumAdd(ks, Reports.ResultPart(l, year, to), expense, revenue);
  }

  // ---------------------------------------------------------------- general ledger

  function Weight(f: Line -> int): Entry -> int { (e: Entry) => SumOf(e.lines, f) }

  lemma {:induction false} SumOfLines(entries: seq<Entry>, f: Line -> int)
    ensures SumOf(LinesOf(entries), f) == SumOf(entries, Weight(f))
  {
    if |entries| > 0 {
      SumOfLines(entries[..|entries| - 1], f);
      SumAppend(LinesOf(entries[..|entries| - 1]), entries[|entries| - 1].lines, f);
    }
  }

  lemma {:induction false} SumOfLinesIn(entries: seq<Entry>, year: nat, from: int, to: int, f: Line -> int)
    ensures SumOf(LinesIn(entries, year, from, to), f) == SumOf(entries, Where(Posting(year, from, to), Weight(f)))
  {
    if |entries| > 0 {
      SumOfLinesIn(entries[..|entries| - 1], year, from, to, f);
      SumAppend(LinesIn(entries[..|entries| - 1], year, from, to), entries[|entries| - 1].lines, f);
    }
  }

  lemma {:induction false} OrderedSum(l: Ledger, year: nat, from: int, to: int, f: Line -> int)
    ensures SumOf(OrderedLines(l, year, from, to), f) == SumOf(LinesIn(l.entries, year, from, to), f)
  {
    var chosen := Filter(l.entries, Posting(year, from, to));
    SumOfLines(Sort(chosen, ByPosting()), f);
    SumPermuted(Sort(chosen, ByPosting()), chosen, Weight(f));
    SumFilter(l.entries, Posting(year, from, to), Weight(f));
    SumOfLinesIn(l.entries, year, from, to, f);
  }

  lemma {:induction false} MatchingNet(l: Ledger, year: nat, from: int, to: int, d: Dimensions, a: nat)
    ensures SumOf(Filter(OrderedLines(l, year, from, to), Matching(a, d)), NetOf()) == NetMoved(l, year, from, to, d, a)
  {
    var lines := OrderedLines(l, year, from, to);
    SumFilter(lines, Matching(a, d), NetOf());
    SumExt(lines, Where(Matching(a, d), NetOf()), NetOn(a, d));
    OrderedSum(l, year, from, to, NetOn(a, d));
    SumAdd(LinesIn(l.entries, year, from, to), NetOn(a, d), CreditOn(a, d), DebitOn(a, d));
    hide OrderedLines, LinesIn, Filter, SumOf;
  }

  /** The general ledger closes where the trial balance does, and its last running balance is that balance. */
  lemma {:induction false} LedgerClosing(l: Ledger, year: nat, from: int, to: int, d: Dimensions, a: nat)
    requires year < |l.years|
    ensures var g := AccountLedgerOf(l, year, from, to, d, a);
            && g.opening == OpeningAt(l, year, from, d, a) && g.closing == ClosingAt(l, year, from, to, d, a)
            && (g.rows != [] ==> g.rows[|g.rows| - 1].running == g.closing)
  {
    MatchingNet(l, year, from, to, d, a);
    hide OrderedLines, NetMoved, OpeningAt;
  }

  /** General ledger, trial balance and account-balance service show the same balance at the same date. */
  lemma {:induction false} ReportsAgree(l: Ledger, year: nat, from: int, to: int, a: nat)
    requires year < |l.years| && l.years[year].first <= from <= to
    ensures var row := TrialRowOf(l, year, from, to)(a);
            && AccountLedgerOf(l, year, from, to, NO_DIMENSIONS, a).closing == row.closingDebit - row.closingCredit
            && row.closingDebit - row.closingCredit == BalanceAt(l, year, to)(a)
            && AccountLedgerOf(l, year, from, to, NO_DIMENSIONS, a).opening == row.openingDebit - row.openingCredit
  {
    hide AccountLedgerOf, NetMoved, OpeningNet, OpeningAt, ClosingAt, DebitMoved, CreditMoved, TrialRowOf;
    LedgerClosing(l, year, from, to, NO_DIMENSIONS, a);
    ClosingFromStart(l, year, from, to, NO_DIMENSIONS, a);
    RowNets(l, year, from, to, a);
  }

  lemma {:induction false} RangeBounded(accounts: seq<Account>, first: Option<string>, last: Option<string>, n: nat)
    requires n <= |accounts|
    ensures forall a :: a in RangeAccounts(accounts, first, last, n) ==> a < n && InRange(accounts[a], first, last)
    ensures forall a: nat :: a < n && InRange(accounts[a], first, last) ==> a in RangeAccounts(accounts, first, last, n)
  {
    hide InRange;
    if n > 0 {
      RangeBounded(accounts, first, last, n - 1);
      var before := RangeAccounts(accounts, first, last, n - 1);
      assert forall a :: a in before + [n - 1] <==> a in before || a == n - 1;
    }
  }

  /** The account ledger opens and closes where row `a` of the trial balance does, and its last running balance is
      the closing balance. */
  predicate MatchesRow(x: AccountLedger, a: nat, rows: seq<TrialRow>) {
    && x.account == a < |rows|
    && x.opening == rows[a].openingDebit - rows[a].openingCredit
    && x.closing == rows[a].closingDebit - rows[a].closingCredit
    && (x.rows != [] ==> x.rows[|x.rows| - 1].running == x.closing)
  }

  lemma LedgerMatchesRow(l: Ledger, year: nat, from: int, to: int, a: nat, rows: seq<TrialRow>)
    requires year < |l.years| && GoodInterval(l.years[year], from, to)
    requires a < |rows| && rows[a] == TrialRowOf(l, year, from, to)(a)
    ensures MatchesRow(AccountLedgerOf(l, year, from, to, NO_DIMENSIONS, a), a, rows)
  {
    InYear(l, year, from, to);
    hide AccountLedgerOf, TrialRowOf, GoodInterval, BalanceAt, OpeningAt, ClosingAt, NetMoved;
    ReportsAgree(l, year, from, to, a);
    LedgerClosing(l, year, from, to, NO_DIMENSIONS, a);
    LedgerOfAccount(l, year, from, to, NO_DIMENSIONS, a);
  }

  /** The accounts of a general ledger that succeeds are exactly those of the number range, each with the opening and
      closing balance that the trial balance of the interval shows for it. */
  lemma {:induction false} LedgerMatchesTrial(l: Ledger, year: nat, from: int, to: int, first: Option<string>,
        last: Option<string>, g: seq<AccountLedger>, t: Trial)
    requires GeneralLedger(l, year, from, to, first, last, NO_DIMENSIONS) == Ok(g)
    requires TrialBalance(l, year, from, to) == Ok(t)
    ensures |t.rows| == |l.accounts|
    ensures forall x :: x in g ==>
      x.account < |t.rows| && InRange(l.accounts[x.account], first, last) && MatchesRow(x, x.account, t.rows)
    ensures forall a: nat :: a < |l.accounts| && InRange(l.accounts[a], first, last) ==>
            exists x :: x in g && x.account == a
  {
    LedgerParts(l, year, from, to, first, last, g);
    TrialParts(l, year, from, to, t);
    hide GeneralLedger, TrialBalance, AccountLedgerOf, TrialRowOf, InRange, GoodInterval, RangeAccounts;
    var accounts := RangeAccounts(l.accounts, first, last, |l.accounts|);
    RangeBounded(l.accounts, first, last, |l.accounts|);
    forall i | 0 <= i < |g| ensures accounts[i] in accounts && MatchesRow(g[i], accounts[i], t.rows) {
      assert accounts[i] in accounts;
      LedgerMatchesRow(l, year, from, to, accounts[i], t.rows);
    }
    forall a: nat | a < |l.accounts| && InRange(l.accounts[a], first, last)
      ensures exists x :: x in g && x.account == a
    {
      var i :| 0 <= i < |accounts| && accounts[i] == a;
      assert g[i] in g && g[i].account == a;
    }
  }

  lemma LedgerOfAccount(l: Ledger, year: nat, from: int, to: int, d: Dimensions, a: nat)
    requires year < |l.years|
    ensures AccountLedgerOf(l, year, from, to, d, a).account == a
  {
    hide OrderedLines, RunningRows, OpeningAt, SumOf, Filter;
  }

  lemma LedgerParts(l: Ledger, year: nat, from: int, to: int, first: Option<string>, last: Option<string>,
        g: seq<AccountLedger>)
    requires GeneralLedger(l, year, from, to, first, last, NO_DIMENSIONS) == Ok(g)
    ensures year < |l.years| && GoodInterval(l.years[year], from, to)
    ensures g == Map(RangeAccounts(l.accounts, first, last, |l.accounts|), LedgerAt(l, year, from, to, NO_DIMENSIONS))
    ensures forall i :: 0 <= i < |g| ==>
      g[i] == AccountLedgerOf(l, year, from, to, NO_DIMENSIONS, RangeAccounts(l.accounts, first, last, |l.accounts|)[i])
  {
    hide AccountLedgerOf, RangeAccounts, ContextError, SumOf, GoodInterval;
  }

  lemma TrialParts(l: Ledger, year: nat, from: int, to: int, t: Trial)
    requires TrialBalance(l, year, from, to) == Ok(t)
    ensures year < |l.years| && GoodInterval(l.years[year], from, to) && |t.rows| == |l.accounts|
    ensures forall a: nat :: a < |l.accounts| ==> t.rows[a] == TrialRowOf(l, year, from, to)(a)
  {
    hide TrialRowOf, ContextError, TrialTotals, GoodInterval;
  }

  /** The account-balance service answers for exactly the requested accounts, each with the closing balance that the
      trial balance up to the same day shows. */
  lemma {:induction false} BalancesMatchTrial(l: Ledger, year: nat, from: int, to: int, ids: set<nat>, t: Trial,
        bs: seq<AccountBalance>)
    requires TrialBalance(l, year, from, to) == Ok(t) && ReadBalances(l, year, to, ids) == Ok(bs)
    ensures |t.rows| == |l.accounts|
    ensures forall b :: b in bs ==> b.account in ids && b.account < |t.rows|
                                    && b.balance == t.rows[b.account].closingDebit - t.rows[b.account].closingCredit
    ensures forall a :: a in ids ==> exists b :: b in bs && b.account == a
  {
    TrialParts(l, year, from, to, t);
    BalanceParts(l, year, to, ids, bs);
    hide TrialBalance, ReadBalances, TrialRowOf, BalanceAt, GoodInterval;
    var accounts := Filter(OpeningBalances.Upto(|l.accounts|), Requested(ids));
    forall i | 0 <= i < |bs|
      ensures bs[i].account in ids && bs[i].account < |t.rows|
              && bs[i].balance == t.rows[bs[i].account].closingDebit - t.rows[bs[i].account].closingCredit
    {
      assert accounts[i] in accounts;
      InYear(l, year, from, to);
      ReportsAgree(l, year, from, to, accounts[i]);
    }
    forall a | a in ids ensures exists b :: b in bs && b.account == a {
      assert a in accounts by { assert OpeningBalances.Upto(|l.accounts|)[a] == a && Requested(ids)(a); }
      var i :| 0 <= i < |accounts| && accounts[i] == a;
      assert bs[i] in bs;
    }
  }

  lemma InYear(l: Ledger, year: nat, from: int, to: int)
    requires year < |l.years| && GoodInterval(l.years[year], from, to)
    ensures l.years[year].first <= from <= to
  {
  }

  lemma BalanceParts(l: Ledger, year: nat, date: int, ids: set<nat>, bs: seq<AccountBalance>)
    requires ReadBalances(l, year, date, ids) == Ok(bs)
    ensures year < |l.years| && forall a :: a in ids ==> a < |l.accounts|
    ensures bs == Map(Filter(OpeningBalances.Upto(|l.accounts|), Requested(ids)), BalanceRow(l, year, date))
  {
    hide ContextError, GoodInterval, BalanceAt;
  }
}
