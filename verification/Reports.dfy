/** The reports over a fiscal year: trial balance, balance sheet, income statement, general ledger, account balances. */
module Reports {
  import opened Common
  import opened LedgerModel
  import opened AccountingData
  import OpeningBalances
  import SieText

  predicate GoodInterval(y: Year, from: int, to: int) { y.first <= from <= to <= y.last }

  function Positive(n: int): int { if n > 0 then n else 0 }

  // ---------------------------------------------------------------- balances of one account

  /** Opening of an interval: opening balance plus the movements of the year before the interval. */
  function OpeningAt(l: Ledger, year: nat, from: int, d: Dimensions, a: nat): int
    requires year < |l.years|
  {
    OpeningNet(l.years[year].ib, a) + if from > l.years[year].first
      then NetMoved(l, year, l.years[year].first, from - 1, d, a) else 0
  }

  function ClosingAt(l: Ledger, year: nat, from: int, to: int, d: Dimensions, a: nat): int
    requires year < |l.years|
  {
    OpeningAt(l, year, from, d, a) + NetMoved(l, year, from, to, d, a)
  }

  // ---------------------------------------------------------------- trial balance

  datatype TrialRow = TrialRow(openingDebit: int, openingCredit: int, periodDebit: int, periodCredit: int,
    closingDebit: int, closingCredit: int)

  function TrialRowOf(l: Ledger, year: nat, from: int, to: int): nat -> TrialRow
    requires year < |l.years|
  {
    (a: nat) =>
      var opening, closing :=
        OpeningAt(l, year, from, NO_DIMENSIONS, a), ClosingAt(l, year, from, to, NO_DIMENSIONS, a);
      TrialRow(Positive(opening), Positive(-opening), DebitMoved(l, year, from, to, NO_DIMENSIONS, a),
               CreditMoved(l, year, from, to, NO_DIMENSIONS, a), Positive(closing), Positive(-closing))
  }

  datatype Side = OpeningDebit | OpeningCredit | PeriodDebit | PeriodCredit | ClosingDebit | ClosingCredit

  function SideOf(side: Side): TrialRow -> int {
    (r: TrialRow) =>
      match side
      case OpeningDebit => r.openingDebit
      case OpeningCredit => r.openingCredit
      case PeriodDebit => r.periodDebit
      case PeriodCredit => r.periodCredit
      case ClosingDebit => r.closingDebit
      case ClosingCredit => r.closingCredit
  }

  datatype Trial = Trial(rows: seq<TrialRow>, totals: TrialRow)

  function TrialTotals(rows: seq<TrialRow>): TrialRow {
    TrialRow(SumOf(rows, SideOf(OpeningDebit)), SumOf(rows, SideOf(OpeningCredit)), SumOf(rows, SideOf(PeriodDebit)),
             SumOf(rows, SideOf(PeriodCredit)), SumOf(rows, SideOf(ClosingDebit)), SumOf(rows, SideOf(ClosingCredit)))
  }

  function TrialBalance(l: Ledger, year: nat, from: int, to: int): Result<Trial, Error> {
    if ContextError(l, year).Some? then Err(ContextError(l, year).value)
    else if year >= |l.years| || !GoodInterval(l.years[year], from, to) then Err(BadInterval)
    else
      var rows := Map(OpeningBalances.Upto(|l.accounts|), TrialRowOf(l, year, from, to));
      var t := TrialTotals(rows);
      if t.openingDebit != t.openingCredit || t.periodDebit != t.periodCredit || t.closingDebit != t.closingCredit
        then Err(Unbalanced)
      else Ok(Trial(rows, t))
  }

  // ---------------------------------------------------------------- balance sheet

  function KindAt(l: Ledger, a: nat): Option<Kind> { if a < |l.accounts| then Some(l.accounts[a].kind) else None }

  /** Balance of an account at a date, shown on the natural side of its kind. */
  function Presented(l: Ledger, year: nat, date: int, kind: Kind): nat -> int
    requires year < |l.years|
  {
    (a: nat) =>
      if KindAt(l, a) != Some(kind) then 0
      else
        var net := OpeningNet(l.years[year].ib, a) + NetMoved(l, year, l.years[year].first, date, NO_DIMENSIONS, a);
        if kind.Asset? || kind.Expense? then net else -net
  }

  /** Result of the year up to a date: minus the movements of the revenue and expense accounts. */
  function ResultPart(l: Ledger, year: nat, date: int): nat -> int
    requires year < |l.years|
  {
    (a: nat) =>
      if KindAt(l, a) == Some(Revenue) || KindAt(l, a) == Some(Expense)
        then -NetMoved(l, year, l.years[year].first, date, NO_DIMENSIONS, a) else 0
  }

  function YearResult(l: Ledger, year: nat, date: int): int
    requires year < |l.years|
  {
    SumOf(OpeningBalances.Upto(|l.accounts|), ResultPart(l, year, date))
  }

  function GroupTotal(l: Ledger, year: nat, date: int, kind: Kind): int
    requires year < |l.years|
  {
    SumOf(OpeningBalances.Upto(|l.accounts|), Presented(l, year, date, kind))
  }

  datatype Sheet = Sheet(assets: int, equity: int, liabilities: int, result: int)

  /** Equity includes the result of the year. */
  function SheetAt(l: Ledger, year: nat, date: int): Sheet
    requires year < |l.years|
  {
    var result := YearResult(l, year, date);
    Sheet(GroupTotal(l, year, date, Asset), GroupTotal(l, year, date, Equity) + result,
          GroupTotal(l, year, date, Liability), result)
  }

  predicate Reconciles(s: Sheet) { s.assets == s.equity + s.liabilities }

  function BalanceSheet(l: Ledger, year: nat, date: int,
        comparison: Option<int>): Result<(Sheet, Option<Sheet>), Error> {
    if ContextError(l, year).Some? then Err(ContextError(l, year).value)
    else if year >= |l.years| || !GoodInterval(l.years[year], l.years[year].first, date) then Err(BadInterval)
    else if comparison.Some? && !GoodInterval(l.years[year], comparison.value, date) then Err(BadInterval)
    else
      var current := SheetAt(l, year, date);
      var earlier := if comparison.Some? then Some(SheetAt(l, year, comparison.value)) else None;
      if !Reconciles(current) || (earlier.Some? && !Reconciles(earlier.value)) then Err(Unbalanced)
        else Ok((current, earlier))
  }

  // ---------------------------------------------------------------- income statement

  predicate HasMovement(l: Ledger, year: nat, from: int, to: int, d: Dimensions, a: nat) {
    exists x :: x in LinesIn(l.entries, year, from, to) && OfAccount(a, d, x)
  }

  /** Only accounts with a movement in the period or in the year so far are listed. */
  function IncomePart(l: Ledger, year: nat, from: int, to: int, d: Dimensions, kind: Kind, shownFrom: int): nat -> int
    requires year < |l.years|
  {
    (a: nat) =>
      if KindAt(l, a) == Some(kind)
        && (HasMovement(l, year, from, to, d, a) || HasMovement(l, year, l.years[year].first, to, d, a))
      then (if kind.Expense? then NetMoved(l, year, shownFrom, to, d, a)
        else -NetMoved(l, year, shownFrom, to, d, a)) else 0
  }

  function IncomeTotal(l: Ledger, year: nat, from: int, to: int, d: Dimensions, kind: Kind, shownFrom: int): int
    requires year < |l.years|
  {
    SumOf(OpeningBalances.Upto(|l.accounts|), IncomePart(l, year, from, to, d, kind, shownFrom))
  }

  function IsIncomeAccount(): Account -> bool { (a: Account) => a.kind.Revenue? || a.kind.Expense? }

  datatype Income = Income(periodResult: int, yearToDateResult: int)

  function IncomeStatement(l: Ledger, year: nat, from: int, to: int, d: Dimensions): Result<Income, Error> {
    if from > to then Err(BadInterval)
    else if year >= |l.years| then Err(NotFound)
    else if from < l.years[year].first || to > l.years[year].last then Err(BadInterval)
    else if |Filter(l.accounts, IsIncomeAccount())| > MAX_ROWS then Err(TooLarge)
    else
      var first := l.years[year].first;
      Ok(Income(IncomeTotal(l, year, from, to, d, Revenue, from) - IncomeTotal(l, year, from, to, d, Expense, from),
                IncomeTotal(l, year, from, to, d, Revenue, first) - IncomeTotal(l, year, from, to, d, Expense, first)))
  }

  // ---------------------------------------------------------------- account balances

  function BalanceAt(l: Ledger, year: nat, date: int): nat -> int
    requires year < |l.years|
  {
    (a: nat) => OpeningNet(l.years[year].ib, a) + NetMoved(l, year, l.years[year].first, date, NO_DIMENSIONS, a)
  }

  datatype AccountBalance = AccountBalance(account: nat, balance: int)

  function Requested(ids: set<nat>): nat -> bool { (a: nat) => a in ids }

  function BalanceRow(l: Ledger, year: nat, date: int): nat -> AccountBalance
    requires year < |l.years|
  {
    (a: nat) => AccountBalance(a, BalanceAt(l, year, date)(a))
  }

  /** Balances of the requested accounts at the end of a day. */
  function ReadBalances(l: Ledger, year: nat, date: int, ids: set<nat>): Result<seq<AccountBalance>, Error> {
    if ContextError(l, year).Some? then Err(ContextError(l, year).value)
    else if year >= |l.years| || !GoodInterval(l.years[year], l.years[year].first, date) then Err(BadInterval)
    else if exists a :: a in ids && a >= |l.accounts| then Err(NotFound)
    else Ok(Map(Filter(OpeningBalances.Upto(|l.accounts|), Requested(ids)), BalanceRow(l, year, date)))
  }

  // ---------------------------------------------------------------- general ledger

  datatype LedgerRow = LedgerRow(debit: int, credit: int, running: int)

  datatype AccountLedger = AccountLedger(account: nat, opening: int, rows: seq<LedgerRow>, closing: int)

  predicate InRange(a: Account, first: Option<string>, last: Option<string>) {
    (first.Some? ==> !SieText.Less(a.number, first.value)) && (last.Some? ==> !SieText.Less(last.value, a.number))
  }

  function ByPosting(): (Entry, Entry) -> int {
    (a: Entry, b: Entry) =>
      if a.date != b.date then a.date - b.date
      else if a.series != b.series then a.series - b.series
      else (if a.number.Some? then a.number.value else 0) - (if b.number.Some? then b.number.value else 0)
  }

  /** The posted vouchers of an interval in ledger order, and their lines. */
  function Posting(year: nat, from: int, to: int): Entry -> bool { (e: Entry) => PostedIn(e, year, from, to) }

  function OrderedLines(l: Ledger, year: nat, from: int, to: int): seq<Line>
  {
    LinesOf(Sort(Filter(l.entries, Posting(year, from, to)), ByPosting()))
  }

  function LinesOf(entries: seq<Entry>): seq<Line> {
    if |entries| == 0 then [] else LinesOf(entries[..|entries| - 1]) + entries[|entries| - 1].lines
  }

  function Matching(a: nat, d: Dimensions): Line -> bool { (x: Line) => OfAccount(a, d, x) }

  /** Running balances after each line, starting from the opening. */
  function RunningRows(opening: int, lines: seq<Line>): seq<LedgerRow> {
    if |lines| == 0 then []
    else
      var x := lines[|lines| - 1];
      RunningRows(opening, lines[..|lines| - 1]) + [LedgerRow(x.debit, x.credit, opening + SumOf(lines, NetOf()))]
  }

  function AccountLedgerOf(l: Ledger, year: nat, from: int, to: int, d: Dimensions, a: nat): AccountLedger
    requires year < |l.years|
  {
    var opening := OpeningAt(l, year, from, d, a);
    var lines := Filter(OrderedLines(l, year, from, to), Matching(a, d));
    AccountLedger(a, opening, RunningRows(opening, lines), opening + SumOf(lines, NetOf()))
  }

  /** The accounts of the requested number range, in order. */
  function RangeAccounts(accounts: seq<Account>, first: Option<string>, last: Option<string>, n: nat): seq<nat>
    requires n <= |accounts|
  {
    if n == 0 then []
    else RangeAccounts(accounts, first, last, n - 1) + if InRange(accounts[n - 1], first, last) then [n - 1] else []
  }

  function LedgerError(l: Ledger, year: nat, from: int, to: int, first: Option<string>, last: Option<string>,
        d: Dimensions): Option<Error> {
    if from > to then Some(BadInterval)
    else if first.Some? && last.Some? && SieText.Less(last.value, first.value) then Some(BadInterval)
    else if ContextError(l, year).Some? then ContextError(l, year)
    else if year >= |l.years| || !GoodInterval(l.years[year], from, to) then Some(BadInterval)
    else if (d.project.Some? || d.centre.Some?)
      && exists r :: r in l.years[year].ib && r.debit != r.credit then Some(UnallocatedOpening)
    else None
  }

  const MAX_LINES := 20000

  function MatchingCount(l: Ledger, year: nat, from: int, to: int, d: Dimensions): nat -> int {
    (a: nat) => |Filter(OrderedLines(l, year, from, to), Matching(a, d))|
  }

  function LedgerAt(l: Ledger, year: nat, from: int, to: int, d: Dimensions): nat -> AccountLedger
    requires year < |l.years|
  {
    (a: nat) => AccountLedgerOf(l, year, from, to, d, a)
  }

  function GeneralLedger(l: Ledger, year: nat, from: int, to: int, first: Option<string>, last: Option<string>,
        d: Dimensions): Result<seq<AccountLedger>, Error> {
    var error := LedgerError(l, year, from, to, first, last, d);
    var accounts := RangeAccounts(l.accounts, first, last, |l.accounts|);
    if error.Some? then Err(error.value)
    else if year >= |l.years| then Err(NotFound)
    else if SumOf(accounts, MatchingCount(l, year, from, to, d)) > MAX_LINES then Err(TooLarge)
    else Ok(Map(accounts, LedgerAt(l, year, from, to, d)))
  }

  method ReadLedger(db: Store, year: nat, from: int, to: int, first: Option<string>, last: Option<string>,
        d: Dimensions)
    returns (r: Result<seq<AccountLedger>, Error>)
    ensures r == GeneralLedger(db.State(), year, from, to, first, last, d)
  {
    ghost var l := db.State();
    ErrorImpliesYear(l, year, from, to, first, last, d);
    hide AccountLedgerOf, OrderedLines, InRange, LedgerError, SumOf;
    var error, opening := CheckLedger(db, year, from, to, first, last, d);
    if error.Some? { return Err(error.value); }
    var accounts := PickAccounts(db, first, last);
    var buckets := FillBuckets(OrderedLines(db.State(), year, from, to), d);
    var size := CountLines(buckets, accounts);
    SizesAgree(l, year, from, to, d, buckets, accounts);
    if size > MAX_LINES { return Err(TooLarge); }
    var ledgers := RunAccounts(db, year, from, to, d, buckets, accounts);
    r := Ok(ledgers);
  }

  lemma SizesAgree(l: Ledger, year: nat, from: int, to: int, d: Dimensions, buckets: map<nat, seq<Line>>,
        accounts: seq<nat>)
    requires forall a: nat ::
             (if a in buckets then buckets[a] else []) == Filter(OrderedLines(l, year, from, to), Matching(a, d))
    ensures SumOf(accounts, BucketSize(buckets)) == SumOf(accounts, MatchingCount(l, year, from, to, d))
  {
    hide OrderedLines;
    SumExt(accounts, BucketSize(buckets), MatchingCount(l, year, from, to, d));
  }

  method RunAccounts(db: Store, year: nat, from: int, to: int, d: Dimensions, buckets: map<nat, seq<Line>>,
        accounts: seq<nat>)
    returns (ledgers: seq<AccountLedger>)
    requires year < |db.years|
    requires forall a: nat ::
             (if a in buckets then buckets[a] else [])
               == Filter(OrderedLines(db.State(), year, from, to), Matching(a, d))
    ensures ledgers == Map(accounts, LedgerAt(db.State(), year, from, to, d))
  {
    hide OrderedLines, AccountLedgerOf;
    ghost var l := db.State();
    ledgers := [];
    for i := 0 to |accounts|
      invariant |ledgers| == i && forall j :: 0 <= j < i ==>
                ledgers[j] == AccountLedgerOf(l, year, from, to, d, accounts[j])
    {
      var a := accounts[i];
      var start := OpeningAt(db.State(), year, from, d, a);
      var one := RunAccount(a, start, if a in buckets then buckets[a] else []);
      LedgerIs(l, year, from, to, d, a);
      ledgers := ledgers + [one];
    }
    assert ledgers == Map(accounts, LedgerAt(l, year, from, to, d));
  }

  lemma LedgerIs(l: Ledger, year: nat, from: int, to: int, d: Dimensions, a: nat)
    requires year < |l.years|
    ensures var lines := Filter(OrderedLines(l, year, from, to), Matching(a, d));
            var opening := OpeningAt(l, year, from, d, a);
            AccountLedgerOf(l, year, from, to, d, a)
              == AccountLedger(a, opening, RunningRows(opening, lines), opening + SumOf(lines, NetOf()))
  {
  }

  lemma ErrorImpliesYear(l: Ledger, year: nat, from: int, to: int, first: Option<string>, last: Option<string>,
        d: Dimensions)
    ensures LedgerError(l, year, from, to, first, last, d).None? ==> year < |l.years|
  {
  }

  method CheckLedger(db: Store, year: nat, from: int, to: int, first: Option<string>, last: Option<string>,
        d: Dimensions)
    returns (error: Option<Error>, opening: map<nat, int>)
    ensures error == LedgerError(db.State(), year, from, to, first, last, d)
  {
    hide ContextError, OpeningTable;
    opening := map[];
    if from > to { return Some(BadInterval), opening; }
    if first.Some? && last.Some? && SieText.Less(last.value, first.value) { return Some(BadInterval), opening; }
    var debit, credit;
    error, opening, debit, credit := ReadContext(db, year);
    if error.Some? { return; }
    if year >= |db.years| || !GoodInterval(db.years[year], from, to) { return Some(BadInterval), opening; }
    if (d.project.Some? || d.centre.Some?) && exists r :: r in db.years[year].ib && r.debit != r.credit {
      return Some(UnallocatedOpening), opening;
    }
    return None, opening;
  }

  method PickAccounts(db: Store, first: Option<string>, last: Option<string>) returns (accounts: seq<nat>)
    ensures accounts == RangeAccounts(db.accounts, first, last, |db.accounts|)
  {
    accounts := [];
    for a := 0 to |db.accounts|
      invariant accounts == RangeAccounts(db.accounts, first, last, a)
    {
      if InRange(db.accounts[a], first, last) { accounts := accounts + [a]; }
    }
  }

  /** Lines are pushed into the bucket of their account in ledger order. */
  method FillBuckets(lines: seq<Line>, d: Dimensions) returns (buckets: map<nat, seq<Line>>)
    ensures forall a: nat :: (if a in buckets then buckets[a] else []) == Filter(lines, Matching(a, d))
  {
    buckets := map[];
    for i := 0 to |lines|
      invariant forall a: nat :: (if a in buckets then buckets[a] else []) == Filter(lines[..i], Matching(a, d))
    {
      assert lines[..i + 1][..i] == lines[..i];
      var x := lines[i];
      if InDimensions(d, x) {
        buckets := buckets[x.account := (if x.account in buckets then buckets[x.account] else []) + [x]];
      }
    }
    assert lines[..|lines|] == lines;
  }

  method CountLines(buckets: map<nat, seq<Line>>, accounts: seq<nat>) returns (n: nat)
    ensures n == SumOf(accounts, BucketSize(buckets))
  {
    n := 0;
    for i := 0 to |accounts|
      invariant n == SumOf(accounts[..i], BucketSize(buckets))
    {
      assert accounts[..i + 1][..i] == accounts[..i];
      n := n + if accounts[i] in buckets then |buckets[accounts[i]]| else 0;
    }
    assert accounts[..|accounts|] == accounts;
  }

  function BucketSize(buckets: map<nat, seq<Line>>): nat -> int { (a: nat) => if a in buckets then |buckets[a]| else 0 }

  method RunAccount(a: nat, opening: int, lines: seq<Line>) returns (one: AccountLedger)
    ensures one == AccountLedger(a, opening, RunningRows(opening, lines), opening + SumOf(lines, NetOf()))
  {
    var running := opening;
    var rows: seq<LedgerRow> := [];
    for i := 0 to |lines|
      invariant running == opening + SumOf(lines[..i], NetOf())
      invariant rows == RunningRows(opening, lines[..i])
    {
      assert lines[..i + 1][..i] == lines[..i];
      running := running + (lines[i].debit - lines[i].credit);
      rows := rows + [LedgerRow(lines[i].debit, lines[i].credit, running)];
    }
    assert lines[..|lines|] == lines;
    one := AccountLedger(a, opening, rows, running);
  }
}
