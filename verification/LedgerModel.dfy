/** The stored ledger of one organization: years with periods and opening balances, accounts, voucher
    series, vouchers and year carry-forwards. Records refer to each other by position; none is ever
    deleted. Money is in öre and days are day numbers. */
module LedgerModel {
  import opened Common
  import Vat

  datatype Kind = Asset | Liability | Equity | Revenue | Expense

  predicate IsBalanceKind(k: Kind) { k.Asset? || k.Liability? || k.Equity? }

  /** `catalog` marks an account taken from the reviewed account catalogue. */
  datatype Account = Account(number: string, name: string, kind: Kind, active: bool, catalog: bool, vat: Option<string>)

  datatype Series = Series(year: nat, code: string, next: int, active: bool)

  datatype Line = Line(
    account: nat, debit: int, credit: int, date: Option<int>, text: Option<string>,
    project: Option<string>, centre: Option<string>, vatCode: Option<string>, role: Vat.Role, group: Option<string>,
    stored: Vat.Stored)

  datatype Source = Manual | Reversal | Imported

  /** A voucher: a draft until it is posted under a number of its series. */
  datatype Entry = Entry(
    year: nat, period: nat, series: nat, date: int, text: string, posted: bool, version: int, number: Option<int>,
    lines: seq<Line>, reverses: Option<nat>, source: Source)

  datatype Period = Period(first: int, last: int, locked: bool)

  datatype IbRow = IbRow(account: nat, debit: int, credit: int)

  /** `stamp` counts the rewrites of the opening balances, as the row ids and times in their fingerprint do. */
  datatype Year = Year(first: int, last: int, closed: bool, periods: seq<Period>, ib: seq<IbRow>, stamp: nat)

  /** What a carry-forward computes; the stored fingerprint stands for this value. */
  datatype CarryPlan = CarryPlan(
    source: nat, target: nat, sourceSpan: (int, int), targetSpan: (int, int), result: nat, resultNet: int,
    rows: seq<IbRow>, debit: int, credit: int, accounts: seq<(string, string, Kind)>)

  datatype Carry = Carry(source: nat, target: nat, result: nat, actor: string, plan: CarryPlan, expires: int,
    confirmed: bool)

  datatype Ledger = Ledger(years: seq<Year>, accounts: seq<Account>, series: seq<Series>, entries: seq<Entry>,
    carries: seq<Carry>)

  const NOTHING := Ledger([], [], [], [], [])

  datatype VatCode = VatCode(meta: Vat.Snapshot, first: int, last: Option<int>)

  /** The registers a request sees: bookable accounts, accounts with a posted line that does not carry the name of
      its account, and the active projects, cost centres and VAT codes. */
  datatype Registers = Registers(
    eligible: Account -> bool, unlabelled: set<nat>, projects: set<string>, centres: set<string>,
    vat: map<string, VatCode>)

  datatype Error =
    | NotFound | InvalidDate | BlankText | NoSingleYear | NoSinglePeriod | YearClosed | PeriodLocked | YearsOverlap
    | InvalidYear | NotAllLocked | DraftsRemain | DuplicateSeries | SeriesInUse | DuplicateAccount | CatalogIdentity
    | NotEligible | ClassificationInUse | CatalogMissing | CatalogFixed | CatalogReview | ActivationRejected
    | NothingToUpdate | SeriesUnavailable | NoLines | AccountUnavailable | CodeUnavailable | BadAmount | BadSides
    | NotDraft | VersionConflict | CalendarMismatch | TooFewLines | NotBalanced | VatNotEffective | CounterExhausted
    | NotPosted | IsCorrection | AlreadyCorrected | SerializationFailure | LegacyLabelInUse | IbLocked | IbConflict
    | IbAccountInvalid | IbInactive | IbRowInvalid | IbUnbalanced | SameYear | SourceOpen | NotAdjacent
    | TargetExists | InvalidOpening | UnbalancedOpening | TooLarge | ResultAccountInvalid | SourceUnbalanced
    | PreviewExpired | SourceChanged | DocumentInvalid | NoFiscalYear | MappingConflict | ActivationUnconfirmed
    | OpeningNotEmpty | OpeningAccountMissing | ResultOpening | NoPeriodForDate | LineAccountMissing | BadInterval
    | Unbalanced | UnallocatedOpening

  type Outcome = Result<Ledger, Error>

  const MAX_INT4 := 2147483647

  // ---------------------------------------------------------------- sums and look-ups

  function DebitOf(): Line -> int { (x: Line) => x.debit }

  function CreditOf(): Line -> int { (x: Line) => x.credit }

  function NetOf(): Line -> int { (x: Line) => x.debit - x.credit }

  function Debits(lines: seq<Line>): int { SumOf(lines, DebitOf()) }

  function Credits(lines: seq<Line>): int { SumOf(lines, CreditOf()) }

  function IbDebit(): IbRow -> int { (r: IbRow) => r.debit }

  function IbCredit(): IbRow -> int { (r: IbRow) => r.credit }

  predicate HasLocked(y: Year) { exists p :: p in y.periods && p.locked }

  predicate AllLocked(y: Year) { forall p :: p in y.periods ==> p.locked }

  predicate HasPosted(l: Ledger, year: nat) { exists e :: e in l.entries && e.year == year && e.posted }

  predicate HasDraft(l: Ledger, year: nat) { exists e :: e in l.entries && e.year == year && !e.posted }

  predicate SeriesPosted(l: Ledger, s: nat) { exists e :: e in l.entries && e.series == s && e.posted }

  predicate Corrected(l: Ledger, id: nat) { exists e :: e in l.entries && e.reverses == Some(id) }

  /** The account carries an opening balance or a posted line. */
  predicate AccountUsed(l: Ledger, a: nat) {
    (exists y :: y in l.years && exists r :: r in y.ib && r.account == a)
    || (exists e :: e in l.entries && e.posted && exists x :: x in e.lines && x.account == a)
  }

  function WithEntry(l: Ledger, i: nat, e: Entry): Ledger
    requires i < |l.entries|
  {
    l.(entries := l.entries[i := e])
  }

  function WithYear(l: Ledger, y: nat, year: Year): Ledger
    requires y < |l.years|
  {
    l.(years := l.years[y := year])
  }

  function WithSeries(l: Ledger, s: nat, series: Series): Ledger
    requires s < |l.series|
  {
    l.(series := l.series[s := series])
  }

  function WithAccount(l: Ledger, a: nat, account: Account): Ledger
    requires a < |l.accounts|
  {
    l.(accounts := l.accounts[a := account])
  }

  /** Position of the account with a number. */
  function FindAccount(accounts: seq<Account>, number: string): (r: Option<nat>)
    ensures r.Some? ==> r.value < |accounts| && accounts[r.value].number == number
    ensures r.None? ==> forall a :: a in accounts ==> a.number != number
  {
    if |accounts| == 0 then None
    else if accounts[|accounts| - 1].number == number then Some(|accounts| - 1)
    else FindAccount(accounts[..|accounts| - 1], number)
  }

  // ---------------------------------------------------------------- calendar guard

  /** The guard shared by every accounting writer: the year exists and is open, and so does the period. */
  function RequireOpen(l: Ledger, year: nat, period: Option<nat>): Option<Error> {
    if year >= |l.years| then Some(NotFound)
    else if l.years[year].closed then Some(YearClosed)
    else if period.None? then None
    else if period.value >= |l.years[year].periods| then Some(NotFound)
    else if l.years[year].periods[period.value].locked then Some(PeriodLocked)
    else None
  }

  predicate Holds(first: int, last: int, day: int) { first <= day <= last }

  /** Positions of the years that contain a day. */
  function YearsWith(years: seq<Year>, day: int): (r: seq<nat>)
    ensures forall y: nat :: y in r <==> y < |years| && Holds(years[y].first, years[y].last, day)
  {
    if |years| == 0 then []
    else
      var n := |years| - 1;
      YearsWith(years[..n], day) + if Holds(years[n].first, years[n].last, day) then [n] else []
  }

  function PeriodsWith(periods: seq<Period>, day: int): (r: seq<nat>)
    ensures forall p: nat :: p in r <==> p < |periods| && Holds(periods[p].first, periods[p].last, day)
  {
    if |periods| == 0 then []
    else
      var n := |periods| - 1;
      PeriodsWith(periods[..n], day) + if Holds(periods[n].first, periods[n].last, day) then [n] else []
  }

  /** The one year and the one period of a day. */
  function Resolve(l: Ledger, day: int): (r: Result<(nat, nat), Error>)
    ensures r.Ok? ==> r.value.0 < |l.years| && r.value.1 < |l.years[r.value.0].periods|
    ensures r.Ok? ==> Holds(l.years[r.value.0].first, l.years[r.value.0].last, day)
    ensures r.Ok? ==>
            Holds(l.years[r.value.0].periods[r.value.1].first, l.years[r.value.0].periods[r.value.1].last, day)
  {
    var ys := YearsWith(l.years, day);
    if |ys| != 1 then Err(NoSingleYear)
    else
      assert ys[0] in ys;
      var ps := PeriodsWith(l.years[ys[0]].periods, day);
      if |ps| != 1 then Err(NoSinglePeriod)
      else
        assert ps[0] in ps;
        Ok((ys[0], ps[0]))
  }

  // ---------------------------------------------------------------- the store

  /** The tables the services work on. */
  class Store {
    var years: seq<Year>
    var accounts: seq<Account>
    var series: seq<Series>
    var entries: seq<Entry>
    var carries: seq<Carry>

    function State(): Ledger
      reads this
    {
      Ledger(years, accounts, series, entries, carries)
    }

    constructor ()
      ensures State() == NOTHING
    {
      years, accounts, series, entries, carries := [], [], [], [], [];
    }
  }

  method CheckOpen(db: Store, year: nat, period: Option<nat>) returns (error: Option<Error>)
    ensures error == RequireOpen(db.State(), year, period)
  {
    if year >= |db.years| { return Some(NotFound); }
    if db.years[year].closed { return Some(YearClosed); }
    if period.None? { return None; }
    if period.value >= |db.years[year].periods| { return Some(NotFound); }
    if db.years[year].periods[period.value].locked { return Some(PeriodLocked); }
    return None;
  }
}
