/** Import of an SIE document into the ledger: account review, opening balances, posted vouchers. */
module SieImport {
  import opened Common
  import opened LedgerModel
  import AccountingData
  import Calendar
  import OpeningBalances
  import SieParser
  import SieText
  import SieTokens
  import Vat

  datatype CatalogAccount = CatalogAccount(name: string, kind: Kind, bookable: bool, restricted: bool)

  /** The reviewed catalogue, the accounting framework, whether the listed activations were confirmed, and
      whether an object of the document carries another name than the register has. */
  datatype Review = Review(catalog: map<string, CatalogAccount>, k3: bool, acknowledged: bool, objectConflict: bool)

  // ---------------------------------------------------------------- look-ups

  function FindSeries(series: seq<Series>, year: nat, code: string): (r: Option<nat>)
    ensures r.Some? ==> r.value < |series| && series[r.value].year == year && series[r.value].code == code
    ensures r.None? ==> forall s :: s in series ==> !(s.year == year && s.code == code)
  {
    if |series| == 0 then None
    else
      var s := series[|series| - 1];
      if s.year == year && s.code == code then Some(|series| - 1) else FindSeries(series[..|series| - 1], year, code)
  }

  /** The first period that contains a day. */
  function FindPeriod(periods: seq<Period>, day: int): (r: Option<nat>)
    ensures r.Some? ==> r.value < |periods| && Holds(periods[r.value].first, periods[r.value].last, day)
    ensures r.None? ==> forall p :: p in periods ==> !Holds(p.first, p.last, day)
    decreases |periods|
  {
    if |periods| == 0 then None
    else
      var front := FindPeriod(periods[..|periods| - 1], day);
      if front.Some? then front
      else if Holds(periods[|periods| - 1].first, periods[|periods| - 1].last, day) then Some(|periods| - 1) else None
  }

  function DocumentAccount(accounts: seq<SieParser.Account>, number: string): Option<SieParser.Account> {
    if |accounts| == 0 then None
    else if accounts[|accounts| - 1].number == number then Some(accounts[|accounts| - 1])
    else DocumentAccount(accounts[..|accounts| - 1], number)
  }

  /** The day of an ISO date text. */
  function IsoDay(s: string): Option<int> {
    var digits := SieText.WithoutDashes(s);
    if SieText.ParseDate(digits) == Some(s) then Some(Calendar.DayNumber(SieText.DateOf(digits))) else None
  }

  // ---------------------------------------------------------------- account review

  predicate VoucherUses(doc: SieParser.Document, number: string) {
    exists v :: v in doc.vouchers && exists x :: x in v.transactions && x.account == number
  }

  predicate Uses(doc: SieParser.Document, number: string) {
    VoucherUses(doc, number) || exists b :: b in doc.openings && SieParser.CentsOf(b.amount) != 0 && b.account == number
  }

  predicate KindMatches(t: SieParser.AccountType, k: Kind) {
    match t
    case Asset => k.Asset?
    case Debt => k.Equity? || k.Liability?
    case Income => k.Revenue?
    case Cost => k.Expense?
  }

  function TypeIn(doc: SieParser.Document, number: string): Option<SieParser.AccountType> {
    var a := DocumentAccount(doc.accounts, number);
    if a.Some? then a.value.kind else None
  }

  predicate RowConflict(l: Ledger, r: Review, doc: SieParser.Document, number: string) {
    var a := FindAccount(l.accounts, number);
    var t := TypeIn(doc, number);
    if number in r.catalog then
      var b := r.catalog[number];
      || (Uses(doc, number) && (!b.bookable || (b.restricted && !r.k3)))
      || (a.Some? && !l.accounts[a.value].active && Uses(doc, number) && l.accounts[a.value].kind != b.kind)
      || (a.None? && t.Some? && !KindMatches(t.value, b.kind))
    else a.None? && number != "" && number[0] == '8' && t.None?
  }

  predicate NeedsActivation(l: Ledger, r: Review, doc: SieParser.Document, number: string) {
    var a := FindAccount(l.accounts, number);
    number in r.catalog && (a.None? || !l.accounts[a.value].active) && Uses(doc, number)
  }

  function NumberOfAccount(): SieParser.Account -> string { (a: SieParser.Account) => a.number }

  function AccountOfOpening(): SieParser.Opening -> string { (b: SieParser.Opening) => b.account }

  function AccountOfTransaction(): SieParser.Transaction -> string { (x: SieParser.Transaction) => x.account }

  /** Every account number the document mentions. */
  function Numbers(doc: SieParser.Document): seq<string> {
    Map(doc.accounts, NumberOfAccount()) + Map(SieParser.AllLines(doc.vouchers), AccountOfTransaction())
    + Map(doc.openings, AccountOfOpening())
  }

  predicate Mentioned(doc: SieParser.Document, number: string)
  {
    DocumentAccount(doc.accounts, number).Some? || Uses(doc, number)
  }

  predicate Occupied(l: Ledger, year: nat, v: SieParser.Voucher) {
    exists e :: e in l.entries && e.year == year && e.number == Some(SieText.Value(v.number))
                && e.series < |l.series| && l.series[e.series].code == v.series
  }

  predicate HasConflict(l: Ledger, r: Review, year: nat, doc: SieParser.Document)
    requires year < |l.years|
  {
    || (exists n :: n in Numbers(doc) && Mentioned(doc, n) && RowConflict(l, r, doc, n))
    || (exists a :: a in doc.accounts && a.kind.Some? && FindAccount(l.accounts, a.number).Some?
                    && !KindMatches(a.kind.value, l.accounts[FindAccount(l.accounts, a.number).value].kind))
    || (exists n :: n in Numbers(doc) && VoucherUses(doc, n) && FindAccount(l.accounts, n).Some?
                    && !l.accounts[FindAccount(l.accounts, n).value].active && !NeedsActivation(l, r, doc, n))
    || (doc.openings != [] && (l.years[year].ib != [] || HasPosted(l, year)))
    || (exists v :: v in doc.vouchers && Occupied(l, year, v))
    || r.objectConflict
  }

  /** Class 1 is assets, 20 and 21 equity, the rest of 2 liabilities, 3 revenue, everything else expenses. */
  function InferKind(number: string): Kind {
    if number == "" then Expense
    else if number[0] == '1' then Asset
    else if number[0] == '2' then (if |number| > 1 && (number[1] == '0' || number[1] == '1') then Equity else Liability)
    else if number[0] == '3' then Revenue
    else Expense
  }

  function KindFor(number: string, t: Option<SieParser.AccountType>): Kind {
    if t == Some(SieParser.Asset) then Asset
    else if t == Some(SieParser.Income) then Revenue
    else if t == Some(SieParser.Cost) then Expense
    else InferKind(number)
  }

  /** Reactivation of one existing account. */
  function Activate(l: Ledger, r: Review, doc: SieParser.Document, accounts: seq<Account>,
        number: string): seq<Account> {
    var a := FindAccount(accounts, number);
    if NeedsActivation(l, r, doc, number) && a.Some? then accounts[a.value := accounts[a.value].(active := true)]
      else accounts
  }

  function ActivateAll(l: Ledger, r: Review, doc: SieParser.Document, numbers: seq<string>): seq<Account> {
    if |numbers| == 0 then l.accounts
    else Activate(l, r, doc, ActivateAll(l, r, doc, numbers[..|numbers| - 1]), numbers[|numbers| - 1])
  }

  /** A missing account is created, unless the catalogue merely offers it. `l` is the ledger that was reviewed. */
  function AddAccount(l: Ledger, r: Review, doc: SieParser.Document, accounts: seq<Account>,
        a: SieParser.Account): seq<Account> {
    if FindAccount(accounts, a.number).Some? then accounts
    else if a.number in r.catalog then
      (if NeedsActivation(l, r, doc, a.number)
       then accounts + [Account(a.number, r.catalog[a.number].name, r.catalog[a.number].kind, true, true, None)]
         else accounts)
    else accounts + [Account(a.number, a.name, KindFor(a.number, a.kind), true, false, None)]
  }

  function AddAccounts(l: Ledger, r: Review, doc: SieParser.Document, accounts: seq<Account>,
        added: seq<SieParser.Account>): seq<Account> {
    if |added| == 0 then accounts
    else AddAccount(l, r, doc, AddAccounts(l, r, doc, accounts, added[..|added| - 1]), added[|added| - 1])
  }

  function WithAccounts(l: Ledger, r: Review, doc: SieParser.Document): Ledger {
    l.(accounts := AddAccounts(l, r, doc, ActivateAll(l, r, doc, Numbers(doc)), doc.accounts))
  }

  // ---------------------------------------------------------------- opening balances

  /** The row of one #IB record; a zero amount has none. */
  function OpeningRow(l: Ledger, b: SieParser.Opening): Result<seq<IbRow>, Error> {
    var cents := SieParser.CentsOf(b.amount);
    var a := FindAccount(l.accounts, b.account);
    if cents == 0 then Ok([])
    else if a.None? then Err(OpeningAccountMissing)
    else if !IsBalanceKind(l.accounts[a.value].kind) then Err(ResultOpening)
    else Ok([OpeningBalances.RowOf(a.value, cents)])
  }

  function OpeningRows(l: Ledger, openings: seq<SieParser.Opening>): Result<seq<IbRow>, Error> {
    if |openings| == 0 then Ok([])
    else
      var front := OpeningRows(l, openings[..|openings| - 1]);
      if front.Err? then front
      else
        var last := OpeningRow(l, openings[|openings| - 1]);
        if last.Err? then last else Ok(front.value + last.value)
  }

  function WithOpenings(l: Ledger, year: nat, doc: SieParser.Document): (r: Outcome)
    requires year < |l.years|
    ensures r.Ok? ==> |r.value.years| == |l.years|
  {
    if doc.openings != [] && (l.years[year].ib != [] || HasPosted(l, year)) then Err(OpeningNotEmpty)
    else
      var rows := OpeningRows(l, doc.openings);
      if rows.Err? then Err(rows.error)
      else
        var l' := if rows.value == [] then l else OpeningBalances.WithIb(l, year, rows.value);
        var unsound := AccountingData.ContextError(l', year);
        if unsound.Some? then Err(unsound.value) else Ok(l')
  }

  // ---------------------------------------------------------------- vouchers

  function ObjectIn(objects: seq<SieTokens.ObjectRef>, dimension: string): Option<string> {
    if |objects| == 0 then None
    else if objects[0].dimension == dimension then Some(objects[0].id)
    else ObjectIn(objects[1..], dimension)
  }

  function LineOf(a: nat, x: SieParser.Transaction): Line {
    var cents := SieParser.CentsOf(x.amount);
    Line(a, OpeningBalances.Positive(cents), OpeningBalances.Positive(-cents),
         if x.date.Some? then IsoDay(x.date.value) else None,
         x.text, ObjectIn(x.objects, "6"), ObjectIn(x.objects, "1"), None, Vat.Unclassified, None, Vat.Absent)
  }

  function LinesOf(l: Ledger, xs: seq<SieParser.Transaction>): Result<seq<Line>, Error> {
    if |xs| == 0 then Ok([])
    else
      var front, x := LinesOf(l, xs[..|xs| - 1]), xs[|xs| - 1];
      var a := FindAccount(l.accounts, x.account);
      if front.Err? then front
      else if a.None? then Err(LineAccountMissing)
      else Ok(front.value + [LineOf(a.value, x)])
  }

  /** A given line date must fall into an open period of the year. */
  function LineDateError(l: Ledger, year: nat, x: SieParser.Transaction): Option<Error>
    requires year < |l.years|
  {
    if x.date.None? then None
    else
      var day := IsoDay(x.date.value);
      if day.None? then Some(InvalidDate)
      else
        var p := FindPeriod(l.years[year].periods, day.value);
        if p.None? then Some(NoPeriodForDate) else RequireOpen(l, year, p)
  }

  function LineDatesError(l: Ledger, year: nat, xs: seq<SieParser.Transaction>): Option<Error>
    requires year < |l.years|
  {
    if |xs| == 0 then None
    else
      var front := LineDatesError(l, year, xs[..|xs| - 1]);
      if front.Some? then front else LineDateError(l, year, xs[|xs| - 1])
  }

  /** Highest number used in a series, zero when none is. */
  function MaxNumber(entries: seq<Entry>, s: nat): int {
    if |entries| == 0 then 0
    else
      var front, e := MaxNumber(entries[..|entries| - 1], s), entries[|entries| - 1];
      if e.series == s && e.number.Some? && e.number.value > front then e.number.value else front
  }

  function Raised(l: Ledger, s: nat, number: int): Ledger
    requires s < |l.series|
  {
    WithSeries(l, s,
      l.series[s].(next := Calendar.Max(l.series[s].next, Calendar.Max(number + 1, MaxNumber(l.entries, s) + 1))))
  }

  /** The series of that code in the year, created on demand, with its counter raised past the number. */
  function WithSeriesFor(l: Ledger, year: nat, code: string, number: int): (r: (Ledger, nat))
    ensures r.1 < |r.0.series|
  {
    var found := FindSeries(l.series, year, code);
    if found.Some? then (Raised(l, found.value, number), found.value)
    else (Raised(l.(series := l.series + [Series(year, code, number + 1, true)]), |l.series|, number), |l.series|)
  }

  function ImportedEntry(year: nat, period: nat, s: nat, day: int, v: SieParser.Voucher, lines: seq<Line>): Entry {
    Entry(year, period, s, day, if v.text == "" then "SIE-import" else v.text, true, 2,
          Some(SieText.Value(v.number)), lines, None, Imported)
  }

  function VoucherRefusal(l: Ledger, year: nat, v: SieParser.Voucher): Option<Error>
    requires year < |l.years|
  {
    var day := IsoDay(v.date);
    if day.None? then Some(InvalidDate)
    else
      var p := FindPeriod(l.years[year].periods, day.value);
      if p.None? then Some(NoPeriodForDate)
      else if RequireOpen(l, year, p).Some? then RequireOpen(l, year, p)
      else if LineDatesError(l, year, v.transactions).Some? then LineDatesError(l, year, v.transactions)
      else if LinesOf(l, v.transactions).Err? then Some(LinesOf(l, v.transactions).error)
      else None
  }

  function WithVoucher(l: Ledger, year: nat, v: SieParser.Voucher): Outcome
    requires year < |l.years|
  {
    var refusal := VoucherRefusal(l, year, v);
    if refusal.Some? then Err(refusal.value)
    else
      var day := IsoDay(v.date).value;
      var (l', s) := WithSeriesFor(l, year, v.series, SieText.Value(v.number));
      Ok(l'
        .(entries := l'.entries + [ImportedEntry(year, FindPeriod(l.years[year].periods, day).value, s, day, v,
          LinesOf(l, v.transactions).value)]))
  }

  function WithVouchers(l: Ledger, year: nat, vs: seq<SieParser.Voucher>): (r: Outcome)
    requires year < |l.years|
    ensures r.Ok? ==> r.value.years == l.years && r.value.accounts == l.accounts && r.value.carries == l.carries
  {
    if |vs| == 0 then Ok(l)
    else
      var front := WithVouchers(l, year, vs[..|vs| - 1]);
      if front.Err? then front else WithVoucher(front.value, year, vs[|vs| - 1])
  }

  // ---------------------------------------------------------------- the import

  predicate MatchesYear(y: Year, span: SieParser.Span)
  {
    IsoDay(span.start) == Some(y.first) && IsoDay(span.end) == Some(y.last)
  }

  function ImportRefusal(l: Ledger, r: Review, year: nat, doc: SieParser.Document): Option<Error> {
    if doc.errors != [] then Some(DocumentInvalid)
    else if doc.fiscalYear.None? then Some(NoFiscalYear)
    else if year >= |l.years| || !MatchesYear(l.years[year], doc.fiscalYear.value) then Some(NotFound)
    else if RequireOpen(l, year, None).Some? then RequireOpen(l, year, None)
    else if HasConflict(l, r, year, doc) then Some(MappingConflict)
    else if !r.acknowledged
      && exists n :: n in Numbers(doc) && NeedsActivation(l, r, doc, n) then Some(ActivationUnconfirmed)
    else None
  }

  /** All or nothing: accounts, then opening balances, then the vouchers in document order. */
  function Import(l: Ledger, r: Review, year: nat, doc: SieParser.Document): Outcome {
    var refusal := ImportRefusal(l, r, year, doc);
    if refusal.Some? then Err(refusal.value)
    else
      var opened' := WithOpenings(WithAccounts(l, r, doc), year, doc);
      if opened'.Err? then opened' else WithVouchers(opened'.value, year, doc.vouchers)
  }
}
