/** The ledger as a state machine: one step per committed transaction, and what every reachable state satisfies. */
module LedgerMachine {
  import opened Common
  import opened LedgerModel
  import opened Journal
  import AccountingData
  import Calendar
  import Catalog
  import FiscalYears
  import OpeningBalances
  import Registry
  import SieImport
  import SieParser

  datatype Step =
    | NewYear(name: string, first: int, last: int, periods: seq<Calendar.Period>)
    | LockPeriod(year: nat, period: nat, lock: bool)
    | CloseYear(year: nat)
    | NewSeries(year: nat, code: string, name: string)
    | EditSeries(id: nat, newCode: Option<string>, newName: Option<string>, active: Option<bool>)
    | NewAccount(env: Registers, number: string, name: string, kind: Kind, isActive: bool, vat: Option<string>)
    | EditAccount(env: Registers, id: nat, accountChange: Registry.AccountChange)
    | Provision(installed: Option<Catalog.Installed>)
    | ActivateRows(installed: Option<Catalog.Installed>, rowIds: set<nat>)
    | NewDraft(env: Registers, date: Calendar.Date, series: nat, text: string, inputs: seq<LineInput>)
    | EditDraft(env: Registers, id: nat, draftChange: DraftChange)
    | PostDraft(env: Registers, id: nat, expected: int)
    | ReverseEntry(id: nat, date: Calendar.Date, series: nat, reason: Option<string>)
    | SaveIb(env: Registers, year: nat, seen: OpeningBalances.Print, rows: seq<IbRow>)
    | PreviewCarry(env: Registers, source: nat, target: nat, result: nat, actor: string, now: int)
    | ConfirmCarry(env: Registers, id: nat, actor: string, now: int)
    | ImportSie(review: SieImport.Review, year: nat, content: string)

  function Do(l: Ledger, s: Step): Outcome {
    match s
    case NewYear(name, first, last, periods) => FiscalYears.CreateYear(l, name, first, last, periods)
    case LockPeriod(year, period, lock) => FiscalYears.SetPeriodStatus(l, year, period, lock)
    case CloseYear(year) => FiscalYears.Close(l, year)
    case NewSeries(year, code, name) => Registry.CreateSeries(l, year, code, name)
    case EditSeries(id, code, name, active) => Registry.UpdateSeries(l, id, code, name, active)
    case NewAccount(env, number, name, kind, active, vat) =>
      Registry.CreateAccount(l, env, number, name, kind, active, vat)
    case EditAccount(env, id, change) => Registry.UpdateAccount(l, env, id, change)
    case Provision(installed) => Catalog.Provision(l, installed)
    case ActivateRows(installed, ids) => Catalog.Activate(l, installed, ids)
    case NewDraft(env, date, series, text, inputs) => Journal.CreateDraft(l, env, date, series, text, inputs)
    case EditDraft(env, id, change) => Journal.UpdateDraft(l, env, id, change)
    case PostDraft(env, id, expected) => Journal.Post(l, Some(env), id, Some(expected))
    case ReverseEntry(id, date, series, text) => Journal.Reverse(l, id, date, series, text)
    case SaveIb(env, year, seen, rows) => OpeningBalances.Save(l, env, year, seen, rows)
    case PreviewCarry(env, s, t, r, actor, now) => OpeningBalances.Preview(l, env, s, t, r, actor, now)
    case ConfirmCarry(env, id, actor, now) => OpeningBalances.Confirm(l, env, id, actor, now)
    case ImportSie(review, year, content) => SieImport.Import(l, review, year, SieParser.Parse(content))
  }

  /** A refused or failed request changes nothing. */
  function Next(l: Ledger, s: Step): Ledger {
    var r := Do(l, s);
    if r.Ok? then r.value else l
  }

  function Run(l: Ledger, steps: seq<Step>): Ledger
    decreases |steps|
  {
    if |steps| == 0 then l else Next(Run(l, steps[..|steps| - 1]), steps[|steps| - 1])
  }

  // ---------------------------------------------------------------- what holds of one state

  predicate LineOk(accounts: nat, x: Line) {
    x.account < accounts && x.debit >= 0 && x.credit >= 0 && !(x.debit > 0 && x.credit > 0)
  }

  /** A correction is posted and mirrors a posted voucher that is itself no correction. */
  predicate CorrectionOk(l: Ledger, e: Entry) {
    e.reverses.Some? ==>
      && e.posted && e.reverses.value < |l.entries|
      && var o := l.entries[e.reverses.value];
         o.posted && o.reverses.None? && e.lines == Map(o.lines, Mirror())
  }

  predicate EntryOk(l: Ledger, e: Entry) {
    && InCalendar(l, e)
    && e.series < |l.series| && l.series[e.series].year == e.year
    && (forall x :: x in e.lines ==> LineOk(|l.accounts|, x))
    && e.version >= 1
    && (e.posted <==> e.number.Some?)
    && (e.posted ==> Postable(e.lines) && 1 <= e.number.value < l.series[e.series].next)
    && CorrectionOk(l, e)
  }

  /** The periods of a year tile it; a closed year has only locked periods. */
  predicate YearOk(y: Year) {
    && |y.periods| > 0 && y.periods[0].first == y.first && y.periods[|y.periods| - 1].last == y.last
    && (forall i :: 0 <= i < |y.periods| ==> y.periods[i].first <= y.periods[i].last)
    && (forall i :: 0 <= i < |y.periods| - 1 ==> y.periods[i].last + 1 == y.periods[i + 1].first)
    && (y.closed ==> AllLocked(y))
  }

  predicate IbOk(l: Ledger, ib: seq<IbRow>) {
    AccountingData.RowsSound(l, ib) && SumOf(ib, IbDebit()) == SumOf(ib, IbCredit())
  }

  predicate EntriesOk(l: Ledger) { forall i :: 0 <= i < |l.entries| ==> EntryOk(l, l.entries[i]) }

  predicate YearsOk(l: Ledger) { forall y :: 0 <= y < |l.years| ==> YearOk(l.years[y]) && IbOk(l, l.years[y].ib) }

  predicate YearsApart(years: seq<Year>) {
    forall i, j :: 0 <= i < j < |years| ==> !FiscalYears.Overlaps(years[i], years[j].first, years[j].last)
  }

  predicate NoClosedDrafts(l: Ledger) {
    forall i :: 0 <= i < |l.entries| && l.entries[i].year < |l.years| && l.years[l.entries[i].year].closed ==>
      l.entries[i].posted
  }

  predicate SameNumber(a: Entry, b: Entry) { a.posted && b.posted && a.series == b.series && a.number == b.number }

  /** No two posted vouchers share series and number, and no voucher has two corrections. */
  predicate EntriesApart(entries: seq<Entry>) {
    forall i, j :: 0 <= i < j < |entries| ==>
      !SameNumber(entries[i], entries[j]) && (entries[i].reverses.Some? ==> entries[i].reverses != entries[j].reverses)
  }

  predicate SeriesOk(l: Ledger) {
    && (forall s :: 0 <= s < |l.series| ==> l.series[s].year < |l.years| && l.series[s].next >= 1)
    && (forall s, t :: 0 <= s < t < |l.series| ==>
       l.series[s].year != l.series[t].year || l.series[s].code != l.series[t].code)
  }

  predicate AccountsOk(accounts: seq<Account>)
  {
    forall a, b :: 0 <= a < b < |accounts| ==> accounts[a].number != accounts[b].number
  }

  /** No year receives two confirmed carry-forwards. */
  predicate CarriesOk(carries: seq<Carry>) {
    forall i, j :: 0 <= i < j < |carries| && carries[i].confirmed && carries[j].confirmed ==>
      carries[i].target != carries[j].target
  }

  predicate Inv(l: Ledger) {
    && EntriesOk(l) && YearsOk(l) && YearsApart(l.years) && NoClosedDrafts(l) && EntriesApart(l.entries)
    && SeriesOk(l) && AccountsOk(l.accounts) && CarriesOk(l.carries)
  }

  // ---------------------------------------------------------------- what no step undoes

  predicate SamePeriods(a: seq<Period>, b: seq<Period>) {
    |a| == |b| && forall p :: 0 <= p < |a| ==> a[p].first == b[p].first && a[p].last == b[p].last
  }

  /** A year keeps its days and periods, and once closed does not change at all. */
  predicate YearGrows(a: Year, b: Year) {
    a.first == b.first && a.last == b.last && SamePeriods(a.periods, b.periods) && (a.closed ==> b == a)
  }

  predicate SeriesGrows(a: Series, b: Series) { a.year == b.year && a.next <= b.next }

  predicate EntryGrows(a: Entry, b: Entry)
  {
    (a.posted ==> b == a) && a.version <= b.version && a.reverses == b.reverses
  }

  /** Records are never removed, and posted vouchers and closed years never change. */
  predicate Grows(l: Ledger, m: Ledger) {
    && |l.years| <= |m.years| && (forall y :: 0 <= y < |l.years| ==> YearGrows(l.years[y], m.years[y]))
    && |l.series| <= |m.series| && (forall s :: 0 <= s < |l.series| ==> SeriesGrows(l.series[s], m.series[s]))
    && |l.entries| <= |m.entries| && (forall i :: 0 <= i < |l.entries| ==> EntryGrows(l.entries[i], m.entries[i]))
    && |l.accounts| <= |m.accounts|
    && |l.carries| <= |m.carries|
       && (forall c :: 0 <= c < |l.carries| && l.carries[c].confirmed ==> m.carries[c] == l.carries[c])
  }

  lemma GrowsSame(l: Ledger)
    ensures Grows(l, l)
  {
  }

  lemma GrowsTwice(l: Ledger, m: Ledger, n: Ledger)
    requires Grows(l, m) && Grows(m, n)
    ensures Grows(l, n)
  {
    forall y | 0 <= y < |l.years| ensures YearGrows(l.years[y], n.years[y]) {
      assert YearGrows(l.years[y], m.years[y]) && YearGrows(m.years[y], n.years[y]);
    }
    forall i | 0 <= i < |l.entries| ensures EntryGrows(l.entries[i], n.entries[i]) {
      assert EntryGrows(l.entries[i], m.entries[i]) && EntryGrows(m.entries[i], n.entries[i]);
    }
    forall s | 0 <= s < |l.series| ensures SeriesGrows(l.series[s], n.series[s]) {
      assert SeriesGrows(l.series[s], m.series[s]) && SeriesGrows(m.series[s], n.series[s]);
    }
  }

  /** An entry in order stays in order while the rest of the ledger grows. */
  lemma EntryStaysOk(l: Ledger, m: Ledger, e: Entry)
    requires Grows(l, m) && EntryOk(l, e)
    ensures EntryOk(m, e)
  {
    assert YearGrows(l.years[e.year], m.years[e.year]);
    assert SeriesGrows(l.series[e.series], m.series[e.series]);
    if e.reverses.Some? { assert EntryGrows(l.entries[e.reverses.value], m.entries[e.reverses.value]); }
    hide Grows, Postable;
  }
}
