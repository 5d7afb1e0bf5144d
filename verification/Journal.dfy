/** Vouchers: drafts, posting under a series number, and correction by a mirrored voucher. */
module Journal {
  import opened Common
  import opened LedgerModel
  import opened SieLines
  import Calendar
  import SieText
  import Vat

  // ---------------------------------------------------------------- draft lines

  /** A requested line; amounts in öre, codes absent or non-empty. */
  datatype LineInput = LineInput(
    account: nat, debit: int, credit: int, text: Option<string>, project: Option<string>, centre: Option<string>,
    vat: Option<string>, role: Option<Vat.Role>, group: Option<string>)

  predicate AccountsUsable(l: Ledger, accounts: seq<nat>) {
    forall a :: a in accounts ==> a < |l.accounts| && l.accounts[a].active
  }

  predicate AccountsEligible(l: Ledger, env: Registers, accounts: seq<nat>) {
    forall a :: a in accounts ==> a < |l.accounts| && l.accounts[a].active && env.eligible(l.accounts[a])
  }

  predicate KnownIn(o: Option<string>, codes: set<string>) { o.Some? ==> o.value in codes }

  predicate CodesKnown(env: Registers, i: LineInput) {
    KnownIn(i.vat, env.vat.Keys) && KnownIn(i.project, env.projects) && KnownIn(i.centre, env.centres)
  }

  function AccountOfInput(): LineInput -> nat { (i: LineInput) => i.account }

  /** Text is trimmed; an empty one is stored as absent. */
  function TrimmedText(o: Option<string>): Option<string> {
    if o.Some? && Trim(o.value) != "" then Some(Trim(o.value)) else None
  }

  /** Exactly one of debit and credit is positive. */
  function PrepareLine(i: LineInput): Result<Line, Error> {
    if i.debit < 0 || i.credit < 0 then Err(BadAmount)
    else if (i.debit > 0 && i.credit > 0) || (i.debit == 0 && i.credit == 0) then Err(BadSides)
    else
      var role := if i.role.Some? then i.role.value else if i.vat.Some? then Vat.Unclassified else Vat.NoRole;
      Ok(Line(i.account, i.debit, i.credit, None, TrimmedText(i.text), i.project, i.centre, i.vat, role, i.group,
              Vat.Absent))
  }

  function MapLines(inputs: seq<LineInput>): Result<seq<Line>, Error> {
    if |inputs| == 0 then Ok([])
    else
      var front := MapLines(inputs[..|inputs| - 1]);
      if front.Err? then front
      else
        var x := PrepareLine(inputs[|inputs| - 1]);
        if x.Err? then Err(x.error) else Ok(front.value + [x.value])
  }

  function PrepareLines(l: Ledger, env: Registers, inputs: seq<LineInput>): Result<seq<Line>, Error> {
    if inputs == [] then Err(NoLines)
    else if !AccountsUsable(l, Map(inputs, AccountOfInput())) then Err(AccountUnavailable)
    else if !AccountsEligible(l, env, Map(inputs, AccountOfInput())) then Err(NotEligible)
    else if exists i :: i in inputs && !CodesKnown(env, i) then Err(CodeUnavailable)
    else MapLines(inputs)
  }

  /** A stored line as a request that would store it again. */
  function InputOfLine(): Line -> LineInput {
    (x: Line) => LineInput(x.account, x.debit, x.credit, x.text, x.project, x.centre, x.vatCode, Some(x.role), x.group)
  }

  // ---------------------------------------------------------------- drafts

  datatype Prepared = Prepared(year: nat, period: nat, day: int, series: nat, text: string, lines: seq<Line>)

  function PrepareDraft(l: Ledger, env: Registers, day: int, series: nat, text: string,
        inputs: seq<LineInput>): Result<Prepared, Error> {
    var scope := Resolve(l, day);
    if Trim(text) == "" then Err(BlankText)
    else if scope.Err? then Err(scope.error)
    else if series >= |l.series| || l.series[series].year != scope.value.0 || !l.series[series].active
      then Err(SeriesUnavailable)
    else
      var lines := PrepareLines(l, env, inputs);
      if lines.Err? then Err(lines.error)
      else Ok(Prepared(scope.value.0, scope.value.1, day, series, Trim(text), lines.value))
  }

  function DraftOf(p: Prepared): Entry
  {
    Entry(p.year, p.period, p.series, p.day, p.text, false, 1, None, p.lines, None, Manual)
  }

  function DayOf(d: Calendar.Date): Option<int> { if Calendar.Valid(d) then Some(Calendar.DayNumber(d)) else None }

  function CreateDraft(l: Ledger, env: Registers, date: Calendar.Date, series: nat, text: string,
        inputs: seq<LineInput>): Outcome {
    if Trim(text) == "" then Err(BlankText)
    else if DayOf(date).None? then Err(InvalidDate)
    else
      var p := PrepareDraft(l, env, DayOf(date).value, series, text, inputs);
      if p.Err? then Err(p.error)
      else
        var guard := RequireOpen(l, p.value.year, Some(p.value.period));
        if guard.Some? then Err(guard.value) else Ok(l.(entries := l.entries + [DraftOf(p.value)]))
  }

  /** Requested changes of a draft under the version the client saw. */
  datatype DraftChange = DraftChange(
    expected: int, date: Option<Calendar.Date>, series: Option<nat>, text: Option<string>,
    lines: Option<seq<LineInput>>)

  predicate Empty(c: DraftChange) { c.date.None? && c.series.None? && c.text.None? && c.lines.None? }

  /** The year a changed draft will belong to must be open before the draft itself is looked at. */
  function TargetYear(l: Ledger, e: Entry, c: DraftChange): Result<nat, Error> {
    if c.date.None? then Ok(e.year)
    else if DayOf(c.date.value).None? then Err(InvalidDate)
    else
      var scope := Resolve(l, DayOf(c.date.value).value);
      if scope.Err? then Err(scope.error) else Ok(scope.value.0)
  }

  function ChangeRefusal(l: Ledger, id: nat, c: DraftChange): Option<Error> {
    if Empty(c) then Some(NothingToUpdate)
    else if id >= |l.entries| then Some(NotFound)
    else
      var e := l.entries[id];
      var target := TargetYear(l, e, c);
      if target.Err? then Some(target.error)
      else if RequireOpen(l, e.year, None).Some? then RequireOpen(l, e.year, None)
      else if RequireOpen(l, target.value, None).Some? then RequireOpen(l, target.value, None)
      else if e.posted then Some(NotDraft)
      else if e.version != c.expected then Some(VersionConflict)
      else RequireOpen(l, e.year, Some(e.period))
  }

  function PreparedChange(l: Ledger, env: Registers, e: Entry, c: DraftChange): Result<Prepared, Error> {
    PrepareDraft(l, env, if c.date.Some? && DayOf(c.date.value).Some? then DayOf(c.date.value).value else e.date,
                 if c.series.Some? then c.series.value else e.series, if c.text.Some? then c.text.value else e.text,
                 if c.lines.Some? then c.lines.value else Map(e.lines, InputOfLine()))
  }

  function ChangedDraft(e: Entry, c: DraftChange, p: Prepared): Entry {
    e.(year := p.year, period := p.period, series := p.series, date := p.day, text := p.text, version := e.version + 1,
       lines := if c.lines.Some? then p.lines else e.lines)
  }

  function UpdateDraft(l: Ledger, env: Registers, id: nat, c: DraftChange): Outcome {
    var refusal := ChangeRefusal(l, id, c);
    if refusal.Some? then Err(refusal.value)
    else
      var p := PreparedChange(l, env, l.entries[id], c);
      if p.Err? then Err(p.error)
      else
        var guard := RequireOpen(l, p.value.year, Some(p.value.period));
        if guard.Some? then Err(guard.value) else Ok(WithEntry(l, id, ChangedDraft(l.entries[id], c, p.value)))
  }

  // ---------------------------------------------------------------- posting

  predicate Postable(lines: seq<Line>) { |lines| >= 2 && Debits(lines) > 0 && Debits(lines) == Credits(lines) }

  function AccountOfLine(): Line -> nat { (x: Line) => x.account }

  predicate LineCodesActive(env: Registers, x: Line) {
    KnownIn(x.vatCode, env.vat.Keys) && KnownIn(x.project, env.projects) && KnownIn(x.centre, env.centres)
  }

  predicate VatEffective(env: Registers, day: int, x: Line) {
    x.vatCode.Some? && x.vatCode.value in env.vat ==>
      var code := env.vat[x.vatCode.value];
      code.first <= day && (code.last.Some? ==> day <= code.last.value)
  }

  /** Posting freezes the VAT configuration of a line and the VAT code its account expects. */
  function Frozen(l: Ledger, env: Registers, x: Line): Line {
    var expected := if x.account < |l.accounts| then l.accounts[x.account].vat else None;
    x.(stored := if x.vatCode.Some? && x.vatCode.value in env.vat
                 then Vat.Full(env.vat[x.vatCode.value].meta.(expected := expected)) else Vat.Partial(Some(expected)))
  }

  function FrozenLines(l: Ledger, env: Registers, xs: seq<Line>): seq<Line> { Map(xs, FreezeWith(l, env)) }

  function FreezeWith(l: Ledger, env: Registers): Line -> Line { (x: Line) => Frozen(l, env, x) }

  function ReferenceError(l: Ledger, env: Registers, e: Entry): Option<Error> {
    if !AccountsUsable(l, Map(e.lines, AccountOfLine()))
      || exists x :: x in e.lines && !LineCodesActive(env, x) then Some(CodeUnavailable)
    else if !AccountsEligible(l, env, Map(e.lines, AccountOfLine())) then Some(NotEligible)
    else if exists x :: x in e.lines && !VatEffective(env, e.date, x) then Some(VatNotEffective)
    else None
  }

  /** The entry date must lie in its year and period. */
  predicate InCalendar(l: Ledger, e: Entry) {
    e.year < |l.years| && e.period < |l.years[e.year].periods|
    && Holds(l.years[e.year].first, l.years[e.year].last, e.date)
    && Holds(l.years[e.year].periods[e.period].first, l.years[e.year].periods[e.period].last, e.date)
  }

  predicate SeriesOpen(l: Ledger, s: nat, year: nat)
  {
    s < |l.series| && l.series[s].year == year && l.series[s].active
  }

  /** `env` is absent when a correction is posted: its references need not be active any more. */
  function PostRefusal(l: Ledger, env: Option<Registers>, id: nat, expected: Option<int>): Option<Error> {
    if id >= |l.entries| then Some(NotFound)
    else
      var e := l.entries[id];
      if RequireOpen(l, e.year, Some(e.period)).Some? then RequireOpen(l, e.year, Some(e.period))
      else if e.posted then Some(NotDraft)
      else if expected.Some? && expected.value != e.version then Some(VersionConflict)
      else if !InCalendar(l, e) then Some(CalendarMismatch)
      else if !SeriesOpen(l, e.series, e.year) then Some(SeriesUnavailable)
      else if |e.lines| < 2 then Some(TooFewLines)
      else if !Postable(e.lines) then Some(NotBalanced)
      else if env.Some? && ReferenceError(l, env.value, e).Some? then ReferenceError(l, env.value, e)
      else if l.series[e.series].next + 1 > MAX_INT4 then Some(CounterExhausted)
      else if l.series[e.series].next < 1 then Some(SeriesUnavailable)
      else None
  }

  function PostedEntry(l: Ledger, env: Option<Registers>, e: Entry): Entry
    requires e.series < |l.series|
  {
    e.(posted := true, version := e.version + 1, number := Some(l.series[e.series].next),
       lines := if env.Some? then FrozenLines(l, env.value, e.lines) else e.lines)
  }

  function Advanced(l: Ledger, s: nat): Ledger
    requires s < |l.series|
  {
    WithSeries(l, s, l.series[s].(next := l.series[s].next + 1))
  }

  function Post(l: Ledger, env: Option<Registers>, id: nat, expected: Option<int>): Outcome {
    var refusal := PostRefusal(l, env, id, expected);
    if refusal.Some? then Err(refusal.value)
    else
      var e := l.entries[id];
      Ok(WithEntry(Advanced(l, e.series), id, PostedEntry(l, env, e)))
  }

  // ---------------------------------------------------------------- correction

  /** Debit and credit change places; everything else is copied. */
  function Mirror(): Line -> Line { (x: Line) => x.(debit := x.credit, credit := x.debit) }

  function GeneratedText(l: Ledger, e: Entry): string {
    "Rättelse av verifikation " + (if e.series < |l.series| then l.series[e.series].code else "")
    + (if e.number.Some? && e.number.value >= 0 then SieText.Digits(e.number.value) else "")
  }

  function ReverseRefusal(l: Ledger, id: nat, date: Calendar.Date, series: nat, text: Option<string>): Option<Error> {
    if DayOf(date).None? then Some(InvalidDate)
    else
      var scope := Resolve(l, DayOf(date).value);
      if scope.Err? then Some(scope.error)
      else if RequireOpen(l, scope.value.0, Some(scope.value.1)).Some?
        then RequireOpen(l, scope.value.0, Some(scope.value.1))
      else if id >= |l.entries| then Some(NotFound)
      else if !l.entries[id].posted then Some(NotPosted)
      else if l.entries[id].reverses.Some? then Some(IsCorrection)
      else if Corrected(l, id) then Some(AlreadyCorrected)
      else if !SeriesOpen(l, series, scope.value.0) then Some(SeriesUnavailable)
      else if text.Some? && Trim(text.value) == "" then Some(BlankText)
      else if |l.entries[id].lines| < 2 then Some(TooFewLines)
      else if !Postable(l.entries[id].lines) then Some(NotBalanced)
      else None
  }

  function Correction(l: Ledger, id: nat, scope: (nat, nat), day: int, series: nat, text: Option<string>): Entry
    requires id < |l.entries|
  {
    Entry(scope.0, scope.1, series, day, if text.Some? then Trim(text.value) else GeneratedText(l, l.entries[id]),
          false, 1, None, Map(l.entries[id].lines, Mirror()), Some(id), Reversal)
  }

  /** The correction is created as a draft and posted in the same transaction. */
  function Reverse(l: Ledger, id: nat, date: Calendar.Date, series: nat, text: Option<string>): Outcome {
    var refusal := ReverseRefusal(l, id, date, series, text);
    if refusal.Some? then Err(refusal.value)
    else
      var day := DayOf(date).value;
      var created := Correction(l, id, Resolve(l, day).value, day, series, text);
      Post(l.(entries := l.entries + [created]), None, |l.entries|, None)
  }
}
