/** When vouchers are created, changed, posted and corrected, and what is stored then; what the VAT report makes of a
    posted line ever after. */
module VoucherLaws {
  import opened Common
  import opened LedgerModel
  import opened LedgerMachine
  import opened Journal
  import Calendar
  import LedgerSafety
  import LedgerVat
  import ServiceLaws
  import SieLines
  import SieText
  import Vat
  import VatMeaning

  // ---------------------------------------------------------------- what is stored on posting

  /** Posting stores on a line with a VAT code the configuration of that code, and on a line without one nothing but the
      code its account expects; the expectation is that of the account at the time. Nothing else of a line changes. */
  lemma PostedLineIs(l: Ledger, env: Registers, id: nat, expected: int, k: nat)
    requires Post(l, Some(env), id, Some(expected)).Ok? && id < |l.entries| && k < |l.entries[id].lines|
    ensures var m, x := Post(l, Some(env), id, Some(expected)).value, l.entries[id].lines[k];
            && id < |m.entries| && k < |m.entries[id].lines| && x.account < |l.accounts|
            && var y := m.entries[id].lines[k];
               && y == x.(stored := y.stored)
               && (x.vatCode.None? ==> y.stored == Vat.Partial(Some(l.accounts[x.account].vat)))
               && (x.vatCode.Some? ==>
                  x.vatCode.value in env.vat
                  && var c := env.vat[x.vatCode.value];
                     && y.stored == Vat.Full(Vat.Snapshot(c.meta.id, c.meta.code, c.meta.rate, c.meta.direction,
                                                          c.meta.version, c.meta.category, l.accounts[x.account].vat))
                     && c.first <= l.entries[id].date && (c.last.Some? ==> l.entries[id].date <= c.last.value))
  {
    hide RequireOpen, Postable, InCalendar, AccountsEligible;
    var e := l.entries[id];
    var x := e.lines[k];
    assert Map(e.lines, AccountOfLine())[k] == x.account && x.account in Map(e.lines, AccountOfLine());
    assert x in e.lines && LineCodesActive(env, x) && VatEffective(env, e.date, x);
  }

  /** The registers name their VAT codes by themselves. */
  predicate NamesCodes(env: Registers) { forall c :: c in env.vat ==> env.vat[c].meta.id == c }

  /** A line with a VAT code and a role that is posted under a readable rate is taken into every later VAT report that
      covers its voucher, under the configuration of its code at the time of posting, and is never warned of as missing
      one: whatever is requested in between. */
  lemma PostedLineIsReported(l: Ledger, env: Registers, id: nat, expected: int, k: nat, after: seq<Step>, year: nat,
        from: int, to: int, places: seq<LedgerVat.Place>, rates: Vat.Rates)
    requires Inv(l) && Post(l, Some(env), id, Some(expected)).Ok? && id < |l.entries| && k < |l.entries[id].lines|
    requires NamesCodes(env) && l.entries[id].lines[k].vatCode.Some? && l.entries[id].lines[k].vatCode.value != ""
    requires l.entries[id].lines[k].vatCode.value in env.vat
    requires VatMeaning.Rated(rates, env.vat[l.entries[id].lines[k].vatCode.value].meta)
    requires l.entries[id].lines[k].role == Vat.Base || l.entries[id].lines[k].role == Vat.Tax
    requires var n := Run(Next(l, PostDraft(env, id, expected)), after);
             && LedgerVat.Listing(n, year, from, to, places)
             && year == l.entries[id].year && from <= l.entries[id].date <= to
    ensures var n, x := Run(Next(l, PostDraft(env, id, expected)), after), l.entries[id].lines[k];
            && id < |n.entries| && k < |n.entries[id].lines| && LedgerVat.Place(id, k) in places
            && var y, c := LedgerVat.ViewAt(n)(LedgerVat.Place(id, k)), env.vat[x.vatCode.value].meta;
               && y.debit == x.debit && y.credit == x.credit && y.role == x.role && y.vatCode == Some(c.id)
               && VatMeaning.Counts(rates, y, c.direction, x.role) && y.stored.meta.rate == c.rate
               && !VatMeaning.LineRaises(rates, y, Vat.MissingSnapshot)
  {
    hide *;
    var m := Next(l, PostDraft(env, id, expected));
    NextIsPost(l, env, id, expected);
    PostedLineIs(l, env, id, expected, k);
    ServiceLaws.PostOnlyNumbers(l, env, id, expected);
    LedgerSafety.NextKeeps(l, PostDraft(env, id, expected));
    LedgerSafety.RunKeeps(m, after);
    var n := Run(m, after);
    PostedStays(m, n, id);
    PlaceListed(n, year, from, to, places, id, k);
    ViewReads(n, id, k);
    CodeIsNamed(env, l.entries[id].lines[k].vatCode.value);
    FullCounts(rates, LedgerVat.ViewAt(n)(LedgerVat.Place(id, k)), env.vat[l.entries[id].lines[k].vatCode.value].meta);
  }

  lemma NextIsPost(l: Ledger, env: Registers, id: nat, expected: int)
    requires Post(l, Some(env), id, Some(expected)).Ok?
    ensures Next(l, PostDraft(env, id, expected)) == Post(l, Some(env), id, Some(expected)).value
  {
    hide Do, Post;
    LedgerSafety.DoIs(l, PostDraft(env, id, expected));
  }

  lemma PostedStays(m: Ledger, n: Ledger, id: nat)
    requires Grows(m, n) && id < |m.entries| && m.entries[id].posted
    ensures id < |n.entries| && n.entries[id] == m.entries[id]
  {
    assert EntryGrows(m.entries[id], n.entries[id]);
  }

  lemma PlaceListed(l: Ledger, year: nat, from: int, to: int, places: seq<LedgerVat.Place>, id: nat, k: nat)
    requires LedgerVat.Listing(l, year, from, to, places) && id < |l.entries| && k < |l.entries[id].lines|
    requires l.entries[id].posted && l.entries[id].year == year && from <= l.entries[id].date <= to
    ensures LedgerVat.Place(id, k) in places
  {
    assert LedgerVat.Wanted(l, year, from, to, LedgerVat.Place(id, k));
  }

  lemma ViewReads(l: Ledger, id: nat, k: nat)
    requires id < |l.entries| && k < |l.entries[id].lines|
    ensures var y, x := LedgerVat.ViewAt(l)(LedgerVat.Place(id, k)), l.entries[id].lines[k];
            && y.debit == x.debit && y.credit == x.credit && y.role == x.role && y.vatCode == x.vatCode
            && y.stored == x.stored && y.entry == id && y.group == x.group
  {
    hide LedgerVat.LabelOf;
  }

  lemma CodeIsNamed(env: Registers, c: string)
    requires NamesCodes(env) && c in env.vat
    ensures env.vat[c].meta.id == c
  {
  }

  lemma FullCounts(rates: Vat.Rates, y: Vat.VatLine, c: Vat.Snapshot)
    requires y.stored.Full? && y.stored.meta == c.(expected := y.stored.meta.expected)
    requires y.vatCode == Some(c.id) && c.id != "" && VatMeaning.Rated(rates, c)
    ensures VatMeaning.Counts(rates, y, c.direction, y.role) && !VatMeaning.LineRaises(rates, y, Vat.MissingSnapshot)
  {
  }

  // ---------------------------------------------------------------- when a voucher is posted

  /** Year and period exist, and neither is closed or locked. */
  predicate OpenPeriod(l: Ledger, year: nat, period: nat) {
    && year < |l.years| && !l.years[year].closed
    && period < |l.years[year].periods| && !l.years[year].periods[period].locked
  }

  /** The period holds the day, and so does its year. */
  predicate Covers(l: Ledger, year: nat, period: nat, day: int) {
    && year < |l.years| && period < |l.years[year].periods|
    && var y, p := l.years[year], l.years[year].periods[period];
       y.first <= day <= y.last && p.first <= day <= p.last
  }

  /** The series is an active one of the year, and can give out one more number. */
  predicate CanNumber(l: Ledger, series: nat, year: nat) {
    series < |l.series| && l.series[series].year == year && l.series[series].active
    && 1 <= l.series[series].next < 2147483647
  }

  /** The account can be booked on, the codes are registered, and the VAT code is in force on the day. */
  predicate LineReady(l: Ledger, env: Registers, day: int, x: Line) {
    && x.account < |l.accounts| && l.accounts[x.account].active && env.eligible(l.accounts[x.account])
    && (x.project.Some? ==> x.project.value in env.projects) && (x.centre.Some? ==> x.centre.value in env.centres)
    && (x.vatCode.Some? ==>
       x.vatCode.value in env.vat && env.vat[x.vatCode.value].first <= day
         && (env.vat[x.vatCode.value].last.Some? ==> day <= env.vat[x.vatCode.value].last.value))
  }

  predicate Ready(l: Ledger, env: Registers, e: Entry, expected: int) {
    && !e.posted && e.version == expected
    && OpenPeriod(l, e.year, e.period) && Covers(l, e.year, e.period, e.date) && CanNumber(l, e.series, e.year)
    && |e.lines| >= 2 && Debits(e.lines) == Credits(e.lines) && Debits(e.lines) > 0
    && forall x :: x in e.lines ==> LineReady(l, env, e.date, x)
  }

  /** The accounts of a list of lines. */
  lemma OnEachAccount(xs: seq<Line>)
    ensures forall a :: a in Map(xs, AccountOfLine()) <==> exists x :: x in xs && x.account == a
  {
    var m := Map(xs, AccountOfLine());
    forall a | a in m ensures exists x :: x in xs && x.account == a {
      var i :| 0 <= i < |m| && m[i] == a;
      assert xs[i] in xs;
    }
    forall x | x in xs ensures x.account in m {
      var i :| 0 <= i < |xs| && xs[i] == x;
      assert m[i] == x.account;
    }
  }

  lemma ReferencesIff(l: Ledger, env: Registers, e: Entry)
    ensures ReferenceError(l, env, e).None? <==> forall x :: x in e.lines ==> LineReady(l, env, e.date, x)
  {
    AccountsIff(l, env, e.lines);
    hide AccountsUsable, AccountsEligible, Map;
    if forall x :: x in e.lines ==> LineReady(l, env, e.date, x) {
      forall x | x in e.lines ensures LineCodesActive(env, x) && VatEffective(env, e.date, x) {
        assert LineReady(l, env, e.date, x);
      }
    }
    if ReferenceError(l, env, e).None? {
      forall x | x in e.lines ensures LineReady(l, env, e.date, x) {
        assert LineCodesActive(env, x) && VatEffective(env, e.date, x);
      }
    }
  }

  lemma AccountsIff(l: Ledger, env: Registers, xs: seq<Line>)
    ensures AccountsUsable(l, Map(xs, AccountOfLine())) <==>
            forall x :: x in xs ==> x.account < |l.accounts| && l.accounts[x.account].active
    ensures AccountsEligible(l, env, Map(xs, AccountOfLine())) <==>
            forall x :: x in xs ==>
              x.account < |l.accounts| && l.accounts[x.account].active && env.eligible(l.accounts[x.account])
  {
    OnEachAccount(xs);
    hide AccountOfLine, Map;
    assert forall x :: x in xs ==> x.account in Map(xs, AccountOfLine());
  }

  /** A draft is posted if and only if it is ready. */
  lemma PostSucceedsIff(l: Ledger, env: Registers, id: nat, expected: int)
    ensures Post(l, Some(env), id, Some(expected)).Ok? <==>
            id < |l.entries| && Ready(l, env, l.entries[id], expected)
  {
    if id < |l.entries| { ReferencesIff(l, env, l.entries[id]); }
    hide ReferenceError, Debits, Credits, LineReady, FrozenLines;
  }

  // ---------------------------------------------------------------- when a draft is created

  /** In a ledger in order a day resolves to the one period that holds it. */
  lemma ResolveIff(l: Ledger, day: int)
    requires Inv(l)
    ensures Resolve(l, day).Ok? <==>
            exists y: nat, p: nat :: Covers(l, y, p, day)
    ensures forall y: nat, p: nat :: Covers(l, y, p, day) ==> Resolve(l, day) == Ok((y, p))
  {
    hide Inv, Resolve;
    forall y: nat, p: nat | Covers(l, y, p, day) ensures Resolve(l, day) == Ok((y, p))
    {
      LedgerSafety.ResolveFindsTheDay(l, day, y);
    }
    if Resolve(l, day).Ok? { assert Covers(l, Resolve(l, day).value.0, Resolve(l, day).value.1, day); }
  }

  /** The requested line has one positive side, on an account that can be booked on, under registered codes. */
  predicate InputReady(l: Ledger, env: Registers, i: LineInput) {
    && i.account < |l.accounts| && l.accounts[i.account].active && env.eligible(l.accounts[i.account])
    && (i.vat.Some? ==> i.vat.value in env.vat) && (i.project.Some? ==> i.project.value in env.projects)
    && (i.centre.Some? ==> i.centre.value in env.centres)
    && ((i.debit > 0 && i.credit == 0) || (i.debit == 0 && i.credit > 0))
  }

  lemma {:induction false} LinesMapIff(inputs: seq<LineInput>)
    ensures MapLines(inputs).Ok? <==> forall i :: i in inputs ==> PrepareLine(i).Ok?
  {
    hide *;
    if |inputs| > 0 {
      var n := |inputs| - 1;
      LinesMapIff(inputs[..n]);
      MapLinesSnoc(inputs);
      assert inputs == inputs[..n] + [inputs[n]];
    } else {
      MapLinesSnoc(inputs);
    }
  }

  lemma MapLinesSnoc(inputs: seq<LineInput>)
    ensures inputs == [] ==> MapLines(inputs).Ok?
    ensures inputs != [] ==>
      (MapLines(inputs).Ok? <==> MapLines(inputs[..|inputs| - 1]).Ok? && PrepareLine(inputs[|inputs| - 1]).Ok?)
  {
    hide PrepareLine;
  }

  lemma OnEachInput(inputs: seq<LineInput>)
    ensures forall a :: a in Map(inputs, AccountOfInput()) <==> exists i :: i in inputs && i.account == a
    ensures forall i :: i in inputs ==> i.account in Map(inputs, AccountOfInput())
  {
    var m := Map(inputs, AccountOfInput());
    forall a | a in m ensures exists i :: i in inputs && i.account == a {
      var k :| 0 <= k < |m| && m[k] == a;
      assert inputs[k] in inputs;
    }
    forall i | i in inputs ensures i.account in m {
      var k :| 0 <= k < |inputs| && inputs[k] == i;
      assert m[k] == i.account;
    }
  }

  lemma InputIs(l: Ledger, env: Registers, i: LineInput)
    ensures InputReady(l, env, i) <==>
            PrepareLine(i).Ok? && CodesKnown(env, i) && i.account < |l.accounts| && l.accounts[i.account].active
              && env.eligible(l.accounts[i.account])
  {
    hide TrimmedText;
  }

  lemma InputsIff(l: Ledger, env: Registers, inputs: seq<LineInput>)
    ensures PrepareLines(l, env, inputs).Ok? <==> inputs != [] && forall i :: i in inputs ==> InputReady(l, env, i)
  {
    LinesMapIff(inputs);
    OnEachInput(inputs);
    hide Map, MapLines, PrepareLine, AccountOfInput, InputReady, CodesKnown;
    forall i | i in inputs
      ensures InputReady(l, env, i) <==>
              PrepareLine(i).Ok? && CodesKnown(env, i) && i.account < |l.accounts| && l.accounts[i.account].active
                && env.eligible(l.accounts[i.account])
    {
      InputIs(l, env, i);
    }
  }

  /** A draft is created if and only if its text is not blank, its date is a day of an open period, its series is an
      active one of that year, and every line is ready. */
  lemma CreateSucceedsIff(l: Ledger, env: Registers, date: Calendar.Date, series: nat, text: string,
        inputs: seq<LineInput>)
    requires Inv(l)
    ensures CreateDraft(l, env, date, series, text, inputs).Ok? <==>
            && SieLines.Trim(text) != "" && Calendar.Valid(date) && inputs != []
            && (exists y: nat, p: nat :: OpenPeriod(l, y, p) && Covers(l, y, p, Calendar.DayNumber(date))
                               && series < |l.series| && l.series[series].year == y && l.series[series].active)
            && forall i :: i in inputs ==> InputReady(l, env, i)
  {
    hide Inv, SieLines.Trim, Calendar.Valid, Calendar.DayNumber, PrepareLines, Resolve, Covers, InputReady;
    InputsIff(l, env, inputs);
    if Calendar.Valid(date) { ResolveIff(l, Calendar.DayNumber(date)); }
  }

  // ---------------------------------------------------------------- when a draft is changed

  /** The day, text and lines a changed draft is checked with: the requested ones, or else those it has. */
  function DayFor(e: Entry, c: DraftChange): Option<int> {
    if c.date.None? then Some(e.date)
    else if Calendar.Valid(c.date.value) then Some(Calendar.DayNumber(c.date.value)) else None
  }

  function SeriesFor(e: Entry, c: DraftChange): nat { if c.series.Some? then c.series.value else e.series }

  function TextFor(e: Entry, c: DraftChange): string { if c.text.Some? then c.text.value else e.text }

  function LinesFor(e: Entry, c: DraftChange): seq<LineInput> {
    if c.lines.Some? then c.lines.value else Map(e.lines, InputOfLine())
  }

  lemma PrepareSucceedsIff(l: Ledger, env: Registers, day: int, series: nat, text: string, inputs: seq<LineInput>)
    requires Inv(l)
    ensures PrepareDraft(l, env, day, series, text, inputs).Ok? <==>
            && SieLines.Trim(text) != "" && inputs != [] && (forall i :: i in inputs ==> InputReady(l, env, i))
            && exists y: nat, p: nat :: Covers(l, y, p, day) && series < |l.series| && l.series[series].year == y
                                        && l.series[series].active
    ensures PrepareDraft(l, env, day, series, text, inputs).Ok? ==>
              var d := PrepareDraft(l, env, day, series, text, inputs).value; Covers(l, d.year, d.period, day)
    ensures forall y: nat, p: nat ::
      Covers(l, y, p, day) && PrepareDraft(l, env, day, series, text, inputs).Ok? ==>
        PrepareDraft(l, env, day, series, text, inputs).value.year == y
        && PrepareDraft(l, env, day, series, text, inputs).value.period == p
  {
    hide Inv, SieLines.Trim, PrepareLines, Resolve, Covers, InputReady;
    InputsIff(l, env, inputs);
    ResolveIff(l, day);
  }

  /** A draft is changed if and only if the request changes something, has the version of the draft, and the draft as
      changed could be created; the period it is in and the one it goes to must be open. */
  lemma UpdateSucceedsIff(l: Ledger, env: Registers, id: nat, c: DraftChange)
    requires Inv(l)
    ensures UpdateDraft(l, env, id, c).Ok? <==>
            && (c.date.Some? || c.series.Some? || c.text.Some? || c.lines.Some?) && id < |l.entries|
            && var e := l.entries[id];
               && !e.posted && e.version == c.expected && OpenPeriod(l, e.year, e.period) && DayFor(e, c).Some?
               && SieLines.Trim(TextFor(e, c)) != "" && LinesFor(e, c) != []
               && (forall i :: i in LinesFor(e, c) ==> InputReady(l, env, i))
               && exists y: nat, p: nat ::
                  OpenPeriod(l, y, p) && Covers(l, y, p, DayFor(e, c).value) && SeriesFor(e, c) < |l.series|
                  && l.series[SeriesFor(e, c)].year == y && l.series[SeriesFor(e, c)].active
  {
    hide *;
    UpdateIs(l, env, id, c);
    if id < |l.entries| {
      var e := l.entries[id];
      RefusalIff(l, id, c);
      if DayFor(e, c).Some? {
        var day := DayFor(e, c).value;
        ChangeIsPrepared(l, env, e, c);
        PrepareSucceedsIff(l, env, day, SeriesFor(e, c), TextFor(e, c), LinesFor(e, c));
        ResolveIff(l, day);
        OpenPeriods(l, e.year, e.period);
        forall y: nat, p: nat
          ensures OpenPeriod(l, y, p) <==> RequireOpen(l, y, Some(p)).None?
          ensures OpenPeriod(l, y, p) ==> RequireOpen(l, y, None).None?
        {
          OpenPeriods(l, y, p);
        }
        DayResolves(l, e, c);
      }
    }
  }

  lemma OpenPeriods(l: Ledger, y: nat, p: nat)
    ensures OpenPeriod(l, y, p) <==> RequireOpen(l, y, Some(p)).None?
    ensures OpenPeriod(l, y, p) ==> RequireOpen(l, y, None).None?
  {
  }

  lemma UpdateIs(l: Ledger, env: Registers, id: nat, c: DraftChange)
    ensures UpdateDraft(l, env, id, c).Ok? <==>
            && id < |l.entries| && ChangeRefusal(l, id, c).None? && PreparedChange(l, env, l.entries[id], c).Ok?
            && var p := PreparedChange(l, env, l.entries[id], c).value; RequireOpen(l, p.year, Some(p.period)).None?
  {
    hide TargetYear, RequireOpen, PreparedChange, Empty;
  }

  lemma RefusalIff(l: Ledger, id: nat, c: DraftChange)
    requires id < |l.entries|
    ensures ChangeRefusal(l, id, c).None? <==>
            && (c.date.Some? || c.series.Some? || c.text.Some? || c.lines.Some?)
            && TargetYear(l, l.entries[id], c).Ok? && RequireOpen(l, l.entries[id].year, None).None?
            && RequireOpen(l, TargetYear(l, l.entries[id], c).value, None).None? && !l.entries[id].posted
            && l.entries[id].version == c.expected
            && RequireOpen(l, l.entries[id].year, Some(l.entries[id].period)).None?
    ensures ChangeRefusal(l, id, c).None? ==> DayFor(l.entries[id], c).Some?
  {
    hide RequireOpen, Resolve, Calendar.Valid, Calendar.DayNumber;
  }

  lemma ChangeIsPrepared(l: Ledger, env: Registers, e: Entry, c: DraftChange)
    requires DayFor(e, c).Some?
    ensures PreparedChange(l, env, e, c)
            == PrepareDraft(l, env, DayFor(e, c).value, SeriesFor(e, c), TextFor(e, c), LinesFor(e, c))
  {
    hide PrepareDraft, Calendar.Valid, Calendar.DayNumber;
  }

  lemma DayResolves(l: Ledger, e: Entry, c: DraftChange)
    requires DayFor(e, c).Some?
    ensures c.date.Some? ==>
            TargetYear(l, e, c) == var r := Resolve(l, DayFor(e, c).value);
                                   if r.Err? then Err(r.error) else Ok(r.value.0)
    ensures c.date.None? ==> TargetYear(l, e, c) == Ok(e.year)
  {
    hide Resolve, Calendar.Valid, Calendar.DayNumber;
  }

  /** A changed draft holds what was requested and keeps the rest; no other voucher and no other table changes. */
  lemma ChangeHoldsTheRequest(l: Ledger, env: Registers, id: nat, c: DraftChange)
    requires UpdateDraft(l, env, id, c).Ok?
    ensures var m := UpdateDraft(l, env, id, c).value;
            && ServiceLaws.SameBut(l, m, id) && id < |l.entries| == |m.entries|
            && var e, f := l.entries[id], m.entries[id];
               && !f.posted && f.version == e.version + 1 && f.number == e.number && f.reverses == e.reverses
               && f.source == e.source && DayFor(e, c) == Some(f.date) && f.series == SeriesFor(e, c)
               && f.text == SieLines.Trim(TextFor(e, c)) && OpenPeriod(l, f.year, f.period)
               && Covers(l, f.year, f.period, f.date)
               && (c.lines.None? ==> f.lines == e.lines)
               && (c.lines.Some? ==>
                  && |f.lines| == |c.lines.value|
                  && forall k :: 0 <= k < |f.lines| ==> ServiceLaws.Stores(f.lines[k], c.lines.value[k]))
  {
    hide SieLines.Trim, MapLines, Resolve, AccountsEligible, AccountsUsable, CodesKnown, ServiceLaws.Stores,
         Calendar.Valid, Calendar.DayNumber;
    var e := l.entries[id];
    if c.lines.Some? { ServiceLaws.LinesAreTheRequest(c.lines.value); }
  }

  // ---------------------------------------------------------------- when a voucher is corrected

  lemma PostedIsPostable(l: Ledger, id: nat)
    requires Inv(l) && id < |l.entries| && l.entries[id].posted
    ensures Postable(l.entries[id].lines) && |l.entries[id].lines| >= 2
  {
    hide Debits, Credits, InCalendar, CorrectionOk;
    assert EntryOk(l, l.entries[id]);
  }

  lemma {:induction false} SidesExchange(xs: seq<Line>)
    ensures Debits(Map(xs, Mirror())) == Credits(xs) && Credits(Map(xs, Mirror())) == Debits(xs)
  {
    SumMap(xs, Mirror(), DebitOf());
    SumMap(xs, Mirror(), CreditOf());
    SumExt(xs, Then(Mirror(), DebitOf()), CreditOf());
    SumExt(xs, Then(Mirror(), CreditOf()), DebitOf());
  }

  lemma CorrectionPostsIff(l: Ledger, id: nat, y: nat, p: nat, day: int, series: nat, text: Option<string>)
    requires id < |l.entries| && Postable(l.entries[id].lines) && OpenPeriod(l, y, p) && Covers(l, y, p, day)
    requires SeriesOpen(l, series, y)
    ensures var c := Correction(l, id, (y, p), day, series, text);
            PostRefusal(l.(entries := l.entries + [c]), None, |l.entries|, None).None? <==> CanNumber(l, series, y)
  {
    SidesExchange(l.entries[id].lines);
    hide Debits, Credits, GeneratedText, SieLines.Trim;
  }

  /** A voucher is corrected if and only if it is posted, is no correction and has none yet, the date is a day of an
      open period whose year has the series with a number to give out, and a reason, if given, is not blank. */
  lemma ReverseSucceedsIff(l: Ledger, id: nat, date: Calendar.Date, series: nat, text: Option<string>)
    requires Inv(l)
    ensures Reverse(l, id, date, series, text).Ok? <==>
            && Calendar.Valid(date) && id < |l.entries| && l.entries[id].posted && l.entries[id].reverses.None?
            && (forall e :: e in l.entries ==> e.reverses != Some(id))
            && (exists y: nat, p: nat :: OpenPeriod(l, y, p) && Covers(l, y, p, Calendar.DayNumber(date))
                               && CanNumber(l, series, y))
            && (text.Some? ==> SieLines.Trim(text.value) != "")
  {
    hide Inv, SieLines.Trim, Calendar.Valid, Calendar.DayNumber, Resolve, Covers, Postable, PostRefusal, Correction;
    if Calendar.Valid(date) {
      ResolveIff(l, Calendar.DayNumber(date));
      if id < |l.entries| && l.entries[id].posted {
        PostedIsPostable(l, id);
        var day := Calendar.DayNumber(date);
        forall y: nat, p: nat | OpenPeriod(l, y, p) && Covers(l, y, p, day) && SeriesOpen(l, series, y)
          ensures var m := l.(entries := l.entries + [Correction(l, id, (y, p), day, series, text)]);
                  PostRefusal(m, None, |l.entries|, None).None? <==> CanNumber(l, series, y)
        {
          CorrectionPostsIff(l, id, y, p, day, series, text);
        }
      }
    }
  }

  /** The text of a correction is the reason given, or names the voucher by series and number. */
  lemma CorrectionTextIs(l: Ledger, id: nat, date: Calendar.Date, series: nat, text: Option<string>)
    requires Inv(l) && Reverse(l, id, date, series, text).Ok? && id < |l.entries|
    ensures var m, o := Reverse(l, id, date, series, text).value, l.entries[id];
            && |m.entries| == |l.entries| + 1 && o.number.Some? && o.number.value >= 0 && o.series < |l.series|
            && var c := m.entries[|l.entries|];
               && c.source == Reversal && c.version == 2
               && c.text == if text.Some? then SieLines.Trim(text.value)
                            else "Rättelse av verifikation " + l.series[o.series].code + SieText.Digits(o.number.value)
  {
    hide Inv, SieLines.Trim, Postable, RequireOpen, Resolve, SieText.Digits, InCalendar;
    NumberedInSeries(l, id);
  }

  lemma NumberedInSeries(l: Ledger, id: nat)
    requires Inv(l) && id < |l.entries| && l.entries[id].posted
    ensures l.entries[id].number.Some? && l.entries[id].number.value >= 1 && l.entries[id].series < |l.series|
  {
    hide Postable, InCalendar, CorrectionOk;
    assert EntryOk(l, l.entries[id]);
  }
}
