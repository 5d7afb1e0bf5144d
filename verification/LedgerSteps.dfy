/** Every step of the ledger keeps it in order; the import is treated in its own module. */
module LedgerSteps {
  import opened Common
  import opened LedgerModel
  import opened LedgerMachine
  import opened LedgerUpdates
  import opened Journal
  import AccountingData
  import Calendar
  import Catalog
  import FiscalYears
  import OpeningBalances
  import Registry

  /** The result of a step is in order and grew out of the ledger before. */
  ghost predicate Kept(l: Ledger, r: Outcome) { r.Ok? ==> Inv(r.value) && Grows(l, r.value) }

  // ---------------------------------------------------------------- years and registers

  lemma NewYearOk(first: int, last: int, periods: seq<Calendar.Period>)
    requires Calendar.Tiles(periods, first, last)
    ensures YearOk(Year(first, last, false, Map(periods, FiscalYears.OpenPeriod()), [], 0))
  {
  }

  lemma CreateYearKeeps(l: Ledger, name: string, first: int, last: int, periods: seq<Calendar.Period>)
    requires Inv(l)
    ensures Kept(l, FiscalYears.CreateYear(l, name, first, last, periods))
  {
    hide Inv, Grows, YearOk;
    if FiscalYears.CreateYear(l, name, first, last, periods).Ok? {
      NewYearOk(first, last, periods);
      AddYearKeeps(l, Year(first, last, false, Map(periods, FiscalYears.OpenPeriod()), [], 0));
    }
  }

  lemma {:induction false} SetPeriodKeeps(l: Ledger, year: nat, period: nat, lock: bool)
    requires Inv(l)
    ensures Kept(l, FiscalYears.SetPeriodStatus(l, year, period, lock))
  {
    if FiscalYears.SetPeriodStatus(l, year, period, lock).Ok? {
      var y := l.years[year];
      var y' := y.(periods := y.periods[period := y.periods[period].(locked := lock)]);
      assert YearOk(y) && IbOk(l, y.ib);
      assert YearOk(y') && YearGrows(y, y');
      hide Inv, Grows, YearOk, IbOk;
      SetYearKeeps(l, year, y');
    }
  }

  lemma {:induction false} CloseKeeps(l: Ledger, year: nat)
    requires Inv(l)
    ensures Kept(l, FiscalYears.Close(l, year))
  {
    if FiscalYears.Close(l, year).Ok? {
      var y := l.years[year];
      assert YearOk(y) && IbOk(l, y.ib);
      hide Inv, Grows, IbOk, HasDraft;
      SetYearKeeps(l, year, y.(closed := true));
    }
  }

  lemma CreateSeriesKeeps(l: Ledger, year: nat, code: string, name: string)
    requires Inv(l)
    ensures Kept(l, Registry.CreateSeries(l, year, code, name))
  {
    hide Inv, Grows;
    if Registry.CreateSeries(l, year, code, name).Ok? { AddSeriesKeeps(l, Series(year, code, 1, true)); }
  }

  lemma UpdateSeriesKeeps(l: Ledger, id: nat, code: Option<string>, name: Option<string>, active: Option<bool>)
    requires Inv(l)
    ensures Kept(l, Registry.UpdateSeries(l, id, code, name, active))
  {
    if Registry.UpdateSeries(l, id, code, name, active).Ok? {
      var s := l.series[id];
      var s' := s.(code := Registry.Or(code, s.code), active := Registry.Or(active, s.active));
      assert SeriesOk(l);
      forall t | 0 <= t < |l.series| && t != id ensures l.series[t].year != s'.year || l.series[t].code != s'.code {
        assert l.series[t] in l.series;
      }
      hide Inv, Grows;
      SetSeriesKeeps(l, id, s');
    }
  }

  lemma CreateAccountKeeps(l: Ledger, env: Registers, number: string, name: string, kind: Kind, active: bool,
        vat: Option<string>)
    requires Inv(l)
    ensures Kept(l, Registry.CreateAccount(l, env, number, name, kind, active, vat))
  {
    hide Inv, Grows;
    if Registry.CreateAccount(l, env, number, name, kind, active, vat).Ok? {
      AddAccountKeeps(l, Account(number, name, kind, active, false, vat));
    }
  }

  lemma UpdateAccountKeeps(l: Ledger, env: Registers, id: nat, c: Registry.AccountChange)
    requires Inv(l)
    ensures Kept(l, Registry.UpdateAccount(l, env, id, c))
  {
    if Registry.UpdateAccount(l, env, id, c).Ok? {
      assert AccountsOk(l.accounts);
      var a := Registry.Changed(l.accounts[id], c);
      forall b | 0 <= b < |l.accounts| && b != id ensures l.accounts[b].number != a.number {
        assert l.accounts[b] in l.accounts;
      }
      hide Inv, Grows, AccountUsed;
      SetAccountKeeps(l, id, a);
    }
  }

  lemma CatalogRowKeeps(l: Ledger, r: Catalog.Row)
    requires Inv(l)
    ensures Kept(l, Ok(l.(accounts := Catalog.AddRow(l.accounts, r))))
    ensures Kept(l, Ok(l.(accounts := Catalog.SwitchOn(l.accounts, r))))
  {
    var a := FindAccount(l.accounts, r.number);
    assert AccountsOk(l.accounts);
    hide Inv, Grows, AccountUsed;
    if a.Some? {
      GrowsSame(l);
      var x := l.accounts[a.value].(active := true);
      SetAccountKeeps(l, a.value, x);
      assert l.(accounts := Catalog.SwitchOn(l.accounts, r)) == WithAccount(l, a.value, x);
    } else {
      AddAccountKeeps(l, Catalog.AccountOfRow(r));
    }
  }

  lemma {:induction false} CatalogRowsKeep(l: Ledger, rows: seq<Catalog.Row>)
    requires Inv(l)
    ensures Kept(l, Ok(l.(accounts := Catalog.AddRows(l.accounts, rows))))
    ensures Kept(l, Ok(l.(accounts := Catalog.SwitchOnAll(l.accounts, rows))))
  {
    hide Inv, Grows, Catalog.AddRow, Catalog.SwitchOn;
    if |rows| == 0 {
      GrowsSame(l);
    } else {
      var front, last := rows[..|rows| - 1], rows[|rows| - 1];
      CatalogRowsKeep(l, front);
      var added := l.(accounts := Catalog.AddRows(l.accounts, front));
      var switched := l.(accounts := Catalog.SwitchOnAll(l.accounts, front));
      CatalogRowKeeps(added, last);
      CatalogRowKeeps(switched, last);
      GrowsTwice(l, added, l.(accounts := Catalog.AddRows(l.accounts, rows)));
      GrowsTwice(l, switched, l.(accounts := Catalog.SwitchOnAll(l.accounts, rows)));
    }
  }

  lemma ProvisionKeeps(l: Ledger, c: Option<Catalog.Installed>)
    requires Inv(l)
    ensures Kept(l, Catalog.Provision(l, c))
  {
    hide Inv, Grows, Catalog.AddRows, Catalog.RestrictedInUse;
    GrowsSame(l);
    if c.Some? { CatalogRowsKeep(l, Filter(c.value.rows, Catalog.Standard())); }
  }

  lemma ActivationKeeps(l: Ledger, c: Option<Catalog.Installed>, ids: set<nat>)
    requires Inv(l)
    ensures Kept(l, Catalog.Activate(l, c, ids))
  {
    hide Inv, Grows, Catalog.SwitchOnAll, Catalog.Allowed;
    if c.Some? { CatalogRowsKeep(l, Catalog.Chosen(c.value.rows, ids, |c.value.rows|)); }
  }

  // ---------------------------------------------------------------- drafts

  lemma {:induction false} MappedLinesOk(l: Ledger, inputs: seq<LineInput>)
    requires AccountsUsable(l, Map(inputs, AccountOfInput())) && MapLines(inputs).Ok?
    ensures |MapLines(inputs).value| == |inputs| && forall x :: x in MapLines(inputs).value ==> LineOk(|l.accounts|, x)
  {
    if |inputs| > 0 {
      var front, i := inputs[..|inputs| - 1], inputs[|inputs| - 1];
      assert Map(inputs, AccountOfInput())[..|front|] == Map(front, AccountOfInput());
      assert forall a :: a in Map(front, AccountOfInput()) ==> a in Map(inputs, AccountOfInput());
      MappedLinesOk(l, front);
      assert Map(inputs, AccountOfInput())[|front|] == i.account;
      assert i.account in Map(inputs, AccountOfInput());
      assert MapLines(inputs).value == MapLines(front).value + [PrepareLine(i).value];
      assert LineOk(|l.accounts|, PrepareLine(i).value);
    }
  }

  lemma PreparedOk(l: Ledger, env: Registers, day: int, series: nat, text: string, inputs: seq<LineInput>)
    requires PrepareDraft(l, env, day, series, text, inputs).Ok?
    ensures var p := PrepareDraft(l, env, day, series, text, inputs).value;
            && p.series < |l.series| && l.series[p.series].year == p.year
            && InCalendar(l, DraftOf(p)) && (forall x :: x in p.lines ==> LineOk(|l.accounts|, x))
  {
    hide Resolve, MapLines, AccountsEligible, CodesKnown, LineOk;
    MappedLinesOk(l, inputs);
  }

  lemma DraftFits(entries: seq<Entry>, i: nat, e: Entry)
    requires !e.posted && e.reverses.None?
    ensures FitsIn(entries, i, e)
  {
  }

  lemma {:induction false} CreateDraftKeeps(l: Ledger, env: Registers, date: Calendar.Date, series: nat, text: string,
        inputs: seq<LineInput>)
    requires Inv(l)
    ensures Kept(l, CreateDraft(l, env, date, series, text, inputs))
  {
    hide Inv, Grows, PrepareDraft, InCalendar, FitsIn;
    if CreateDraft(l, env, date, series, text, inputs).Ok? {
      PreparedOk(l, env, DayOf(date).value, series, text, inputs);
      var p := PrepareDraft(l, env, DayOf(date).value, series, text, inputs).value;
      DraftFits(l.entries, |l.entries|, DraftOf(p));
      AddEntryKeeps(l, DraftOf(p));
    }
  }

  lemma ChangeAllowed(l: Ledger, id: nat, c: DraftChange)
    requires Inv(l) && ChangeRefusal(l, id, c).None?
    ensures id < |l.entries| && !l.entries[id].posted && EntryOk(l, l.entries[id]) && l.entries[id].reverses.None?
  {
    hide Resolve, RequireOpen;
    assert EntryOk(l, l.entries[id]);
  }

  lemma {:induction false} UpdateDraftKeeps(l: Ledger, env: Registers, id: nat, c: DraftChange)
    requires Inv(l)
    ensures Kept(l, UpdateDraft(l, env, id, c))
  {
    hide Inv, Grows, PrepareDraft, InCalendar, FitsIn, ChangeRefusal;
    if UpdateDraft(l, env, id, c).Ok? {
      ChangeAllowed(l, id, c);
      var e := l.entries[id];
      var p := PreparedChange(l, env, e, c).value;
      PreparedOk(l, env, if c.date.Some? && DayOf(c.date.value).Some? then DayOf(c.date.value).value else e.date,
                 if c.series.Some? then c.series.value else e.series, if c.text.Some? then c.text.value else e.text,
                 if c.lines.Some? then c.lines.value else Map(e.lines, InputOfLine()));
      var e' := ChangedDraft(e, c, p);
      CalendarOnly(l, DraftOf(p), e');
      DraftFits(l.entries, id, e');
      SetDraftKeeps(l, id, e');
    }
  }

  lemma CalendarOnly(l: Ledger, a: Entry, b: Entry)
    requires InCalendar(l, a) && a.year == b.year && a.period == b.period && a.date == b.date
    ensures InCalendar(l, b)
  {
  }

  // ---------------------------------------------------------------- posting and correction

  lemma {:induction false} SameAmounts(xs: seq<Line>, ys: seq<Line>)
    requires |xs| == |ys| && forall i :: 0 <= i < |xs| ==> xs[i].debit == ys[i].debit && xs[i].credit == ys[i].credit
    ensures Debits(xs) == Debits(ys) && Credits(xs) == Credits(ys)
  {
    if |xs| > 0 { SameAmounts(xs[..|xs| - 1], ys[..|ys| - 1]); }
  }

  lemma {:induction false} MirroredAmounts(xs: seq<Line>)
    ensures Debits(Map(xs, Mirror())) == Credits(xs) && Credits(Map(xs, Mirror())) == Debits(xs)
  {
    if |xs| > 0 {
      assert Map(xs, Mirror())[..|xs| - 1] == Map(xs[..|xs| - 1], Mirror());
      MirroredAmounts(xs[..|xs| - 1]);
    }
  }

  lemma PostedLinesOk(l: Ledger, env: Option<Registers>, e: Entry)
    requires e.series < |l.series| && Postable(e.lines) && forall x :: x in e.lines ==> LineOk(|l.accounts|, x)
    ensures Postable(PostedEntry(l, env, e).lines)
    ensures forall x :: x in PostedEntry(l, env, e).lines ==> LineOk(|l.accounts|, x)
  {
    if env.Some? {
      SameAmounts(e.lines, FrozenLines(l, env.value, e.lines));
      hide Debits, Credits;
      forall x | x in FrozenLines(l, env.value, e.lines) ensures LineOk(|l.accounts|, x) {
        var i :| 0 <= i < |e.lines| && FrozenLines(l, env.value, e.lines)[i] == x;
        assert e.lines[i] in e.lines;
      }
    }
  }

  lemma AdvancedKeeps(l: Ledger, s: nat)
    requires Inv(l) && s < |l.series|
    ensures Inv(Advanced(l, s)) && Grows(l, Advanced(l, s))
  {
    assert SeriesOk(l);
    hide Inv, Grows;
    SetSeriesKeeps(l, s, l.series[s].(next := l.series[s].next + 1));
  }

  /** The next number of a series is above every number posted in it. */
  lemma NextIsUnused(l: Ledger, s: nat, i: nat)
    requires Inv(l) && s < |l.series| && i < |l.entries| && l.entries[i].posted && l.entries[i].series == s
    ensures l.entries[i].number.Some? && l.entries[i].number.value < l.series[s].next
  {
    assert EntryOk(l, l.entries[i]);
  }

  lemma PostAllowed(l: Ledger, env: Option<Registers>, id: nat, expected: Option<int>)
    requires Inv(l) && PostRefusal(l, env, id, expected).None?
    ensures id < |l.entries| && !l.entries[id].posted && EntryOk(l, l.entries[id]) && l.entries[id].reverses.None?
    ensures Postable(l.entries[id].lines) && l.series[l.entries[id].series].next >= 1
  {
    hide RequireOpen, ReferenceError, Postable, InCalendar;
    assert EntryOk(l, l.entries[id]);
  }

  lemma PostedFits(l: Ledger, env: Option<Registers>, id: nat)
    requires Inv(l) && id < |l.entries| && l.entries[id].series < |l.series| && l.entries[id].reverses.None?
    ensures FitsIn(Advanced(l, l.entries[id].series).entries, id, PostedEntry(l, env, l.entries[id]))
  {
    var p := PostedEntry(l, env, l.entries[id]);
    forall j | 0 <= j < |l.entries| && j != id ensures !SameNumber(l.entries[j], p) {
      if l.entries[j].posted && l.entries[j].series == p.series { NextIsUnused(l, p.series, j); }
    }
  }

  lemma {:induction false} PostKeeps(l: Ledger, env: Option<Registers>, id: nat, expected: Option<int>)
    requires Inv(l)
    ensures Kept(l, Post(l, env, id, expected))
  {
    hide Inv, Grows, PostRefusal, Postable, InCalendar, FitsIn;
    if Post(l, env, id, expected).Ok? {
      PostAllowed(l, env, id, expected);
      var e := l.entries[id];
      var m := Advanced(l, e.series);
      AdvancedKeeps(l, e.series);
      PostedLinesOk(l, env, e);
      PostedFits(l, env, id);
      var p := PostedEntry(l, env, e);
      CalendarSame(l, m, e, p);
      SetDraftKeeps(m, id, p);
      GrowsTwice(l, m, WithEntry(m, id, p));
    }
  }

  lemma CalendarSame(l: Ledger, m: Ledger, a: Entry, b: Entry)
    requires InCalendar(l, a) && m.years == l.years && a.year == b.year && a.period == b.period && a.date == b.date
    ensures InCalendar(m, b)
  {
  }

  /** The posted correction of a voucher, as one new entry. */
  function PostedCorrection(l: Ledger, created: Entry): Entry
    requires created.series < |l.series|
  {
    created.(posted := true, version := created.version + 1, number := Some(l.series[created.series].next))
  }

  lemma ReverseAllowed(l: Ledger, id: nat, date: Calendar.Date, series: nat, text: Option<string>)
    requires Inv(l) && ReverseRefusal(l, id, date, series, text).None?
    ensures DayOf(date).Some? && Resolve(l, DayOf(date).value).Ok? && id < |l.entries|
    ensures var o := l.entries[id];
            o.posted && o.reverses.None? && EntryOk(l, o) && Postable(o.lines) && !Corrected(l, id)
    ensures SeriesOpen(l, series, Resolve(l, DayOf(date).value).value.0)
  {
    hide RequireOpen, Postable, InCalendar, Resolve, Corrected;
    assert EntryOk(l, l.entries[id]);
  }

  lemma ReverseShape(l: Ledger, created: Entry)
    requires Post(l.(entries := l.entries + [created]), None, |l.entries|, None).Ok? && created.series < |l.series|
    ensures Post(l.(entries := l.entries + [created]), None, |l.entries|, None).value
            == Advanced(l, created.series).(entries := l.entries + [PostedCorrection(l, created)])
  {
    hide PostRefusal;
    var m := l.(entries := l.entries + [created]);
    assert m.entries[|l.entries|] == created;
    assert m.entries[|l.entries| := PostedCorrection(l, created)] == l.entries + [PostedCorrection(l, created)];
  }

  lemma CorrectionFits(l: Ledger, id: nat, p: Entry)
    requires Inv(l) && p.series < |l.series| && p.number == Some(l.series[p.series].next) && p.reverses == Some(id)
    requires !Corrected(l, id)
    ensures FitsIn(l.entries, |l.entries|, p)
  {
    forall j | 0 <= j < |l.entries| ensures !SameNumber(l.entries[j], p) && l.entries[j].reverses != p.reverses {
      if l.entries[j].posted && l.entries[j].series == p.series { NextIsUnused(l, p.series, j); }
      assert l.entries[j] in l.entries;
    }
  }

  lemma CorrectionLinesOk(n: nat, xs: seq<Line>)
    requires Postable(xs) && forall x :: x in xs ==> LineOk(n, x)
    ensures Postable(Map(xs, Mirror())) && forall x :: x in Map(xs, Mirror()) ==> LineOk(n, x)
  {
    MirroredAmounts(xs);
    hide Debits, Credits;
    forall x | x in Map(xs, Mirror()) ensures LineOk(n, x) {
      var i :| 0 <= i < |xs| && Map(xs, Mirror())[i] == x;
      assert xs[i] in xs;
    }
  }

  lemma {:induction false} CorrectionIsOk(l: Ledger, id: nat, scope: (nat, nat), day: int, series: nat,
        text: Option<string>)
    requires Inv(l) && id < |l.entries| && l.entries[id].posted && l.entries[id].reverses.None?
    requires EntryOk(l, l.entries[id])
    requires Resolve(l, day) == Ok(scope) && SeriesOpen(l, series, scope.0)
    ensures var p := PostedCorrection(l, Correction(l, id, scope, day, series, text)); EntryOk(Advanced(l, series), p)
  {
    hide Resolve, Postable;
    CorrectionLinesOk(|l.accounts|, l.entries[id].lines);
    assert l.series[series].next >= 1;
  }

  lemma {:induction false} ReverseKeeps(l: Ledger, id: nat, date: Calendar.Date, series: nat, text: Option<string>)
    requires Inv(l)
    ensures Kept(l, Reverse(l, id, date, series, text))
  {
    hide Inv, Grows, ReverseRefusal, FitsIn, Post, EntryOk, Postable, Resolve, Corrected;
    if Reverse(l, id, date, series, text).Ok? {
      ReverseAllowed(l, id, date, series, text);
      var day := DayOf(date).value;
      var scope := Resolve(l, day).value;
      var created := Correction(l, id, scope, day, series, text);
      ReverseShape(l, created);
      var m, p := Advanced(l, series), PostedCorrection(l, created);
      AdvancedKeeps(l, series);
      CorrectionIsOk(l, id, scope, day, series, text);
      CorrectionFits(l, id, p);
      AddEntryKeeps(m, p);
      GrowsTwice(l, m, m.(entries := m.entries + [p]));
    }
  }

  // ---------------------------------------------------------------- opening balances

  lemma {:induction false} RefusedRowsSound(l: Ledger, rows: seq<IbRow>)
    requires OpeningBalances.RowsRefusal(l, rows).None?
    ensures AccountingData.RowsSound(l, rows)
  {
    if |rows| > 0 {
      var n := |rows| - 1;
      RefusedRowsSound(l, rows[..n]);
      AccountingData.RowsSoundStep(l, rows, n);
      assert rows[..n + 1] == rows;
    }
  }

  lemma FewerBefore(l: Ledger, front: seq<IbRow>, kept: seq<IbRow>, r: IbRow)
    requires AccountingData.RowSound(l, front, r) && forall b :: b in kept ==> b in front
    ensures AccountingData.RowSound(l, kept, r)
  {
  }

  /** Dropping rows keeps the others sound. */
  lemma {:induction false} FilteredRowsSound(l: Ledger, rows: seq<IbRow>)
    requires AccountingData.RowsSound(l, rows)
    ensures AccountingData.RowsSound(l, Filter(rows, OpeningBalances.NonZero()))
  {
    hide AccountingData.RowsSound, AccountingData.RowSound;
    if |rows| > 0 {
      var n := |rows| - 1;
      var front, kept := rows[..n], Filter(rows[..n], OpeningBalances.NonZero());
      assert rows[..n + 1] == rows;
      AccountingData.RowsSoundStep(l, rows, n);
      FilteredRowsSound(l, front);
      if OpeningBalances.NonZero()(rows[n]) {
        var all := kept + [rows[n]];
        assert all[..|kept|] == kept && all[..|kept| + 1] == all;
        AccountingData.RowsSoundStep(l, all, |kept|);
        FewerBefore(l, front, kept, rows[n]);
      }
    }
  }

  lemma FilteredSum(rows: seq<IbRow>, f: IbRow -> int)
    requires forall r :: f(r) != 0 ==> OpeningBalances.NonZero()(r)
    ensures SumOf(Filter(rows, OpeningBalances.NonZero()), f) == SumOf(rows, f)
  {
    SumFilter(rows, OpeningBalances.NonZero(), f);
    SumExt(rows, f, Where(OpeningBalances.NonZero(), f));
  }

  lemma ValidRowsOk(l: Ledger, env: Registers, rows: seq<IbRow>)
    requires OpeningBalances.Validation(l, env, rows).None?
    ensures IbOk(l, rows) && IbOk(l, Filter(rows, OpeningBalances.NonZero()))
  {
    RefusedRowsSound(l, rows);
    FilteredRowsSound(l, rows);
    FilteredSum(rows, IbDebit());
    FilteredSum(rows, IbCredit());
  }

  lemma WithIbKeeps(l: Ledger, year: nat, rows: seq<IbRow>)
    requires Inv(l) && year < |l.years| && !l.years[year].closed && IbOk(l, rows)
    ensures Kept(l, Ok(OpeningBalances.WithIb(l, year, rows)))
  {
    hide Inv, Grows, IbOk, YearOk;
    YearInOrder(l, year);
    RowsKeepYear(l.years[year], rows);
    SetYearKeeps(l, year, l.years[year].(ib := rows, stamp := l.years[year].stamp + 1));
  }

  lemma YearInOrder(l: Ledger, year: nat)
    requires Inv(l) && year < |l.years|
    ensures YearOk(l.years[year])
  {
    hide EntriesOk, YearsApart, NoClosedDrafts, EntriesApart, SeriesOk, AccountsOk, CarriesOk, YearOk, IbOk;
  }

  lemma RowsKeepYear(y: Year, rows: seq<IbRow>)
    requires YearOk(y)
    ensures YearOk(y.(ib := rows, stamp := y.stamp + 1))
  {
  }

  lemma SaveKeeps(l: Ledger, env: Registers, year: nat, seen: OpeningBalances.Print, rows: seq<IbRow>)
    requires Inv(l)
    ensures Kept(l, OpeningBalances.Save(l, env, year, seen, rows))
  {
    hide Inv, Grows, IbOk, OpeningBalances.Validation;
    if OpeningBalances.Save(l, env, year, seen, rows).Ok? {
      ValidRowsOk(l, env, rows);
      WithIbKeeps(l, year, Filter(rows, OpeningBalances.NonZero()));
    }
  }

  lemma PreviewKeeps(l: Ledger, env: Registers, s: nat, t: nat, r: nat, actor: string, now: int)
    requires Inv(l)
    ensures Kept(l, OpeningBalances.Preview(l, env, s, t, r, actor, now))
  {
    hide Grows, OpeningBalances.Calculate, EntriesOk, YearsOk, SeriesOk, AccountsOk, EntriesApart, YearsApart,
         NoClosedDrafts;
    var p := OpeningBalances.Preview(l, env, s, t, r, actor, now);
    if p.Ok? {
      assert CarriesOk(l.carries) && CarriesOk(p.value.carries);
      hide Inv;
      CarriesKeep(l, p.value.carries);
    }
  }

  lemma CalculatedIsFree(l: Ledger, env: Registers, s: nat, t: nat, r: nat)
    requires OpeningBalances.Calculate(l, env, s, t, r).Ok?
    ensures s < |l.years| && t < |l.years| && !l.years[t].closed && !OpeningBalances.HasConfirmed(l, t)
    ensures OpeningBalances.Validation(l, env, OpeningBalances.PlanOf(l, s, t, r).rows).None?
  {
    hide OpeningBalances.Validation, OpeningBalances.FullNet, OpeningBalances.CarriedRows, AccountingData.ContextError,
         OpeningBalances.HasConfirmed;
  }

  lemma ConfirmedCarriesOk(l: Ledger, id: nat)
    requires CarriesOk(l.carries) && id < |l.carries| && !OpeningBalances.HasConfirmed(l, l.carries[id].target)
    ensures CarriesOk(l.carries[id := l.carries[id].(confirmed := true)]) && !l.carries[id].confirmed
  {
    var c := l.carries[id];
    var carries := l.carries[id := c.(confirmed := true)];
    assert c in l.carries;
    forall i, j | 0 <= i < j < |carries| && carries[i].confirmed && carries[j].confirmed
      ensures carries[i].target != carries[j].target
    {
      if i == id { assert l.carries[j] in l.carries; }
      if j == id { assert l.carries[i] in l.carries; }
    }
  }

  lemma {:induction false} ConfirmKeeps(l: Ledger, env: Registers, id: nat, actor: string, now: int)
    requires Inv(l)
    ensures Kept(l, OpeningBalances.Confirm(l, env, id, actor, now))
  {
    if OpeningBalances.Confirm(l, env, id, actor, now).Ok? {
      assert CarriesOk(l.carries);
      hide Inv, Grows, IbOk, OpeningBalances.Calculate, OpeningBalances.Validation, OpeningBalances.HasConfirmed,
           CarriesOk, OpeningBalances.PlanOf;
      var c := l.carries[id];
      CalculatedIsFree(l, env, c.source, c.target, c.result);
      var rows := OpeningBalances.PlanOf(l, c.source, c.target, c.result).rows;
      ValidRowsOk(l, env, rows);
      WithIbKeeps(l, c.target, rows);
      ConfirmedCarriesOk(l, id);
      var m := OpeningBalances.WithIb(l, c.target, rows);
      var carries := l.carries[id := c.(confirmed := true)];
      CarriesKeep(m, carries);
      GrowsTwice(l, m, m.(carries := carries));
    }
  }
}
