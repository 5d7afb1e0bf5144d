/** What requests leave behind in every reachable ledger: days are dates of the calendar, and drafts stand as a request
    would store them again. */
module StoredForm {
  import opened Common
  import opened LedgerModel
  import opened LedgerMachine
  import opened Journal
  import AccountingData
  import Calendar
  import Catalog
  import ImportOutcome
  import ImportSteps
  import LedgerSafety
  import OpeningBalances
  import Registry
  import ServiceLaws
  import SieImport
  import SieLedger
  import SieLines
  import SieParser
  import SieText

  // ---------------------------------------------------------------- the form

  /** The day of a date of the calendar. */
  ghost predicate IsDay(n: int) { exists d: Calendar.Date :: DayOf(d) == Some(n) }

  ghost predicate LinesDated(xs: seq<Line>) { forall x :: x in xs && x.date.Some? ==> IsDay(x.date.value) }

  /** A draft is what a request for its own content stores. */
  predicate Stands(e: Entry) {
    SieLines.Trim(e.text) == e.text && MapLines(Map(e.lines, InputOfLine())) == Ok(e.lines)
  }

  ghost predicate EntryInForm(e: Entry) { IsDay(e.date) && LinesDated(e.lines) && (!e.posted ==> Stands(e)) }

  ghost predicate EntriesInForm(entries: seq<Entry>) { forall e :: e in entries ==> EntryInForm(e) }

  ghost predicate YearsInForm(years: seq<Year>) { forall y :: y in years ==> IsDay(y.first) && IsDay(y.last) }

  ghost predicate InForm(l: Ledger) { EntriesInForm(l.entries) && YearsInForm(l.years) }

  /** A new year is requested by dates. */
  ghost predicate NamesDays(s: Step) { s.NewYear? ==> IsDay(s.first) && IsDay(s.last) }

  ghost predicate AllNameDays(steps: seq<Step>) { forall s :: s in steps ==> NamesDays(s) }

  // ---------------------------------------------------------------- dates

  lemma DateIsDay(d: Calendar.Date)
    requires DayOf(d).Some?
    ensures IsDay(DayOf(d).value)
  {
  }

  lemma IsoIsDay(s: string)
    requires SieImport.IsoDay(s).Some?
    ensures IsDay(SieImport.IsoDay(s).value)
  {
    hide SieText.WithoutDashes, Calendar.DayNumber;
    DateIsDay(SieText.DateOf(SieText.WithoutDashes(s)));
  }

  lemma NoDates(xs: seq<Line>)
    requires forall x :: x in xs ==> x.date.None?
    ensures LinesDated(xs)
  {
  }

  lemma {:induction false} RequestsHaveNoDates(inputs: seq<LineInput>)
    requires MapLines(inputs).Ok?
    ensures forall x :: x in MapLines(inputs).value ==> x.date.None?
  {
    hide TrimmedText;
    if |inputs| > 0 { RequestsHaveNoDates(inputs[..|inputs| - 1]); }
  }

  /** Lines with the same dates. */
  lemma SameDates(xs: seq<Line>, change: Line -> Line)
    requires LinesDated(xs) && forall x :: change(x).date == x.date
    ensures LinesDated(Map(xs, change))
  {
    hide IsDay;
    var m := Map(xs, change);
    forall y | y in m && y.date.Some? ensures IsDay(y.date.value) {
      var i :| 0 <= i < |m| && m[i] == y;
      assert xs[i] in xs;
    }
  }

  lemma FreezingKeepsDates(l: Ledger, env: Registers)
    ensures forall x :: FreezeWith(l, env)(x).date == x.date
    ensures forall x :: Mirror()(x).date == x.date
  {
  }

  // ---------------------------------------------------------------- drafts

  lemma PreparedStands(l: Ledger, env: Registers, day: int, series: nat, text: string, inputs: seq<LineInput>)
    requires PrepareDraft(l, env, day, series, text, inputs).Ok?
    ensures var p := PrepareDraft(l, env, day, series, text, inputs).value;
            && p.day == day && SieLines.Trim(p.text) == p.text
            && MapLines(Map(p.lines, InputOfLine())) == Ok(p.lines) && LinesDated(p.lines)
  {
    hide SieLines.Trim, MapLines, Resolve, AccountsUsable, AccountsEligible, CodesKnown;
    ServiceLaws.TrimTwice(text);
    assert MapLines(inputs) == Ok(PrepareDraft(l, env, day, series, text, inputs).value.lines);
    ServiceLaws.StoredLinesStand(inputs);
    RequestsHaveNoDates(inputs);
    NoDates(MapLines(inputs).value);
  }

  lemma NewDraftInForm(l: Ledger, env: Registers, date: Calendar.Date, series: nat, text: string,
        inputs: seq<LineInput>)
    requires EntriesInForm(l.entries) && CreateDraft(l, env, date, series, text, inputs).Ok?
    ensures EntriesInForm(CreateDraft(l, env, date, series, text, inputs).value.entries)
  {
    hide PrepareDraft, RequireOpen, IsDay, LinesDated, SieLines.Trim, MapLines;
    PreparedStands(l, env, DayOf(date).value, series, text, inputs);
    DateIsDay(date);
  }

  lemma EntrySet(entries: seq<Entry>, i: nat, e: Entry)
    requires EntriesInForm(entries) && i < |entries| && EntryInForm(e)
    ensures EntriesInForm(entries[i := e])
  {
    hide EntryInForm;
  }

  lemma EditedInForm(l: Ledger, env: Registers, id: nat, c: DraftChange)
    requires EntriesInForm(l.entries) && UpdateDraft(l, env, id, c).Ok?
    ensures EntriesInForm(UpdateDraft(l, env, id, c).value.entries)
  {
    hide PrepareDraft, RequireOpen, IsDay, LinesDated, SieLines.Trim, MapLines, TargetYear;
    var e := l.entries[id];
    assert EntryInForm(e);
    var p := PreparedChange(l, env, e, c).value;
    PreparedStands(l, env, if c.date.Some? && DayOf(c.date.value).Some? then DayOf(c.date.value).value else e.date,
                   if c.series.Some? then c.series.value else e.series, if c.text.Some? then c.text.value else e.text,
                   if c.lines.Some? then c.lines.value else Map(e.lines, InputOfLine()));
    if c.date.Some? && DayOf(c.date.value).Some? { DateIsDay(c.date.value); }
    EntrySet(l.entries, id, ChangedDraft(e, c, p));
  }

  // ---------------------------------------------------------------- posting and correcting

  lemma PostedInForm(l: Ledger, env: Option<Registers>, id: nat, expected: Option<int>)
    requires EntriesInForm(l.entries) && Post(l, env, id, expected).Ok?
    ensures EntriesInForm(Post(l, env, id, expected).value.entries)
  {
    hide RequireOpen, IsDay, LinesDated, InCalendar, Postable, ReferenceError, Stands, FreezeWith;
    var e := l.entries[id];
    assert EntryInForm(e);
    if env.Some? {
      FreezingKeepsDates(l, env.value);
      SameDates(e.lines, FreezeWith(l, env.value));
    }
    EntrySet(l.entries, id, PostedEntry(l, env, e));
  }

  lemma ReversedInForm(l: Ledger, id: nat, date: Calendar.Date, series: nat, text: Option<string>)
    requires EntriesInForm(l.entries) && Reverse(l, id, date, series, text).Ok?
    ensures EntriesInForm(Reverse(l, id, date, series, text).value.entries)
  {
    hide Reverse, RequireOpen, InCalendar, Stands, IsDay;
    ServiceLaws.CorrectionMirrors(l, id, date, series, text);
    DateIsDay(date);
    var m, o := Reverse(l, id, date, series, text).value, l.entries[id];
    var c := m.entries[|l.entries|];
    assert EntryInForm(o);
    forall x | x in c.lines && x.date.Some? ensures IsDay(x.date.value) {
      var k :| 0 <= k < |c.lines| && c.lines[k] == x;
      assert o.lines[k] in o.lines;
    }
    assert m.entries == l.entries + [c];
  }

  // ---------------------------------------------------------------- import

  lemma ImportedLine(a: nat, x: SieParser.Transaction)
    ensures SieImport.LineOf(a, x).date.Some? ==> IsDay(SieImport.LineOf(a, x).date.value)
  {
    hide SieImport.IsoDay, SieParser.CentsOf, SieImport.ObjectIn, IsDay;
    if x.date.Some? && SieImport.IsoDay(x.date.value).Some? { IsoIsDay(x.date.value); }
  }

  lemma {:induction false} ImportedLines(l: Ledger, xs: seq<SieParser.Transaction>)
    requires SieImport.LinesOf(l, xs).Ok?
    ensures LinesDated(SieImport.LinesOf(l, xs).value)
  {
    hide IsDay, SieImport.LineOf, FindAccount;
    if |xs| > 0 {
      var x := xs[|xs| - 1];
      ImportedLines(l, xs[..|xs| - 1]);
      ImportedLine(FindAccount(l.accounts, x.account).value, x);
    }
  }

  lemma VouchersInForm(l: Ledger, year: nat, vs: seq<SieParser.Voucher>)
    requires year < |l.years| && EntriesInForm(l.entries) && SieImport.WithVouchers(l, year, vs).Ok?
    ensures EntriesInForm(SieImport.WithVouchers(l, year, vs).value.entries)
  {
    hide SieImport.WithVouchers, SieImport.IsoDay, SieImport.LinesOf, Stands, IsDay, LinesDated;
    SieLedger.VouchersAppend(l, year, vs);
    var m := SieImport.WithVouchers(l, year, vs).value;
    forall e | e in m.entries ensures EntryInForm(e) {
      var i :| 0 <= i < |m.entries| && m.entries[i] == e;
      if i < |l.entries| {
        assert m.entries[..|l.entries|][i] == e && e in l.entries;
      } else {
        var v := vs[i - |l.entries|];
        assert SieLedger.MadeFrom(m, year, m.entries[|l.entries| + (i - |l.entries|)], v);
        IsoIsDay(v.date);
        ImportedLines(m, v.transactions);
      }
    }
  }

  lemma ImportInForm(l: Ledger, r: SieImport.Review, year: nat, doc: SieParser.Document)
    requires EntriesInForm(l.entries) && SieImport.Import(l, r, year, doc).Ok?
    ensures EntriesInForm(SieImport.Import(l, r, year, doc).value.entries)
    ensures |SieImport.Import(l, r, year, doc).value.years| == |l.years|
  {
    hide SieImport.ImportRefusal, SieImport.ActivateAll, SieImport.AddAccounts, SieImport.OpeningRows,
         SieImport.WithVouchers, EntriesInForm, AccountingData.ContextError;
    LedgerSafety.ImportNeedsYear(l, r, year, doc);
    var m := SieImport.WithAccounts(l, r, doc);
    VouchersInForm(SieImport.WithOpenings(m, year, doc).value, year, doc.vouchers);
  }

  // ---------------------------------------------------------------- every run

  lemma StepKeepsEntries(l: Ledger, s: Step)
    requires EntriesInForm(l.entries)
    ensures EntriesInForm(Next(l, s).entries)
  {
    hide EntriesInForm, Do, Journal.Post, Journal.Reverse, Journal.CreateDraft, Journal.UpdateDraft, SieImport.Import,
         SieParser.Parse;
    LedgerSafety.DoIs(l, s);
    if Do(l, s).Ok? {
      match s {
        case NewDraft(env, date, series, text, inputs) => NewDraftInForm(l, env, date, series, text, inputs);
        case EditDraft(env, id, change) => EditedInForm(l, env, id, change);
        case PostDraft(env, id, expected) => PostedInForm(l, Some(env), id, Some(expected));
        case ReverseEntry(id, date, series, text) => ReversedInForm(l, id, date, series, text);
        case ImportSie(review, year, content) => ImportInForm(l, review, year, SieParser.Parse(content));
        case _ => LedgerSafety.OtherStepsSame(l, s);
      }
    }
  }

  lemma ConfirmYears(l: Ledger, env: Registers, id: nat, actor: string, now: int)
    requires OpeningBalances.Confirm(l, env, id, actor, now).Ok?
    ensures |OpeningBalances.Confirm(l, env, id, actor, now).value.years| == |l.years|
  {
    hide OpeningBalances.PlanOf, AccountingData.ContextError, OpeningBalances.FullNet, OpeningBalances.CarriedRows,
         OpeningBalances.HasConfirmed, OpeningBalances.ResultNet, RequireOpen;
  }

  lemma YearCount(l: Ledger, s: Step)
    requires !s.NewYear? && !s.ImportSie? && Do(l, s).Ok?
    ensures |Do(l, s).value.years| == |l.years|
  {
    hide OpeningBalances.Calculate, OpeningBalances.Validation, Registry.AccountRefusal, OpeningBalances.PlanOf,
         OpeningBalances.ConfirmRefusal, AllLocked, HasDraft, Journal.PrepareDraft, Journal.ChangeRefusal,
         Journal.PostRefusal, Journal.ReverseRefusal, Journal.FrozenLines, SeriesPosted, Registry.HasSeries,
         Registry.HasAccount, Catalog.AddRows, Catalog.SwitchOnAll, Catalog.Allowed;
    if s.ConfirmCarry? { ConfirmYears(l, s.env, s.id, s.actor, s.now); }
  }

  lemma GrownYears(l: Ledger, m: Ledger)
    requires Grows(l, m) && |m.years| == |l.years| && YearsInForm(l.years)
    ensures YearsInForm(m.years)
  {
    hide IsDay;
    forall y | y in m.years ensures IsDay(y.first) && IsDay(y.last) {
      var i :| 0 <= i < |m.years| && m.years[i] == y;
      assert l.years[i] in l.years && YearGrows(l.years[i], m.years[i]);
    }
  }

  lemma AddedYear(l: Ledger, s: Step)
    requires s.NewYear? && NamesDays(s) && YearsInForm(l.years) && Do(l, s).Ok?
    ensures YearsInForm(Do(l, s).value.years)
  {
    hide IsDay, Calendar.Tiles, SieLines.Trim;
  }

  lemma StepKeepsYears(l: Ledger, s: Step)
    requires Inv(l) && EntriesInForm(l.entries) && YearsInForm(l.years) && NamesDays(s)
    ensures YearsInForm(Next(l, s).years)
  {
    hide Inv, Grows, Do, EntriesInForm, YearsInForm, NamesDays, SieImport.Import, SieParser.Parse;
    LedgerSafety.NextKeeps(l, s);
    if Do(l, s).Ok? {
      if s.NewYear? {
        AddedYear(l, s);
      } else {
        if s.ImportSie? {
          LedgerSafety.DoIs(l, s);
          ImportInForm(l, s.review, s.year, SieParser.Parse(s.content));
        } else {
          YearCount(l, s);
        }
        GrownYears(l, Next(l, s));
      }
    }
  }

  /** In every run whose years are requested by dates, all days stay dates and every draft stands. */
  lemma {:induction false} RunKeepsForm(l: Ledger, steps: seq<Step>)
    requires Inv(l) && InForm(l) && AllNameDays(steps)
    ensures InForm(Run(l, steps))
    decreases |steps|
  {
    hide Inv, Next, EntriesInForm, YearsInForm, NamesDays;
    if |steps| > 0 {
      var front, s := steps[..|steps| - 1], steps[|steps| - 1];
      RunKeepsForm(l, front);
      LedgerSafety.RunKeeps(l, front);
      StepKeepsEntries(Run(l, front), s);
      StepKeepsYears(Run(l, front), s);
    }
  }

  lemma ReachableInForm(steps: seq<Step>)
    requires AllNameDays(steps)
    ensures InForm(Run(NOTHING, steps))
  {
    hide Run, Inv, AllNameDays;
    LedgerSafety.NothingIsInOrder();
    RunKeepsForm(NOTHING, steps);
  }

  /** Whatever the years, every entry keeps the form. */
  lemma {:induction false} ReachableEntries(steps: seq<Step>)
    ensures EntriesInForm(Run(NOTHING, steps).entries)
    decreases |steps|
  {
    hide Next, EntriesInForm;
    if |steps| > 0 {
      ReachableEntries(steps[..|steps| - 1]);
      StepKeepsEntries(Run(NOTHING, steps[..|steps| - 1]), steps[|steps| - 1]);
    } else {
      NoEntries();
    }
  }

  lemma NoEntries()
    ensures EntriesInForm(NOTHING.entries)
  {
  }

  // ---------------------------------------------------------------- line dates

  predicate DatedIn(y: Year, xs: seq<Line>) {
    forall x :: x in xs && x.date.Some? ==> Holds(y.first, y.last, x.date.value)
  }

  /** The line dates of a voucher that is no correction lie in its year. */
  predicate OwnDates(l: Ledger, e: Entry) {
    e.reverses.None? ==> e.year < |l.years| && DatedIn(l.years[e.year], e.lines)
  }

  predicate AllOwnDates(l: Ledger) { forall e :: e in l.entries ==> OwnDates(l, e) }

  /** A draft has no line dates: no request can name one. */
  lemma DraftIsUndated(e: Entry)
    requires Stands(e)
    ensures forall x :: x in e.lines ==> x.date.None?
  {
    hide MapLines, SieLines.Trim;
    RequestsHaveNoDates(Map(e.lines, InputOfLine()));
  }

  lemma YearOfEntry(l: Ledger, e: Entry)
    requires Inv(l) && e in l.entries
    ensures e.year < |l.years|
  {
    assert EntryOk(l, e);
  }

  lemma StillOwn(l: Ledger, m: Ledger, e: Entry)
    requires Grows(l, m) && OwnDates(l, e)
    ensures OwnDates(m, e)
  {
    if e.reverses.None? { assert YearGrows(l.years[e.year], m.years[e.year]); }
  }

  lemma UndatedOwn(l: Ledger, e: Entry)
    requires e.year < |l.years| && forall x :: x in e.lines ==> x.date.None?
    ensures OwnDates(l, e)
  {
  }

  /** After the steps that write drafts or nothing, every posted voucher was posted before. */
  lemma NothingPosted(l: Ledger, s: Step, e: Entry)
    requires !s.PostDraft? && !s.ReverseEntry? && !s.ImportSie? && e in Next(l, s).entries && e.posted
    ensures e in l.entries
  {
    hide Do, PrepareDraft, RequireOpen, TargetYear, PreparedChange;
    LedgerSafety.DoIs(l, s);
    if Do(l, s).Ok? && !s.NewDraft? && !s.EditDraft? { LedgerSafety.OtherStepsSame(l, s); }
  }

  lemma PostedOwn(l: Ledger, env: Registers, id: nat, expected: int, e: Entry)
    requires Inv(l) && EntriesInForm(l.entries) && Post(l, Some(env), id, Some(expected)).Ok?
    requires e in Post(l, Some(env), id, Some(expected)).value.entries
    ensures e in l.entries || forall x :: x in e.lines ==> x.date.None?
  {
    hide Inv, EntriesInForm, Post, Stands, Postable;
    ServiceLaws.PostOnlyNumbers(l, env, id, expected);
    var m, d := Post(l, Some(env), id, Some(expected)).value, l.entries[id];
    var i :| 0 <= i < |m.entries| && m.entries[i] == e;
    if i == id {
      DraftInForm(l, d);
      DraftIsUndated(d);
      forall x | x in e.lines ensures x.date.None? {
        var k :| 0 <= k < |e.lines| && e.lines[k] == x;
        assert d.lines[k] in d.lines;
      }
    } else {
      assert l.entries[i] in l.entries;
    }
  }

  lemma DraftInForm(l: Ledger, e: Entry)
    requires EntriesInForm(l.entries) && e in l.entries && !e.posted
    ensures Stands(e)
  {
    assert EntryInForm(e);
  }

  lemma ReversedOwn(l: Ledger, id: nat, date: Calendar.Date, series: nat, text: Option<string>, e: Entry)
    requires Reverse(l, id, date, series, text).Ok? && e in Reverse(l, id, date, series, text).value.entries
    ensures e in l.entries || e.reverses.Some?
  {
    hide Reverse, InCalendar, RequireOpen;
    ServiceLaws.CorrectionMirrors(l, id, date, series, text);
    var m := Reverse(l, id, date, series, text).value;
    var i :| 0 <= i < |m.entries| && m.entries[i] == e;
    if i < |l.entries| { assert m.entries[..|l.entries|][i] == e; }
  }

  lemma LineInYear(l: Ledger, year: nat, a: nat, x: SieParser.Transaction)
    requires year < |l.years| && YearOk(l.years[year]) && ImportOutcome.LineFits(l, year, x)
    ensures var d := SieImport.LineOf(a, x).date;
            d.Some? ==> Holds(l.years[year].first, l.years[year].last, d.value)
  {
    hide SieImport.IsoDay, YearOk, SieParser.CentsOf, SieImport.ObjectIn, FindAccount, SieImport.FindPeriod;
    if x.date.Some? {
      var p := SieImport.FindPeriod(l.years[year].periods, SieImport.IsoDay(x.date.value).value);
      ImportSteps.PeriodInYear(l.years[year], p.value);
    }
  }

  lemma {:induction false} LinesInYear(l: Ledger, m: Ledger, year: nat, xs: seq<SieParser.Transaction>)
    requires year < |l.years| && YearOk(l.years[year]) && forall x :: x in xs ==> ImportOutcome.LineFits(l, year, x)
    requires SieImport.LinesOf(m, xs).Ok?
    ensures DatedIn(l.years[year], SieImport.LinesOf(m, xs).value)
  {
    hide YearOk, ImportOutcome.LineFits, SieImport.LineOf, FindAccount;
    if |xs| > 0 {
      var x := xs[|xs| - 1];
      LinesInYear(l, m, year, xs[..|xs| - 1]);
      LineInYear(l, year, FindAccount(m.accounts, x.account).value, x);
    }
  }

  lemma VouchersOwn(l: Ledger, year: nat, vs: seq<SieParser.Voucher>, e: Entry)
    requires year < |l.years| && YearOk(l.years[year]) && SieImport.WithVouchers(l, year, vs).Ok?
    requires e in SieImport.WithVouchers(l, year, vs).value.entries
    ensures e in l.entries || (e.year == year && DatedIn(l.years[year], e.lines))
  {
    hide SieImport.WithVouchers, YearOk, SieImport.IsoDay, SieImport.LinesOf, ImportOutcome.LineFits, DatedIn,
         ImportOutcome.DayOpen;
    SieLedger.VouchersAppend(l, year, vs);
    ImportOutcome.VouchersSucceedIff(l, year, vs);
    var m := SieImport.WithVouchers(l, year, vs).value;
    var i :| 0 <= i < |m.entries| && m.entries[i] == e;
    if i < |l.entries| {
      assert m.entries[..|l.entries|][i] == e;
    } else {
      var v := vs[i - |l.entries|];
      assert SieLedger.MadeFrom(m, year, m.entries[|l.entries| + (i - |l.entries|)], v);
      assert v in vs && ImportOutcome.VoucherFits(l, year, v);
      LinesInYear(l, m, year, v.transactions);
    }
  }

  /** Years with the same days and periods. */
  predicate SameDays(y: Year, z: Year) {
    y.first == z.first && y.last == z.last && y.closed == z.closed && y.periods == z.periods
  }

  lemma OpeningsKeepDays(l: Ledger, year: nat, doc: SieParser.Document)
    requires year < |l.years| && SieImport.WithOpenings(l, year, doc).Ok?
    ensures var m := SieImport.WithOpenings(l, year, doc).value;
            m.entries == l.entries && |m.years| == |l.years| && SameDays(l.years[year], m.years[year])
  {
    hide SieImport.OpeningRows, AccountingData.ContextError;
  }

  lemma SameDaysOk(y: Year, z: Year)
    requires SameDays(y, z) && YearOk(y)
    ensures YearOk(z)
  {
  }

  lemma YearInOrder(l: Ledger, year: nat)
    requires Inv(l) && year < |l.years|
    ensures YearOk(l.years[year])
  {
    hide YearOk;
    assert l.years[year] in l.years;
  }

  lemma ImportParts(l: Ledger, r: SieImport.Review, year: nat, doc: SieParser.Document)
    requires SieImport.Import(l, r, year, doc).Ok?
    ensures year < |l.years| && SieImport.WithOpenings(SieImport.WithAccounts(l, r, doc), year, doc).Ok?
    ensures SieImport.WithAccounts(l, r, doc).years == l.years && SieImport.WithAccounts(l, r, doc).entries == l.entries
    ensures SieImport.Import(l, r, year, doc)
            == SieImport.WithVouchers(SieImport.WithOpenings(SieImport.WithAccounts(l, r, doc), year, doc).value,
                                      year, doc.vouchers)
  {
    hide SieImport.ImportRefusal, SieImport.ActivateAll, SieImport.AddAccounts, SieImport.WithOpenings,
         SieImport.WithVouchers;
    LedgerSafety.ImportNeedsYear(l, r, year, doc);
  }

  lemma ImportedOwn(l: Ledger, r: SieImport.Review, year: nat, doc: SieParser.Document, e: Entry)
    requires Inv(l) && SieImport.Import(l, r, year, doc).Ok? && e in SieImport.Import(l, r, year, doc).value.entries
    ensures e in l.entries || (e.year == year < |l.years| && DatedIn(l.years[year], e.lines))
  {
    hide *;
    ImportParts(l, r, year, doc);
    var m := SieImport.WithAccounts(l, r, doc);
    OpeningsKeepDays(m, year, doc);
    YearInOrder(l, year);
    var n := SieImport.WithOpenings(m, year, doc).value;
    SameDaysOk(l.years[year], n.years[year]);
    VouchersOwn(n, year, doc.vouchers, e);
    SameDated(l.years[year], n.years[year], e.lines);
  }

  lemma SameDated(y: Year, z: Year, xs: seq<Line>)
    requires SameDays(y, z)
    ensures DatedIn(y, xs) <==> DatedIn(z, xs)
  {
  }

  /** Every voucher after a step was there before, is undated, is a correction, or is dated in its year. */
  lemma NewIsOwn(l: Ledger, s: Step, e: Entry)
    requires Inv(l) && EntriesInForm(l.entries) && e in Next(l, s).entries && e.posted
    ensures e in l.entries || e.reverses.Some? || (forall x :: x in e.lines ==> x.date.None?)
            || (e.year < |l.years| && DatedIn(l.years[e.year], e.lines))
  {
    hide Inv, EntriesInForm, Do, DatedIn, Journal.Post, Journal.Reverse, SieImport.Import, SieParser.Parse;
    LedgerSafety.DoIs(l, s);
    if s.PostDraft? || s.ReverseEntry? || s.ImportSie? {
      if Do(l, s).Ok? {
        match s {
          case PostDraft(env, id, expected) => PostedOwn(l, env, id, expected, e);
          case ReverseEntry(id, date, series, text) => ReversedOwn(l, id, date, series, text, e);
          case ImportSie(review, year, content) => ImportedOwn(l, review, year, SieParser.Parse(content), e);
          case _ =>
        }
      }
    } else {
      NothingPosted(l, s, e);
    }
  }

  lemma StepKeepsOwn(l: Ledger, s: Step)
    requires Inv(l) && EntriesInForm(l.entries) && AllOwnDates(l)
    ensures AllOwnDates(Next(l, s))
  {
    var m := Next(l, s);
    forall e | e in m.entries ensures OwnDates(m, e) {
      hide *;
      LedgerSafety.NextKeeps(l, s);
      YearOfEntry(m, e);
      if !e.posted {
        StepKeepsEntries(l, s);
        DraftInForm(m, e);
        DraftIsUndated(e);
        UndatedOwn(m, e);
      } else {
        NewIsOwn(l, s, e);
        if e in l.entries { OldOwn(l, e); StillOwn(l, m, e); }
        else if e.reverses.Some? { CorrectionsFree(m, e); }
        else if e.year < |l.years| && DatedIn(l.years[e.year], e.lines) { OwnBecause(l, e); StillOwn(l, m, e); }
        else { UndatedOwn(m, e); }
      }
    }
  }

  lemma OldOwn(l: Ledger, e: Entry)
    requires AllOwnDates(l) && e in l.entries
    ensures OwnDates(l, e)
  {
  }

  lemma CorrectionsFree(l: Ledger, e: Entry)
    requires e.reverses.Some?
    ensures OwnDates(l, e)
  {
  }

  lemma OwnBecause(l: Ledger, e: Entry)
    requires e.year < |l.years| && DatedIn(l.years[e.year], e.lines)
    ensures OwnDates(l, e)
  {
  }

  /** In every reachable ledger the line dates of a voucher lie in its year, unless it is a correction. */
  lemma {:induction false} ReachableOwnDates(steps: seq<Step>)
    ensures AllOwnDates(Run(NOTHING, steps))
    decreases |steps|
  {
    hide Next, Inv, AllOwnDates, EntriesInForm;
    if |steps| > 0 {
      var front := steps[..|steps| - 1];
      ReachableOwnDates(front);
      LedgerSafety.ReachableInOrder(front);
      ReachableEntries(front);
      StepKeepsOwn(Run(NOTHING, front), steps[|steps| - 1]);
    } else {
      NothingOwn();
    }
  }

  lemma NothingOwn()
    ensures AllOwnDates(NOTHING)
  {
  }

  // ---------------------------------------------------------------- taking a change back

  lemma DraftStands(steps: seq<Step>, id: nat)
    requires id < |Run(NOTHING, steps).entries| && !Run(NOTHING, steps).entries[id].posted
    ensures Stands(Run(NOTHING, steps).entries[id])
  {
    hide Run, Stands, IsDay;
    ReachableEntries(steps);
    assert EntryInForm(Run(NOTHING, steps).entries[id]);
  }

  lemma ChangedIsDraft(l: Ledger, env: Registers, id: nat, c: DraftChange)
    requires UpdateDraft(l, env, id, c).Ok?
    ensures id < |l.entries| && !l.entries[id].posted
  {
    hide TargetYear, RequireOpen, PreparedChange;
  }

  /** In every reachable ledger a change of a draft can be taken back: requesting the former content under the date of
      the draft restores the ledger but for the version, which is two higher. */
  lemma ReachableChangeUndone(steps: seq<Step>, env: Registers, env': Registers, id: nat, c: DraftChange,
        date: Calendar.Date, m: Ledger, n: Ledger)
    requires id < |Run(NOTHING, steps).entries| && DayOf(date) == Some(Run(NOTHING, steps).entries[id].date)
    requires UpdateDraft(Run(NOTHING, steps), env, id, c) == Ok(m)
    requires UpdateDraft(m, env', id, ServiceLaws.Back(Run(NOTHING, steps).entries[id], date)) == Ok(n)
    ensures var l := Run(NOTHING, steps);
            n == WithEntry(l, id, l.entries[id].(version := l.entries[id].version + 2))
  {
    hide *;
    var l := Run(NOTHING, steps);
    ChangedIsDraft(l, env, id, c);
    DraftStands(steps, id);
    StandingParts(l.entries[id]);
    LedgerSafety.ReachableInOrder(steps);
    ServiceLaws.OwnDay(l, id);
    ServiceLaws.ChangeUndone(l, env, env', id, c, date, Map(l.entries[id].lines, InputOfLine()), m, n);
  }

  lemma StandingParts(e: Entry)
    requires Stands(e)
    ensures SieLines.Trim(e.text) == e.text && MapLines(Map(e.lines, InputOfLine())) == Ok(e.lines)
  {
  }
}
