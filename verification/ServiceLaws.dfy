/** What single requests mean: what they store, what they leave alone, and how they are taken back. */
module ServiceLaws {
  import opened Common
  import opened LedgerModel
  import opened Journal
  import opened LedgerMachine
  import opened SieLines
  import opened SieTokens
  import AccountingData
  import Calendar
  import FiscalYears
  import LedgerSafety
  import OpeningBalances
  import Vat

  // ---------------------------------------------------------------- drafts

  /** A stored line has the amounts, text and codes of the requested one, and exactly one positive side; it has no date
      and no VAT data yet, and a line with a VAT code but no role is unclassified. */
  predicate Stores(x: Line, i: LineInput) {
    && x.account == i.account && x.debit == i.debit && x.credit == i.credit
    && x.debit >= 0 && x.credit >= 0 && (x.debit > 0 <==> x.credit == 0)
    && x.project == i.project && x.centre == i.centre && x.vatCode == i.vat && x.group == i.group
    && x.text == (if i.text.Some? && Trim(i.text.value) != "" then Some(Trim(i.text.value)) else None)
    && x.date.None? && x.stored == Vat.Absent
    && x.role == (if i.role.Some? then i.role.value else if i.vat.Some? then Vat.Unclassified else Vat.NoRole)
  }

  lemma {:induction false} LinesAreTheRequest(inputs: seq<LineInput>)
    requires MapLines(inputs).Ok?
    ensures |MapLines(inputs).value| == |inputs|
    ensures forall k :: 0 <= k < |inputs| ==> Stores(MapLines(inputs).value[k], inputs[k])
  {
    hide Trim;
    if |inputs| > 0 { LinesAreTheRequest(inputs[..|inputs| - 1]); }
  }

  /** A created draft is one more voucher, in the open year and period of its date, under an active series of
      that year, with the requested lines; nothing else changes. */
  lemma DraftHoldsTheRequest(l: Ledger, env: Registers, date: Calendar.Date, series: nat, text: string,
        inputs: seq<LineInput>)
    requires CreateDraft(l, env, date, series, text, inputs).Ok?
    ensures var m := CreateDraft(l, env, date, series, text, inputs).value;
            && |m.entries| == |l.entries| + 1 && m == l.(entries := m.entries) && m.entries[..|l.entries|] == l.entries
            && var e := m.entries[|l.entries|];
               && !e.posted && e.number.None? && e.reverses.None? && e.text != ""
               && DayOf(date) == Some(e.date) && InCalendar(l, e) && RequireOpen(l, e.year, Some(e.period)).None?
               && e.series == series && SeriesOpen(l, series, e.year)
               && |e.lines| == |inputs| >= 1 && forall k :: 0 <= k < |inputs| ==>
                  Stores(e.lines[k], inputs[k]) && AccountsUsable(l, [inputs[k].account])
  {
    hide Trim, MapLines, RequireOpen, AccountsEligible, CodesKnown, Stores, Resolve;
    LinesAreTheRequest(inputs);
    forall k | 0 <= k < |inputs| ensures AccountsUsable(l, [inputs[k].account]) { InputUsable(l, inputs, k); }
  }

  lemma InputUsable(l: Ledger, inputs: seq<LineInput>, k: nat)
    requires AccountsUsable(l, Map(inputs, AccountOfInput())) && k < |inputs|
    ensures AccountsUsable(l, [inputs[k].account])
  {
    var accounts := Map(inputs, AccountOfInput());
    assert accounts[k] == inputs[k].account && accounts[k] in accounts;
  }

  lemma {:induction false} StartIsNotSpace(s: string)
    ensures TrimStart(s) == "" || !IsSpace(TrimStart(s)[0])
  {
    hide IsSpace;
    if s != "" && IsSpace(s[0]) { StartIsNotSpace(s[1..]); }
  }

  lemma {:induction false} EndIsNotSpace(s: string)
    ensures TrimEnd(s) <= s && (TrimEnd(s) == "" || !IsSpace(TrimEnd(s)[|TrimEnd(s)| - 1]))
  {
    hide IsSpace;
    if s != "" && IsSpace(s[|s| - 1]) { EndIsNotSpace(s[..|s| - 1]); }
  }

  lemma TrimTwice(s: string)
    ensures Trim(Trim(s)) == Trim(s)
  {
    StartIsNotSpace(s);
    EndIsNotSpace(TrimStart(s));
    hide IsSpace;
  }

  lemma TextStands(o: Option<string>)
    ensures TrimmedText(TrimmedText(o)) == TrimmedText(o)
  {
    if o.Some? { TrimTwice(o.value); }
    hide Trim;
  }

  /** Stored lines, requested again, are stored as they are. */
  lemma {:induction false} StoredLinesStand(inputs: seq<LineInput>)
    requires MapLines(inputs).Ok?
    ensures MapLines(Map(MapLines(inputs).value, InputOfLine())) == MapLines(inputs)
  {
    hide TrimmedText;
    if |inputs| > 0 {
      var n := |inputs| - 1;
      var front, i := MapLines(inputs[..n]).value, inputs[n];
      StoredLinesStand(inputs[..n]);
      var x := PrepareLine(i).value;
      TextStands(i.text);
      assert MapLines(inputs).value == front + [x];
      MapSnoc(front, x, InputOfLine());
      hide Map;
      var again := Map(front + [x], InputOfLine());
      assert again[..|again| - 1] == Map(front, InputOfLine());
      assert PrepareLine(InputOfLine()(x)) == Ok(x);
    }
  }

  /** The request that takes a change of a draft back. */
  function Back(e: Entry, date: Calendar.Date): DraftChange {
    DraftChange(e.version + 1, Some(date), Some(e.series), Some(e.text), Some(Map(e.lines, InputOfLine())))
  }

  /** The ledgers differ in one voucher at most. */
  predicate SameBut(l: Ledger, m: Ledger, id: nat) {
    && |m.entries| == |l.entries| && m == l.(entries := m.entries)
    && forall i :: 0 <= i < |l.entries| && i != id ==> m.entries[i] == l.entries[i]
  }

  lemma UpdateOnly(l: Ledger, env: Registers, id: nat, c: DraftChange, m: Ledger)
    requires UpdateDraft(l, env, id, c) == Ok(m)
    ensures SameBut(l, m, id) && id < |l.entries| == |m.entries| && m.years == l.years
    ensures PreparedChange(l, env, l.entries[id], c).Ok?
    ensures m.entries[id] == ChangedDraft(l.entries[id], c, PreparedChange(l, env, l.entries[id], c).value)
  {
    hide PreparedChange, RequireOpen, TargetYear;
  }

  lemma BackPrepares(l: Ledger, env: Registers, e: Entry, f: Entry, date: Calendar.Date, inputs: seq<LineInput>)
    requires DayOf(date) == Some(e.date) && Trim(e.text) == e.text && MapLines(inputs) == Ok(e.lines)
    requires PreparedChange(l, env, f, Back(e, date)).Ok? && Resolve(l, e.date) == Ok((e.year, e.period))
    ensures PreparedChange(l, env, f, Back(e, date)).value
            == Prepared(e.year, e.period, e.date, e.series, e.text, e.lines)
  {
    StoredLinesStand(inputs);
    hide Trim, MapLines, AccountsEligible, CodesKnown, Resolve, AccountsUsable, Map;
  }

  lemma BackRestores(e: Entry, c: DraftChange, p: Prepared, date: Calendar.Date, q: Prepared)
    requires q == Prepared(e.year, e.period, e.date, e.series, e.text, e.lines)
    ensures ChangedDraft(ChangedDraft(e, c, p), Back(e, date), q) == e.(version := e.version + 2)
  {
  }

  /** A change of a draft can be taken back: the second change restores the voucher but for its version. In a
      ledger in order every voucher is in the year and period of its date, see OwnDay. */
  lemma {:induction false} ChangeUndone(l: Ledger, env: Registers, env': Registers, id: nat, c: DraftChange,
        date: Calendar.Date, inputs: seq<LineInput>, m: Ledger, n: Ledger)
    requires id < |l.entries| && UpdateDraft(l, env, id, c) == Ok(m)
    requires UpdateDraft(m, env', id, Back(l.entries[id], date)) == Ok(n)
    requires DayOf(date) == Some(l.entries[id].date) && Trim(l.entries[id].text) == l.entries[id].text
    requires MapLines(inputs) == Ok(l.entries[id].lines)
    requires Resolve(l, l.entries[id].date) == Ok((l.entries[id].year, l.entries[id].period))
    ensures n == WithEntry(l, id, l.entries[id].(version := l.entries[id].version + 2))
  {
    var e := l.entries[id];
    hide *;
    UpdateOnly(l, env, id, c, m);
    UpdateOnly(m, env', id, Back(e, date), n);
    SameResolve(l, m, e.date);
    BackPrepares(m, env', e, m.entries[id], date, inputs);
    var p, q := PreparedChange(l, env, e, c).value, PreparedChange(m, env', m.entries[id], Back(e, date)).value;
    BackRestores(e, c, p, date, q);
    Restored(l, m, id, e.(version := e.version + 2), n);
  }

  lemma InItsYear(l: Ledger, i: nat)
    requires Inv(l) && i < |l.entries|
    ensures InCalendar(l, l.entries[i])
  {
    hide YearsOk, YearsApart, NoClosedDrafts, EntriesApart, SeriesOk, AccountsOk, CarriesOk, CorrectionOk, LineOk,
         Postable, InCalendar;
    assert EntryOk(l, l.entries[i]);
  }

  /** The day of a voucher resolves to its own year and period. */
  lemma OwnDay(l: Ledger, i: nat)
    requires Inv(l) && i < |l.entries|
    ensures Resolve(l, l.entries[i].date) == Ok((l.entries[i].year, l.entries[i].period))
  {
    hide Inv, Resolve;
    InItsYear(l, i);
    LedgerSafety.ResolveFindsTheDay(l, l.entries[i].date, l.entries[i].year);
  }

  lemma SameResolve(l: Ledger, m: Ledger, day: int)
    requires m.years == l.years
    ensures Resolve(m, day) == Resolve(l, day)
  {
  }

  /** Two writes to the same voucher leave what the second one wrote. */
  lemma Restored(l: Ledger, m: Ledger, id: nat, e: Entry, n: Ledger)
    requires SameBut(l, m, id) && SameBut(m, n, id) && id < |l.entries| == |n.entries| && n.entries[id] == e
    ensures n == WithEntry(l, id, e)
  {
  }

  // ---------------------------------------------------------------- posting and correcting

  predicate OnlyCounter(l: Ledger, m: Ledger, s: nat) {
    && s < |l.series| == |m.series| && m.series[s] == l.series[s].(next := l.series[s].next + 1)
    && (forall t :: 0 <= t < |l.series| && t != s ==> m.series[t] == l.series[t])
    && m.years == l.years && m.accounts == l.accounts && m.carries == l.carries
  }

  /** Posting gives the draft the next number of its series and freezes its VAT data; it changes no amount, no
      other voucher and no other counter. */
  lemma PostOnlyNumbers(l: Ledger, env: Registers, id: nat, expected: int)
    requires Post(l, Some(env), id, Some(expected)).Ok?
    ensures id < |l.entries| && OnlyCounter(l, Post(l, Some(env), id, Some(expected)).value, l.entries[id].series)
    ensures var m, e := Post(l, Some(env), id, Some(expected)).value, l.entries[id];
            && |m.entries| == |l.entries|
               && (forall i :: 0 <= i < |l.entries| && i != id ==> m.entries[i] == l.entries[i])
            && !e.posted && Postable(e.lines)
            && m.entries[id]
               == e.(posted := true, version := expected + 1, number := Some(l.series[e.series].next),
                 lines := m.entries[id].lines)
            && |m.entries[id].lines| == |e.lines|
            && forall k :: 0 <= k < |e.lines| ==>
               m.entries[id].lines[k] == e.lines[k].(stored := m.entries[id].lines[k].stored)
  {
    hide RequireOpen, ReferenceError, Postable, InCalendar;
  }

  /** A correction is one more posted voucher under the next number of the chosen series: every line of the
      original with debit and credit exchanged. Neither voucher can be corrected afterwards. */
  lemma CorrectionMirrors(l: Ledger, id: nat, date: Calendar.Date, series: nat, text: Option<string>)
    requires Reverse(l, id, date, series, text).Ok?
    ensures OnlyCounter(l, Reverse(l, id, date, series, text).value, series) && id < |l.entries|
    ensures var m, o := Reverse(l, id, date, series, text).value, l.entries[id];
            && |m.entries| == |l.entries| + 1 && m.entries[..|l.entries|] == l.entries
            && var c := m.entries[|l.entries|];
               && c.posted && c.reverses == Some(id) && c.series == series && c.number == Some(l.series[series].next)
               && DayOf(date) == Some(c.date) && InCalendar(l, c) && RequireOpen(l, c.year, Some(c.period)).None?
               && |c.lines| == |o.lines|
               && forall k :: 0 <= k < |o.lines| ==>
                  c.lines[k] == o.lines[k].(debit := o.lines[k].credit, credit := o.lines[k].debit)
  {
    hide RequireOpen, Postable, Resolve, GeneratedText, Trim, Corrected;
  }

  lemma {:induction false} CorrectedOnce(l: Ledger, id: nat, date: Calendar.Date, series: nat, text: Option<string>,
                      date': Calendar.Date, series': nat, text': Option<string>)
    requires Reverse(l, id, date, series, text).Ok?
    ensures Reverse(Reverse(l, id, date, series, text).value, id, date', series', text').Err?
    ensures Reverse(Reverse(l, id, date, series, text).value, |l.entries|, date', series', text').Err?
  {
    hide Reverse, RequireOpen, InCalendar;
    CorrectionMirrors(l, id, date, series, text);
    var m := Reverse(l, id, date, series, text).value;
    assert m.entries[|l.entries|] in m.entries;
    NoCorrection(m, id, date', series', text');
    NoCorrection(m, |l.entries|, date', series', text');
  }

  lemma NoCorrection(l: Ledger, id: nat, date: Calendar.Date, series: nat, text: Option<string>)
    requires id < |l.entries| && (Corrected(l, id) || l.entries[id].reverses.Some?)
    ensures Reverse(l, id, date, series, text).Err?
  {
    hide RequireOpen, Postable, Resolve, GeneratedText, Trim, Corrected, Post;
  }

  // ---------------------------------------------------------------- period locks

  /** Setting a period back to its former status restores the ledger. */
  lemma LockUndone(l: Ledger, year: nat, period: nat, lock: bool)
    requires FiscalYears.SetPeriodStatus(l, year, period, lock).Ok?
    ensures year < |l.years| && period < |l.years[year].periods|
    ensures FiscalYears.SetPeriodStatus(FiscalYears.SetPeriodStatus(l, year, period, lock).value, year, period,
            l.years[year].periods[period].locked) == Ok(l)
  {
    var m := FiscalYears.SetPeriodStatus(l, year, period, lock).value;
    var n := FiscalYears.SetPeriodStatus(m, year, period, l.years[year].periods[period].locked).value;
    assert n.years[year].periods == l.years[year].periods;
    assert n.years == l.years;
  }

  // ---------------------------------------------------------------- opening balances

  /** Leaving out zero rows loses no balance. */
  lemma SavedOpensAsRequested(l: Ledger, env: Registers, year: nat, seen: OpeningBalances.Print, rows: seq<IbRow>,
        a: nat)
    requires OpeningBalances.Save(l, env, year, seen, rows).Ok?
    ensures year < |l.years| && year < |OpeningBalances.Save(l, env, year, seen, rows).value.years|
    ensures AccountingData.OpeningNet(OpeningBalances.Save(l, env, year, seen, rows).value.years[year].ib, a)
            == AccountingData.OpeningNet(rows, a)
  {
    SumFilter(rows, OpeningBalances.NonZero(), AccountingData.IbOn(a));
    SumExt(rows, Where(OpeningBalances.NonZero(), AccountingData.IbOn(a)), AccountingData.IbOn(a));
    hide SumOf, OpeningBalances.Validation, OpeningBalances.WriteRefusal;
  }

  lemma StillWritable(l: Ledger, year: nat, rows: seq<IbRow>)
    requires OpeningBalances.WriteRefusal(l, year).None?
    ensures year < |l.years| && OpeningBalances.WriteRefusal(OpeningBalances.WithIb(l, year, rows), year).None?
  {
  }

  /** After a save, another request that saw the same rows is in conflict, unless there were no rows before and
      there are none after: no save is overwritten unseen. */
  lemma SecondSaveConflictsIff(l: Ledger, env: Registers, year: nat, seen: OpeningBalances.Print, rows: seq<IbRow>,
        env': Registers, rows': seq<IbRow>)
    requires OpeningBalances.Save(l, env, year, seen, rows).Ok?
    ensures year < |l.years|
    ensures OpeningBalances.Save(OpeningBalances.Save(l, env, year, seen, rows).value, env', year, seen, rows')
            == Err(IbConflict)
            <==> l.years[year].ib != [] || exists r :: r in rows && (r.debit != 0 || r.credit != 0)
  {
    StillWritable(l, year, Filter(rows, OpeningBalances.NonZero()));
    NotConflict(OpeningBalances.Save(l, env, year, seen, rows).value, env', rows');
    var kept := Filter(rows, OpeningBalances.NonZero());
    assert kept != [] ==> kept[0] in kept;
    hide OpeningBalances.Validation, OpeningBalances.WriteRefusal;
  }

  lemma {:induction false} NotConflict(l: Ledger, env: Registers, rows: seq<IbRow>)
    ensures OpeningBalances.Validation(l, env, rows) != Some(IbConflict)
    ensures OpeningBalances.RowsRefusal(l, rows) != Some(IbConflict)
  {
    if |rows| > 0 { NotConflict(l, env, rows[..|rows| - 1]); }
  }

  /** A confirmed carry-forward bars every other one into the same year, itself included. */
  lemma CarriedOnce(l: Ledger, env: Registers, id: nat, actor: string, now: int, env': Registers, id': nat,
        actor': string, now': int)
    requires OpeningBalances.Confirm(l, env, id, actor, now).Ok? && id < |l.carries| && id' < |l.carries|
    requires l.carries[id'].target == l.carries[id].target
    ensures OpeningBalances.Confirm(OpeningBalances.Confirm(l, env, id, actor, now).value, env', id', actor', now').Err?
  {
    hide OpeningBalances.ConfirmRefusal, OpeningBalances.PlanOf;
    var m := OpeningBalances.Confirm(l, env, id, actor, now).value;
    assert m.carries[id] in m.carries;
    assert OpeningBalances.HasConfirmed(m, l.carries[id].target);
    BarredByConfirmed(m, env', id', actor', now');
  }

  lemma BarredByConfirmed(l: Ledger, env: Registers, id: nat, actor: string, now: int)
    requires id < |l.carries| && OpeningBalances.HasConfirmed(l, l.carries[id].target)
    ensures OpeningBalances.ConfirmRefusal(l, env, id, actor, now).Some?
  {
    hide OpeningBalances.PlanOf, AccountingData.ContextError, OpeningBalances.Validation, OpeningBalances.FullNet,
         OpeningBalances.WriteRefusal, OpeningBalances.HasConfirmed;
  }
}
