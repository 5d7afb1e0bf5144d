/** Single updates of the tables, and when they keep the ledger in order. */
module LedgerUpdates {
  import opened Common
  import opened LedgerModel
  import opened LedgerMachine
  import AccountingData
  import FiscalYears

  lemma EntriesStayOk(l: Ledger, m: Ledger)
    requires Grows(l, m) && EntriesOk(l) && |m.entries| == |l.entries|
    requires forall i :: 0 <= i < |l.entries| ==> m.entries[i] == l.entries[i] || EntryOk(m, m.entries[i])
    ensures EntriesOk(m)
  {
    hide EntryOk, Grows;
    forall i | 0 <= i < |m.entries| ensures EntryOk(m, m.entries[i]) {
      if m.entries[i] == l.entries[i] { EntryStaysOk(l, m, l.entries[i]); }
    }
  }

  // ---------------------------------------------------------------- entries

  predicate FitsIn(entries: seq<Entry>, i: nat, e: Entry) {
    forall j :: 0 <= j < |entries| && j != i ==>
      !SameNumber(entries[j], e) && (e.reverses.Some? ==> entries[j].reverses != e.reverses)
  }

  lemma AddEntryGrows(l: Ledger, e: Entry)
    ensures Grows(l, l.(entries := l.entries + [e]))
  {
  }

  lemma AddEntryKeeps(l: Ledger, e: Entry)
    requires Inv(l) && EntryOk(l, e) && FitsIn(l.entries, |l.entries|, e)
    requires !e.posted ==> !l.years[e.year].closed
    ensures Inv(l.(entries := l.entries + [e])) && Grows(l, l.(entries := l.entries + [e]))
  {
    var m := l.(entries := l.entries + [e]);
    AddEntryGrows(l, e);
    EntryStaysOk(l, m, e);
    forall i | 0 <= i < |l.entries| ensures EntryOk(m, l.entries[i]) { EntryStaysOk(l, m, l.entries[i]); }
    SameIbs(l, m);
    hide EntryOk, Grows, YearOk, IbOk;
    assert EntriesApart(m.entries) by { hide AccountsOk, CarriesOk, SeriesOk; }
  }

  lemma SameIbs(l: Ledger, m: Ledger)
    requires YearsOk(l) && m.years == l.years && m.accounts == l.accounts
    ensures YearsOk(m)
  {
    forall y | 0 <= y < |m.years| ensures YearOk(m.years[y]) && IbOk(m, m.years[y].ib) {
      SameIb(l, m, l.years[y].ib);
    }
  }

  /** Opening rows only look at which accounts exist and of what kind they are. */
  lemma SameIb(l: Ledger, m: Ledger, ib: seq<IbRow>)
    requires IbOk(l, ib)
    requires forall r :: r in ib && r.account < |l.accounts| ==>
             r.account < |m.accounts| && m.accounts[r.account].kind == l.accounts[r.account].kind
    ensures IbOk(m, ib)
  {
    forall i | 0 <= i < |ib| ensures AccountingData.RowSound(m, ib[..i], ib[i]) {
      assert AccountingData.RowSound(l, ib[..i], ib[i]) && ib[i] in ib;
    }
    hide SumOf;
  }

  lemma SetDraftGrows(l: Ledger, i: nat, e: Entry)
    requires i < |l.entries| && !l.entries[i].posted && l.entries[i].version <= e.version
    requires e.reverses == l.entries[i].reverses
    ensures Grows(l, WithEntry(l, i, e))
  {
  }

  lemma {:induction false} SetDraftKeeps(l: Ledger, i: nat, e: Entry)
    requires Inv(l) && i < |l.entries| && !l.entries[i].posted && l.entries[i].version <= e.version
    requires e.reverses == l.entries[i].reverses
    requires EntryOk(l, e) && FitsIn(l.entries, i, e)
    requires !e.posted ==> !l.years[e.year].closed
    ensures Inv(WithEntry(l, i, e)) && Grows(l, WithEntry(l, i, e))
  {
    var m := WithEntry(l, i, e);
    SetDraftGrows(l, i, e);
    EntryStaysOk(l, m, e);
    forall j | 0 <= j < |l.entries| ensures EntryOk(m, m.entries[j]) { if j != i { EntryStaysOk(l, m, l.entries[j]); } }
    SameIbs(l, m);
    hide EntryOk, Grows, YearOk, IbOk;
    assert EntriesApart(m.entries) by { hide AccountsOk, CarriesOk, SeriesOk; }
  }

  // ---------------------------------------------------------------- series

  lemma SetSeriesKeeps(l: Ledger, s: nat, x: Series)
    requires Inv(l) && s < |l.series| && SeriesGrows(l.series[s], x)
    requires forall t :: 0 <= t < |l.series| && t != s ==> l.series[t].year != x.year || l.series[t].code != x.code
    ensures Inv(WithSeries(l, s, x)) && Grows(l, WithSeries(l, s, x))
  {
    var m := WithSeries(l, s, x);
    SetSeriesGrows(l, s, x);
    EntriesStayOk(l, m);
    SameIbs(l, m);
    hide EntryOk, Grows, YearOk, IbOk, SameNumber;
  }

  lemma SetSeriesGrows(l: Ledger, s: nat, x: Series)
    requires s < |l.series| && SeriesGrows(l.series[s], x)
    ensures Grows(l, WithSeries(l, s, x))
  {
  }

  lemma AddSeriesKeeps(l: Ledger, x: Series)
    requires Inv(l) && x.year < |l.years| && x.next >= 1
    requires forall t :: 0 <= t < |l.series| ==> l.series[t].year != x.year || l.series[t].code != x.code
    ensures Inv(l.(series := l.series + [x])) && Grows(l, l.(series := l.series + [x]))
  {
    var m := l.(series := l.series + [x]);
    assert Grows(l, m);
    EntriesStayOk(l, m);
    SameIbs(l, m);
    hide EntryOk, Grows, YearOk, IbOk, SameNumber;
  }

  // ---------------------------------------------------------------- years

  lemma SetYearGrows(l: Ledger, y: nat, year: Year)
    requires y < |l.years| && YearGrows(l.years[y], year)
    ensures Grows(l, WithYear(l, y, year))
  {
  }

  /** Period locks, closing and opening balances of an open year. */
  lemma SetYearKeeps(l: Ledger, y: nat, year: Year)
    requires Inv(l) && y < |l.years| && YearGrows(l.years[y], year) && YearOk(year) && IbOk(l, year.ib)
    requires year.closed ==> !HasDraft(l, y)
    ensures Inv(WithYear(l, y, year)) && Grows(l, WithYear(l, y, year))
  {
    var m := WithYear(l, y, year);
    SetYearGrows(l, y, year);
    EntriesStayOk(l, m);
    forall z | 0 <= z < |m.years| ensures YearOk(m.years[z]) && IbOk(m, m.years[z].ib) { SameIb(l, m, m.years[z].ib); }
    hide EntryOk, Grows, YearOk, IbOk, SameNumber;
    assert NoClosedDrafts(m);
    assert YearsApart(m.years);
  }

  lemma AddYearKeeps(l: Ledger, year: Year)
    requires Inv(l) && YearOk(year) && IbOk(l, year.ib) && !year.closed
    requires forall y :: y in l.years ==> !FiscalYears.Overlaps(y, year.first, year.last)
    ensures Inv(l.(years := l.years + [year])) && Grows(l, l.(years := l.years + [year]))
  {
    var m := l.(years := l.years + [year]);
    assert Grows(l, m);
    EntriesStayOk(l, m);
    forall z | 0 <= z < |m.years| ensures YearOk(m.years[z]) && IbOk(m, m.years[z].ib) { SameIb(l, m, m.years[z].ib); }
    hide EntryOk, Grows, YearOk, IbOk, SameNumber;
    forall i, j | 0 <= i < j < |m.years| ensures !FiscalYears.Overlaps(m.years[i], m.years[j].first, m.years[j].last) {
      if j == |l.years| { assert m.years[i] in l.years; }
    }
  }

  // ---------------------------------------------------------------- accounts and carry-forwards

  lemma AddAccountKeeps(l: Ledger, a: Account)
    requires Inv(l) && forall b :: b in l.accounts ==> b.number != a.number
    ensures Inv(l.(accounts := l.accounts + [a])) && Grows(l, l.(accounts := l.accounts + [a]))
  {
    var m := l.(accounts := l.accounts + [a]);
    assert Grows(l, m);
    EntriesStayOk(l, m);
    forall z | 0 <= z < |m.years| ensures YearOk(m.years[z]) && IbOk(m, m.years[z].ib) { SameIb(l, m, m.years[z].ib); }
    hide EntryOk, Grows, YearOk, IbOk, SameNumber;
    assert AccountsOk(m.accounts);
  }

  /** An account keeps its number and kind while an opening balance or a posted line uses it. */
  lemma SetAccountKeeps(l: Ledger, id: nat, a: Account)
    requires Inv(l) && id < |l.accounts|
    requires forall b :: 0 <= b < |l.accounts| && b != id ==> l.accounts[b].number != a.number
    requires a.kind == l.accounts[id].kind || !AccountUsed(l, id)
    ensures Inv(WithAccount(l, id, a)) && Grows(l, WithAccount(l, id, a))
  {
    var m := WithAccount(l, id, a);
    assert Grows(l, m);
    EntriesStayOk(l, m);
    forall z | 0 <= z < |m.years| ensures YearOk(m.years[z]) && IbOk(m, m.years[z].ib) {
      assert m.years[z] in l.years;
      SameIb(l, m, m.years[z].ib);
    }
    hide EntryOk, Grows, YearOk, IbOk, SameNumber, AccountUsed;
    assert AccountsOk(m.accounts);
  }

  lemma CarriesKeep(l: Ledger, carries: seq<Carry>)
    requires Inv(l) && CarriesOk(carries) && |l.carries| <= |carries|
    requires forall c :: 0 <= c < |l.carries| && l.carries[c].confirmed ==> carries[c] == l.carries[c]
    ensures Inv(l.(carries := carries)) && Grows(l, l.(carries := carries))
  {
    var m := l.(carries := carries);
    assert Grows(l, m);
    EntriesStayOk(l, m);
    SameIbs(l, m);
    hide EntryOk, Grows, YearOk, IbOk, SameNumber;
  }
}
