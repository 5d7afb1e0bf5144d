/** When years, series, accounts and catalogue rows are accepted, and what a change leaves in the record. */
module RegistryLaws {
  import opened Catalog
  import opened Common
  import opened FiscalYears
  import opened LedgerModel
  import opened Registry
  import opened SieLines
  import Calendar
  import LedgerMachine

  predicate YearOpen(l: Ledger, year: nat) { year < |l.years| && !l.years[year].closed }

  // ---------------------------------------------------------------- fiscal years

  /** A year is added open, with open periods and no opening balances, when no other year has a day of it. */
  lemma CreateYearSucceedsIff(l: Ledger, name: string, first: int, last: int, periods: seq<Calendar.Period>)
    ensures CreateYear(l, name, first, last, periods).Ok? <==>
            && Calendar.Tiles(periods, first, last) && Trim(name) != ""
            && forall y: nat :: y < |l.years| ==> l.years[y].last < first || last < l.years[y].first
    ensures var r := CreateYear(l, name, first, last, periods);
            r.Ok? ==>
            && |r.value.years| == |l.years| + 1
            && r.value == l.(years := l.years + [r.value.years[|l.years|]])
            && var y := r.value.years[|l.years|];
               && y.first == first && y.last == last && !y.closed && y.ib == [] && y.stamp == 0
               && |y.periods| == |periods|
               && forall i: nat :: i < |periods| ==> y.periods[i] == Period(periods[i].first, periods[i].last, false)
  {
    hide Calendar.Tiles, Trim;
    if forall y: nat :: y < |l.years| ==> l.years[y].last < first || last < l.years[y].first {
      forall y | y in l.years ensures !Overlaps(y, first, last) { var i :| 0 <= i < |l.years| && l.years[i] == y; }
    } else {
      var i: nat :| i < |l.years| && l.years[i].last >= first && last >= l.years[i].first;
      assert l.years[i] in l.years;
    }
  }

  /** A period of an open year is locked or unlocked, and nothing else of the ledger changes. */
  lemma PeriodStatusIs(l: Ledger, year: nat, period: nat, lock: bool)
    ensures SetPeriodStatus(l, year, period, lock).Ok? <==> YearOpen(l, year) && period < |l.years[year].periods|
    ensures SetPeriodStatus(l, year, period, lock).Ok? ==>
            && year < |l.years| && period < |l.years[year].periods|
            && var y := l.years[year];
               SetPeriodStatus(l, year, period, lock).value
               == l.(years := l.years[year := y.(periods := y.periods[period :=
                    Period(y.periods[period].first, y.periods[period].last, lock)])])
  {
  }

  /** A year closes when every one of its periods is locked and it has no draft. */
  lemma CloseSucceedsIff(l: Ledger, year: nat)
    ensures Close(l, year).Ok? <==>
            && YearOpen(l, year) && l.years[year].periods != []
            && (forall p: nat :: p < |l.years[year].periods| ==> l.years[year].periods[p].locked)
            && forall i: nat :: i < |l.entries| && l.entries[i].year == year ==> l.entries[i].posted
    ensures Close(l, year).Ok? ==>
            year < |l.years| && Close(l, year).value == l.(years := l.years[year := l.years[year].(closed := true)])
  {
    if year < |l.years| {
      forall p | p in l.years[year].periods
        ensures exists k: nat :: k < |l.years[year].periods| && l.years[year].periods[k] == p
      {
        var k :| 0 <= k < |l.years[year].periods| && l.years[year].periods[k] == p;
      }
    }
    forall e | e in l.entries ensures exists i: nat :: i < |l.entries| && l.entries[i] == e {
      var i :| 0 <= i < |l.entries| && l.entries[i] == e;
    }
    forall i: nat | i < |l.entries| ensures l.entries[i] in l.entries {}
  }

  // ---------------------------------------------------------------- voucher series

  /** A new series counts from 1; its code is new in the year. */
  lemma CreateSeriesSucceedsIff(l: Ledger, year: nat, code: string, name: string)
    ensures CreateSeries(l, year, code, name).Ok? <==>
            && Trim(name) != "" && YearOpen(l, year)
            && forall s :: s in l.series && s.year == year ==> s.code != code
    ensures CreateSeries(l, year, code, name).Ok? ==>
            CreateSeries(l, year, code, name).value == l.(series := l.series + [Series(year, code, 1, true)])
  {
    hide Trim;
  }

  /** Code and activity of a series change as asked; year and counter never do. A code changes only while no voucher
      is posted in the series, and to one that no series of the year has. */
  lemma UpdateSeriesSucceedsIff(l: Ledger, id: nat, code: Option<string>, name: Option<string>, active: Option<bool>)
    ensures UpdateSeries(l, id, code, name, active).Ok? <==>
            && id < |l.series| && YearOpen(l, l.series[id].year) && (name.Some? ==> Trim(name.value) != "")
            && (code.Some? && code.value != l.series[id].code ==>
               && (forall e :: e in l.entries && e.series == id ==> !e.posted)
               && forall s :: s in l.series && s.year == l.series[id].year ==> s.code != code.value)
    ensures var r := UpdateSeries(l, id, code, name, active);
            r.Ok? ==>
            && id < |l.series| && |r.value.series| == |l.series|
            && r.value == l.(series := l.series[id := r.value.series[id]])
            && var s, t := l.series[id], r.value.series[id];
               && t.year == s.year && t.next == s.next
               && (if code.Some? then t.code == code.value else t.code == s.code)
               && (if active.Some? then t.active == active.value else t.active == s.active)
  {
    hide Trim;
  }

  // ---------------------------------------------------------------- accounts

  /** An account is created as asked and not as one of the catalogue; an active one must be eligible. */
  lemma CreateAccountSucceedsIff(l: Ledger, env: Registers, number: string, name: string, kind: Kind, active: bool,
        vat: Option<string>)
    ensures CreateAccount(l, env, number, name, kind, active, vat).Ok? <==>
            && (active ==> env.eligible(Account(number, name, kind, true, false, vat)))
            && (vat.Some? ==> vat.value in env.vat) && forall a :: a in l.accounts ==> a.number != number
    ensures CreateAccount(l, env, number, name, kind, active, vat).Ok? ==>
            CreateAccount(l, env, number, name, kind, active, vat).value
            == l.(accounts := l.accounts + [Account(number, name, kind, active, false, vat)])
  {
  }

  /** An account changes in what is asked for and in nothing else. */
  lemma UpdatedAccountIs(l: Ledger, env: Registers, id: nat, c: AccountChange)
    requires UpdateAccount(l, env, id, c).Ok?
    ensures var m := UpdateAccount(l, env, id, c).value;
            && id < |l.accounts| && |m.accounts| == |l.accounts|
            && m == l.(accounts := l.accounts[id := m.accounts[id]])
            && var a, b := l.accounts[id], m.accounts[id];
               && b.catalog == a.catalog
               && (if c.number.Some? then b.number == c.number.value else b.number == a.number)
               && (if c.name.Some? then b.name == c.name.value else b.name == a.name)
               && (if c.kind.Some? then b.kind == c.kind.value else b.kind == a.kind)
               && (if c.active.Some? then b.active == c.active.value else b.active == a.active)
               && (if c.vat.Some? then b.vat == c.vat.value else b.vat == a.vat)
  {
    hide AccountRefusal;
  }

  /** Number and kind may change only for an account outside the catalogue that carries no opening balance and no
      posted line, and the new number must be free; a name only when no posted line relies on it; an account that
      is switched on, or stays active under a new number, must be eligible under its number. */
  lemma UpdateAccountSucceedsIff(l: Ledger, env: Registers, id: nat, c: AccountChange)
    requires id < |l.accounts|
    ensures var a := l.accounts[id];
            var renumbered := c.number.Some? && c.number.value != a.number;
            var reclassified := renumbered || (c.kind.Some? && c.kind.value != a.kind);
            var number := if c.number.Some? then c.number.value else a.number;
            UpdateAccount(l, env, id, c).Ok? <==>
            && (c.vat.Some? && c.vat.value.Some? ==> c.vat.value.value in env.vat)
            && (reclassified ==> !a.catalog && !AccountUsed(l, id))
            && (c.active == Some(true) || (c.active.None? && a.active && renumbered) ==>
               env.eligible(a.(number := number)))
            && (c.name.Some? && c.name.value != a.name ==> id !in env.unlabelled)
            && (renumbered ==> forall b :: b in l.accounts ==> b.number != number)
  {
    hide AccountUsed;
  }

  // ---------------------------------------------------------------- catalogue

  /** Provisioning is refused for another version than the adopted one, and at first adoption, outside K3, when an
      account under the number of a restricted row is active, opened or booked on. */
  lemma ProvisionSucceedsIff(l: Ledger, c: Installed)
    ensures Provision(l, Some(c)).Ok? <==>
            && (c.adopted.Some? ==> c.adopted.value == c.version)
            && (c.adopted.None? && !c.k3 ==>
               forall r, a: nat :: r in c.rows && r.restricted && a < |l.accounts| && l.accounts[a].number == r.number
                                   ==> !l.accounts[a].active && !AccountUsed(l, a))
  {
    hide AddRows, AccountUsed, Filter;
  }

  /** A row may be activated when it is bookable, restricted only under K3, and agrees with the account of its
      number, if there is one. */
  predicate Activable(l: Ledger, c: Installed, r: Row) {
    && r.bookable && (r.restricted ==> c.k3)
    && forall a: nat :: a < |l.accounts| && l.accounts[a].number == r.number ==>
         l.accounts[a].kind == r.kind && a !in c.apart
  }

  lemma ActivableIff(l: Ledger, c: Installed, r: Row)
    requires LedgerMachine.AccountsOk(l.accounts)
    ensures Allowed(l, c, r) <==> Activable(l, c, r)
  {
    hide FindAccount;
    var found := FindAccount(l.accounts, r.number);
    if found.Some? {
      forall a: nat | a < |l.accounts| && l.accounts[a].number == r.number ensures a == found.value {}
    } else {
      forall a: nat | a < |l.accounts| ensures l.accounts[a].number != r.number { assert l.accounts[a] in l.accounts; }
    }
  }

  /** The catalogue activates all of the chosen rows or none. */
  lemma ActivationSucceedsIff(l: Ledger, c: Installed, ids: set<nat>)
    requires LedgerMachine.AccountsOk(l.accounts)
    ensures Activate(l, Some(c), ids).Ok? <==> forall i :: i in ids ==> i < |c.rows| && Activable(l, c, c.rows[i])
  {
    hide Allowed, Activable, SwitchOnAll, LedgerMachine.AccountsOk;
    forall r ensures Allowed(l, c, r) <==> Activable(l, c, r) { ActivableIff(l, c, r); }
  }
}
