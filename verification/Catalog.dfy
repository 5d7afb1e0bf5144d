/** Accounts taken from the reviewed account catalogue: provisioning of its standard accounts and activation of
    chosen ones. Existing accounts are never replaced. */
module Catalog {
  import opened Common
  import opened LedgerModel

  /** A row of the catalogue; a restricted account is for the framework K3 only, a standard one is provisioned. */
  datatype Row = Row(number: string, name: string, kind: Kind, bookable: bool, restricted: bool, standard: bool)

  /** The installed version as the organization stands to it: its rows by account number, the version adopted before,
      whether K3 applies, and the accounts whose normal balance or catalogue row is another than the version's. */
  datatype Installed = Installed(version: nat, rows: seq<Row>, adopted: Option<nat>, k3: bool, apart: set<nat>)

  function AccountOfRow(r: Row): Account { Account(r.number, r.name, r.kind, true, true, None) }

  function Standard(): Row -> bool { (r: Row) => r.standard }

  // ---------------------------------------------------------------- provisioning

  /** A restricted account of the catalogue is active, opened or booked on. */
  predicate RestrictedInUse(l: Ledger, rows: seq<Row>) {
    exists r :: r in rows && r.restricted
                && exists a :: 0 <= a < |l.accounts| && l.accounts[a].number == r.number
                               && (l.accounts[a].active || AccountUsed(l, a))
  }

  function AddRow(accounts: seq<Account>, r: Row): seq<Account> {
    if FindAccount(accounts, r.number).Some? then accounts else accounts + [AccountOfRow(r)]
  }

  function AddRows(accounts: seq<Account>, rows: seq<Row>): seq<Account> {
    if |rows| == 0 then accounts else AddRow(AddRows(accounts, rows[..|rows| - 1]), rows[|rows| - 1])
  }

  function ProvisionRefusal(l: Ledger, c: Installed): Option<Error> {
    if c.adopted.Some? && c.adopted.value != c.version then Some(CatalogFixed)
    else if c.adopted.None? && !c.k3 && RestrictedInUse(l, c.rows) then Some(CatalogReview)
    else None
  }

  /** Without an installed catalogue nothing happens; otherwise the missing standard accounts are added. */
  function Provision(l: Ledger, c: Option<Installed>): Outcome {
    if c.None? then Ok(l)
    else
      var refusal := ProvisionRefusal(l, c.value);
      if refusal.Some? then Err(refusal.value)
      else Ok(l.(accounts := AddRows(l.accounts, Filter(c.value.rows, Standard()))))
  }

  method ProvisionAccounts(db: Store, c: Option<Installed>) returns (error: Option<Error>)
    modifies db
    ensures Provision(old(db.State()), c) == if error.None? then Ok(db.State()) else Err(error.value)
    ensures error.Some? ==> db.State() == old(db.State())
  {
    hide AddRow, RestrictedInUse;
    if c.None? { return None; }
    if c.value.adopted.Some? && c.value.adopted.value != c.value.version { return Some(CatalogFixed); }
    if c.value.adopted.None? && !c.value.k3 && RestrictedInUse(db.State(), c.value.rows) { return Some(CatalogReview); }
    ghost var before := db.State();
    var entries := Filter(c.value.rows, Standard());
    for i := 0 to |entries|
      invariant db.State() == before.(accounts := AddRows(before.accounts, entries[..i]))
    {
      assert entries[..i + 1][..i] == entries[..i];
      db.accounts := AddRow(db.accounts, entries[i]);
    }
    assert entries[..|entries|] == entries;
    return None;
  }

  // ---------------------------------------------------------------- activation

  function Chosen(rows: seq<Row>, ids: set<nat>, n: nat): (r: seq<Row>)
    requires n <= |rows|
    ensures forall x :: x in r ==> exists i :: 0 <= i < n && i in ids && rows[i] == x
    ensures forall i :: 0 <= i < n && i in ids ==> rows[i] in r
  {
    if n == 0 then [] else Chosen(rows, ids, n - 1) + if n - 1 in ids then [rows[n - 1]] else []
  }

  predicate Allowed(l: Ledger, c: Installed, r: Row) {
    var a := FindAccount(l.accounts, r.number);
    && r.bookable && (!r.restricted || c.k3)
    && (a.None? || (l.accounts[a.value].kind == r.kind && a.value !in c.apart))
  }

  /** An account of that number is activated; a missing one is created. */
  function SwitchOn(accounts: seq<Account>, r: Row): seq<Account> {
    var a := FindAccount(accounts, r.number);
    if a.Some? then accounts[a.value := accounts[a.value].(active := true)] else accounts + [AccountOfRow(r)]
  }

  function SwitchOnAll(accounts: seq<Account>, rows: seq<Row>): seq<Account> {
    if |rows| == 0 then accounts else SwitchOn(SwitchOnAll(accounts, rows[..|rows| - 1]), rows[|rows| - 1])
  }

  /** Activation of the catalogue rows `ids`: all of them or none. */
  function Activate(l: Ledger, c: Option<Installed>, ids: set<nat>): Outcome {
    if c.None? then Err(CatalogMissing)
    else if exists i :: i in ids && i >= |c.value.rows| then Err(NotFound)
    else
      var rows := Chosen(c.value.rows, ids, |c.value.rows|);
      if exists r :: r in rows && !Allowed(l, c.value, r) then Err(ActivationRejected)
      else Ok(l.(accounts := SwitchOnAll(l.accounts, rows)))
  }

  method ActivateAccount(db: Store, r: Row)
    modifies db
    ensures db.State() == old(db.State()).(accounts := SwitchOn(old(db.accounts), r))
  {
    var existing := FindAccount(db.accounts, r.number);
    if existing.Some? {
      db.accounts := db.accounts[existing.value := db.accounts[existing.value].(active := true)];
    } else {
      db.accounts := db.accounts + [AccountOfRow(r)];
    }
  }

  method ActivateAccounts(db: Store, c: Option<Installed>, ids: set<nat>) returns (error: Option<Error>)
    modifies db
    ensures Activate(old(db.State()), c, ids) == if error.None? then Ok(db.State()) else Err(error.value)
    ensures error.Some? ==> db.State() == old(db.State())
  {
    hide Allowed, SwitchOn;
    if c.None? { return Some(CatalogMissing); }
    if exists i :: i in ids && i >= |c.value.rows| { return Some(NotFound); }
    var rows := Chosen(c.value.rows, ids, |c.value.rows|);
    if exists r :: r in rows && !Allowed(db.State(), c.value, r) { return Some(ActivationRejected); }
    ghost var before := db.State();
    for i := 0 to |rows|
      invariant db.State() == before.(accounts := SwitchOnAll(before.accounts, rows[..i]))
    {
      assert rows[..i + 1][..i] == rows[..i];
      ActivateAccount(db, rows[i]);
    }
    assert rows[..|rows|] == rows;
    return None;
  }

  // ---------------------------------------------------------------- laws

  lemma {:induction false} AddRowsExtends(accounts: seq<Account>, rows: seq<Row>)
    ensures accounts <= AddRows(accounts, rows)
    ensures forall r :: r in rows ==> FindAccount(AddRows(accounts, rows), r.number).Some?
  {
    if |rows| > 0 {
      var front, last := rows[..|rows| - 1], rows[|rows| - 1];
      var before := AddRows(accounts, front);
      AddRowsExtends(accounts, front);
      hide FindAccount;
      forall r | r in rows ensures FindAccount(AddRow(before, last), r.number).Some? {
        if r in front { StillFound(before, last, r.number); } else { StillFound(before, last, last.number); }
      }
    }
  }

  lemma StillFound(accounts: seq<Account>, r: Row, number: string)
    requires FindAccount(accounts, number).Some? || number == r.number
    ensures FindAccount(AddRow(accounts, r), number).Some?
  {
  }

  lemma {:induction false} NothingToAdd(accounts: seq<Account>, rows: seq<Row>)
    requires forall r :: r in rows ==> FindAccount(accounts, r.number).Some?
    ensures AddRows(accounts, rows) == accounts
  {
    if |rows| > 0 { NothingToAdd(accounts, rows[..|rows| - 1]); }
  }

  /** Made from one of the rows: active, of the catalogue, and without a VAT code. */
  predicate MadeOf(a: Account, rows: seq<Row>) {
    exists r :: r in rows && a == Account(r.number, r.name, r.kind, true, true, None)
  }

  lemma {:induction false} AddRowsMakes(accounts: seq<Account>, rows: seq<Row>)
    ensures var all := AddRows(accounts, rows);
            |accounts| <= |all| && forall a :: |accounts| <= a < |all| ==> MadeOf(all[a], rows)
  {
    if |rows| > 0 {
      var front, last := rows[..|rows| - 1], rows[|rows| - 1];
      var before, all := AddRows(accounts, front), AddRows(accounts, rows);
      AddRowsMakes(accounts, front);
      hide FindAccount, MadeOf;
      forall a | |accounts| <= a < |all| ensures MadeOf(all[a], rows) {
        if a < |before| { MadeOfMore(before[a], front, rows); } else { MadeOfIts(last, rows); }
      }
    }
  }

  lemma MadeOfMore(a: Account, few: seq<Row>, rows: seq<Row>)
    requires MadeOf(a, few) && forall r :: r in few ==> r in rows
    ensures MadeOf(a, rows)
  {
  }

  /** Made from a standard row. */
  predicate MadeOfStandard(a: Account, rows: seq<Row>) {
    exists r :: r in rows && r.standard && a == Account(r.number, r.name, r.kind, true, true, None)
  }

  lemma MadeOfFiltered(a: Account, rows: seq<Row>)
    requires MadeOf(a, Filter(rows, Standard()))
    ensures MadeOfStandard(a, rows)
  {
    var r :| r in Filter(rows, Standard()) && a == Account(r.number, r.name, r.kind, true, true, None);
    assert Standard()(r);
  }

  lemma MadeOfIts(r: Row, rows: seq<Row>)
    requires r in rows
    ensures MadeOf(AccountOfRow(r), rows)
  {
  }

  /** Provisioning leaves every existing account as it is, has an account for every standard row, makes its accounts
      of standard rows, and adds nothing when it is done again under the version it adopted. */
  lemma ProvisionOnce(l: Ledger, c: Installed, m: Ledger)
    requires Provision(l, Some(c)) == Ok(m)
    ensures l.accounts <= m.accounts && m == l.(accounts := m.accounts)
    ensures forall r :: r in c.rows && r.standard ==> exists a :: a in m.accounts && a.number == r.number
    ensures forall a :: |l.accounts| <= a < |m.accounts| ==> MadeOfStandard(m.accounts[a], c.rows)
    ensures Provision(m, Some(c.(adopted := Some(c.version)))) == Ok(m)
  {
    var rows := Filter(c.rows, Standard());
    hide RestrictedInUse, FindAccount;
    AddRowsExtends(l.accounts, rows);
    AddRowsMakes(l.accounts, rows);
    hide MadeOf, MadeOfStandard;
    forall a | |l.accounts| <= a < |m.accounts| ensures MadeOfStandard(m.accounts[a], c.rows) {
      MadeOfFiltered(m.accounts[a], c.rows);
    }
    NothingToAdd(m.accounts, rows);
    forall r | r in c.rows && r.standard ensures exists a :: a in m.accounts && a.number == r.number {
      assert Standard()(r) && r in rows;
      assert m.accounts[FindAccount(m.accounts, r.number).value] in m.accounts;
    }
  }

  /** What activation may do to an account: nothing, or switch it on when a chosen row bears its number. */
  predicate OnlySwitched(a: Account, b: Account, rows: seq<Row>) {
    b == a || (b == a.(active := true) && exists r :: r in rows && r.number == a.number)
  }

  predicate ActiveUnder(accounts: seq<Account>, number: string) {
    exists a :: a in accounts && a.number == number && a.active
  }

  lemma SwitchOnStep(accounts: seq<Account>, r: Row, number: string)
    requires ActiveUnder(accounts, number) || number == r.number
    ensures ActiveUnder(SwitchOn(accounts, r), number)
  {
    var all := SwitchOn(accounts, r);
    var found := FindAccount(accounts, r.number);
    if number == r.number {
      var a := if found.Some? then found.value else |accounts|;
      assert all[a] in all && all[a].number == number && all[a].active;
    } else {
      var x :| x in accounts && x.number == number && x.active;
      var k :| 0 <= k < |accounts| && accounts[k] == x;
      assert all[k] == x && all[k] in all;
    }
  }

  lemma {:induction false} SwitchOnAllDoes(accounts: seq<Account>, rows: seq<Row>)
    ensures var all := SwitchOnAll(accounts, rows);
            && |accounts| <= |all|
            && (forall a :: 0 <= a < |accounts| ==> OnlySwitched(accounts[a], all[a], rows))
            && (forall a :: |accounts| <= a < |all| ==> MadeOf(all[a], rows))
            && (forall r :: r in rows ==> ActiveUnder(all, r.number))
  {
    if |rows| > 0 {
      var front, last := rows[..|rows| - 1], rows[|rows| - 1];
      var before, all := SwitchOnAll(accounts, front), SwitchOnAll(accounts, rows);
      SwitchOnAllDoes(accounts, front);
      hide ActiveUnder;
      forall r | r in rows ensures ActiveUnder(all, r.number) {
        assert r in front || r == last;
        SwitchOnStep(before, last, r.number);
      }
      hide FindAccount, AccountOfRow;
      forall a | 0 <= a < |accounts| ensures OnlySwitched(accounts[a], all[a], rows) {
        assert OnlySwitched(accounts[a], before[a], front);
        assert last in rows;
      }
      forall a | |accounts| <= a < |all| ensures MadeOf(all[a], rows) {
        assert last in rows;
        if a < |before| {
          assert MadeOf(before[a], front);
          var r :| r in front && before[a] == AccountOfRow(r);
          StaysOn(r);
          assert all[a] == before[a];
          assert r in rows;
        }
      }
    }
  }

  lemma StaysOn(r: Row)
    ensures AccountOfRow(r).active && AccountOfRow(r).(active := true) == AccountOfRow(r)
  {
  }

  /** An activation that succeeds leaves an active account under every chosen number, changes no number, name, kind
      or VAT code, switches on only chosen accounts and creates only chosen rows. */
  lemma ActivationDoes(l: Ledger, c: Installed, ids: set<nat>, m: Ledger)
    requires Activate(l, Some(c), ids) == Ok(m)
    ensures m == l.(accounts := m.accounts) && |l.accounts| <= |m.accounts|
    ensures forall i :: i in ids ==> i < |c.rows| && ActiveUnder(m.accounts, c.rows[i].number)
    ensures forall a :: 0 <= a < |l.accounts| ==>
            OnlySwitched(l.accounts[a], m.accounts[a], Chosen(c.rows, ids, |c.rows|))
    ensures forall a :: |l.accounts| <= a < |m.accounts| ==> MadeOfChosen(m.accounts[a], c.rows, ids)
  {
    hide *;
    var rows := Chosen(c.rows, ids, |c.rows|);
    ActivationParts(l, c, ids, m);
    SwitchOnAllDoes(l.accounts, rows);
    forall i | i in ids ensures i < |c.rows| && ActiveUnder(m.accounts, c.rows[i].number) {
      assert c.rows[i] in rows;
    }
    forall a | |l.accounts| <= a < |m.accounts| ensures MadeOfChosen(m.accounts[a], c.rows, ids) {
      var r := RowOfMade(m.accounts[a], rows);
      MadeOfRow(m.accounts[a], c.rows, ids, r);
    }
  }

  lemma ActivationParts(l: Ledger, c: Installed, ids: set<nat>, m: Ledger)
    requires Activate(l, Some(c), ids) == Ok(m)
    ensures forall i :: i in ids ==> i < |c.rows|
    ensures m == l.(accounts := SwitchOnAll(l.accounts, Chosen(c.rows, ids, |c.rows|)))
  {
    hide Allowed, Chosen, SwitchOnAll;
  }

  /** The account stands for a chosen row. */
  predicate MadeOfChosen(a: Account, rows: seq<Row>, ids: set<nat>) {
    exists i :: i in ids && i < |rows| && a == Account(rows[i].number, rows[i].name, rows[i].kind, true, true, None)
  }

  lemma RowOfMade(a: Account, rows: seq<Row>) returns (r: Row)
    requires MadeOf(a, rows)
    ensures r in rows && a == AccountOfRow(r)
  {
    r :| r in rows && a == AccountOfRow(r);
  }

  lemma MadeOfRow(a: Account, rows: seq<Row>, ids: set<nat>, r: Row)
    requires r in Chosen(rows, ids, |rows|) && a == AccountOfRow(r)
    ensures MadeOfChosen(a, rows, ids)
  {
    hide Chosen;
    var i :| 0 <= i < |rows| && i in ids && rows[i] == r;
  }
}
