/** The opening-balance requests, step by step on the stored tables. */
module OpeningBalancesService {
  import opened Common
  import opened LedgerModel
  import opened AccountingData
  import opened OpeningBalances

  method CheckWritable(db: Store, year: nat) returns (error: Option<Error>)
    ensures error == WriteRefusal(db.State(), year)
  {
    var guard := CheckOpen(db, year, None);
    if guard == Some(NotFound) { return guard; }
    if guard.Some? { return Some(IbLocked); }
    if HasLocked(db.years[year]) || HasPosted(db.State(), year) { return Some(IbLocked); }
    return None;
  }

  lemma {:induction false} RefusalStays(l: Ledger, rows: seq<IbRow>, i: nat)
    requires i <= |rows| && RowsRefusal(l, rows[..i]).Some?
    ensures RowsRefusal(l, rows) == RowsRefusal(l, rows[..i])
    decreases |rows| - i
  {
    if i < |rows| {
      assert rows[..i + 1][..i] == rows[..i];
      hide RowRefusal;
      RefusalStays(l, rows, i + 1);
    } else {
      assert rows[..i] == rows;
    }
  }

  method Validate(db: Store, env: Registers, rows: seq<IbRow>) returns (error: Option<Error>, debit: int, credit: int)
    ensures error == Validation(db.State(), env, rows)
    ensures error.None? ==> debit == credit == SumOf(rows, IbDebit())
  {
    var seen: set<nat> := {};
    debit, credit := 0, 0;
    ghost var l := db.State();
    for i := 0 to |rows|
      invariant RowsRefusal(l, rows[..i]).None?
      invariant forall a: nat :: a in seen <==> exists b :: b in rows[..i] && b.account == a
      invariant debit == SumOf(rows[..i], IbDebit()) && credit == SumOf(rows[..i], IbCredit())
    {
      assert rows[..i + 1][..i] == rows[..i];
      assert rows[..i + 1] == rows[..i] + [rows[i]];
      var row := rows[i];
      error := CheckRow(db, seen, row, rows[..i]);
      if error.Some? { RefusalStays(l, rows, i + 1); return; }
      seen := seen + {row.account};
      debit, credit := debit + row.debit, credit + row.credit;
    }
    assert rows[..|rows|] == rows;
    if exists r :: r in rows && !IsZero(r) &&
         !(r.account < |db.accounts| && db.accounts[r.account].active && env.eligible(db.accounts[r.account])) {
      return Some(NotEligible), debit, credit;
    }
    error := if debit != credit then Some(IbUnbalanced) else None;
  }

  method CheckRow(db: Store, seen: set<nat>, row: IbRow, ghost before: seq<IbRow>) returns (error: Option<Error>)
    requires row.account in seen <==> exists b :: b in before && b.account == row.account
    ensures error == RowRefusal(db.State(), before, row)
  {
    if row.account >= |db.accounts| || !IsBalanceKind(db.accounts[row.account].kind) || row.account in seen {
      return Some(IbAccountInvalid);
    }
    if !db.accounts[row.account].active && (row.debit != 0 || row.credit != 0) { return Some(IbInactive); }
    if row.debit < 0 || row.credit < 0 || (row.debit > 0 && row.credit > 0) { return Some(IbRowInvalid); }
    return None;
  }

  method SaveRows(db: Store, env: Registers, year: nat, expected: Print, rows: seq<IbRow>)
    returns (error: Option<Error>)
    modifies db
    ensures Save(old(db.State()), env, year, expected, rows) == if error.None? then Ok(db.State()) else Err(error.value)
    ensures error.Some? ==> db.State() == old(db.State())
  {
    hide Validation, WriteRefusal;
    WritableYearExists(db.State(), year);
    error := CheckWritable(db, year);
    if error.Some? { return; }
    if PrintOf(db.years[year]) != expected { return Some(IbConflict); }
    var debit, credit;
    error, debit, credit := Validate(db, env, rows);
    if error.Some? { return; }
    var y := db.years[year];
    db.years := db.years[year := y.(ib := Filter(rows, NonZero()), stamp := y.stamp + 1)];
  }

  lemma WritableYearExists(l: Ledger, year: nat)
    ensures WriteRefusal(l, year).None? ==> year < |l.years|
  {
  }

  // ---------------------------------------------------------------- carry-forward

  /** What the balancing loop has gathered after the first n accounts. */
  ghost predicate Gathered(l: Ledger, year: nat, n: nat, balances: map<nat, int>, resultNet: int, fullNet: int)
    requires year < |l.years| && n <= |l.accounts|
  {
    && (forall a: nat :: a in balances <==> a < n && IsBalanceKind(l.accounts[a].kind))
    && (forall a: nat :: a in balances ==> balances[a] == ClosingNet(l, year, a))
    && resultNet == SumOf(Upto(n), ResultPart(l, year))
    && fullNet == SumOf(Upto(n), ClosingPart(l, year))
  }

  lemma UptoStep(n: nat, f: nat -> int)
    ensures SumOf(Upto(n + 1), f) == SumOf(Upto(n), f) + f(n)
  {
    assert Upto(n + 1) == Upto(n) + [n];
    SumSnoc(Upto(n), n, f);
  }

  lemma NothingGathered(l: Ledger, year: nat)
    requires year < |l.years|
    ensures Gathered(l, year, 0, map[], 0, 0)
  {
  }

  lemma GatheredStep(l: Ledger, year: nat, a: nat, balances: map<nat, int>, resultNet: int, fullNet: int)
    requires year < |l.years| && a < |l.accounts| && Gathered(l, year, a, balances, resultNet, fullNet)
    ensures var moved := NetMoved(l, year, l.years[year].first, l.years[year].last, NO_DIMENSIONS, a);
            var closing := ClosingNet(l, year, a);
            Gathered(l, year, a + 1, if IsBalanceKind(l.accounts[a].kind) then balances[a := closing] else balances,
                     if IsBalanceKind(l.accounts[a].kind) then resultNet else resultNet + moved, fullNet + closing)
  {
    hide NetMoved, ClosingNet, Upto, SumOf;
    UptoStep(a, ResultPart(l, year));
    UptoStep(a, ClosingPart(l, year));
  }

  method GatherBalances(db: Store, year: nat, opening: map<nat, int>)
    returns (balances: map<nat, int>, resultNet: int, fullNet: int)
    requires year < |db.years| && OpeningTable(opening, db.years[year].ib)
    ensures Gathered(db.State(), year, |db.accounts|, balances, resultNet, fullNet)
  {
    var l := db.State();
    NothingGathered(l, year);
    hide Gathered, NetMoved;
    balances, resultNet, fullNet := map[], 0, 0;
    for a := 0 to |db.accounts|
      invariant Gathered(l, year, a, balances, resultNet, fullNet)
    {
      GatheredStep(l, year, a, balances, resultNet, fullNet);
      var moved := NetMoved(l, year, l.years[year].first, l.years[year].last, NO_DIMENSIONS, a);
      var closing := Lookup(opening, a) + moved;
      fullNet := fullNet + closing;
      if !IsBalanceKind(l.accounts[a].kind) { resultNet := resultNet + moved; }
      else { balances := balances[a := closing]; }
    }
  }

  method BuildRows(db: Store, year: nat, result: nat, balances: map<nat, int>) returns (rows: seq<IbRow>)
    requires year < |db.years|
    requires forall a: nat :: a < |db.accounts| ==> Lookup(balances, a) == CarriedNet(db.State(), year, result, a)
    ensures rows == CarriedRows(db.State(), year, result, |db.accounts|)
  {
    hide CarriedNet;
    rows := [];
    for a := 0 to |db.accounts|
      invariant rows == CarriedRows(db.State(), year, result, a)
    {
      var net := Lookup(balances, a);
      var debit := if net >= 0 then net else 0;
      var credit := if net < 0 then -net else 0;
      if debit != 0 || credit != 0 { rows := rows + [IbRow(a, debit, credit)]; }
    }
  }

  lemma GatheredIsCarried(l: Ledger, year: nat, result: nat, balances: map<nat, int>, resultNet: int, fullNet: int)
    requires year < |l.years| && Gathered(l, year, |l.accounts|, balances, resultNet, fullNet)
    requires result < |l.accounts| && IsBalanceKind(l.accounts[result].kind)
    ensures fullNet == FullNet(l, year) && resultNet == ResultNet(l, year)
    ensures var carried := balances[result := Lookup(balances, result) + resultNet];
            forall a: nat :: a < |l.accounts| ==> Lookup(carried, a) == CarriedNet(l, year, result, a)
  {
    hide ClosingNet, SumOf, Upto;
  }

  /** The checks before anything is computed. */
  function EarlyRefusal(l: Ledger, env: Registers, s: nat, t: nat): Option<Error> {
    if s == t then Some(SameYear)
    else if s >= |l.years| || t >= |l.years| then Some(NotFound)
    else if !l.years[s].closed then Some(SourceOpen)
    else if l.years[t].first != l.years[s].last + 1 then Some(NotAdjacent)
    else if WriteRefusal(l, t).Some? then WriteRefusal(l, t)
    else if l.years[t].ib != [] || HasConfirmed(l, t) then Some(TargetExists)
    else None
  }

  method CheckCarry(db: Store, env: Registers, s: nat, t: nat) returns (error: Option<Error>)
    ensures error == EarlyRefusal(db.State(), env, s, t)
  {
    hide WriteRefusal;
    if s == t { return Some(SameYear); }
    if s >= |db.years| || t >= |db.years| { return Some(NotFound); }
    if !db.years[s].closed { return Some(SourceOpen); }
    if db.years[t].first != db.years[s].last + 1 { return Some(NotAdjacent); }
    error := CheckWritable(db, t);
    if error.Some? { return; }
    if db.years[t].ib != [] || exists c :: c in db.carries && c.target == t && c.confirmed {
      return Some(TargetExists);
    }
    return None;
  }

  method CalculateCarry(db: Store, env: Registers, s: nat, t: nat, r: nat) returns (plan: Result<CarryPlan, Error>)
    ensures plan == Calculate(db.State(), env, s, t, r)
  {
    var error := CheckCarry(db, env, s, t);
    CarryOrder(db.State(), env, s, t, r);
    hide EarlyRefusal, CarryRefusal, ContextError, WriteRefusal, Validation, Gathered;
    if error.Some? { return Err(error.value); }
    var opening, debit, credit;
    error, opening, debit, credit := ReadContext(db, s);
    if error.Some? { return Err(error.value); }
    if r >= |db.accounts| || !db.accounts[r].kind.Equity? || !db.accounts[r].active {
      return Err(ResultAccountInvalid);
    }
    if !env.eligible(db.accounts[r]) { return Err(NotEligible); }
    var balances, resultNet, fullNet := GatherBalances(db, s, opening);
    GatheredIsCarried(db.State(), s, r, balances, resultNet, fullNet);
    if fullNet != 0 { return Err(SourceUnbalanced); }
    balances := balances[r := Lookup(balances, r) + resultNet];
    var rows := BuildRows(db, s, r, balances);
    error, debit, credit := Validate(db, env, rows);
    if error.Some? { return Err(error.value); }
    ValidTotals(db.State(), env, rows);
    var from, to := (db.years[s].first, db.years[s].last), (db.years[t].first, db.years[t].last);
    plan := Ok(CarryPlan(s, t, from, to, r, resultNet, rows, debit, credit, Map(db.accounts, View())));
  }

  lemma ValidTotals(l: Ledger, env: Registers, rows: seq<IbRow>)
    ensures Validation(l, env, rows).None? ==> SumOf(rows, IbDebit()) == SumOf(rows, IbCredit())
  {
  }

  lemma CarryOrder(l: Ledger, env: Registers, s: nat, t: nat, r: nat)
    ensures EarlyRefusal(l, env, s, t).Some? ==> CarryRefusal(l, env, s, t, r) == EarlyRefusal(l, env, s, t)
    ensures EarlyRefusal(l, env, s, t).None? ==> s < |l.years| && t < |l.years|
    ensures EarlyRefusal(l, env, s, t).None? ==> (CarryRefusal(l, env, s, t, r) ==
      (if ContextError(l, s).Some? then ContextError(l, s)
       else if r >= |l.accounts| || !l.accounts[r].kind.Equity? || !l.accounts[r].active then Some(ResultAccountInvalid)
       else if !env.eligible(l.accounts[r]) then Some(NotEligible)
       else if FullNet(l, s) != 0 then Some(SourceUnbalanced)
       else Validation(l, env, CarriedRows(l, s, r, |l.accounts|))))
  {
    hide ContextError, WriteRefusal, Validation, FullNet, CarriedRows;
  }

  method PreviewCarry(db: Store, env: Registers, s: nat, t: nat, r: nat, actor: string, now: int)
    returns (error: Option<Error>)
    modifies db
    ensures Preview(old(db.State()), env, s, t, r, actor, now)
            == if error.None? then Ok(db.State()) else Err(error.value)
    ensures error.Some? ==> db.State() == old(db.State())
  {
    hide Calculate;
    var plan := CalculateCarry(db, env, s, t, r);
    if plan.Err? { return Some(plan.error); }
    db.carries := db.carries + [Carry(s, t, r, actor, plan.value, now + PREVIEW_TIME, false)];
    return None;
  }

  method ConfirmCarry(db: Store, env: Registers, id: nat, actor: string, now: int) returns (error: Option<Error>)
    modifies db
    ensures Confirm(old(db.State()), env, id, actor, now) == if error.None? then Ok(db.State()) else Err(error.value)
    ensures error.Some? ==> db.State() == old(db.State())
  {
    if id >= |db.carries| || db.carries[id].actor != actor { return Some(NotFound); }
    var c := db.carries[id];
    if c.expires <= now { return Some(PreviewExpired); }
    CalculatedYears(db.State(), env, c.source, c.target, c.result);
    hide Calculate, PlanOf;
    var plan := CalculateCarry(db, env, c.source, c.target, c.result);
    if plan.Err? { return Some(plan.error); }
    if plan.value != c.plan { return Some(SourceChanged); }
    var y := db.years[c.target];
    db.years := db.years[c.target := y.(ib := plan.value.rows, stamp := y.stamp + 1)];
    db.carries := db.carries[id := c.(confirmed := true)];
    return None;
  }

  lemma CalculatedYears(l: Ledger, env: Registers, s: nat, t: nat, r: nat)
    ensures Calculate(l, env, s, t, r).Ok? ==>
            s < |l.years| && t < |l.years| && Calculate(l, env, s, t, r).value == PlanOf(l, s, t, r)
  {
    hide ContextError, WriteRefusal, Validation, FullNet, CarriedRows;
  }
}
