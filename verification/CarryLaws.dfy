/** When opening balances are saved, and when a carry-forward is previewed and confirmed. */
module CarryLaws {
  import opened Common
  import opened LedgerModel
  import opened LedgerMachine
  import opened AccountingData
  import opened OpeningBalances
  import CarryChain
  import ReportLaws

  // ---------------------------------------------------------------- when a year takes opening balances

  /** The year is open, none of its periods is locked and nothing is posted in it. */
  predicate Writable(l: Ledger, year: nat) {
    && year < |l.years| && !l.years[year].closed && (forall p :: p in l.years[year].periods ==> !p.locked)
    && forall e :: e in l.entries && e.year == year ==> !e.posted
  }

  lemma WritableIs(l: Ledger, year: nat)
    ensures WriteRefusal(l, year).None? <==> Writable(l, year)
  {
  }

  /** An account that can be booked on. */
  predicate Bookable(l: Ledger, env: Registers, a: nat) {
    a < |l.accounts| && l.accounts[a].active && env.eligible(l.accounts[a])
  }

  /** A row on a balance account, one side at most positive; an amount needs an account that can be booked on. */
  predicate RowFits(l: Ledger, env: Registers, r: IbRow) {
    && r.account < |l.accounts|
    && (l.accounts[r.account].kind == Asset || l.accounts[r.account].kind == Liability
        || l.accounts[r.account].kind == Equity)
    && r.debit >= 0 && r.credit >= 0 && (r.debit == 0 || r.credit == 0)
    && (r.debit > 0 || r.credit > 0 ==> Bookable(l, env, r.account))
  }

  predicate DistinctRows(rows: seq<IbRow>) {
    forall i, j :: 0 <= i < j < |rows| ==> rows[i].account != rows[j].account
  }

  predicate RowAccepted(l: Ledger, r: IbRow) {
    && r.account < |l.accounts| && IsBalanceKind(l.accounts[r.account].kind)
    && (!IsZero(r) ==> l.accounts[r.account].active)
    && r.debit >= 0 && r.credit >= 0 && !(r.debit > 0 && r.credit > 0)
  }

  lemma RowAcceptedIff(l: Ledger, before: seq<IbRow>, r: IbRow)
    ensures RowRefusal(l, before, r).None? <==> RowAccepted(l, r) && forall b :: b in before ==> b.account != r.account
  {
  }

  lemma {:induction false} RowsAcceptedIff(l: Ledger, rows: seq<IbRow>)
    ensures RowsRefusal(l, rows).None? <==> (forall r :: r in rows ==> RowAccepted(l, r)) && DistinctRows(rows)
  {
    hide RowAccepted, RowRefusal;
    if |rows| > 0 {
      var n := |rows| - 1;
      RowsAcceptedIff(l, rows[..n]);
      RowAcceptedIff(l, rows[..n], rows[n]);
      assert rows == rows[..n] + [rows[n]];
      DistinctSnoc(rows[..n], rows[n]);
    }
  }

  lemma DistinctSnoc(rows: seq<IbRow>, r: IbRow)
    ensures DistinctRows(rows + [r]) <==> DistinctRows(rows) && forall b :: b in rows ==> b.account != r.account
  {
    var all := rows + [r];
    if DistinctRows(all) {
      forall b | b in rows ensures b.account != r.account {
        var i :| 0 <= i < |rows| && rows[i] == b;
        assert all[i] == b && all[|rows|] == r;
      }
      forall i, j | 0 <= i < j < |rows| ensures rows[i].account != rows[j].account {
        assert all[i] == rows[i] && all[j] == rows[j];
      }
    }
    if DistinctRows(rows) && forall b :: b in rows ==> b.account != r.account {
      forall i, j | 0 <= i < j < |all| ensures all[i].account != all[j].account {
        if j == |rows| { assert all[i] in rows; }
      }
    }
  }

  lemma RowFitsIs(l: Ledger, env: Registers, r: IbRow)
    ensures RowFits(l, env, r) <==>
            RowAccepted(l, r)
            && (!IsZero(r) ==> r.account < |l.accounts| && l.accounts[r.account].active
                               && env.eligible(l.accounts[r.account]))
  {
  }

  lemma RowsValidIff(l: Ledger, env: Registers, rows: seq<IbRow>)
    ensures Validation(l, env, rows).None? <==>
            (forall r :: r in rows ==> RowFits(l, env, r)) && DistinctRows(rows)
            && SumOf(rows, IbDebit()) == SumOf(rows, IbCredit())
  {
    RowsAcceptedIff(l, rows);
    forall r ensures RowFits(l, env, r) <==>
                     RowAccepted(l, r)
                     && (!IsZero(r) ==> r.account < |l.accounts| && l.accounts[r.account].active
                                        && env.eligible(l.accounts[r.account]))
    {
      RowFitsIs(l, env, r);
    }
    hide RowsRefusal, RowFits, RowAccepted, IsZero, DistinctRows, SumOf;
  }

  /** Opening balances are saved if and only if the year takes them, the client has seen the present ones, every row
      fits, no account has two, and debit equals credit. */
  lemma SaveSucceedsIff(l: Ledger, env: Registers, year: nat, seen: Print, rows: seq<IbRow>)
    ensures Save(l, env, year, seen, rows).Ok? <==>
            && Writable(l, year) && seen == PrintOf(l.years[year]) && (forall r :: r in rows ==> RowFits(l, env, r))
            && DistinctRows(rows) && SumOf(rows, IbDebit()) == SumOf(rows, IbCredit())
  {
    WritableIs(l, year);
    RowsValidIff(l, env, rows);
    hide WriteRefusal, Writable, Validation, RowFits, DistinctRows, SumOf, PrintOf, Filter;
    if Writable(l, year) { WritableYear(l, year); }
  }

  lemma WritableYear(l: Ledger, year: nat)
    requires Writable(l, year)
    ensures year < |l.years|
  {
  }

  // ---------------------------------------------------------------- when a year is carried forward

  lemma {:induction false} CarriedRowsAre(l: Ledger, year: nat, result: nat, n: nat)
    requires year < |l.years| && n <= |l.accounts|
    ensures forall r :: r in CarriedRows(l, year, result, n) <==>
              r.account < n && CarriedNet(l, year, result, r.account) != 0
              && r == RowOf(r.account, CarriedNet(l, year, result, r.account))
    ensures DistinctRows(CarriedRows(l, year, result, n))
  {
    hide CarriedNet, DistinctRows;
    if n > 0 {
      CarriedRowsAre(l, year, result, n - 1);
      var front, net := CarriedRows(l, year, result, n - 1), CarriedNet(l, year, result, n - 1);
      if net != 0 { DistinctSnoc(front, RowOf(n - 1, net)); } else { assert front + [] == front; }
    } else {
      NoRowsDistinct();
    }
  }

  lemma NoRowsDistinct()
    ensures DistinctRows([])
  {
  }

  lemma CarriedOnBalance(l: Ledger, year: nat, result: nat, a: nat)
    requires year < |l.years| && a < |l.accounts| && result < |l.accounts| && l.accounts[result].kind == Equity
    ensures CarriedNet(l, year, result, a) != 0 ==> IsBalanceKind(l.accounts[a].kind)
  {
    hide ClosingNet, ResultNet;
  }

  lemma CarriedRowsFitIff(l: Ledger, env: Registers, s: nat, r: nat)
    requires s < |l.years| && r < |l.accounts| && l.accounts[r].kind == Equity
    ensures (forall x :: x in CarriedRows(l, s, r, |l.accounts|) ==> RowFits(l, env, x)) <==>
            forall a: nat :: a < |l.accounts| && CarriedNet(l, s, r, a) != 0 ==> Bookable(l, env, a)
  {
    CarriedRowsAre(l, s, r, |l.accounts|);
    hide CarriedNet, CarriedRows, DistinctRows;
    forall a: nat | a < |l.accounts| && CarriedNet(l, s, r, a) != 0
      ensures RowFits(l, env, RowOf(a, CarriedNet(l, s, r, a))) <==> Bookable(l, env, a)
      ensures RowOf(a, CarriedNet(l, s, r, a)) in CarriedRows(l, s, r, |l.accounts|)
    {
      CarriedOnBalance(l, s, r, a);
    }
  }

  /** A carry-forward is calculated if and only if the source is closed and the target begins the day after, takes
      opening balances, has none and no confirmed carry-forward; both stay within the size limit; the result account is
      an equity account that can be booked on; and so can every account that carries something. */
  lemma CarrySucceedsIff(l: Ledger, env: Registers, s: nat, t: nat, r: nat)
    requires Inv(l)
    ensures Calculate(l, env, s, t, r).Ok? <==>
            && s != t && s < |l.years| && Writable(l, t) && l.years[s].closed
            && l.years[t].first == l.years[s].last + 1 && l.years[t].ib == []
            && (forall c :: c in l.carries && c.target == t ==> !c.confirmed)
            && |l.accounts| <= 10000 && |l.years[s].ib| <= 10000
            && Bookable(l, env, r) && l.accounts[r].kind == Equity
            && forall a: nat :: a < |l.accounts| && CarriedNet(l, s, r, a) != 0 ==> Bookable(l, env, a)
  {
    hide *;
    CalculateParts(l, env, s, t, r);
    WritableIs(l, t);
    if Writable(l, t) { WritableYear(l, t); }
    if s < |l.years| {
      ContextIff(l, s);
      if r < |l.accounts| && l.accounts[r].kind == Equity {
        CarryChain.FullNetIsZero(l, s);
        CarryChain.CarriedRowsBalance(l, s, r);
        CarriedRowsAre(l, s, r, |l.accounts|);
        RowsValidIff(l, env, CarriedRows(l, s, r, |l.accounts|));
        CarriedRowsFitIff(l, env, s, r);
      }
    }
    BookableIs(l, env, r);
  }

  lemma BookableIs(l: Ledger, env: Registers, a: nat)
    ensures Bookable(l, env, a) <==> a < |l.accounts| && l.accounts[a].active && env.eligible(l.accounts[a])
  {
  }

  lemma ContextIff(l: Ledger, year: nat)
    requires Inv(l) && year < |l.years|
    ensures ContextError(l, year).None? <==> |l.accounts| <= 10000 && |l.years[year].ib| <= 10000
  {
    if |l.accounts| <= 10000 && |l.years[year].ib| <= 10000 { ReportLaws.ContextIsSound(l, year); }
    hide Inv, RowsSound, SumOf;
  }

  lemma CalculateParts(l: Ledger, env: Registers, s: nat, t: nat, r: nat)
    ensures Calculate(l, env, s, t, r).Ok? <==>
            && s != t && s < |l.years| && t < |l.years| && l.years[s].closed
            && l.years[t].first == l.years[s].last + 1 && WriteRefusal(l, t).None? && l.years[t].ib == []
            && (forall c :: c in l.carries && c.target == t ==> !c.confirmed)
            && ContextError(l, s).None? && r < |l.accounts| && l.accounts[r].kind == Equity && l.accounts[r].active
            && env.eligible(l.accounts[r]) && FullNet(l, s) == 0
            && Validation(l, env, CarriedRows(l, s, r, |l.accounts|)).None?
  {
    hide WriteRefusal, ContextError, FullNet, CarriedRows, Validation;
  }

  // ---------------------------------------------------------------- preview and confirmation

  /** Ledgers that differ in their carry-forwards only. */
  predicate SameBooks(l: Ledger, m: Ledger) { m.years == l.years && m.accounts == l.accounts && m.entries == l.entries }

  lemma SameNets(l: Ledger, m: Ledger, year: nat, result: nat)
    requires SameBooks(l, m) && year < |l.years|
    ensures FullNet(m, year) == FullNet(l, year) && ResultNet(m, year) == ResultNet(l, year)
    ensures forall a: nat :: CarriedNet(m, year, result, a) == CarriedNet(l, year, result, a)
  {
    SumExt(Upto(|l.accounts|), ResultPart(m, year), ResultPart(l, year));
    SumExt(Upto(|l.accounts|), ClosingPart(m, year), ClosingPart(l, year));
  }

  lemma {:induction false} SameRows(l: Ledger, m: Ledger, year: nat, result: nat, n: nat)
    requires SameBooks(l, m) && year < |l.years|
    ensures CarriedRows(m, year, result, n) == CarriedRows(l, year, result, n)
  {
    hide CarriedNet, FullNet, ResultNet;
    SameNets(l, m, year, result);
    if n > 0 { SameRows(l, m, year, result, n - 1); }
  }

  lemma SameContext(l: Ledger, m: Ledger, year: nat)
    requires SameBooks(l, m)
    ensures ContextError(m, year) == ContextError(l, year)
  {
    if year < |l.years| {
      var ib := l.years[year].ib;
      forall i | 0 <= i < |ib| ensures RowSound(m, ib[..i], ib[i]) <==> RowSound(l, ib[..i], ib[i]) {}
    }
    hide SumOf;
  }

  lemma {:induction false} SameRefusal(l: Ledger, m: Ledger, rows: seq<IbRow>)
    requires SameBooks(l, m)
    ensures RowsRefusal(m, rows) == RowsRefusal(l, rows)
  {
    if |rows| > 0 { SameRefusal(l, m, rows[..|rows| - 1]); }
  }

  lemma SameValidation(l: Ledger, m: Ledger, env: Registers, rows: seq<IbRow>)
    requires SameBooks(l, m)
    ensures Validation(m, env, rows) == Validation(l, env, rows)
  {
    SameRefusal(l, m, rows);
    hide RowsRefusal, SumOf, IsZero;
  }

  lemma SameWrite(l: Ledger, m: Ledger, year: nat)
    requires SameBooks(l, m)
    ensures WriteRefusal(m, year) == WriteRefusal(l, year)
  {
  }

  lemma SameCarryRefusal(l: Ledger, m: Ledger, env: Registers, s: nat, t: nat, r: nat)
    requires SameBooks(l, m) && (HasConfirmed(m, t) <==> HasConfirmed(l, t))
    ensures CarryRefusal(m, env, s, t, r) == CarryRefusal(l, env, s, t, r)
  {
    if s < |l.years| {
      SameRows(l, m, s, r, |l.accounts|);
      SameNets(l, m, s, r);
      SameValidation(l, m, env, CarriedRows(l, s, r, |l.accounts|));
    }
    SameContext(l, m, s);
    SameWrite(l, m, t);
    hide HasConfirmed, CarriedRows, CarriedNet, FullNet, ResultNet, Validation, ContextError, WriteRefusal, SumOf;
  }

  lemma SamePlan(l: Ledger, m: Ledger, s: nat, t: nat, r: nat)
    requires SameBooks(l, m) && s < |l.years| && t < |l.years|
    ensures PlanOf(m, s, t, r) == PlanOf(l, s, t, r)
  {
    SameRows(l, m, s, r, |l.accounts|);
    SameNets(l, m, s, r);
    hide CarriedRows, CarriedNet, FullNet, ResultNet, SumOf, Map;
  }

  lemma SameCalculation(l: Ledger, m: Ledger, env: Registers, s: nat, t: nat, r: nat)
    requires SameBooks(l, m) && (HasConfirmed(m, t) <==> HasConfirmed(l, t))
    ensures Calculate(m, env, s, t, r) == Calculate(l, env, s, t, r)
  {
    SameCarryRefusal(l, m, env, s, t, r);
    if s < |l.years| && t < |l.years| { SamePlan(l, m, s, t, r); }
    hide CarryRefusal, PlanOf;
    RefusedOutside(l, env, s, t, r);
  }

  lemma RefusedOutside(l: Ledger, env: Registers, s: nat, t: nat, r: nat)
    ensures CarryRefusal(l, env, s, t, r).None? ==> s < |l.years| && t < |l.years|
  {
    hide WriteRefusal, ContextError, FullNet, CarriedRows, Validation, HasConfirmed;
  }

  lemma PreviewAdds(l: Ledger, env: Registers, s: nat, t: nat, r: nat, actor: string, now: int, m: Ledger)
    requires Preview(l, env, s, t, r, actor, now) == Ok(m)
    ensures Calculate(l, env, s, t, r).Ok? && SameBooks(l, m) && m.series == l.series
    ensures m.carries
            == l.carries + [Carry(s, t, r, actor, Calculate(l, env, s, t, r).value, now + 900000, false)]
    ensures HasConfirmed(m, t) <==> HasConfirmed(l, t)
  {
    hide CarryRefusal, PlanOf;
    assert forall c :: c in m.carries <==> c in l.carries || c == m.carries[|l.carries|];
  }

  /** What a preview shows: both years with their days, the result account and the result, the rows with their two equal
      totals, and the accounts as they are named and classified. */
  lemma PlanShows(l: Ledger, env: Registers, s: nat, t: nat, r: nat)
    requires Inv(l) && Calculate(l, env, s, t, r).Ok?
    ensures s < |l.years| && t < |l.years|
    ensures var plan := Calculate(l, env, s, t, r).value;
            && plan.source == s && plan.target == t && plan.result == r
            && plan.sourceSpan == (l.years[s].first, l.years[s].last)
            && plan.targetSpan == (l.years[t].first, l.years[t].last)
            && plan.resultNet == ResultNet(l, s) && plan.rows == CarriedRows(l, s, r, |l.accounts|)
            && plan.debit == SumOf(plan.rows, IbDebit()) && plan.credit == SumOf(plan.rows, IbCredit())
            && plan.debit == plan.credit && |plan.accounts| == |l.accounts|
            && forall a :: 0 <= a < |l.accounts| ==>
               plan.accounts[a] == (l.accounts[a].number, l.accounts[a].name, l.accounts[a].kind)
  {
    CalculateParts(l, env, s, t, r);
    CarryChain.FullNetIsZero(l, s);
    CarryChain.CarriedRowsBalance(l, s, r);
    hide Inv, CarryRefusal, CarriedRows, ResultNet, SumOf;
  }

  /** A preview is confirmed on the unchanged ledger if and only if the same user does so within fifteen minutes. */
  lemma PreviewConfirmsIff(l: Ledger, env: Registers, s: nat, t: nat, r: nat, actor: string, now: int, m: Ledger,
        actor': string, now': int)
    requires Preview(l, env, s, t, r, actor, now) == Ok(m)
    ensures Confirm(m, env, |l.carries|, actor', now').Ok? <==> actor' == actor && now' < now + 15 * 60 * 1000
  {
    PreviewAdds(l, env, s, t, r, actor, now, m);
    SameCalculation(l, m, env, s, t, r);
    hide Calculate, HasConfirmed, PlanOf;
  }

  /** A confirmed carry-forward writes the rows of its preview as the opening balances of its target, and nothing else
      but the mark that it is confirmed. */
  lemma ConfirmWritesPreview(l: Ledger, env: Registers, id: nat, actor: string, now: int, m: Ledger)
    requires Confirm(l, env, id, actor, now) == Ok(m)
    ensures id < |l.carries| && m.accounts == l.accounts && m.entries == l.entries && m.series == l.series
    ensures var c := l.carries[id];
            && c.actor == actor && now < c.expires && c.target < |l.years| && |m.years| == |l.years|
            && m.carries == l.carries[id := c.(confirmed := true)]
            && m.years[c.target].ib == c.plan.rows
            && m.years == l.years[c.target := l.years[c.target].(ib := c.plan.rows,
                                                                stamp := l.years[c.target].stamp + 1)]
  {
    ConfirmChecks(l, env, id, actor, now);
    hide ConfirmRefusal, PlanOf, Calculate;
  }

  lemma ConfirmChecks(l: Ledger, env: Registers, id: nat, actor: string, now: int)
    requires ConfirmRefusal(l, env, id, actor, now).None?
    ensures id < |l.carries| && l.carries[id].actor == actor && now < l.carries[id].expires
    ensures var c := l.carries[id];
            && c.source < |l.years| && c.target < |l.years| && PlanOf(l, c.source, c.target, c.result) == c.plan
  {
    hide WriteRefusal, ContextError, FullNet, CarriedRows, Validation, HasConfirmed, ResultNet, SumOf;
  }
}
