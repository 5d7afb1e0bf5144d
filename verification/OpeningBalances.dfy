/** Opening balances of a year: saved by hand, or carried forward from the closed year before it. */
module OpeningBalances {
  import opened Common
  import opened LedgerModel
  import opened AccountingData

  /** The state of the rows a client has seen; empty rows look the same whatever their history. */
  datatype Print = Print(rows: seq<IbRow>, stamp: nat)

  function PrintOf(y: Year): Print { Print(y.ib, if y.ib == [] then 0 else y.stamp) }

  function WriteRefusal(l: Ledger, year: nat): Option<Error> {
    if year >= |l.years| then Some(NotFound)
    else if l.years[year].closed || HasLocked(l.years[year]) || HasPosted(l, year) then Some(IbLocked)
    else None
  }

  // ---------------------------------------------------------------- validation of rows

  predicate IsZero(r: IbRow) { r.debit == 0 && r.credit == 0 }

  function NonZero(): IbRow -> bool { (r: IbRow) => !IsZero(r) }

  function RowRefusal(l: Ledger, before: seq<IbRow>, r: IbRow): Option<Error> {
    if r.account >= |l.accounts| || !IsBalanceKind(l.accounts[r.account].kind)
      || (exists b :: b in before && b.account == r.account)
    then Some(IbAccountInvalid)
    else if !l.accounts[r.account].active && !IsZero(r) then Some(IbInactive)
    else if r.debit < 0 || r.credit < 0 || (r.debit > 0 && r.credit > 0) then Some(IbRowInvalid)
    else None
  }

  function RowsRefusal(l: Ledger, rows: seq<IbRow>): Option<Error> {
    if |rows| == 0 then None
    else
      var front := RowsRefusal(l, rows[..|rows| - 1]);
      if front.Some? then front else RowRefusal(l, rows[..|rows| - 1], rows[|rows| - 1])
  }

  predicate RowsBookable(l: Ledger, env: Registers, rows: seq<IbRow>) {
    forall r :: r in rows && !IsZero(r) ==>
      r.account < |l.accounts| && l.accounts[r.account].active && env.eligible(l.accounts[r.account])
  }

  function Validation(l: Ledger, env: Registers, rows: seq<IbRow>): Option<Error> {
    if RowsRefusal(l, rows).Some? then RowsRefusal(l, rows)
    else if !RowsBookable(l, env, rows) then Some(NotEligible)
    else if SumOf(rows, IbDebit()) != SumOf(rows, IbCredit()) then Some(IbUnbalanced)
    else None
  }

  function WithIb(l: Ledger, year: nat, rows: seq<IbRow>): Ledger
    requires year < |l.years|
  {
    WithYear(l, year, l.years[year].(ib := rows, stamp := l.years[year].stamp + 1))
  }

  /** Saving replaces all rows; the client must have seen the present ones. */
  function Save(l: Ledger, env: Registers, year: nat, expected: Print, rows: seq<IbRow>): Outcome {
    if WriteRefusal(l, year).Some? then Err(WriteRefusal(l, year).value)
    else if PrintOf(l.years[year]) != expected then Err(IbConflict)
    else if Validation(l, env, rows).Some? then Err(Validation(l, env, rows).value)
    else Ok(WithIb(l, year, Filter(rows, NonZero())))
  }

  // ---------------------------------------------------------------- carry-forward

  /** Opening balance plus all posted movements of the year. */
  function ClosingNet(l: Ledger, year: nat, a: nat): int
    requires year < |l.years|
  {
    OpeningNet(l.years[year].ib, a) + NetMoved(l, year, l.years[year].first, l.years[year].last, NO_DIMENSIONS, a)
  }

  function ResultPart(l: Ledger, year: nat): nat -> int
    requires year < |l.years|
  {
    (a: nat) => if a < |l.accounts| && !IsBalanceKind(l.accounts[a].kind)
                then NetMoved(l, year, l.years[year].first, l.years[year].last, NO_DIMENSIONS, a) else 0
  }

  function ClosingPart(l: Ledger, year: nat): nat -> int
    requires year < |l.years|
  {
    (a: nat) => ClosingNet(l, year, a)
  }

  function Upto(n: nat): (r: seq<nat>)
    ensures |r| == n && forall i :: 0 <= i < n ==> r[i] == i
  {
    seq(n, i => i)
  }

  /** Net of all revenue and expense accounts. */
  function ResultNet(l: Ledger, year: nat): int
    requires year < |l.years|
  {
    SumOf(Upto(|l.accounts|), ResultPart(l, year))
  }

  function FullNet(l: Ledger, year: nat): int
    requires year < |l.years|
  {
    SumOf(Upto(|l.accounts|), ClosingPart(l, year))
  }

  /** What an account carries into the next year: balance accounts their closing balance, and the chosen
      result account the result of the year as well. */
  function CarriedNet(l: Ledger, year: nat, result: nat, a: nat): int
    requires year < |l.years|
  {
    (if a < |l.accounts| && IsBalanceKind(l.accounts[a].kind) then ClosingNet(l, year, a) else 0)
    + (if a == result then ResultNet(l, year) else 0)
  }

  function Positive(n: int): int { if n > 0 then n else 0 }

  function RowOf(a: nat, net: int): IbRow { IbRow(a, Positive(net), Positive(-net)) }

  /** One row for each of the first n accounts that carries something. */
  function CarriedRows(l: Ledger, year: nat, result: nat, n: nat): seq<IbRow>
    requires year < |l.years|
  {
    if n == 0 then []
    else
      var net := CarriedNet(l, year, result, n - 1);
      CarriedRows(l, year, result, n - 1) + if net != 0 then [RowOf(n - 1, net)] else []
  }

  function View(): Account -> (string, string, Kind) { (a: Account) => (a.number, a.name, a.kind) }

  predicate HasConfirmed(l: Ledger, target: nat) { exists c :: c in l.carries && c.target == target && c.confirmed }

  function CarryRefusal(l: Ledger, env: Registers, s: nat, t: nat, r: nat): Option<Error> {
    if s == t then Some(SameYear)
    else if s >= |l.years| || t >= |l.years| then Some(NotFound)
    else if !l.years[s].closed then Some(SourceOpen)
    else if l.years[t].first != l.years[s].last + 1 then Some(NotAdjacent)
    else if WriteRefusal(l, t).Some? then WriteRefusal(l, t)
    else if l.years[t].ib != [] || HasConfirmed(l, t) then Some(TargetExists)
    else if ContextError(l, s).Some? then ContextError(l, s)
    else if r >= |l.accounts| || !l.accounts[r].kind.Equity? || !l.accounts[r].active then Some(ResultAccountInvalid)
    else if !env.eligible(l.accounts[r]) then Some(NotEligible)
    else if FullNet(l, s) != 0 then Some(SourceUnbalanced)
    else Validation(l, env, CarriedRows(l, s, r, |l.accounts|))
  }

  function PlanOf(l: Ledger, s: nat, t: nat, r: nat): CarryPlan
    requires s < |l.years| && t < |l.years|
  {
    var rows := CarriedRows(l, s, r, |l.accounts|);
    CarryPlan(s, t, (l.years[s].first, l.years[s].last), (l.years[t].first, l.years[t].last), r, ResultNet(l, s), rows,
              SumOf(rows, IbDebit()), SumOf(rows, IbCredit()), Map(l.accounts, View()))
  }

  function Calculate(l: Ledger, env: Registers, s: nat, t: nat, r: nat): Result<CarryPlan, Error> {
    var refusal := CarryRefusal(l, env, s, t, r);
    if refusal.Some? then Err(refusal.value) else Ok(PlanOf(l, s, t, r))
  }

  /** A preview is kept for fifteen minutes. */
  const PREVIEW_TIME := 900000

  function Preview(l: Ledger, env: Registers, s: nat, t: nat, r: nat, actor: string, now: int): Outcome {
    var plan := Calculate(l, env, s, t, r);
    if plan.Err? then Err(plan.error)
    else Ok(l.(carries := l.carries + [Carry(s, t, r, actor, plan.value, now + PREVIEW_TIME, false)]))
  }

  function ConfirmRefusal(l: Ledger, env: Registers, id: nat, actor: string, now: int): Option<Error> {
    if id >= |l.carries| || l.carries[id].actor != actor then Some(NotFound)
    else
      var c := l.carries[id];
      if c.expires <= now then Some(PreviewExpired)
      else
        var plan := Calculate(l, env, c.source, c.target, c.result);
        if plan.Err? then Some(plan.error) else if plan.value != c.plan then Some(SourceChanged) else None
  }

  /** Confirming computes the carry-forward again and accepts only the result that was previewed. */
  function Confirm(l: Ledger, env: Registers, id: nat, actor: string, now: int): Outcome {
    var refusal := ConfirmRefusal(l, env, id, actor, now);
    if refusal.Some? then Err(refusal.value)
    else
      var c := l.carries[id];
      Ok(WithIb(l, c.target, PlanOf(l, c.source, c.target, c.result).rows)
        .(carries := l.carries[id := c.(confirmed := true)]))
  }
}
