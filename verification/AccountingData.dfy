/** What every report and carry-forward reads: validated opening balances and posted movements. */
module AccountingData {
  import opened Common
  import opened LedgerModel

  // ---------------------------------------------------------------- posted movements

  datatype Dimensions = Dimensions(project: Option<string>, centre: Option<string>)

  const NO_DIMENSIONS := Dimensions(None, None)

  predicate InDimensions(d: Dimensions, x: Line) {
    (d.project.Some? ==> x.project == d.project) && (d.centre.Some? ==> x.centre == d.centre)
  }

  predicate PostedIn(e: Entry, year: nat, from: int, to: int) { e.posted && e.year == year && from <= e.date <= to }

  /** The posted lines of a year dated in an interval. */
  function LinesIn(entries: seq<Entry>, year: nat, from: int, to: int): seq<Line> {
    if |entries| == 0 then []
    else
      var front, e := LinesIn(entries[..|entries| - 1], year, from, to), entries[|entries| - 1];
      if PostedIn(e, year, from, to) then front + e.lines else front
  }

  predicate OfAccount(a: nat, d: Dimensions, x: Line) { x.account == a && InDimensions(d, x) }

  function DebitOn(a: nat, d: Dimensions): Line -> int { (x: Line) => if OfAccount(a, d, x) then x.debit else 0 }

  function CreditOn(a: nat, d: Dimensions): Line -> int { (x: Line) => if OfAccount(a, d, x) then x.credit else 0 }

  function NetOn(a: nat, d: Dimensions): Line -> int
  {
    (x: Line) => if OfAccount(a, d, x) then x.debit - x.credit else 0
  }

  function DebitMoved(l: Ledger, year: nat, from: int, to: int, d: Dimensions, a: nat): int
  {
    SumOf(LinesIn(l.entries, year, from, to), DebitOn(a, d))
  }

  function CreditMoved(l: Ledger, year: nat, from: int, to: int, d: Dimensions, a: nat): int
  {
    SumOf(LinesIn(l.entries, year, from, to), CreditOn(a, d))
  }

  function NetMoved(l: Ledger, year: nat, from: int, to: int, d: Dimensions, a: nat): int {
    DebitMoved(l, year, from, to, d, a) - CreditMoved(l, year, from, to, d, a)
  }

  // ---------------------------------------------------------------- opening balances

  function IbOn(a: nat): IbRow -> int { (r: IbRow) => if r.account == a then r.debit - r.credit else 0 }

  function OpeningNet(ib: seq<IbRow>, a: nat): int { SumOf(ib, IbOn(a)) }

  predicate RowSound(l: Ledger, before: seq<IbRow>, r: IbRow) {
    && r.account < |l.accounts| && IsBalanceKind(l.accounts[r.account].kind)
    && r.debit >= 0 && r.credit >= 0 && !(r.debit > 0 && r.credit > 0)
    && forall b :: b in before ==> b.account != r.account
  }

  predicate RowsSound(l: Ledger, rows: seq<IbRow>) { forall i :: 0 <= i < |rows| ==> RowSound(l, rows[..i], rows[i]) }

  const MAX_ROWS := 10000

  function ContextError(l: Ledger, year: nat): Option<Error> {
    if year >= |l.years| then Some(NotFound)
    else
      var ib := l.years[year].ib;
      if |l.accounts| > MAX_ROWS || |ib| > MAX_ROWS then Some(TooLarge)
      else if !RowsSound(l, ib) then Some(InvalidOpening)
      else if SumOf(ib, IbDebit()) != SumOf(ib, IbCredit()) then Some(UnbalancedOpening)
      else None
  }

  function Lookup(m: map<nat, int>, a: nat): int { if a in m then m[a] else 0 }

  /** The opening balances read so far, account by account. */
  ghost predicate OpeningTable(opening: map<nat, int>, rows: seq<IbRow>) {
    && (forall a :: a in opening <==> exists r :: r in rows && r.account == a)
    && (forall a: nat :: Lookup(opening, a) == OpeningNet(rows, a))
  }

  lemma OpeningTableStep(opening: map<nat, int>, rows: seq<IbRow>, r: IbRow)
    requires OpeningTable(opening, rows) && r.account !in opening
    ensures OpeningTable(opening[r.account := r.debit - r.credit], rows + [r])
  {
    var opening' := opening[r.account := r.debit - r.credit];
    forall a: nat ensures Lookup(opening', a) == OpeningNet(rows + [r], a) {
      SumSnoc(rows, r, IbOn(a));
      assert a != r.account ==> Lookup(opening', a) == Lookup(opening, a);
      assert Lookup(opening, r.account) == 0;
    }
    hide SumOf;
  }

  lemma RowsSoundStep(l: Ledger, rows: seq<IbRow>, i: nat)
    requires i < |rows|
    ensures RowsSound(l, rows[..i + 1]) <==> RowsSound(l, rows[..i]) && RowSound(l, rows[..i], rows[i])
  {
    assert forall j :: 0 <= j <= i ==> rows[..i + 1][..j] == rows[..j];
    assert forall j :: 0 <= j < i ==> rows[..i][..j] == rows[..j];
  }

  lemma RowsUnsound(l: Ledger, rows: seq<IbRow>, i: nat)
    requires i <= |rows| && !RowsSound(l, rows[..i])
    ensures !RowsSound(l, rows)
  {
    var j :| 0 <= j < i && !RowSound(l, rows[..i][..j], rows[..i][j]);
    assert rows[..i][..j] == rows[..j];
  }

  lemma NothingRead(l: Ledger, rows: seq<IbRow>)
    ensures RowsSound(l, rows[..0]) && OpeningTable(map[], rows[..0])
    ensures SumOf(rows[..0], IbDebit()) == 0 && SumOf(rows[..0], IbCredit()) == 0
  {
  }

  /** Full-year opening balances are validated before anything is reported. */
  method ReadContext(db: Store, year: nat)
    returns (error: Option<Error>, opening: map<nat, int>, debit: int, credit: int)
    ensures error == ContextError(db.State(), year)
    ensures error.None? ==> OpeningTable(opening, db.years[year].ib)
    ensures error.None? ==> debit == credit == SumOf(db.years[year].ib, IbDebit())
  {
    opening, debit, credit := map[], 0, 0;
    if year >= |db.years| { error := Some(NotFound); return; }
    var rows := db.years[year].ib;
    if |db.accounts| > MAX_ROWS || |rows| > MAX_ROWS { error := Some(TooLarge); return; }
    ghost var l := db.State();
    NothingRead(l, rows);
    hide RowsSound, RowSound, OpeningTable, SumOf;
    for i := 0 to |rows|
      invariant RowsSound(l, rows[..i]) && OpeningTable(opening, rows[..i])
      invariant debit == SumOf(rows[..i], IbDebit()) && credit == SumOf(rows[..i], IbCredit())
    {
      var row := rows[i];
      assert rows[..i + 1] == rows[..i] + [row];
      RowsSoundStep(l, rows, i);
      var sound := CheckRow(db, opening, row, rows[..i]);
      if !sound {
        RowsUnsound(l, rows, i + 1);
        error := Some(InvalidOpening);
        return;
      }
      SumSnoc(rows[..i], row, IbDebit());
      SumSnoc(rows[..i], row, IbCredit());
      debit, credit := debit + row.debit, credit + row.credit;
      OpeningTableStep(opening, rows[..i], row);
      opening := opening[row.account := row.debit - row.credit];
    }
    assert rows[..|rows|] == rows;
    error := if debit != credit then Some(UnbalancedOpening) else None;
  }

  method CheckRow(db: Store, opening: map<nat, int>, row: IbRow, ghost before: seq<IbRow>) returns (sound: bool)
    requires OpeningTable(opening, before)
    ensures sound <==> RowSound(db.State(), before, row)
    ensures sound ==> row.account !in opening
  {
    sound := row.account < |db.accounts| && IsBalanceKind(db.accounts[row.account].kind)
             && row.debit >= 0 && row.credit >= 0 && !(row.debit > 0 && row.credit > 0) && row.account !in opening;
  }
}
