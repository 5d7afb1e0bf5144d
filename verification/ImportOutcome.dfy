/** When an SIE import succeeds, in terms of checks that can be made before it starts. */
module ImportOutcome {
  import opened Common
  import opened LedgerModel
  import opened SieImport
  import AccountingData
  import OpeningBalances
  import SieParser
  import SieSound

  // ---------------------------------------------------------------- the guards

  function NonZeroOpening(): SieParser.Opening -> bool { (b: SieParser.Opening) => SieParser.CentsOf(b.amount) != 0 }

  predicate OpensBalanceAccount(l: Ledger, b: SieParser.Opening) {
    var a := FindAccount(l.accounts, b.account);
    a.Some? && IsBalanceKind(l.accounts[a.value].kind)
  }

  /** Every non-zero opening names a balance account, within the size limits; without any, the opening balances
      already stored validate. */
  predicate OpeningsFit(l: Ledger, year: nat, openings: seq<SieParser.Opening>) {
    var weighty := Filter(openings, NonZeroOpening());
    if weighty == [] then AccountingData.ContextError(l, year).None?
    else
      && (forall b :: b in weighty ==> OpensBalanceAccount(l, b))
      && |l.accounts| <= AccountingData.MAX_ROWS && |weighty| <= AccountingData.MAX_ROWS
  }

  /** The date text names a day in an open period of the year. */
  predicate DayOpen(l: Ledger, year: nat, date: string)
    requires year < |l.years|
  {
    var y, day := l.years[year], IsoDay(date);
    day.Some?
    && var p := FindPeriod(y.periods, day.value);
       p.Some? && !y.closed && !y.periods[p.value].locked
  }

  predicate LineFits(l: Ledger, year: nat, x: SieParser.Transaction)
    requires year < |l.years|
  {
    (x.date.Some? ==> DayOpen(l, year, x.date.value)) && FindAccount(l.accounts, x.account).Some?
  }

  predicate VoucherFits(l: Ledger, year: nat, v: SieParser.Voucher)
    requires year < |l.years|
  {
    DayOpen(l, year, v.date) && forall x :: x in v.transactions ==> LineFits(l, year, x)
  }

  /** The review passes, and against the accounts it leads to the openings and all vouchers fit. */
  predicate ImportGuards(l: Ledger, r: Review, year: nat, doc: SieParser.Document) {
    && ImportRefusal(l, r, year, doc).None?
    && var k := WithAccounts(l, r, doc);
       && year < |k.years| && OpeningsFit(k, year, doc.openings)
       && forall v :: v in doc.vouchers ==> VoucherFits(k, year, v)
  }

  // ---------------------------------------------------------------- vouchers

  lemma {:induction false} LinesSucceedIff(l: Ledger, xs: seq<SieParser.Transaction>)
    ensures LinesOf(l, xs).Ok? <==> forall x :: x in xs ==> FindAccount(l.accounts, x.account).Some?
  {
    hide FindAccount, LineOf;
    if |xs| > 0 {
      var n := |xs| - 1;
      LinesSucceedIff(l, xs[..n]);
      assert xs == xs[..n] + [xs[n]];
    }
  }

  lemma LineDateIff(l: Ledger, year: nat, x: SieParser.Transaction)
    requires year < |l.years|
    ensures LineDateError(l, year, x).None? <==> (x.date.Some? ==> DayOpen(l, year, x.date.value))
  {
    hide IsoDay, FindPeriod;
  }

  lemma {:induction false} LineDatesIff(l: Ledger, year: nat, xs: seq<SieParser.Transaction>)
    requires year < |l.years|
    ensures LineDatesError(l, year, xs).None? <==>
            forall x :: x in xs ==> x.date.Some? ==> DayOpen(l, year, x.date.value)
  {
    hide DayOpen, LineDateError;
    if |xs| > 0 {
      var n := |xs| - 1;
      LineDatesIff(l, year, xs[..n]);
      LineDateIff(l, year, xs[n]);
      assert xs == xs[..n] + [xs[n]];
    }
  }

  lemma VoucherFitsIff(l: Ledger, year: nat, v: SieParser.Voucher)
    requires year < |l.years|
    ensures VoucherRefusal(l, year, v).None? <==> VoucherFits(l, year, v)
  {
    LinesSucceedIff(l, v.transactions);
    LineDatesIff(l, year, v.transactions);
    hide LinesOf, LineDatesError, IsoDay, FindPeriod, FindAccount;
  }

  /** Same accounts, same calendar of the year. */
  predicate SameGround(l: Ledger, m: Ledger, year: nat) {
    && m.accounts == l.accounts && year < |l.years| && year < |m.years|
    && m.years[year].closed == l.years[year].closed && m.years[year].periods == l.years[year].periods
  }

  lemma FitsOnSameGround(l: Ledger, m: Ledger, year: nat, v: SieParser.Voucher)
    requires SameGround(l, m, year)
    ensures VoucherFits(m, year, v) <==> VoucherFits(l, year, v)
  {
    hide IsoDay, FindPeriod, FindAccount;
  }

  /** The vouchers are imported if and only if each of them fits the ledger as it was before the first. */
  lemma {:induction false} VouchersSucceedIff(l: Ledger, year: nat, vs: seq<SieParser.Voucher>)
    requires year < |l.years|
    ensures WithVouchers(l, year, vs).Ok? <==> forall v :: v in vs ==> VoucherFits(l, year, v)
  {
    hide VoucherFits, VoucherRefusal, WithSeriesFor, IsoDay, LinesOf;
    if |vs| > 0 {
      var n := |vs| - 1;
      VouchersSucceedIff(l, year, vs[..n]);
      assert vs == vs[..n] + [vs[n]];
      var front := WithVouchers(l, year, vs[..n]);
      if front.Ok? {
        VoucherFitsIff(front.value, year, vs[n]);
        FitsOnSameGround(l, front.value, year, vs[n]);
        WithVoucherIff(front.value, year, vs[n]);
      }
    }
  }

  lemma WithVoucherIff(l: Ledger, year: nat, v: SieParser.Voucher)
    requires year < |l.years|
    ensures WithVoucher(l, year, v).Ok? <==> VoucherRefusal(l, year, v).None?
  {
    hide WithSeriesFor;
  }

  // ---------------------------------------------------------------- opening balances

  lemma FilterSnoc<T(!new)>(s: seq<T>, x: T, p: T -> bool)
    ensures Filter(s + [x], p) == Filter(s, p) + if p(x) then [x] else []
  {
    assert (s + [x])[..|s|] == s;
  }

  lemma {:induction false} OpeningRowsIff(l: Ledger, openings: seq<SieParser.Opening>)
    ensures OpeningRows(l, openings).Ok? <==>
            forall b :: b in Filter(openings, NonZeroOpening()) ==> OpensBalanceAccount(l, b)
    ensures OpeningRows(l, openings).Ok? ==> |OpeningRows(l, openings).value| == |Filter(openings, NonZeroOpening())|
  {
    hide SieParser.CentsOf, FindAccount, OpeningBalances.RowOf;
    if |openings| > 0 {
      var n := |openings| - 1;
      OpeningRowsIff(l, openings[..n]);
      assert openings == openings[..n] + [openings[n]];
      FilterSnoc(openings[..n], openings[n], NonZeroOpening());
      OpeningRowIff(l, openings[n]);
      hide Filter, OpeningRow, OpensBalanceAccount, NonZeroOpening;
    }
  }

  lemma OpeningRowIff(l: Ledger, b: SieParser.Opening)
    ensures OpeningRow(l, b).Ok? <==> (NonZeroOpening()(b) ==> OpensBalanceAccount(l, b))
    ensures OpeningRow(l, b).Ok? ==> |OpeningRow(l, b).value| == if NonZeroOpening()(b) then 1 else 0
  {
    hide SieParser.CentsOf, FindAccount, OpeningBalances.RowOf;
  }

  /** Every row is on the account of one of the openings. */
  ghost predicate RowsNamed(l: Ledger, openings: seq<SieParser.Opening>, rows: seq<IbRow>) {
    forall r :: r in rows ==>
      r.account < |l.accounts| && exists b :: b in openings && b.account == l.accounts[r.account].number
  }

  lemma OpeningRowSound(l: Ledger, openings: seq<SieParser.Opening>, front: seq<IbRow>, b: SieParser.Opening)
    requires OpeningRow(l, b).Ok? && NonZeroOpening()(b) && RowsNamed(l, openings, front)
    requires forall o :: o in openings ==> o.account != b.account
    ensures |OpeningRow(l, b).value| == 1
    ensures AccountingData.RowSound(l, front, OpeningRow(l, b).value[0])
    ensures RowsNamed(l, openings + [b], front + OpeningRow(l, b).value)
  {
    hide SieParser.CentsOf;
    assert b in openings + [b];
  }

  lemma OpeningRowsSnoc(l: Ledger, openings: seq<SieParser.Opening>)
    requires OpeningRows(l, openings).Ok? && |openings| > 0
    ensures var front, b := openings[..|openings| - 1], openings[|openings| - 1];
            && OpeningRows(l, front).Ok? && OpeningRow(l, b).Ok?
            && OpeningRows(l, openings).value == OpeningRows(l, front).value + OpeningRow(l, b).value
  {
    hide OpeningRow;
  }

  lemma DistinctFront(openings: seq<SieParser.Opening>)
    requires SieSound.DistinctOpenings(openings) && |openings| > 0
    ensures var front, b := openings[..|openings| - 1], openings[|openings| - 1];
            SieSound.DistinctOpenings(front) && forall o :: o in front ==> o.account != b.account
  {
  }

  lemma NoRows(l: Ledger)
    ensures OpeningRows(l, []) == Ok([]) && AccountingData.RowsSound(l, []) && RowsNamed(l, [], [])
  {
  }

  lemma {:induction false} OpeningRowsSound(l: Ledger, openings: seq<SieParser.Opening>)
    requires OpeningRows(l, openings).Ok? && SieSound.DistinctOpenings(openings)
    ensures AccountingData.RowsSound(l, OpeningRows(l, openings).value)
    ensures RowsNamed(l, openings, OpeningRows(l, openings).value)
  {
    hide *;
    if |openings| > 0 {
      var n := |openings| - 1;
      OpeningRowsSnoc(l, openings);
      DistinctFront(openings);
      var b, front := openings[n], OpeningRows(l, openings[..n]).value;
      OpeningRowsSound(l, openings[..n]);
      assert openings == openings[..n] + [b];
      OpeningRowIff(l, b);
      var rows := OpeningRows(l, openings).value;
      if NonZeroOpening()(b) {
        OpeningRowSound(l, openings[..n], front, b);
        assert rows[..|front|] == front && rows[..|front| + 1] == rows;
        AccountingData.RowsSoundStep(l, rows, |front|);
      } else {
        assert rows == front;
        StillNamed(l, openings[..n], b, front);
      }
    } else {
      assert openings == [];
      NoRows(l);
    }
  }

  lemma StillNamed(l: Ledger, openings: seq<SieParser.Opening>, b: SieParser.Opening, rows: seq<IbRow>)
    requires RowsNamed(l, openings, rows)
    ensures RowsNamed(l, openings + [b], rows)
  {
    assert forall o :: o in openings ==> o in openings + [b];
  }

  lemma {:induction false} OpeningRowsSum(l: Ledger, openings: seq<SieParser.Opening>)
    requires OpeningRows(l, openings).Ok?
    ensures SumOf(OpeningRows(l, openings).value, IbDebit()) - SumOf(OpeningRows(l, openings).value, IbCredit())
            == SumOf(openings, SieParser.OpeningCents())
  {
    if |openings| > 0 {
      hide SieParser.CentsOf, OpeningRow;
      var n := |openings| - 1;
      var front, last := OpeningRows(l, openings[..n]).value, OpeningRow(l, openings[n]).value;
      OpeningRowsSum(l, openings[..n]);
      OpeningRowSum(l, openings[n]);
      SumAppend(front, last, IbDebit());
      SumAppend(front, last, IbCredit());
    }
  }

  lemma OpeningRowSum(l: Ledger, b: SieParser.Opening)
    requires OpeningRow(l, b).Ok?
    ensures SumOf(OpeningRow(l, b).value, IbDebit()) - SumOf(OpeningRow(l, b).value, IbCredit())
            == SieParser.CentsOf(b.amount)
  {
    hide SieParser.CentsOf;
    if SieParser.CentsOf(b.amount) != 0 {
      var row := OpeningRow(l, b).value[0];
      SumOne(row, IbDebit());
      SumOne(row, IbCredit());
    }
  }

  /** Of a sound document, the openings are accepted if and only if they fit. */
  lemma OpeningsSucceedIff(l: Ledger, year: nat, doc: SieParser.Document)
    requires year < |l.years| && SieSound.DistinctOpenings(doc.openings)
    requires SumOf(doc.openings, SieParser.OpeningCents()) == 0
    requires doc.openings != [] ==> l.years[year].ib == [] && !HasPosted(l, year)
    ensures WithOpenings(l, year, doc).Ok? <==> OpeningsFit(l, year, doc.openings)
    ensures WithOpenings(l, year, doc).Ok? ==> SameGround(l, WithOpenings(l, year, doc).value, year)
  {
    OpeningRowsIff(l, doc.openings);
    hide HasPosted, OpeningRows, OpensBalanceAccount, Filter, SumOf, NonZeroOpening, SieSound.DistinctOpenings;
    var rows := OpeningRows(l, doc.openings);
    if rows.Ok? && rows.value != [] {
      OpeningRowsSound(l, doc.openings);
      OpeningRowsSum(l, doc.openings);
      RowsAccepted(l, year, rows.value);
    }
    hide AccountingData.ContextError;
  }

  lemma RowsAccepted(l: Ledger, year: nat, rows: seq<IbRow>)
    requires year < |l.years| && AccountingData.RowsSound(l, rows) && SumOf(rows, IbDebit()) == SumOf(rows, IbCredit())
    ensures AccountingData.ContextError(OpeningBalances.WithIb(l, year, rows), year).None?
            <==> |l.accounts| <= AccountingData.MAX_ROWS && |rows| <= AccountingData.MAX_ROWS
  {
    var m := OpeningBalances.WithIb(l, year, rows);
    forall i | 0 <= i < |rows| ensures AccountingData.RowSound(m, rows[..i], rows[i]) {
      assert AccountingData.RowSound(l, rows[..i], rows[i]);
    }
  }

  // ---------------------------------------------------------------- the import

  lemma SoundOpenings(content: string)
    requires SieParser.Parse(content).errors == []
    ensures SieSound.DistinctOpenings(SieParser.Parse(content).openings)
    ensures SumOf(SieParser.Parse(content).openings, SieParser.OpeningCents()) == 0
  {
    SieSound.Soundness(content);
    hide SieParser.Parse, SieSound.DistinctOpenings, SumOf, SieSound.GoodDocument, SieParser.OpeningOf,
         SieParser.AllLines;
  }

  lemma ReviewPassed(l: Ledger, r: Review, year: nat, doc: SieParser.Document)
    requires ImportRefusal(l, r, year, doc).None?
    ensures doc.errors == [] && year < |l.years|
    ensures doc.openings != [] ==> l.years[year].ib == [] && !HasPosted(l, year)
  {
    hide HasPosted, RowConflict, Mentioned, Occupied, NeedsActivation, VoucherUses, KindMatches, MatchesYear;
  }

  lemma AccountsOnly(l: Ledger, r: Review, doc: SieParser.Document)
    ensures WithAccounts(l, r, doc) == l.(accounts := WithAccounts(l, r, doc).accounts)
  {
    hide ActivateAll, AddAccounts;
  }

  lemma PostedSame(l: Ledger, m: Ledger, year: nat)
    requires m.entries == l.entries
    ensures HasPosted(m, year) == HasPosted(l, year)
  {
  }

  /** An import of a text succeeds if and only if its guards hold. */
  lemma ImportSucceedsIff(l: Ledger, r: Review, year: nat, content: string)
    ensures Import(l, r, year, SieParser.Parse(content)).Ok? <==> ImportGuards(l, r, year, SieParser.Parse(content))
  {
    var doc := SieParser.Parse(content);
    hide SieParser.Parse, ImportRefusal, WithAccounts, WithOpenings, WithVouchers, OpeningsFit, VoucherFits, HasPosted,
         SumOf, SieSound.DistinctOpenings, SameGround;
    if ImportRefusal(l, r, year, doc).None? {
      ReviewPassed(l, r, year, doc);
      SoundOpenings(content);
      AccountsOnly(l, r, doc);
      var k := WithAccounts(l, r, doc);
      PostedSame(l, k, year);
      OpeningsSucceedIff(k, year, doc);
      var opened' := WithOpenings(k, year, doc);
      if opened'.Ok? {
        VouchersSucceedIff(opened'.value, year, doc.vouchers);
        forall v | v in doc.vouchers ensures VoucherFits(opened'.value, year, v) <==> VoucherFits(k, year, v) {
          FitsOnSameGround(k, opened'.value, year, v);
        }
      }
    }
  }
}
