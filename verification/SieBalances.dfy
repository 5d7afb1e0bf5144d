/** Importing a document into an empty year and exporting the year keeps every account's balances. */
module SieBalances {
  import opened Common
  import opened LedgerModel
  import opened LedgerMachine
  import opened SieImport
  import opened SieLedger
  import AccountingData
  import ImportSteps
  import OpeningBalances
  import SieParser
  import SieSound
  import SieText

  // ---------------------------------------------------------------- opening balances

  lemma FoundIs(accounts: seq<Account>, a: nat, number: string)
    requires AccountsOk(accounts) && a < |accounts| && FindAccount(accounts, number).Some?
    ensures FindAccount(accounts, number).value == a <==> accounts[a].number == number
  {
    var f := FindAccount(accounts, number).value;
    assert f < a || f == a || a < f;
  }

  lemma {:induction false} NeverOpened(openings: seq<SieParser.Opening>, number: string)
    requires forall b :: b in openings ==> b.account != number
    ensures SieParser.OpeningOf(openings, number) == 0
  {
    if |openings| > 0 { NeverOpened(openings[..|openings| - 1], number); }
  }

  lemma RowNet(a: nat, f: nat, cents: int)
    ensures AccountingData.OpeningNet([], a) == 0
    ensures AccountingData.OpeningNet([OpeningBalances.RowOf(f, cents)], a) == if f == a then cents else 0
  {
    SumOne(OpeningBalances.RowOf(f, cents), AccountingData.IbOn(a));
  }

  /** The row of one opening amount weighs its amount on its own account only. */
  lemma OpeningRowNet(l: Ledger, b: SieParser.Opening, a: nat)
    requires AccountsOk(l.accounts) && a < |l.accounts| && OpeningRow(l, b).Ok?
    ensures AccountingData.OpeningNet(OpeningRow(l, b).value, a) == if b.account == l.accounts[a].number
            then SieParser.CentsOf(b.amount) else 0
  {
    hide SieParser.CentsOf, AccountingData.OpeningNet, OpeningBalances.RowOf, AccountsOk;
    RowNet(a, 0, 0);
    if SieParser.CentsOf(b.amount) != 0 {
      FoundIs(l.accounts, a, b.account);
      RowNet(a, FindAccount(l.accounts, b.account).value, SieParser.CentsOf(b.amount));
    }
  }

  lemma NetAppend(rows: seq<IbRow>, more: seq<IbRow>, a: nat)
    ensures AccountingData.OpeningNet(rows + more, a)
            == AccountingData.OpeningNet(rows, a) + AccountingData.OpeningNet(more, a)
  {
    SumAppend(rows, more, AccountingData.IbOn(a));
  }

  lemma {:induction false} OpeningsNet(l: Ledger, openings: seq<SieParser.Opening>, a: nat)
    requires AccountsOk(l.accounts) && a < |l.accounts| && SieSound.DistinctOpenings(openings)
    requires OpeningRows(l, openings).Ok?
    ensures AccountingData.OpeningNet(OpeningRows(l, openings).value, a)
            == SieParser.OpeningOf(openings, l.accounts[a].number)
  {
    hide SieParser.CentsOf, AccountingData.OpeningNet, OpeningRow, AccountsOk;
    if |openings| == 0 {
      RowNet(a, 0, 0);
    } else {
      var n := |openings| - 1;
      var front, b := openings[..n], openings[n];
      OpeningsNet(l, front, a);
      OpeningRowNet(l, b, a);
      NetAppend(OpeningRows(l, front).value, OpeningRow(l, b).value, a);
      if b.account == l.accounts[a].number { NeverOpened(front, b.account); }
    }
  }

  // ---------------------------------------------------------------- voucher lines

  lemma {:induction false} LinesNet(l: Ledger, xs: seq<SieParser.Transaction>, a: nat)
    requires AccountsOk(l.accounts) && a < |l.accounts| && LinesOf(l, xs).Ok?
    ensures SumOf(LinesOf(l, xs).value, NetOn(a)) == SumOf(xs, SieParser.OnAccount(l.accounts[a].number))
  {
    hide SieParser.CentsOf, LineOf, AccountsOk;
    if |xs| > 0 {
      var n := |xs| - 1;
      var front, x := xs[..n], xs[n];
      LinesNet(l, front, a);
      var f := FindAccount(l.accounts, x.account).value;
      FoundIs(l.accounts, a, x.account);
      ImportSteps.LineOfNet(f, x);
      SumSnoc(LinesOf(l, front).value, LineOf(f, x), NetOn(a));
    }
  }

  lemma {:induction false} NothingPosted(entries: seq<Entry>, year: nat)
    requires forall e :: e in entries ==> e.year != year
    ensures PostedLines(entries, year) == []
  {
    if |entries| > 0 { NothingPosted(entries[..|entries| - 1], year); }
  }

  /** The posted lines after k appended vouchers weigh on an account what the first k vouchers do. */
  lemma {:induction false} VouchersNet(m: Ledger, n: nat, year: nat, vs: seq<SieParser.Voucher>, k: nat, a: nat)
    requires AccountsOk(m.accounts) && a < |m.accounts| && Appended(m, n, year, vs) && k <= |vs|
    requires PostedLines(m.entries[..n], year) == []
    ensures SumOf(PostedLines(m.entries[..n + k], year), NetOn(a))
            == SumOf(SieParser.AllLines(vs[..k]), SieParser.OnAccount(m.accounts[a].number))
  {
    hide MadeFrom, AccountsOk, LinesOf;
    if k > 0 {
      var j := k - 1;
      VouchersNet(m, n, year, vs, j, a);
      var e, v := m.entries[n + j], vs[j];
      assert MadeFrom(m, year, e, v);
      MadeLines(m, year, e, v);
      LinesNet(m, v.transactions, a);
      assert m.entries[..n + k][..n + j] == m.entries[..n + j] && vs[..k][..j] == vs[..j];
      hide Appended;
      SumAppend(PostedLines(m.entries[..n + j], year), e.lines, NetOn(a));
      SumAppend(SieParser.AllLines(vs[..j]), v.transactions, SieParser.OnAccount(m.accounts[a].number));
    }
  }

  lemma MadeLines(m: Ledger, year: nat, e: Entry, v: SieParser.Voucher)
    requires MadeFrom(m, year, e, v)
    ensures PostedOf(year)(e) && LinesOf(m, v.transactions) == Ok(e.lines)
  {
    hide LinesOf, IsoDay;
  }

  // ---------------------------------------------------------------- the whole year

  lemma OpenedYear(l: Ledger, year: nat, doc: SieParser.Document)
    requires year < |l.years| && l.years[year].ib == [] && WithOpenings(l, year, doc).Ok?
    ensures OpeningRows(l, doc.openings).Ok?
    ensures WithOpenings(l, year, doc).value.years[year].ib == OpeningRows(l, doc.openings).value
  {
    hide OpeningRows, AccountingData.ContextError;
  }

  lemma {:induction false} ImportedAccounts(l: Ledger, r: Review, year: nat, content: string)
    requires Inv(l) && Import(l, r, year, SieParser.Parse(content)).Ok?
    ensures AccountsOk(Import(l, r, year, SieParser.Parse(content)).value.accounts)
  {
    ImportSteps.ImportKeeps(l, r, year, content);
    hide Import, SieParser.Parse, Grows, EntriesOk, YearsOk, YearsApart, NoClosedDrafts, EntriesApart, SeriesOk,
         CarriesOk, AccountsOk;
  }

  /** The opening rows only read the accounts. */
  lemma {:induction false} SameOpeningRows(l: Ledger, m: Ledger, openings: seq<SieParser.Opening>)
    requires m.accounts == l.accounts
    ensures OpeningRows(m, openings) == OpeningRows(l, openings)
  {
    if |openings| > 0 { SameOpeningRows(l, m, openings[..|openings| - 1]); }
  }

  /** The nets of an account in the year after the import are those of the document. */
  lemma {:induction false} NetsSurvive(l: Ledger, r: Review, year: nat, content: string, a: nat)
    requires Inv(l) && EmptyYear(l, year) && Import(l, r, year, SieParser.Parse(content)).Ok?
    requires a < |Import(l, r, year, SieParser.Parse(content)).value.accounts|
    ensures var doc, m := SieParser.Parse(content), Import(l, r, year, SieParser.Parse(content)).value;
            && year < |m.years|
            && AccountingData.OpeningNet(m.years[year].ib, a) == SieParser.OpeningOf(doc.openings, m.accounts[a].number)
            && ClosingOn(m, year, a) == SieParser.ClosingOf(doc, m.accounts[a].number)
  {
    var doc := SieParser.Parse(content);
    hide Inv, Import, SieParser.Parse, WithVouchers, Appended, WithAccounts, WithOpenings, ImportRefusal, AccountsOk,
         SumOf, PostedLines, OpeningRows, SieParser.OpeningOf, SieParser.AllLines, AccountingData.OpeningNet,
         SieSound.Sound;
    ImportParts(l, r, year, doc);
    ImportSteps.ImportAllowed(l, r, year, doc);
    ImportedAccounts(l, r, year, content);
    var k := WithAccounts(l, r, doc);
    ImportSteps.AccountsOnly(l, r, doc);
    var n := WithOpenings(k, year, doc).value;
    var m := Import(l, r, year, doc).value;
    VouchersAppend(n, year, doc.vouchers);
    SoundOpenings(content);
    OpenedYear(k, year, doc);
    SameOpeningRows(k, m, doc.openings);
    OpeningsNet(m, doc.openings, a);
    NothingPosted(l.entries, year);
    AppendedSize(m, |l.entries|, year, doc.vouchers);
    VouchersNet(m, |l.entries|, year, doc.vouchers, |doc.vouchers|, a);
    assert m.entries[..|m.entries|] == m.entries && doc.vouchers[..|doc.vouchers|] == doc.vouchers;
  }

  lemma AppendedSize(m: Ledger, n: nat, year: nat, vs: seq<SieParser.Voucher>)
    requires Appended(m, n, year, vs)
    ensures |m.entries| == n + |vs|
  {
  }

  lemma SoundOpenings(content: string)
    requires SieParser.Parse(content).errors == []
    ensures SieSound.DistinctOpenings(SieParser.Parse(content).openings)
    ensures forall b :: b in SieParser.Parse(content).balances ==>
      SieSound.IsAmount(b.amount)
        && SieParser.CentsOf(b.amount) == SieParser.ClosingOf(SieParser.Parse(content), b.account)
    ensures forall b :: b in SieParser.Parse(content).openings ==>
      SieSound.IsAmount(b.amount)
        && SieParser.CentsOf(b.amount) == SieParser.OpeningOf(SieParser.Parse(content).openings, b.account)
  {
    SieSound.Soundness(content);
    hide SieParser.Parse, SieParser.CentsOf, SieParser.OpeningOf, SieParser.AllLines, SumOf, SieSound.IsAmount,
         SieSound.DistinctOpenings, SieSound.DistinctBalances, SieSound.GoodAccounts, SieSound.GoodObjects,
         SieSound.GoodYears, SieSound.GoodVouchers, SieParser.Balanced, SieParser.Outside, SieSound.LinesFit;
  }

  lemma CanonicalAmount(s: string, cents: int)
    requires SieSound.IsAmount(s) && SieParser.CentsOf(s) == cents
    ensures SieText.CentsMoney(cents) == s
  {
    hide SieText.CentsMoney, SieText.MoneyCents;
  }

  /** Every account of the ledger is exported with the opening and closing amount the document gives it, and the
      #IB, #UB and #RES amounts of the document for it are exported to the letter. */
  lemma {:induction false} BalancesSurvive(l: Ledger, r: Review, year: nat, content: string)
    requires Inv(l) && EmptyYear(l, year) && Import(l, r, year, SieParser.Parse(content)).Ok?
    ensures var doc, m := SieParser.Parse(content), Import(l, r, year, SieParser.Parse(content)).value;
            && year < |m.years|
            && (forall a: nat :: a < |m.accounts| ==> ExportedBalance(m, year)(a).account == m.accounts[a].number)
            && (forall a: nat :: a < |m.accounts| ==>
               ExportedBalance(m, year)(a).opening
                 == SieText.CentsMoney(SieParser.OpeningOf(doc.openings, m.accounts[a].number)))
            && (forall a: nat :: a < |m.accounts| ==>
               ExportedBalance(m, year)(a).closing
                 == SieText.CentsMoney(SieParser.ClosingOf(doc, m.accounts[a].number)))
            && (forall a: nat, b :: a < |m.accounts| && b in doc.openings && b.account == m.accounts[a].number ==>
               ExportedBalance(m, year)(a).opening == b.amount)
            && (forall a: nat, b :: a < |m.accounts| && b in doc.balances && b.account == m.accounts[a].number ==>
               ExportedBalance(m, year)(a).closing == b.amount)
  {
    var doc, m := SieParser.Parse(content), Import(l, r, year, SieParser.Parse(content)).value;
    hide Inv, Import, SieParser.Parse, SieText.CentsMoney, ClosingOn, SieParser.ClosingOf, SieParser.OpeningOf,
         AccountingData.OpeningNet, SieSound.IsAmount, SieParser.CentsOf;
    ImportedYear(l, r, year, doc);
    SoundOpenings(content);
    forall a: nat | a < |m.accounts|
      ensures ExportedBalance(m, year)(a).opening
              == SieText.CentsMoney(SieParser.OpeningOf(doc.openings, m.accounts[a].number))
      ensures ExportedBalance(m, year)(a).closing == SieText.CentsMoney(SieParser.ClosingOf(doc, m.accounts[a].number))
    {
      NetsSurvive(l, r, year, content, a);
    }
    forall a: nat, b | a < |m.accounts| && b in doc.openings && b.account == m.accounts[a].number
      ensures ExportedBalance(m, year)(a).opening == b.amount
    {
      CanonicalAmount(b.amount, SieParser.OpeningOf(doc.openings, b.account));
    }
    forall a: nat, b | a < |m.accounts| && b in doc.balances && b.account == m.accounts[a].number
      ensures ExportedBalance(m, year)(a).closing == b.amount
    {
      CanonicalAmount(b.amount, SieParser.ClosingOf(doc, b.account));
    }
  }

  lemma {:induction false} ImportedYear(l: Ledger, r: Review, year: nat, doc: SieParser.Document)
    requires Import(l, r, year, doc).Ok? && year < |l.years|
    ensures doc.errors == [] && year < |Import(l, r, year, doc).value.years|
  {
    hide Import, ImportRefusal, WithOpenings, WithAccounts, WithVouchers;
    ImportParts(l, r, year, doc);
    ImportSteps.ImportAllowed(l, r, year, doc);
  }

  // ---------------------------------------------------------------- accounts the ledger does not get

  lemma {:induction false} OpeningIsZero(l: Ledger, openings: seq<SieParser.Opening>, number: string)
    requires OpeningRows(l, openings).Ok? && FindAccount(l.accounts, number).None?
    ensures SieParser.OpeningOf(openings, number) == 0
  {
    hide SieParser.CentsOf;
    if |openings| > 0 { OpeningIsZero(l, openings[..|openings| - 1], number); }
  }

  lemma {:induction false} LinesAreZero(l: Ledger, xs: seq<SieParser.Transaction>, number: string)
    requires LinesOf(l, xs).Ok? && FindAccount(l.accounts, number).None?
    ensures SumOf(xs, SieParser.OnAccount(number)) == 0
  {
    hide SieParser.CentsOf, LineOf;
    if |xs| > 0 { LinesAreZero(l, xs[..|xs| - 1], number); }
  }

  lemma {:induction false} VouchersAreZero(l: Ledger, vs: seq<SieParser.Voucher>, number: string)
    requires (forall v :: v in vs ==> LinesOf(l, v.transactions).Ok?) && FindAccount(l.accounts, number).None?
    ensures SumOf(SieParser.AllLines(vs), SieParser.OnAccount(number)) == 0
  {
    hide LinesOf, FindAccount;
    if |vs| > 0 {
      var n := |vs| - 1;
      VouchersAreZero(l, vs[..n], number);
      LinesAreZero(l, vs[n].transactions, number);
      SumAppend(SieParser.AllLines(vs[..n]), vs[n].transactions, SieParser.OnAccount(number));
    }
  }

  lemma AppendedLines(m: Ledger, n: nat, year: nat, vs: seq<SieParser.Voucher>)
    requires Appended(m, n, year, vs)
    ensures forall v :: v in vs ==> LinesOf(m, v.transactions).Ok?
  {
    hide MadeFrom, LinesOf;
    forall k | 0 <= k < |vs| ensures LinesOf(m, vs[k].transactions).Ok? {
      assert MadeFrom(m, year, m.entries[n + k], vs[k]);
      MadeLines(m, year, m.entries[n + k], vs[k]);
    }
  }

  /** No amount is dropped: a number that names no account after the import carries nothing in the document. */
  lemma {:induction false} NothingDropped(l: Ledger, r: Review, year: nat, content: string, number: string)
    requires EmptyYear(l, year) && Import(l, r, year, SieParser.Parse(content)).Ok?
    requires FindAccount(Import(l, r, year, SieParser.Parse(content)).value.accounts, number).None?
    ensures SieParser.OpeningOf(SieParser.Parse(content).openings, number) == 0
    ensures SieParser.ClosingOf(SieParser.Parse(content), number) == 0
  {
    var doc := SieParser.Parse(content);
    hide Import, SieParser.Parse, WithVouchers, Appended, WithAccounts, WithOpenings, ImportRefusal, OpeningRows,
         LinesOf, SumOf, FindAccount, SieParser.OpeningOf, SieParser.AllLines;
    ImportParts(l, r, year, doc);
    var k := WithAccounts(l, r, doc);
    ImportSteps.AccountsOnly(l, r, doc);
    var n := WithOpenings(k, year, doc).value;
    var m := Import(l, r, year, doc).value;
    VouchersAppend(n, year, doc.vouchers);
    OpenedYear(k, year, doc);
    SameOpeningRows(k, m, doc.openings);
    OpeningIsZero(m, doc.openings, number);
    AppendedLines(m, |l.entries|, year, doc.vouchers);
    VouchersAreZero(m, doc.vouchers, number);
  }
}
