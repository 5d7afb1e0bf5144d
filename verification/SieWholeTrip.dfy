/** From the bytes of an SIE file into the ledger, and out of the ledger as bytes again. */
module SieWholeTrip {
  import opened Common
  import opened LedgerModel
  import opened SieImport
  import opened SieLedger
  import AccountingData
  import ImportSteps
  import LedgerMachine
  import OpeningBalances
  import ReportLaws
  import SieBalances
  import SieExport
  import SieExportable
  import SieImportService
  import SieLines
  import SieParser
  import SieRoundTrip
  import SieSound
  import SieText

  // ---------------------------------------------------------------- the export of a year

  datatype Failure = Refused(error: LedgerModel.Error) | Unsupported(problem: SieExport.ExportError)

  /** Nothing is exported from opening balances that do not validate. */
  function ExportYear(l: Ledger, year: nat, names: Names,
        collate: SieExport.Collation): Result<seq<SieText.Byte>, Failure> {
    var unsound := AccountingData.ContextError(l, year);
    if unsound.Some? then Err(Refused(unsound.value))
    else
      var text := SieExport.Export(ExportDataOf(l, year, names), collate);
      if text.Err? then Err(Unsupported(text.error))
      else
        var bytes := SieText.Encode(text.value);
        if bytes.None? then Err(Unsupported(SieExport.NotEncodable)) else Ok(bytes.value)
  }

  /** A file is decoded, parsed and imported. */
  method ReadFile(db: Store, r: Review, year: nat, bytes: seq<SieText.Byte>) returns (error: Option<LedgerModel.Error>)
    modifies db
    ensures Import(old(db.State()), r, year, SieParser.Parse(SieText.Decode(bytes)))
            == if error.None? then Ok(db.State()) else Err(error.value)
    ensures error.Some? ==> db.State() == old(db.State())
  {
    hide Import, SieParser.Parse, SieText.Decode;
    var doc := SieParser.ParseSie4(SieText.Decode(bytes));
    error := SieImportService.ImportDocument(db, r, year, doc);
  }

  method WriteYear(db: Store, year: nat, names: Names, collate: SieExport.Collation)
    returns (r: Result<seq<SieText.Byte>, Failure>)
    ensures r == ExportYear(db.State(), year, names, collate)
  {
    hide ExportedVouchers, SieExport.AllRecords, SieExport.Texts, SieLines.Joined, SieParser.Parse, SieText.Encode;
    var unsound, _, _, _ := AccountingData.ReadContext(db, year);
    if unsound.Some? { return Err(Refused(unsound.value)); }
    var balances := ExportBalances(db, year);
    var y := db.years[year];
    var data := SieExport.ExportData(names.generated, Map(db.accounts, ExportedAccount()), balances,
      SieParser.Span(DayText(y.first), DayText(y.last)),
                                     names.name, names.number, ExportedVouchers(db.State(), year), names.objects);
    assert data == ExportDataOf(db.State(), year, names);
    var text := SieExport.ExportSie4(data, collate);
    if text.Err? { return Err(Unsupported(text.error)); }
    var bytes := SieText.Encode(text.value);
    r := if bytes.None? then Err(Unsupported(SieExport.NotEncodable)) else Ok(bytes.value);
  }

  // ---------------------------------------------------------------- what two documents share

  ghost predicate SameVouchers(d: SieParser.Document, d': SieParser.Document) {
    multiset(Map(d.vouchers, KeptOf())) == multiset(Map(d'.vouchers, KeptOf()))
  }

  lemma KeptMember(vs: seq<SieParser.Voucher>, vs': seq<SieParser.Voucher>, v': SieParser.Voucher)
    returns (v: SieParser.Voucher)
    requires multiset(Map(vs', KeptOf())) == multiset(Map(vs, KeptOf())) && v' in vs'
    ensures v in vs && KeptOf()(v) == KeptOf()(v')
  {
    hide KeptOf;
    var i :| 0 <= i < |vs'| && vs'[i] == v';
    assert Map(vs', KeptOf())[i] in multiset(Map(vs, KeptOf()));
    var j :| 0 <= j < |vs| && Map(vs, KeptOf())[j] == KeptOf()(v');
    v := vs[j];
  }

  lemma KeptLines(v: SieParser.Voucher, v': SieParser.Voucher, x': SieParser.Transaction)
    returns (x: SieParser.Transaction)
    requires KeptOf()(v) == KeptOf()(v') && x' in v'.transactions
    ensures x in v.transactions && KeptLine()(x) == KeptLine()(x')
  {
    hide KeptLine;
    var i :| 0 <= i < |v'.transactions| && v'.transactions[i] == x';
    assert Map(v.transactions, KeptLine())[i] == Map(v'.transactions, KeptLine())[i];
    x := v.transactions[i];
  }

  // ---------------------------------------------------------------- exported vouchers are well formed and canonical

  lemma {:induction false} LineFits(collate: SieExport.Collation, x: SieParser.Transaction, x': SieParser.Transaction)
    requires KeptLine()(x) == KeptLine()(x') && SieSound.GoodTransaction(x)
    ensures SieRoundTrip.WellFormedLine(x')
    ensures KeptLine()(SieRoundTrip.CanonicalLine(collate)(x')) == KeptLine()(x')
  {
    hide SieSound.IsAmount, SieSound.IsIsoDate, SieRoundTrip.CanonicalMoney, SieRoundTrip.CanonicalDay,
         SieParser.CentsOf, Sort;
    forall o | o in x'.objects ensures SieParser.IsDimension(o.dimension) {
      assert o in KeptLine()(x').objects && o in KeptLine()(x).objects;
    }
    SieExportable.CanonicalCents(x'.amount);
    if x'.date.Some? { CanonicalIso(x'.date.value); }
    forall o ensures o in Sort(x'.objects, SieExport.ByDimension(collate)) <==> o in x'.objects {
      SortMembers(x'.objects, SieExport.ByDimension(collate), o);
    }
  }

  lemma CanonicalIso(s: string)
    requires SieSound.IsIsoDate(s)
    ensures SieRoundTrip.CanonicalDay(s) == s && s != ""
  {
    var digits :| SieText.ParseDate(digits) == Some(s);
    SieText.IsoRoundTrip(digits);
    hide SieText.WithoutDashes;
  }

  lemma VoucherFits(collate: SieExport.Collation, v: SieParser.Voucher, v': SieParser.Voucher)
    requires KeptOf()(v) == KeptOf()(v') && SieSound.GoodVoucher(v)
    ensures SieRoundTrip.WellFormedVoucher(v')
    ensures KeptOf()(SieRoundTrip.CanonicalVoucher(collate)(v')) == KeptOf()(v')
  {
    hide KeptLine, SieRoundTrip.CanonicalLine, SieRoundTrip.WellFormedLine, SieRoundTrip.CanonicalDay,
         SieSound.GoodTransaction, SieSound.IsIsoDate, SieText.Value;
    CanonicalIso(v.date);
    forall x' | x' in v'.transactions
      ensures SieRoundTrip.WellFormedLine(x') && KeptLine()(SieRoundTrip.CanonicalLine(collate)(x')) == KeptLine()(x')
    {
      var x := KeptLines(v, v', x');
      LineFits(collate, x, x');
    }
    MapSame(v'.transactions, SieRoundTrip.CanonicalLine(collate), KeptLine());
  }

  /** A change that the view does not see. */
  lemma MapSame<T, U>(s: seq<T>, change: T -> T, view: T -> U)
    requires forall x :: x in s ==> view(change(x)) == view(x)
    ensures Map(Map(s, change), view) == Map(s, view)
  {
    forall i | 0 <= i < |s| ensures view(change(s[i])) == view(s[i]) { assert s[i] in s; }
  }

  lemma {:induction false} DataFits(data: SieExport.ExportData, vs: seq<SieParser.Voucher>,
        collate: SieExport.Collation)
    requires multiset(Map(data.vouchers, KeptOf())) == multiset(Map(vs, KeptOf()))
    requires forall v :: v in vs ==> SieSound.GoodVoucher(v)
    ensures forall v' :: v' in data.vouchers ==> SieRoundTrip.WellFormedVoucher(v')
    ensures multiset(Map(SieRoundTrip.Canonical(data, collate).vouchers, KeptOf())) == multiset(Map(vs, KeptOf()))
  {
    hide KeptOf, SieSound.GoodVoucher, SieRoundTrip.CanonicalVoucher, SieRoundTrip.WellFormedVoucher, Sort;
    forall v' | v' in data.vouchers
      ensures SieRoundTrip.WellFormedVoucher(v') && KeptOf()(SieRoundTrip.CanonicalVoucher(collate)(v')) == KeptOf()(v')
    {
      var v := KeptMember(vs, data.vouchers, v');
      VoucherFits(collate, v, v');
    }
    var sorted := Sort(data.vouchers, SieExport.ByDate(collate));
    forall v' | v' in sorted ensures KeptOf()(SieRoundTrip.CanonicalVoucher(collate)(v')) == KeptOf()(v') {
      SortMembers(data.vouchers, SieExport.ByDate(collate), v');
    }
    MapSame(sorted, SieRoundTrip.CanonicalVoucher(collate), KeptOf());
    MapMultiset(sorted, data.vouchers, KeptOf());
    CanonicalVouchersAre(data, collate);
  }

  lemma CanonicalVouchersAre(data: SieExport.ExportData, collate: SieExport.Collation)
    ensures SieRoundTrip.Canonical(data, collate).vouchers
            == Map(Sort(data.vouchers, SieExport.ByDate(collate)), SieRoundTrip.CanonicalVoucher(collate))
    ensures SieRoundTrip.Canonical(data, collate).errors == []
  {
    hide Map, Sort, SieRoundTrip.CanonicalVoucher;
  }

  // ---------------------------------------------------------------- file to ledger to file

  /** Importing a file into an empty year and exporting the year gives a file that reads without errors and has
      the same vouchers: series, number, date, and lines in order with account, amount, date and objects. */
  lemma {:induction false} FileSurvives(l: Ledger, r: Review, year: nat, bytes: seq<SieText.Byte>, names: Names,
        collate: SieExport.Collation)
    requires EmptyYear(l, year) && Import(l, r, year, SieParser.Parse(SieText.Decode(bytes))).Ok?
    requires forall o :: o in names.objects ==> SieParser.IsDimension(o.dimension)
    requires ExportYear(Import(l, r, year, SieParser.Parse(SieText.Decode(bytes))).value, year, names, collate).Ok?
    ensures var m := Import(l, r, year, SieParser.Parse(SieText.Decode(bytes))).value;
            var again := SieParser.Parse(SieText.Decode(ExportYear(m, year, names, collate).value));
            again.errors == [] && SameVouchers(again, SieParser.Parse(SieText.Decode(bytes)))
  {
    var content := SieText.Decode(bytes);
    var doc := SieParser.Parse(content);
    hide Import, SieParser.Parse, SieText.Decode, SieText.Encode, ExportYear, KeptOf, SieExport.Export,
         SieRoundTrip.Canonical, SieRoundTrip.WellFormedVoucher, SieSound.GoodVoucher, SieSound.Sound, ExportedVouchers;
    var m := Import(l, r, year, doc).value;
    ReadsAgain(l, r, year, bytes, names, collate);
    var data := ExportDataOf(m, year, names);
    CanonicalVouchersAre(data, collate);
  }

  /** The exported file reads back as the canonical form of the exported data, whose vouchers are those imported. */
  lemma {:induction false} ReadsAgain(l: Ledger, r: Review, year: nat, bytes: seq<SieText.Byte>, names: Names,
        collate: SieExport.Collation)
    requires EmptyYear(l, year) && Import(l, r, year, SieParser.Parse(SieText.Decode(bytes))).Ok?
    requires forall o :: o in names.objects ==> SieParser.IsDimension(o.dimension)
    requires ExportYear(Import(l, r, year, SieParser.Parse(SieText.Decode(bytes))).value, year, names, collate).Ok?
    ensures year < |Import(l, r, year, SieParser.Parse(SieText.Decode(bytes))).value.years|
    ensures var m := Import(l, r, year, SieParser.Parse(SieText.Decode(bytes))).value;
            var again := SieRoundTrip.Canonical(ExportDataOf(m, year, names), collate);
            && SieParser.Parse(SieText.Decode(ExportYear(m, year, names, collate).value)) == again
            && SameVouchers(again, SieParser.Parse(SieText.Decode(bytes)))
  {
    var content := SieText.Decode(bytes);
    var doc := SieParser.Parse(content);
    hide Import, SieParser.Parse, SieText.Decode, SieText.Encode, ExportYear, KeptOf, SieExport.Export,
         SieRoundTrip.Canonical, SieRoundTrip.WellFormedVoucher, SieSound.GoodVoucher, SieSound.Sound, ExportedVouchers;
    var m := Import(l, r, year, doc).value;
    SieBalances.ImportedYear(l, r, year, doc);
    VouchersSurvive(l, r, year, content);
    SieSound.Soundness(content);
    GoodVouchersOf(doc);
    ExportParts(m, year, names, collate);
    var data := ExportDataOf(m, year, names);
    DataFits(data, doc.vouchers, collate);
    SieRoundTrip.BytesRoundTrip(data, collate);
  }

  lemma {:induction false} ExportParts(l: Ledger, year: nat, names: Names, collate: SieExport.Collation)
    requires ExportYear(l, year, names, collate).Ok?
    ensures AccountingData.ContextError(l, year).None? && year < |l.years|
    ensures SieExport.Export(ExportDataOf(l, year, names), collate).Ok?
    ensures SieText.Encode(SieExport.Export(ExportDataOf(l, year, names), collate).value)
            == Some(ExportYear(l, year, names, collate).value)
  {
    hide ExportDataOf, SieExport.AllRecords, SieExport.Texts, SieLines.Joined, SieParser.Parse, SieText.Encode;
  }

  // ---------------------------------------------------------------- movements in the file again

  function KeptOn(number: string): Kept -> int { (x: Kept) => if x.account == number then x.cents else 0 }

  function KeptSum(number: string): KeptVoucher -> int { (v: KeptVoucher) => SumOf(v.lines, KeptOn(number)) }

  lemma {:induction false} MovedIsKept(vs: seq<SieParser.Voucher>, number: string)
    ensures SumOf(SieParser.AllLines(vs), SieParser.OnAccount(number)) == SumOf(Map(vs, KeptOf()), KeptSum(number))
  {
    hide SieParser.CentsOf;
    if |vs| > 0 {
      var n := |vs| - 1;
      MovedIsKept(vs[..n], number);
      SumAppend(SieParser.AllLines(vs[..n]), vs[n].transactions, SieParser.OnAccount(number));
      SumMap(vs[n].transactions, KeptLine(), KeptOn(number));
      SumExt(vs[n].transactions, Then(KeptLine(), KeptOn(number)), SieParser.OnAccount(number));
      assert KeptSum(number)(KeptOf()(vs[n])) == SumOf(vs[n].transactions, SieParser.OnAccount(number));
      hide SumOf;
      SumSnoc(Map(vs[..n], KeptOf()), KeptOf()(vs[n]), KeptSum(number));
      MapSnoc(vs[..n], vs[n], KeptOf());
      assert vs == vs[..n] + [vs[n]];
    }
  }

  lemma {:induction false} SameMovement(d: SieParser.Document, d': SieParser.Document, number: string)
    requires SameVouchers(d, d')
    ensures SumOf(SieParser.AllLines(d.vouchers), SieParser.OnAccount(number))
            == SumOf(SieParser.AllLines(d'.vouchers), SieParser.OnAccount(number))
  {
    hide SumOf, SieParser.AllLines, KeptOf;
    MovedIsKept(d.vouchers, number);
    MovedIsKept(d'.vouchers, number);
    SumPermuted(Map(d.vouchers, KeptOf()), Map(d'.vouchers, KeptOf()), KeptSum(number));
  }

  // ---------------------------------------------------------------- opening amounts in the file again

  predicate Lists(bs: seq<SieExport.ExportBalance>, number: string) { exists b :: b in bs && b.account == number }

  lemma ListsSnoc(bs: seq<SieExport.ExportBalance>, b: SieExport.ExportBalance, number: string)
    ensures Lists(bs + [b], number) <==> Lists(bs, number) || b.account == number
  {
    assert b in bs + [b];
  }

  lemma PartPrinted(accounts: seq<SieParser.Account>, front: seq<SieParser.Opening>, b: SieExport.ExportBalance,
        number: string)
    ensures SieParser.OpeningOf(front + SieRoundTrip.OpeningPart(accounts, b), number)
            == if !SieExport.IsResultKind(SieExport.KindIn(accounts, b.account)) && b.account == number
               then SieParser.CentsOf(SieRoundTrip.CanonicalMoney(b.opening)) else SieParser.OpeningOf(front, number)
  {
    hide SieParser.CentsOf, SieRoundTrip.CanonicalMoney, SieExport.KindIn, SieExport.IsResultKind;
    if SieExport.IsResultKind(SieExport.KindIn(accounts, b.account)) {
      assert front + [] == front;
    } else {
      assert (front + SieRoundTrip.OpeningPart(accounts, b))[..|front|] == front;
    }
  }

  /** The printed openings give every listed account that is not a result account its amount. */
  lemma {:induction false} OpeningPrinted(accounts: seq<SieParser.Account>, bs: seq<SieExport.ExportBalance>,
        number: string, cents: int)
    requires forall b :: b in bs && b.account == number ==>
             SieParser.CentsOf(SieRoundTrip.CanonicalMoney(b.opening)) == cents
    ensures SieParser.OpeningOf(SieRoundTrip.CanonicalOpenings(accounts, bs), number)
            == if Lists(bs, number) && !SieExport.IsResultKind(SieExport.KindIn(accounts, number)) then cents else 0
  {
    hide SieParser.CentsOf, SieRoundTrip.CanonicalMoney, Lists, SieExport.KindIn, SieExport.IsResultKind;
    if |bs| > 0 {
      var n := |bs| - 1;
      var b, front := bs[n], SieRoundTrip.CanonicalOpenings(accounts, bs[..n]);
      OpeningPrinted(accounts, bs[..n], number, cents);
      ListsSnoc(bs[..n], b, number);
      assert bs == bs[..n] + [b];
      PartPrinted(accounts, front, b, number);
      hide SieParser.OpeningOf, SieRoundTrip.OpeningPart;
    } else {
      NothingListed(bs, number);
    }
  }

  lemma NothingListed(bs: seq<SieExport.ExportBalance>, number: string)
    requires bs == []
    ensures !Lists(bs, number)
  {
  }

  lemma {:induction false} OpeningBounded(openings: seq<SieParser.Opening>, number: string)
    ensures Abs(SieParser.OpeningOf(openings, number)) < SieText.Pow10(18)
  {
    hide SieText.MoneyCents;
    if |openings| > 0 {
      OpeningBounded(openings[..|openings| - 1], number);
      if SieText.MoneyCents(openings[|openings| - 1].amount).Some? {
        SieText.MoneyIsBounded(openings[|openings| - 1].amount);
      }
    }
    PowPositive();
    hide SieText.Pow10;
  }

  lemma PowPositive()
    ensures SieText.Pow10(18) > 0
  {
    SieText.PowGrows(0, 18);
  }

  lemma {:induction false} PrintedCents(cents: int)
    requires Abs(cents) < SieText.Pow10(18)
    ensures SieParser.CentsOf(SieRoundTrip.CanonicalMoney(SieText.CentsMoney(cents))) == cents
  {
    SieText.MoneyRoundTrip(cents);
    hide SieText.MoneyCents, SieText.CentsMoney, SieText.Pow10;
  }

  lemma {:induction false} ResultAccountIn(accounts: seq<Account>, number: string) returns (a: nat)
    requires SieExport.IsResultKind(SieExport.KindIn(Map(accounts, ExportedAccount()), number))
    ensures a < |accounts| && accounts[a].number == number && !IsBalanceKind(accounts[a].kind)
  {
    var n := |accounts| - 1;
    assert Map(accounts, ExportedAccount())[..n] == Map(accounts[..n], ExportedAccount());
    if accounts[n].number == number { a := n; } else { a := ResultAccountIn(accounts[..n], number); }
  }

  /** What the import and the export say of the opening amount of one account number. */
  ghost predicate OpensAs(m: Ledger, year: nat, number: string, cents: int)
    requires year < |m.years|
  {
    && (forall a: nat :: a < |m.accounts| && m.accounts[a].number == number ==>
       ExportedBalance(m, year)(a).opening == SieText.CentsMoney(cents))
    && (FindAccount(m.accounts, number).None? ==> cents == 0)
    && (SieExport.IsResultKind(SieExport.KindIn(Map(m.accounts, ExportedAccount()), number)) ==> cents == 0)
    && Abs(cents) < SieText.Pow10(18)
  }

  lemma {:induction false} PrintedAs(m: Ledger, year: nat, collate: SieExport.Collation, number: string, cents: int)
    requires year < |m.years| && OpensAs(m, year, number, cents)
    ensures var bs := Map(OpeningBalances.Upto(|m.accounts|), ExportedBalance(m, year));
            SieParser.OpeningOf(SieRoundTrip.CanonicalOpenings(Map(m.accounts, ExportedAccount()),
              Sort(bs, SieExport.ByAccount(collate))), number) == cents
  {
    hide SieText.CentsMoney, SieRoundTrip.CanonicalMoney, SieParser.OpeningOf, SieRoundTrip.CanonicalOpenings,
         SieParser.CentsOf, ClosingOn, Sort, Lists, SieExport.KindIn, SieText.Pow10, AccountingData.OpeningNet, Abs,
         FindAccount;
    var bs := Map(OpeningBalances.Upto(|m.accounts|), ExportedBalance(m, year));
    var sorted := Sort(bs, SieExport.ByAccount(collate));
    PrintedCents(cents);
    forall b | b in sorted && b.account == number
      ensures SieParser.CentsOf(SieRoundTrip.CanonicalMoney(b.opening)) == cents
    {
      SortMembers(bs, SieExport.ByAccount(collate), b);
      var a := BalanceOf(m, year, b);
    }
    OpeningPrinted(Map(m.accounts, ExportedAccount()), sorted, number, cents);
    if FindAccount(m.accounts, number).Some? { AccountListed(m, year, collate, FindAccount(m.accounts, number).value); }
  }

  lemma {:induction false} ImportOpensAs(l: Ledger, r: Review, year: nat, content: string, number: string)
    requires LedgerMachine.Inv(l) && EmptyYear(l, year) && Import(l, r, year, SieParser.Parse(content)).Ok?
    ensures year < |Import(l, r, year, SieParser.Parse(content)).value.years|
    ensures OpensAs(Import(l, r, year, SieParser.Parse(content)).value, year, number,
            SieParser.OpeningOf(SieParser.Parse(content).openings, number))
  {
    var doc := SieParser.Parse(content);
    hide Import, SieParser.Parse, LedgerMachine.Inv, LedgerMachine.Grows, SieText.CentsMoney, SieParser.OpeningOf,
         ClosingOn, SieParser.ClosingOf, SieExport.KindIn, SieText.Pow10, AccountingData.OpeningNet, Abs, FindAccount,
         Map, SieExport.IsResultKind;
    SieBalances.ImportedYear(l, r, year, doc);
    var m := Import(l, r, year, doc).value;
    SieBalances.BalancesSurvive(l, r, year, content);
    OpeningBounded(doc.openings, number);
    if FindAccount(m.accounts, number).None? { SieBalances.NothingDropped(l, r, year, content, number); }
    if SieExport.IsResultKind(SieExport.KindIn(Map(m.accounts, ExportedAccount()), number)) {
      var a := ResultAccountIn(m.accounts, number);
      SieBalances.NetsSurvive(l, r, year, content, a);
      ImportSteps.ImportKeeps(l, r, year, content);
      ResultOpensAtZero(m, year, a);
    }
  }

  lemma BalanceOf(m: Ledger, year: nat, b: SieExport.ExportBalance) returns (a: nat)
    requires year < |m.years| && b in Map(OpeningBalances.Upto(|m.accounts|), ExportedBalance(m, year))
    ensures a < |m.accounts| && b == ExportedBalance(m, year)(a)
  {
    hide ExportedBalance;
    var i :| 0 <= i < |m.accounts| && Map(OpeningBalances.Upto(|m.accounts|), ExportedBalance(m, year))[i] == b;
    a := i;
  }

  lemma {:induction false} AccountListed(m: Ledger, year: nat, collate: SieExport.Collation, a: nat)
    requires year < |m.years| && a < |m.accounts|
    ensures Lists(Sort(Map(OpeningBalances.Upto(|m.accounts|), ExportedBalance(m, year)), SieExport.ByAccount(collate)),
            m.accounts[a].number)
  {
    var bs := Map(OpeningBalances.Upto(|m.accounts|), ExportedBalance(m, year));
    assert bs[a].account == m.accounts[a].number;
    SortMembers(bs, SieExport.ByAccount(collate), bs[a]);
    hide Sort, Map;
  }

  lemma ResultOpensAtZero(m: Ledger, year: nat, a: nat)
    requires LedgerMachine.Inv(m) && year < |m.years| && a < |m.accounts| && !IsBalanceKind(m.accounts[a].kind)
    ensures AccountingData.OpeningNet(m.years[year].ib, a) == 0
  {
    assert LedgerMachine.IbOk(m, m.years[year].ib);
    hide LedgerMachine.Inv, LedgerMachine.IbOk;
    ReportLaws.ResultAccountOpensAtZero(m, m.years[year].ib, a);
  }

  /** In the file that comes out, every account number has the opening and the closing amount it had in the file
      that went in. */
  lemma {:induction false} FileBalancesSurvive(l: Ledger, r: Review, year: nat, bytes: seq<SieText.Byte>, names: Names,
        collate: SieExport.Collation, number: string)
    requires LedgerMachine.Inv(l) && EmptyYear(l, year)
    requires Import(l, r, year, SieParser.Parse(SieText.Decode(bytes))).Ok?
    requires forall o :: o in names.objects ==> SieParser.IsDimension(o.dimension)
    requires ExportYear(Import(l, r, year, SieParser.Parse(SieText.Decode(bytes))).value, year, names, collate).Ok?
    ensures var doc := SieParser.Parse(SieText.Decode(bytes));
            var m := Import(l, r, year, doc).value;
            var again := SieParser.Parse(SieText.Decode(ExportYear(m, year, names, collate).value));
            && SieParser.OpeningOf(again.openings, number) == SieParser.OpeningOf(doc.openings, number)
            && SieParser.ClosingOf(again, number) == SieParser.ClosingOf(doc, number)
  {
    var doc := SieParser.Parse(SieText.Decode(bytes));
    hide Import, SieParser.Parse, SieText.Decode, SieText.Encode, ExportYear, SieExport.Export, ExportDataOf,
         SieRoundTrip.Canonical, SameVouchers, LedgerMachine.Inv, SieParser.OpeningOf, SieParser.AllLines, SumOf,
         OpensAs;
    var m := Import(l, r, year, doc).value;
    FileSurvives(l, r, year, bytes, names, collate);
    ExportParts(m, year, names, collate);
    var again := SieParser.Parse(SieText.Decode(ExportYear(m, year, names, collate).value));
    SameMovement(again, doc, number);
    ImportOpensAs(l, r, year, SieText.Decode(bytes), number);
    PrintedAs(m, year, collate, number, SieParser.OpeningOf(doc.openings, number));
    ReadsAgain(l, r, year, bytes, names, collate);
    CanonicalOpeningsAre(m, year, names, collate);
  }

  lemma CanonicalOpeningsAre(m: Ledger, year: nat, names: Names, collate: SieExport.Collation)
    requires year < |m.years|
    ensures SieRoundTrip.Canonical(ExportDataOf(m, year, names), collate).openings
            == SieRoundTrip.CanonicalOpenings(Map(m.accounts, ExportedAccount()),
                                              Sort(Map(OpeningBalances.Upto(|m.accounts|), ExportedBalance(m, year)),
                                                SieExport.ByAccount(collate)))
  {
    hide Map, Sort, ExportedVouchers, SieRoundTrip.CanonicalOpenings, SieRoundTrip.CanonicalVoucher;
  }
}
