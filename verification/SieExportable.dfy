/** When an export succeeds: the printer, its read-back check and the code page refuse nothing else. */
module SieExportable {
  import opened Common
  import opened SieText
  import opened SieTokens
  import opened SieLines
  import opened SieParser
  import opened SieExport
  import opened SieReplay
  import opened SieRoundTrip
  import opened SiePrints
  import opened SieAccepts
  import SieSound

  // ---------------------------------------------------------------- what the records must satisfy one by one

  predicate AccountFits(a: Account) { IsAccountNumber(a.number) && IsText(a.name) && IsName(a.name) }

  predicate ObjectPrintsWell(o: SieObject) { ObjectFits(o) && IsText(o.name) }

  predicate LinePrintsWell(x: Transaction) {
    LineFits(x) && MoneyCents(x.amount).Some? && DateFits(x.date) && IsText(TextOrNone(x.text))
  }

  predicate VoucherPrintsWell(v: Voucher) {
    HeadFits(v) && SieDate(v.date).Some? && IsText(v.text) && forall x :: x in v.transactions ==> LinePrintsWell(x)
  }

  function BalanceKey(): ExportBalance -> string { (b: ExportBalance) => b.account }

  // ---------------------------------------------------------------- and across records

  /** The day lies in the year, in the order of their texts. */
  predicate Within(date: string, year: Span) { !Outside(CanonicalDay(date), Some(CanonicalYear(year))) }

  predicate DeclaredIn(objects: seq<SieObject>, o: ObjectRef) {
    exists c :: c in objects && c.dimension == o.dimension && c.id == o.id
  }

  predicate LineChecks(data: ExportData, x: Transaction) {
    && (x.date.Some? && x.date.value != "" ==> Within(x.date.value, data.year))
    && forall o :: o in x.objects ==> DeclaredIn(data.objects, o)
  }

  predicate VoucherChecks(data: ExportData, v: Voucher) {
    Balanced(v) && Within(v.date, data.year) && forall x :: x in v.transactions ==> LineChecks(data, x)
  }

  function MovedOn(account: string): Voucher -> int { (v: Voucher) => SumOf(v.transactions, OnAccount(account)) }

  function OpeningRead(): ExportBalance -> int { (b: ExportBalance) => CentsOf(b.opening) }

  /** The balances open in balance, and each closes at its opening plus what the vouchers move. */
  predicate BalancesCheck(data: ExportData) {
    && Unique(data.balances, BalanceKey())
    && SumOf(data.balances, OpeningRead()) == 0
    && forall b :: b in data.balances ==>
       CentsOf(b.closing) == CentsOf(b.opening) + SumOf(data.vouchers, MovedOn(b.account))
  }

  /** Everything an export needs. */
  predicate Exportable(data: ExportData) {
    && HeaderFits(data) && YearInOrder(data.year)
    && (forall a :: a in data.accounts ==> AccountFits(a)) && Unique(data.accounts, AccountKey())
    && (forall b :: b in data.balances ==> BalanceFits(data.accounts, b)) && BalancesCheck(data)
    && (forall o :: o in data.objects ==> ObjectPrintsWell(o)) && Unique(data.objects, ObjectKey())
    && (forall v :: v in data.vouchers ==> VoucherPrintsWell(v) && VoucherChecks(data, v))
       && Unique(data.vouchers, VoucherKey())
  }

  // ---------------------------------------------------------------- printing

  lemma IdentifierIsText(s: string)
    requires IsIdentifier(s)
    ensures IsText(s)
  {
    forall c | c in s ensures !IsControl(c) && c != '\\' && EncodeChar(c).Some? { IdentifierCharEncodes(c); }
    PlainIsUnambiguous(s);
  }

  predicate PrintsData(data: ExportData) {
    && HeaderFits(data)
    && (forall a :: a in data.accounts ==> IsAccountNumber(a.number) && IsText(a.name))
    && (forall b :: b in data.balances ==> BalanceFits(data.accounts, b))
    && (forall o :: o in data.objects ==> IsText(o.id) && IsText(o.name))
    && (forall v :: v in data.vouchers ==> PrintsVoucher(v))
  }

  predicate PrintsLine(x: Transaction) {
    (forall o :: o in x.objects ==> IsText(o.id)) && MoneyCents(x.amount).Some? && DateFits(x.date)
      && IsText(TextOrNone(x.text))
  }

  predicate PrintsVoucher(v: Voucher) {
    IsText(v.series) && SieDate(v.date).Some? && IsText(v.text) && forall x :: x in v.transactions ==> PrintsLine(x)
  }

  lemma VoucherRecordsPrint(v: Voucher, collate: Collation)
    requires WellFormedVoucher(v)
    ensures Prints(VoucherRecords(collate)(v)) <==> PrintsVoucher(v)
  {
    VoucherPrints(v, collate);
    hide Prints, VoucherRecords, LineRecords, IsText, SieDate, MoneyCents, DateFits;
    forall x | x in v.transactions ensures Prints(LineRecords(collate)(x)) <==> PrintsLine(x) {
      LinePrints(x, collate);
    }
  }

  lemma SortedAll<T(!new)>(s: seq<T>, cmp: (T, T) -> int)
    ensures forall x :: x in Sort(s, cmp) <==> x in s
  {
    forall x ensures x in Sort(s, cmp) <==> x in s { SortMembers(s, cmp, x); }
  }

  lemma AllPrint(data: ExportData, collate: Collation)
    requires WellFormed(data)
    ensures Prints(AllRecords(data, collate)) <==> PrintsData(data)
  {
    hide Chain, Each, Prints, HeaderRecords, AccountRecords, BalanceRecords, ObjectRecords, VoucherRecords, Sort,
         WellFormedVoucher, IsDimension, IsText, PrintsVoucher, HeaderFits, BalanceFits, IsAccountNumber;
    var accounts, bs := Sort(data.accounts, ByNumber(collate)), Sort(data.balances, ByAccount(collate));
    var os, vs := Sort(data.objects, ByIdentity(collate)), Sort(data.vouchers, ByDate(collate));
    SortedAll(data.accounts, ByNumber(collate));
    SortedAll(data.balances, ByAccount(collate));
    SortedAll(data.objects, ByIdentity(collate));
    SortedAll(data.vouchers, ByDate(collate));
    HeaderPrints(data);
    FixedEncode();
    forall a | a in accounts ensures Prints(AccountRecords()(a)) <==> IsAccountNumber(a.number) && IsText(a.name) {
      AccountPrints(a);
    }
    EachPrints(accounts, AccountRecords());
    forall b | b in bs ensures Prints(BalanceRecords(data.accounts)(b)) <==> BalanceFits(data.accounts, b) {
      BalancePrints(data.accounts, b);
    }
    EachPrints(bs, BalanceRecords(data.accounts));
    forall o | o in os ensures Prints(ObjectRecords()(o)) <==> IsText(o.id) && IsText(o.name) { ObjectPrints(o); }
    EachPrints(os, ObjectRecords());
    forall v | v in vs ensures Prints(VoucherRecords(collate)(v)) <==> PrintsVoucher(v) {
      VoucherRecordsPrint(v, collate);
    }
    EachPrints(vs, VoucherRecords(collate));
    var s1 := Chain(HeaderRecords(data), Each(accounts, AccountRecords()));
    var s2 := Chain(s1, Each(bs, BalanceRecords(data.accounts)));
    var s3 := Chain(s2, Ok(DIMENSIONS));
    var s4 := Chain(s3, Each(os, ObjectRecords()));
    ChainPrints(HeaderRecords(data), Each(accounts, AccountRecords()));
    ChainPrints(s1, Each(bs, BalanceRecords(data.accounts)));
    ChainPrints(s2, Ok(DIMENSIONS));
    ChainPrints(s3, Each(os, ObjectRecords()));
    ChainPrints(s4, Each(vs, VoucherRecords(collate)));
  }

  // ---------------------------------------------------------------- reading

  predicate AcceptsData(data: ExportData) {
    && YearInOrder(data.year)
    && (forall a :: a in data.accounts ==> IsName(a.name)) && Unique(data.accounts, AccountKey())
    && (forall o :: o in data.objects ==> ObjectFits(o)) && Unique(data.objects, ObjectKey())
    && (forall v :: v in data.vouchers ==> VoucherFits(v)) && Unique(data.vouchers, VoucherKey())
  }

  lemma AllAccepted(data: ExportData, collate: Collation)
    requires WellFormed(data) && AllRecords(data, collate).Ok?
    ensures Run(START, AllRecords(data, collate).value).Some? <==> AcceptsData(data)
  {
    hide Chain, Each, Run, HeaderRecords, AccountRecords, BalanceRecords, ObjectRecords, VoucherRecords, Sort,
         WellFormedVoucher, CanonicalOpenings, CanonicalBalances, CanonicalVoucher, CanonicalYear, TypesAfter, Map,
         IsDimension, YearInOrder, IsName, ObjectFits, VoucherFits, Unique;
    var accounts, bs := Sort(data.accounts, ByNumber(collate)), Sort(data.balances, ByAccount(collate));
    var os, vs := Sort(data.objects, ByIdentity(collate)), Sort(data.vouchers, ByDate(collate));
    SortedAll(data.accounts, ByNumber(collate));
    SortedAll(data.objects, ByIdentity(collate));
    SortedAll(data.vouchers, ByDate(collate));
    UniquePermuted(accounts, data.accounts, AccountKey());
    UniquePermuted(os, data.objects, ObjectKey());
    UniquePermuted(vs, data.vouchers, VoucherKey());
    var s1 := Chain(HeaderRecords(data), Each(accounts, AccountRecords()));
    var s2 := Chain(s1, Each(bs, BalanceRecords(data.accounts)));
    var s3 := Chain(s2, Ok(DIMENSIONS));
    var s4 := Chain(s3, Each(os, ObjectRecords()));
    RunChainIff(START, s4, Each(vs, VoucherRecords(collate)));
    RunChainIff(START, s3, Each(os, ObjectRecords()));
    RunChainIff(START, s2, Ok(DIMENSIONS));
    RunChainIff(START, s1, Each(bs, BalanceRecords(data.accounts)));
    RunChainIff(START, HeaderRecords(data), Each(accounts, AccountRecords()));
    HeaderAccepted(data);
    if YearInOrder(data.year) {
      RunHeader(data);
      var r0 := Run(START, HeaderRecords(data).value).value;
      AccountsAccepted(r0, accounts);
      if Run(START, s1.value).Some? {
        RunAccounts(r0, accounts);
        var r1 := Run(START, s1.value).value;
        BalancesAccepted(r1, data.accounts, bs);
        RunBalances(r1, data.accounts, bs);
        var r2 := Run(START, s2.value).value;
        RunDimensions(r2);
        ObjectsAccepted(r2, os);
        if Run(START, s4.value).Some? {
          RunObjects(r2, os);
          VouchersAccepted(Run(START, s4.value).value, vs, collate);
        }
      }
    }
  }

  // ---------------------------------------------------------------- checking

  predicate ChecksPass(d: Document) {
    && VouchersErrors(d, d.vouchers) == [] && OpeningErrors(d.openings) == [] && SumOf(d.openings, OpeningCents()) == 0
    && BalanceErrors(d, d.balances) == []
  }

  /** Once all records have been read, the checks across them decide. */
  lemma FinishIff(r: Reader, d: Document)
    requires r.doc == d.(accounts := r.doc.accounts) && d.errors == [] && r.typeSeen && !r.open && !r.block
    ensures Finish(r).errors == [] <==> ChecksPass(d)
  {
    var e := r.doc.(accounts := Typed(r.doc.accounts, r.types));
    SieSound.ErrorsOfChecks(d, e);
    hide Typed, VouchersErrors, OpeningErrors, BalanceErrors, SumOf;
  }

  lemma {:induction false} ObjectErrorsIff(d: Document, refs: seq<ObjectRef>)
    ensures ObjectErrors(d, refs) == [] <==> forall o :: o in refs ==> Declared(d, o)
  {
    if |refs| > 0 {
      ObjectErrorsIff(d, refs[..|refs| - 1]);
      assert refs == refs[..|refs| - 1] + [refs[|refs| - 1]];
      hide Declared;
    }
  }

  lemma {:induction false} LinesErrorsIff(d: Document, xs: seq<Transaction>)
    ensures LinesErrors(d, xs) == [] <==> forall x :: x in xs ==> LineErrors(d, x) == []
  {
    hide LineErrors;
    if |xs| > 0 {
      LinesErrorsIff(d, xs[..|xs| - 1]);
      assert xs == xs[..|xs| - 1] + [xs[|xs| - 1]];
    }
  }

  lemma {:induction false} VouchersErrorsIff(d: Document, vs: seq<Voucher>)
    ensures VouchersErrors(d, vs) == [] <==> forall v :: v in vs ==> VoucherErrors(d, v) == []
  {
    hide VoucherErrors;
    if |vs| > 0 {
      VouchersErrorsIff(d, vs[..|vs| - 1]);
      assert vs == vs[..|vs| - 1] + [vs[|vs| - 1]];
    }
  }

  lemma CanonicalCents(s: string)
    ensures CentsOf(CanonicalMoney(s)) == CentsOf(s)
  {
    if MoneyCents(s).Some? { MoneyIsBounded(s); }
    hide MoneyCents, CentsMoney, Pow10;
  }

  lemma LineChecksIff(data: ExportData, d: Document, x: Transaction, collate: Collation)
    requires d.fiscalYear == Some(CanonicalYear(data.year)) && forall c :: c in d.objects <==> c in data.objects
    ensures LineErrors(d, CanonicalLine(collate)(x)) == [] <==> LineChecks(data, x)
  {
    var y := CanonicalLine(collate)(x);
    SortedAll(x.objects, ByDimension(collate));
    ObjectErrorsIff(d, y.objects);
    forall o ensures Declared(d, o) <==> DeclaredIn(data.objects, o) {}
    hide Sort, CanonicalDay, CanonicalMoney, CanonicalYear, Outside, ObjectErrors, Declared, DeclaredIn;
  }

  lemma BalancedIff(v: Voucher, collate: Collation)
    ensures Balanced(CanonicalVoucher(collate)(v)) <==> Balanced(v)
  {
    var g := CanonicalLine(collate);
    var xs := v.transactions;
    hide CanonicalMoney, CanonicalDay, Sort;
    forall x | x in xs ensures LineCents()(g(x)) == LineCents()(x) && NonZero()(g(x)) == NonZero()(x) {
      CanonicalCents(x.amount);
    }
    hide CentsOf, CanonicalLine;
    SumMap(xs, g, LineCents());
    SumExt(xs, Then(g, LineCents()), LineCents());
    FilterMap(xs, g, NonZero());
    FilterExt(xs, Then(g, NonZero()), NonZero());
  }

  lemma MapAll<T(!new), U(!new)>(s: seq<T>, g: T -> U, p: U -> bool)
    ensures (forall y :: y in Map(s, g) ==> p(y)) <==> forall x :: x in s ==> p(g(x))
  {
    var m := Map(s, g);
    forall x | x in s ensures g(x) in m {
      var i :| 0 <= i < |s| && s[i] == x;
      assert m[i] == g(x);
    }
    forall y | y in m ensures exists x :: x in s && y == g(x) {
      var i :| 0 <= i < |m| && m[i] == y;
      assert s[i] in s;
    }
  }

  function LinePasses(d: Document): Transaction -> bool { (x: Transaction) => LineErrors(d, x) == [] }

  function VoucherPasses(d: Document): Voucher -> bool { (v: Voucher) => VoucherErrors(d, v) == [] }

  lemma VoucherErrorsAre(d: Document, v: Voucher)
    ensures VoucherErrors(d, v) == [] <==>
            Balanced(v) && !Outside(v.date, d.fiscalYear) && LinesErrors(d, v.transactions) == []
  {
    hide Balanced, Outside, LinesErrors;
  }

  lemma VoucherChecksIff(data: ExportData, d: Document, v: Voucher, collate: Collation)
    requires d.fiscalYear == Some(CanonicalYear(data.year)) && forall c :: c in d.objects <==> c in data.objects
    ensures VoucherErrors(d, CanonicalVoucher(collate)(v)) == [] <==> VoucherChecks(data, v)
  {
    var w := CanonicalVoucher(collate)(v);
    var g := CanonicalLine(collate);
    assert w.transactions == Map(v.transactions, g) && w.date == CanonicalDay(v.date);
    hide CanonicalVoucher, Balanced, LineErrors, LinesErrors, LineChecks, CanonicalLine, CanonicalDay, CanonicalYear,
         Outside, VoucherErrors, Map;
    BalancedIff(v, collate);
    VoucherErrorsAre(d, w);
    LinesErrorsIff(d, w.transactions);
    MapAll(v.transactions, g, LinePasses(d));
    forall x | x in v.transactions ensures LinePasses(d)(g(x)) == LineChecks(data, x) {
      LineChecksIff(data, d, x, collate);
    }
    assert (forall y :: y in w.transactions ==> LinePasses(d)(y)) <==> LinesErrors(d, w.transactions) == [];
  }

  // ---------------------------------------------------------------- balances

  function OpeningName(): Opening -> string { (b: Opening) => b.account }

  function ReportedName(): Balance -> string { (b: Balance) => b.account }

  lemma {:induction false} OpeningErrorsIff(openings: seq<Opening>)
    ensures OpeningErrors(openings) == [] <==> Unique(openings, OpeningName())
  {
    if |openings| > 0 {
      var front, b := openings[..|openings| - 1], openings[|openings| - 1];
      assert openings == front + [b];
      OpeningErrorsIff(front);
      UniqueSnoc(front, b, OpeningName());
      assert OpensAccount(front, b.account) <==> !Missing(front, OpeningName(), b.account);
      hide Unique, Missing, OpensAccount;
    }
  }

  lemma {:induction false} BalanceErrorsIff(d: Document, balances: seq<Balance>)
    ensures BalanceErrors(d, balances) == [] <==>
            Unique(balances, ReportedName()) && forall b :: b in balances ==>
              ClosingOf(d, b.account) == CentsOf(b.amount)
  {
    if |balances| > 0 {
      var front, b := balances[..|balances| - 1], balances[|balances| - 1];
      assert balances == front + [b];
      BalanceErrorsIff(d, front);
      UniqueSnoc(front, b, ReportedName());
      assert Reported(front, b.account) <==> !Missing(front, ReportedName(), b.account);
      hide Unique, Missing, Reported, ClosingOf, CentsOf;
    }
  }

  lemma CanonicalNames(accounts: seq<Account>, s: seq<ExportBalance>, account: string)
    ensures Missing(Map(s, CanonicalBalances(accounts)), ReportedName(), account) <==> Missing(s, BalanceKey(), account)
  {
    hide CanonicalMoney, KindIn, IsResultKind;
    var m := Map(s, CanonicalBalances(accounts));
    forall x | x in m ensures exists b :: b in s && b.account == x.account {
      var i :| 0 <= i < |m| && m[i] == x;
      assert s[i] in s;
    }
    forall b | b in s ensures exists x :: x in m && x.account == b.account {
      var i :| 0 <= i < |s| && s[i] == b;
      assert m[i] in m;
    }
  }

  lemma {:induction false} BalancesUnique(accounts: seq<Account>, s: seq<ExportBalance>)
    ensures Unique(Map(s, CanonicalBalances(accounts)), ReportedName()) <==> Unique(s, BalanceKey())
  {
    hide Unique, Missing, CanonicalBalances, Map;
    if |s| > 0 {
      var front, b := s[..|s| - 1], s[|s| - 1];
      var g := CanonicalBalances(accounts);
      assert s == front + [b];
      BalancesUnique(accounts, front);
      MapSnoc(front, b, g);
      UniqueSnoc(front, b, BalanceKey());
      UniqueSnoc(Map(front, g), g(b), ReportedName());
      CanonicalNames(accounts, front, b.account);
      CanonicalName(accounts, b);
    } else {
      MapNothing(s, CanonicalBalances(accounts), []);
      NothingRepeats(s, BalanceKey());
      NothingRepeats(Map(s, CanonicalBalances(accounts)), ReportedName());
    }
  }

  lemma CanonicalName(accounts: seq<Account>, b: ExportBalance)
    ensures CanonicalBalances(accounts)(b).account == b.account
    ensures CentsOf(CanonicalBalances(accounts)(b).amount) == CentsOf(b.closing)
  {
    CanonicalCents(b.closing);
    hide CanonicalMoney, KindIn, IsResultKind, CentsOf;
  }

  /** A balance that fits opens, where it has an opening record, with the amount of the data; elsewhere with nothing. */
  lemma PartOpens(accounts: seq<Account>, b: ExportBalance)
    requires BalanceFits(accounts, b)
    ensures SumOf(OpeningPart(accounts, b), OpeningCents()) == CentsOf(b.opening)
    ensures OpeningPart(accounts, b) == [] ==> CentsOf(b.opening) == 0
    ensures OpeningPart(accounts, b) != [] ==>
            OpeningPart(accounts, b) == [Opening(b.account, CanonicalMoney(b.opening), "0")]
  {
    CanonicalCents(b.opening);
    hide CanonicalMoney, KindIn, MoneyCents, IsResultKind;
    if OpeningPart(accounts, b) != [] { SumOne(Opening(b.account, CanonicalMoney(b.opening), "0"), OpeningCents()); }
  }

  lemma {:induction false} OpeningsSum(accounts: seq<Account>, s: seq<ExportBalance>)
    requires forall b :: b in s ==> BalanceFits(accounts, b)
    ensures SumOf(CanonicalOpenings(accounts, s), OpeningCents()) == SumOf(s, OpeningRead())
  {
    hide OpeningPart, BalanceFits, CentsOf;
    if |s| > 0 {
      var front, b := s[..|s| - 1], s[|s| - 1];
      OpeningsSum(accounts, front);
      PartOpens(accounts, b);
      SumAppend(CanonicalOpenings(accounts, front), OpeningPart(accounts, b), OpeningCents());
    }
  }

  lemma OpeningOfSnoc(openings: seq<Opening>, b: Opening, account: string)
    ensures OpeningOf(openings + [b], account) == if b.account == account then CentsOf(b.amount)
            else OpeningOf(openings, account)
  {
    assert (openings + [b])[..|openings|] == openings;
  }

  lemma OpeningsSnoc(accounts: seq<Account>, front: seq<ExportBalance>, b: ExportBalance, k: string)
    requires BalanceFits(accounts, b)
    ensures var before, all := CanonicalOpenings(accounts, front), CanonicalOpenings(accounts, front + [b]);
            && (Missing(before, OpeningName(), k) && b.account != k ==> Missing(all, OpeningName(), k))
            && (Unique(before, OpeningName()) && Missing(before, OpeningName(), b.account) ==>
               Unique(all, OpeningName()))
            && (b.account != k ==> OpeningOf(all, k) == OpeningOf(before, k))
            && (OpeningOf(before, b.account) == 0 ==> OpeningOf(all, b.account) == CentsOf(b.opening))
  {
    var before := CanonicalOpenings(accounts, front);
    assert (front + [b])[..|front|] == front;
    PartOpens(accounts, b);
    CanonicalCents(b.opening);
    hide BalanceFits, CentsOf, CanonicalMoney, KindIn, IsResultKind;
    if OpeningPart(accounts, b) == [] {
      assert before + [] == before;
    } else {
      var o := Opening(b.account, CanonicalMoney(b.opening), "0");
      hide OpeningPart;
      UniqueSnoc(before, o, OpeningName());
      MissingSnoc(before, o, OpeningName(), k);
      OpeningOfSnoc(before, o, k);
      OpeningOfSnoc(before, o, b.account);
    }
  }

  lemma {:induction false} OpeningsMissing(accounts: seq<Account>, s: seq<ExportBalance>, k: string)
    requires (forall b :: b in s ==> BalanceFits(accounts, b)) && Missing(s, BalanceKey(), k)
    ensures Missing(CanonicalOpenings(accounts, s), OpeningName(), k)
    ensures OpeningOf(CanonicalOpenings(accounts, s), k) == 0
  {
    if |s| > 0 {
      var front, b := s[..|s| - 1], s[|s| - 1];
      assert s == front + [b];
      MissingSnoc(front, b, BalanceKey(), k);
      hide BalanceFits, CanonicalOpenings, OpeningOf, Missing;
      OpeningsMissing(accounts, front, k);
      OpeningsSnoc(accounts, front, b, k);
    }
  }

  /** With each account named once, the opening records are unique and open each account as the data say. */
  lemma {:induction false} OpeningsRead(accounts: seq<Account>, s: seq<ExportBalance>)
    requires (forall b :: b in s ==> BalanceFits(accounts, b)) && Unique(s, BalanceKey())
    ensures Unique(CanonicalOpenings(accounts, s), OpeningName())
    ensures forall b :: b in s ==> OpeningOf(CanonicalOpenings(accounts, s), b.account) == CentsOf(b.opening)
  {
    if |s| > 0 {
      var front, b := s[..|s| - 1], s[|s| - 1];
      assert s == front + [b];
      UniqueSnoc(front, b, BalanceKey());
      hide BalanceFits, CentsOf, CanonicalOpenings, OpeningOf, Unique;
      OpeningsRead(accounts, front);
      OpeningsMissing(accounts, front, b.account);
      OpeningsSnoc(accounts, front, b, b.account);
      forall c | c in front ensures OpeningOf(CanonicalOpenings(accounts, s), c.account) == CentsOf(c.opening) {
        OpeningsSnoc(accounts, front, b, c.account);
        assert BalanceKey()(c) != b.account;
      }
    }
  }

  lemma {:induction false} AllLinesSum(vs: seq<Voucher>, account: string)
    ensures SumOf(AllLines(vs), OnAccount(account)) == SumOf(vs, MovedOn(account))
  {
    if |vs| > 0 {
      AllLinesSum(vs[..|vs| - 1], account);
      SumAppend(AllLines(vs[..|vs| - 1]), vs[|vs| - 1].transactions, OnAccount(account));
    }
  }

  lemma CanonicalMoves(v: Voucher, account: string, collate: Collation)
    ensures MovedOn(account)(CanonicalVoucher(collate)(v)) == MovedOn(account)(v)
  {
    var g := CanonicalLine(collate);
    var xs := v.transactions;
    hide CanonicalMoney, CanonicalDay, Sort;
    forall x | x in xs ensures OnAccount(account)(g(x)) == OnAccount(account)(x) { CanonicalCents(x.amount); }
    hide CentsOf, CanonicalLine;
    SumMap(xs, g, OnAccount(account));
    SumExt(xs, Then(g, OnAccount(account)), OnAccount(account));
  }

  lemma MovesRead(vs: seq<Voucher>, sorted: seq<Voucher>, account: string, collate: Collation)
    requires multiset(sorted) == multiset(vs)
    ensures SumOf(AllLines(Map(sorted, CanonicalVoucher(collate))), OnAccount(account)) == SumOf(vs, MovedOn(account))
  {
    var g := CanonicalVoucher(collate);
    AllLinesSum(Map(sorted, g), account);
    SumMap(sorted, g, MovedOn(account));
    hide CanonicalVoucher;
    forall v | v in sorted ensures Then(g, MovedOn(account))(v) == MovedOn(account)(v) {
      CanonicalMoves(v, account, collate);
    }
    SumExt(sorted, Then(g, MovedOn(account)), MovedOn(account));
    SumPermuted(sorted, vs, MovedOn(account));
  }

  lemma BalancesCheckIff(data: ExportData, collate: Collation)
    requires forall b :: b in data.balances ==> BalanceFits(data.accounts, b)
    ensures var d := Canonical(data, collate);
            OpeningErrors(d.openings) == [] && SumOf(d.openings, OpeningCents()) == 0
              && BalanceErrors(d, d.balances) == []
            <==> BalancesCheck(data)
  {
    var d := Canonical(data, collate);
    var bs := Sort(data.balances, ByAccount(collate));
    assert d.openings == CanonicalOpenings(data.accounts, bs)
      && d.balances == Map(bs, CanonicalBalances(data.accounts));
    assert d.vouchers == Map(Sort(data.vouchers, ByDate(collate)), CanonicalVoucher(collate));
    hide Sort, BalanceFits, Canonical, CanonicalOpenings, CanonicalVoucher, CanonicalBalances, AllLines, OpeningOf,
         OpeningErrors, BalanceErrors, SumOf, CentsOf, Unique, Missing;
    SortedAll(data.balances, ByAccount(collate));
    UniquePermuted(bs, data.balances, BalanceKey());
    SumPermuted(bs, data.balances, OpeningRead());
    OpeningsSum(data.accounts, bs);
    OpeningErrorsIff(d.openings);
    BalanceErrorsIff(d, d.balances);
    BalancesUnique(data.accounts, bs);
    if Unique(bs, BalanceKey()) {
      OpeningsRead(data.accounts, bs);
      forall b | b in bs
        ensures ClosingOf(d, b.account) == CentsOf(b.opening) + SumOf(data.vouchers, MovedOn(b.account))
      {
        MovesRead(data.vouchers, Sort(data.vouchers, ByDate(collate)), b.account, collate);
      }
      hide ClosingOf;
      MapCloses(data, d, bs);
    }
  }

  lemma MapCloses(data: ExportData, d: Document, bs: seq<ExportBalance>)
    requires forall b :: b in bs ==>
             ClosingOf(d, b.account) == CentsOf(b.opening) + SumOf(data.vouchers, MovedOn(b.account))
    ensures (forall c :: c in Map(bs, CanonicalBalances(data.accounts)) ==>
            ClosingOf(d, c.account) == CentsOf(c.amount))
            <==> forall b :: b in bs ==>
              CentsOf(b.closing) == CentsOf(b.opening) + SumOf(data.vouchers, MovedOn(b.account))
  {
    hide ClosingOf, CentsOf, SumOf, CanonicalBalances;
    var g := CanonicalBalances(data.accounts);
    var m := Map(bs, g);
    forall b | b in bs ensures g(b) in m && g(b).account == b.account && CentsOf(g(b).amount) == CentsOf(b.closing) {
      CanonicalName(data.accounts, b);
      var i :| 0 <= i < |bs| && bs[i] == b;
      assert m[i] == g(b);
    }
    forall c | c in m ensures exists b :: b in bs && c == g(b) {
      var i :| 0 <= i < |m| && m[i] == c;
      assert bs[i] in bs;
    }
  }

  lemma ChecksIff(data: ExportData, collate: Collation)
    requires forall b :: b in data.balances ==> BalanceFits(data.accounts, b)
    ensures ChecksPass(Canonical(data, collate)) <==>
            BalancesCheck(data) && forall v :: v in data.vouchers ==> VoucherChecks(data, v)
  {
    var d := Canonical(data, collate);
    var vs := Sort(data.vouchers, ByDate(collate));
    BalancesCheckIff(data, collate);
    assert d.vouchers == Map(vs, CanonicalVoucher(collate)) && d.fiscalYear == Some(CanonicalYear(data.year));
    assert d.objects == Sort(data.objects, ByIdentity(collate));
    hide Canonical, Sort, CanonicalVoucher, CanonicalYear, VoucherErrors, VouchersErrors, VoucherChecks, OpeningErrors,
         BalanceErrors, SumOf, BalancesCheck;
    SortedAll(data.vouchers, ByDate(collate));
    SortedAll(data.objects, ByIdentity(collate));
    VouchersErrorsIff(d, d.vouchers);
    var g := CanonicalVoucher(collate);
    hide Map, ChecksPass;
    MapAll(vs, g, VoucherPasses(d));
    forall v | v in vs ensures VoucherPasses(d)(g(v)) == VoucherChecks(data, v) {
      VoucherChecksIff(data, d, v, collate);
    }
    assert (forall w :: w in d.vouchers ==> VoucherPasses(d)(w)) <==> VouchersErrors(d, d.vouchers) == [];
    ChecksPassIs(d);
  }

  lemma ChecksPassIs(d: Document)
    ensures ChecksPass(d) <==>
            VouchersErrors(d, d.vouchers) == []
              && (OpeningErrors(d.openings) == [] && SumOf(d.openings, OpeningCents()) == 0
                 && BalanceErrors(d, d.balances) == [])
  {
    hide VouchersErrors, OpeningErrors, BalanceErrors, SumOf;
  }

  // ---------------------------------------------------------------- the exact condition

  lemma FitsIff(data: ExportData)
    requires WellFormed(data)
    ensures Exportable(data) <==>
            PrintsData(data) && AcceptsData(data) && BalancesCheck(data) && forall v :: v in data.vouchers ==>
              VoucherChecks(data, v)
  {
    hide IsText, IsName, HeaderFits, BalanceFits, IsAccountNumber, YearInOrder, Unique, BalancesCheck, VoucherChecks,
         IsIdentifier;
    forall o | o in data.objects ensures ObjectPrintsWell(o) <==> IsText(o.id) && IsText(o.name) && ObjectFits(o) {
      if IsIdentifier(o.id) { IdentifierIsText(o.id); }
    }
    forall v | v in data.vouchers ensures VoucherPrintsWell(v) <==> PrintsVoucher(v) && VoucherFits(v) {
      VoucherIff(v);
    }
    hide PrintsVoucher, VoucherFits, VoucherPrintsWell, ObjectPrintsWell, ObjectFits, WellFormedVoucher;
  }

  lemma VoucherIff(v: Voucher)
    ensures VoucherPrintsWell(v) <==> PrintsVoucher(v) && VoucherFits(v)
  {
    hide IsText, IsIdentifier, IsVoucherNumber, SieDate, MoneyCents, DateFits, IsAccountNumber, Units;
    if IsIdentifier(v.series) { IdentifierIsText(v.series); }
    forall x | x in v.transactions ensures LinePrintsWell(x) <==> PrintsLine(x) && LineFits(x) {
      if RefsFit(x.objects) {
        forall o | o in x.objects ensures IsText(o.id) {
          assert RefFits(o);
          IdentifierIsText(o.id);
        }
      }
    }
    hide LinePrintsWell, PrintsLine, LineFits;
  }

  lemma ExportIff(data: ExportData, collate: Collation)
    requires AllRecords(data, collate).Ok?
    ensures var output := Joined(Map(AllRecords(data, collate).value, RecordText()));
            && (Export(data, collate).Ok? <==> Parse(output).errors == [] && Encode(output).Some?)
            && (Encode(output).Some? <==> Prints(AllRecords(data, collate)))
  {
    hide Parse, AllRecords, Joined;
    var recs := AllRecords(data, collate).value;
    EncodeSucceedsIff(Joined(Map(recs, RecordText())));
    OutputEncodable(recs);
    hide Encode, Encodable, RecordEncodes;
  }

  /** The text of printed records reads back without errors exactly when the records are accepted one by one and
      the checks across them pass. */
  lemma ReadsBackIff(data: ExportData, collate: Collation)
    requires WellFormed(data) && AllRecords(data, collate).Ok?
    requires forall b :: b in data.balances ==> BalanceFits(data.accounts, b)
    ensures Parse(Joined(Map(AllRecords(data, collate).value, RecordText()))).errors == [] <==>
            AcceptsData(data) && BalancesCheck(data) && forall v :: v in data.vouchers ==> VoucherChecks(data, v)
  {
    hide *;
    var recs := AllRecords(data, collate).value;
    AllArePrintable(data, collate);
    StartsWithFlag(data, collate);
    PrintableMembers(AllRecords(data, collate));
    AllAccepted(data, collate);
    if Parse(Joined(Map(recs, RecordText()))).errors == [] { ReadOutput(recs); }
    if Run(START, recs).Some? {
      ReadRunning(recs);
      RunAll(data, collate);
      NoErrorsYet(data, collate);
      FinishIff(Run(START, recs).value, Canonical(data, collate));
      ChecksIff(data, collate);
    }
  }

  lemma NoErrorsYet(data: ExportData, collate: Collation)
    ensures Canonical(data, collate).errors == []
  {
    hide Sort, CanonicalOpenings, CanonicalBalances, CanonicalVoucher, CanonicalYear;
  }

  /** An export succeeds exactly when its texts can be quoted in the code page and keep the limits of the format, its
      numbers and names are unique, its amounts can be read, its dates lie in the year, its objects are declared, its
      vouchers balance and its balances close at what the vouchers move. */
  lemma ExportSucceedsIff(data: ExportData, collate: Collation)
    requires WellFormed(data)
    ensures Export(data, collate).Ok? <==> Exportable(data)
  {
    hide *;
    AllPrint(data, collate);
    FitsIff(data);
    PrintsMeans(data, collate);
    if AllRecords(data, collate).Ok? {
      ExportIff(data, collate);
      if PrintsData(data) { ReadsBackIff(data, collate); }
    }
  }

  lemma PrintsMeans(data: ExportData, collate: Collation)
    ensures Prints(AllRecords(data, collate)) ==> AllRecords(data, collate).Ok?
    ensures Export(data, collate).Ok? ==> AllRecords(data, collate).Ok?
    ensures PrintsData(data) ==> forall b :: b in data.balances ==> BalanceFits(data.accounts, b)
  {
    hide AllRecords, Parse, Encode, Joined, BalanceFits;
  }
}
