/** What an SIE document read without errors guarantees. */
module SieSound {
  import opened Common
  import opened SieText
  import opened SieTokens
  import opened SieLines
  import opened SieParser

  // ---------------------------------------------------------------- what records keep

  ghost predicate IsIsoDate(s: string) { exists digits :: ParseDate(digits) == Some(s) }

  /** An amount text in the printer's own form. */
  predicate IsAmount(s: string) { MoneyCents(s).Some? && s == CentsMoney(MoneyCents(s).value) }

  ghost predicate GoodAccounts(accounts: seq<Account>) {
    && (forall a :: a in accounts ==> IsAccountNumber(a.number) && a.name != "")
    && (forall i, j :: 0 <= i < j < |accounts| ==> accounts[i].number != accounts[j].number)
  }

  ghost predicate GoodObjects(objects: seq<SieObject>) {
    && (forall o :: o in objects ==> IsDimension(o.dimension) && IsIdentifier(o.id))
    && (forall i, j :: 0 <= i < j < |objects| ==>
       objects[i].dimension != objects[j].dimension || objects[i].id != objects[j].id)
  }

  ghost predicate GoodYears(years: seq<FiscalYear>, current: Option<Span>) {
    && (forall y :: y in years ==> IsIsoDate(y.span.start) && IsIsoDate(y.span.end) && !Less(y.span.end, y.span.start))
    && (forall i, j :: 0 <= i < j < |years| ==> years[i].index != years[j].index)
    && (current.Some? <==> exists y :: y in years && y.index == "0")
    && (forall y :: y in years && y.index == "0" ==> current == Some(y.span))
  }

  ghost predicate GoodRefs(refs: seq<ObjectRef>) {
    && (forall o :: o in refs ==> IsDimension(o.dimension) && IsIdentifier(o.id))
    && (forall i, j :: 0 <= i < j < |refs| ==> refs[i].dimension != refs[j].dimension)
  }

  ghost predicate GoodTransaction(x: Transaction) {
    IsAccountNumber(x.account) && IsAmount(x.amount) && (x.date.Some? ==> IsIsoDate(x.date.value))
      && GoodRefs(x.objects)
  }

  ghost predicate GoodVoucher(v: Voucher) {
    && IsIsoDate(v.date) && IsVoucherNumber(v.number) && IsIdentifier(v.series)
    && (forall x :: x in v.transactions ==> GoodTransaction(x))
  }

  ghost predicate GoodVouchers(vs: seq<Voucher>) {
    && (forall v :: v in vs ==> GoodVoucher(v))
    && (forall i, j :: 0 <= i < j < |vs| ==> vs[i].series != vs[j].series || vs[i].number != vs[j].number)
  }

  ghost predicate GoodOpenings(openings: seq<Opening>) {
    forall b :: b in openings ==> IsAccountNumber(b.account) && IsAmount(b.amount) && b.yearIndex == "0"
  }

  ghost predicate GoodBalances(balances: seq<Balance>) {
    forall b :: b in balances ==>
      IsAccountNumber(b.account) && IsAmount(b.amount) && b.yearIndex == "0" && (b.tag == "#UB" || b.tag == "#RES")
  }

  ghost predicate GoodDocument(d: Document) {
    && GoodAccounts(d.accounts) && GoodObjects(d.objects) && GoodYears(d.fiscalYears, d.fiscalYear)
    && GoodVouchers(d.vouchers) && GoodOpenings(d.openings) && GoodBalances(d.balances)
  }

  lemma {:induction false} YearKeeps(r: Reader, t: seq<string>)
    requires GoodDocument(r.doc) && YearRecord(r, t).Ok?
    ensures GoodDocument(YearRecord(r, t).value.doc)
  {
    hide GoodAccounts, GoodObjects, GoodVouchers, GoodOpenings, GoodBalances, ParseDate, Less, IsYearIndex;
    var d, d' := r.doc, YearRecord(r, t).value.doc;
    var year := d'.fiscalYears[|d.fiscalYears|];
    assert d'.fiscalYears == d.fiscalYears + [year];
    assert year in d'.fiscalYears;
    assert forall y :: y in d.fiscalYears ==> y in d'.fiscalYears;
  }

  lemma AccountKeeps(r: Reader, t: seq<string>)
    requires GoodDocument(r.doc) && AccountRecord(r, t).Ok?
    ensures GoodDocument(AccountRecord(r, t).value.doc)
  {
    hide GoodYears, GoodObjects, GoodVouchers, GoodOpenings, GoodBalances, IsAccountNumber, Units;
  }

  lemma CanonicalIsAmount(s: string)
    requires MoneyCents(s).Some?
    ensures IsAmount(CentsMoney(MoneyCents(s).value))
  {
    hide MoneyCents, CentsMoney;
    MoneyIsBounded(s);
  }

  lemma BalanceTags(tag: string)
    requires KindOf(tag).BalanceAmount?
    ensures tag == "#IB" || tag == "#UB" || tag == "#RES"
  {
  }

  lemma {:induction false} BalanceKeeps(r: Reader, t: seq<string>)
    requires GoodDocument(r.doc) && |t| > 0 && KindOf(t[0]).BalanceAmount? && BalanceRecord(r, t).Ok?
    ensures GoodDocument(BalanceRecord(r, t).value.doc)
  {
    hide GoodYears, GoodObjects, GoodVouchers, GoodAccounts, MoneyCents, CentsMoney, IsYearIndex, IsAmount, IsDigits;
    BalanceTags(t[0]);
    CanonicalIsAmount(At(t, 3));
    hide KindOf;
  }

  lemma ObjectKeeps(r: Reader, t: seq<string>)
    requires GoodDocument(r.doc) && ObjectRecord(r, t).Ok?
    ensures GoodDocument(ObjectRecord(r, t).value.doc)
  {
    hide GoodYears, GoodAccounts, GoodVouchers, GoodOpenings, GoodBalances, IsIdentifier, IsDimension, Units;
  }

  lemma VoucherKeeps(r: Reader, t: seq<string>)
    requires GoodDocument(r.doc) && VoucherRecord(r, t).Ok?
    ensures GoodDocument(VoucherRecord(r, t).value.doc)
  {
    assert |t| > 3;
    hide GoodYears, GoodAccounts, GoodObjects, GoodOpenings, GoodBalances, IsIdentifier, IsVoucherNumber, Units,
         ParseDate, GoodTransaction;
    var v := VoucherRecord(r, t).value.doc.vouchers[|r.doc.vouchers|];
    assert ParseDate(At(t, 3)) == Some(v.date);
    assert GoodVoucher(v);
    hide GoodVoucher;
  }

  lemma {:induction false} RefsAreGood(t: seq<string>, end: nat)
    requires end <= |t| && ObjectsUpTo(t, end).Some?
    ensures GoodRefs(ObjectsUpTo(t, end).value)
  {
    hide IsIdentifier, IsDimension;
    if end >= 5 { RefsAreGood(t, end - 2); }
  }

  lemma RestIsGood(t: seq<string>, close: nat, refs: seq<ObjectRef>)
    requires IsAccountNumber(At(t, 1)) && GoodRefs(refs) && TransactionRest(t, close, refs).Ok?
    ensures GoodTransaction(TransactionRest(t, close, refs).value)
  {
    hide IsAccountNumber, GoodRefs, MoneyCents, CentsMoney, IsAmount, ParseDate, Units;
    CanonicalIsAmount(At(t, close + 1));
  }

  lemma AddKeeps(d: Document, x: Transaction)
    requires d.vouchers != [] && GoodDocument(d) && GoodTransaction(x)
    ensures GoodDocument(AddTransaction(d, x))
  {
    hide GoodYears, GoodAccounts, GoodObjects, GoodOpenings, GoodBalances, GoodTransaction, IsIsoDate, IsVoucherNumber,
         IsIdentifier;
    var d' := AddTransaction(d, x);
    var n := |d.vouchers| - 1;
    forall v | v in d'.vouchers ensures GoodVoucher(v) {
      if v !in d.vouchers { assert v == d'.vouchers[n] && GoodVoucher(d.vouchers[n]); }
    }
  }

  lemma {:induction false} TransactionKeeps(r: Reader, t: seq<string>)
    requires GoodDocument(r.doc) && TransactionRecord(r, t).Ok?
    ensures GoodDocument(TransactionRecord(r, t).value.doc)
  {
    hide GoodDocument, GoodTransaction, GoodRefs, ObjectsUpTo, TransactionRest, AddTransaction, IsAccountNumber,
         Closing;
    var close := Closing(t);
    RefsAreGood(t, close);
    RestIsGood(t, close, ObjectsUpTo(t, close).value);
    AddKeeps(r.doc, TransactionRest(t, close, ObjectsUpTo(t, close).value).value);
  }

  lemma {:induction false} ApplyKeeps(r: Reader, t: seq<string>)
    requires GoodDocument(r.doc) && |t| > 0 && Apply(r, t).Ok?
    ensures GoodDocument(Apply(r, t).value.doc)
  {
    hide KindOf, YearRecord, AccountRecord, BalanceRecord, ObjectRecord, VoucherRecord, TransactionRecord,
         GoodAccounts, GoodObjects, GoodYears, GoodVouchers, GoodOpenings, GoodBalances;
    match KindOf(t[0]) {
      case Year => YearKeeps(r, t);
      case AccountName => AccountKeeps(r, t);
      case BalanceAmount => BalanceKeeps(r, t);
      case ObjectName => ObjectKeeps(r, t);
      case VoucherHead => VoucherKeeps(r, t);
      case VoucherLine => TransactionKeeps(r, t);
      case _ =>
    }
  }

  lemma {:induction false} ReadKeeps(lines: seq<string>)
    ensures GoodDocument(ReadLines(lines).doc)
  {
    if |lines| > 0 {
      hide Apply, LineTokens, GoodAccounts, GoodObjects, GoodYears, GoodVouchers, GoodOpenings, GoodBalances;
      var r, t := ReadLines(lines[..|lines| - 1]), LineTokens(lines[|lines| - 1]);
      ReadKeeps(lines[..|lines| - 1]);
      if t.Ok? && !Skipped(t.value) && Apply(Noted(r, t.value), t.value).Ok? { ApplyKeeps(Noted(r, t.value), t.value); }
    }
  }

  // ---------------------------------------------------------------- block structure

  /** The records that make up voucher blocks. */
  predicate Structural(k: Kind) { k.VoucherHead? || k.OpenBrace? || k.VoucherLine? || k.CloseBrace? }

  function MarkOf(raw: string): seq<Kind> {
    var t := LineTokens(raw);
    if t.Ok? && !Skipped(t.value) && Structural(KindOf(t.value[0])) then [KindOf(t.value[0])] else []
  }

  /** The records of a text that make up voucher blocks, in order. */
  function Marks(lines: seq<string>): seq<Kind> {
    if |lines| == 0 then [] else Marks(lines[..|lines| - 1]) + MarkOf(lines[|lines| - 1])
  }

  function OpenShape(v: Voucher): seq<Kind> { [VoucherHead, OpenBrace] + seq(|v.transactions|, i => VoucherLine) }

  /** A voucher in the text: its record, an opening brace, one record per transaction, a closing brace. */
  function Shape(vs: seq<Voucher>): seq<Kind> {
    if |vs| == 0 then [] else Shape(vs[..|vs| - 1]) + OpenShape(vs[|vs| - 1]) + [CloseBrace]
  }

  /** Marks read so far: whole vouchers, then the part of the open one that was seen. */
  ghost predicate InStep(r: Reader, marks: seq<Kind>) {
    var vs := r.doc.vouchers;
    if !r.open then !r.block && marks == Shape(vs)
    else
      vs != [] &&
      var v := vs[|vs| - 1];
      if r.block then marks == Shape(vs[..|vs| - 1]) + OpenShape(v)
      else v.transactions == [] && marks == Shape(vs[..|vs| - 1]) + [VoucherHead]
  }

  lemma VoucherInStep(r: Reader, t: seq<string>, marks: seq<Kind>)
    requires InStep(r, marks) && VoucherRecord(r, t).Ok?
    ensures InStep(VoucherRecord(r, t).value, marks + [VoucherHead])
  {
    hide Shape, KindOf, ParseDate, IsIdentifier, IsVoucherNumber, Units;
    var vs := VoucherRecord(r, t).value.doc.vouchers;
    assert vs[..|vs| - 1] == r.doc.vouchers;
  }

  lemma TransactionInStep(r: Reader, t: seq<string>, marks: seq<Kind>)
    requires InStep(r, marks) && TransactionRecord(r, t).Ok?
    ensures InStep(TransactionRecord(r, t).value, marks + [VoucherLine])
  {
    hide Shape, ObjectsUpTo, TransactionRest, IsAccountNumber, Closing;
    var vs, vs' := r.doc.vouchers, TransactionRecord(r, t).value.doc.vouchers;
    var n := |vs| - 1;
    assert vs'[..n] == vs[..n];
    assert |vs'[n].transactions| == |vs[n].transactions| + 1;
    assert OpenShape(vs'[n]) == OpenShape(vs[n]) + [VoucherLine];
    assert Shape(vs[..n]) + OpenShape(vs[n]) + [VoucherLine] == Shape(vs[..n]) + (OpenShape(vs[n]) + [VoucherLine]);
  }

  lemma BracesInStep(r: Reader, t: seq<string>, marks: seq<Kind>)
    requires InStep(r, marks) && |t| > 0 && (KindOf(t[0]).OpenBrace? || KindOf(t[0]).CloseBrace?) && Apply(r, t).Ok?
    ensures InStep(Apply(r, t).value, marks + [KindOf(t[0])])
  {
    var vs := r.doc.vouchers;
    if KindOf(t[0]).OpenBrace? {
      var front := Shape(vs[..|vs| - 1]);
      assert front + [VoucherHead] + [OpenBrace] == front + [VoucherHead, OpenBrace];
      assert OpenShape(vs[|vs| - 1]) == [VoucherHead, OpenBrace];
    }
  }

  /** Same vouchers, same block, same errors. */
  predicate Apart(r: Reader, r': Reader) {
    r'.doc.vouchers == r.doc.vouchers && r'.open == r.open && r'.block == r.block && r'.doc.errors == r.doc.errors
  }

  lemma YearApart(r: Reader, t: seq<string>)
    ensures YearRecord(r, t).Ok? ==> Apart(r, YearRecord(r, t).value)
    ensures AccountRecord(r, t).Ok? ==> Apart(r, AccountRecord(r, t).value)
    ensures TypeRecord(r, t).Ok? ==> Apart(r, TypeRecord(r, t).value)
  {
    hide ParseDate, Less, IsYearIndex, IsAccountNumber, Units, TypeOfLetter;
  }

  lemma BalanceApart(r: Reader, t: seq<string>)
    requires |t| > 0
    ensures BalanceRecord(r, t).Ok? ==> Apart(r, BalanceRecord(r, t).value)
    ensures DimensionRecord(r, t).Ok? ==> Apart(r, DimensionRecord(r, t).value)
    ensures ObjectRecord(r, t).Ok? ==> Apart(r, ObjectRecord(r, t).value)
  {
    hide MoneyCents, CentsMoney, IsYearIndex, IsAccountNumber, IsIdentifier, Units;
  }

  lemma {:induction false} OtherApart(r: Reader, t: seq<string>)
    requires |t| > 0 && !Structural(KindOf(t[0])) && Apply(r, t).Ok?
    ensures Apart(r, Apply(r, t).value)
  {
    hide KindOf, YearRecord, AccountRecord, TypeRecord, BalanceRecord, DimensionRecord, ObjectRecord, VoucherRecord,
         TransactionRecord;
    YearApart(r, t);
    BalanceApart(r, t);
  }

  lemma {:induction false} ApplyInStep(r: Reader, t: seq<string>, marks: seq<Kind>)
    requires InStep(r, marks) && |t| > 0 && Apply(r, t).Ok?
    ensures InStep(Apply(r, t).value, marks + if Structural(KindOf(t[0])) then [KindOf(t[0])] else [])
  {
    hide KindOf, InStep, YearRecord, AccountRecord, TypeRecord, BalanceRecord, DimensionRecord, ObjectRecord,
         VoucherRecord, TransactionRecord;
    match KindOf(t[0]) {
      case OpenBrace => BracesInStep(r, t, marks);
      case CloseBrace => BracesInStep(r, t, marks);
      case VoucherHead => VoucherInStep(r, t, marks);
      case VoucherLine => TransactionInStep(r, t, marks);
      case _ => OtherApart(r, t); SameStep(r, Apply(r, t).value, marks);
    }
  }

  lemma SameStep(r: Reader, r': Reader, marks: seq<Kind>)
    requires InStep(r, marks) && r'.doc.vouchers == r.doc.vouchers && r'.open == r.open && r'.block == r.block
    ensures InStep(r', marks + [])
  {
    assert marks + [] == marks;
  }

  lemma {:induction false} ErrorsGrow(r: Reader, line: nat, raw: string)
    ensures ReadLine(r, line, raw).doc.errors == [] ==> r.doc.errors == []
    ensures ReadLine(r, line, raw).doc.errors == [] ==>
      var t := LineTokens(raw);
      t.Ok? && (Skipped(t.value)
        || (Apply(Noted(r, t.value), t.value).Ok? && ReadLine(r, line, raw) == Apply(Noted(r, t.value), t.value).value))
  {
    hide LineTokens;
    var t := LineTokens(raw);
    if t.Ok? && !Skipped(t.value) { ApplyAddsNoError(Noted(r, t.value), t.value); hide Apply; }
  }

  lemma {:induction false} ApplyAddsNoError(r: Reader, t: seq<string>)
    requires |t| > 0
    ensures Apply(r, t).Ok? ==> Apply(r, t).value.doc.errors == r.doc.errors
  {
    if !Structural(KindOf(t[0])) && Apply(r, t).Ok? { OtherApart(r, t); hide Apply; }
    else { hide KindOf, ParseDate, IsAccountNumber, IsIdentifier, IsVoucherNumber, Units, ObjectsUpTo, TransactionRest,
      Closing; }
  }

  lemma {:induction false} ReadInStep(lines: seq<string>)
    requires ReadLines(lines).doc.errors == []
    ensures InStep(ReadLines(lines), Marks(lines))
  {
    if |lines| > 0 {
      hide Apply, LineTokens, InStep, ReadLine;
      var front, raw := lines[..|lines| - 1], lines[|lines| - 1];
      var r := ReadLines(front);
      ErrorsGrow(r, |lines|, raw);
      ReadInStep(front);
      LineInStep(r, |lines|, raw, Marks(front));
    }
  }

  lemma {:induction false} LineInStep(r: Reader, line: nat, raw: string, marks: seq<Kind>)
    requires ReadLine(r, line, raw).doc.errors == [] && InStep(r, marks)
    ensures InStep(ReadLine(r, line, raw), marks + MarkOf(raw))
  {
    ErrorsGrow(r, line, raw);
    hide LineTokens, InStep, Apply;
    var t := LineTokens(raw).value;
    if Skipped(t) {
      SameStep(r, r, marks);
    } else {
      SameStep(r, Noted(r, t), marks);
      assert marks + [] == marks;
      ApplyInStep(Noted(r, t), t, marks);
    }
  }

  // ---------------------------------------------------------------- checks across records

  lemma {:induction false} NoObjectErrors(d: Document, refs: seq<ObjectRef>)
    requires ObjectErrors(d, refs) == []
    ensures forall o :: o in refs ==> Declared(d, o)
  {
    if |refs| > 0 { NoObjectErrors(d, refs[..|refs| - 1]); }
  }

  lemma {:induction false} NoLinesErrors(d: Document, xs: seq<Transaction>, x: Transaction)
    requires LinesErrors(d, xs) == [] && x in xs
    ensures LineErrors(d, x) == []
  {
    if x != xs[|xs| - 1] { NoLinesErrors(d, xs[..|xs| - 1], x); }
  }

  lemma {:induction false} NoVouchersErrors(d: Document, vs: seq<Voucher>, v: Voucher)
    requires VouchersErrors(d, vs) == [] && v in vs
    ensures VoucherErrors(d, v) == []
  {
    if v != vs[|vs| - 1] { NoVouchersErrors(d, vs[..|vs| - 1], v); }
  }

  ghost predicate DistinctOpenings(openings: seq<Opening>) {
    forall i, j :: 0 <= i < j < |openings| ==> openings[i].account != openings[j].account
  }

  lemma {:induction false} NoOpeningErrors(openings: seq<Opening>)
    requires OpeningErrors(openings) == []
    ensures DistinctOpenings(openings)
  {
    if |openings| > 0 {
      hide CentsOf, OpeningOf;
      var n := |openings| - 1;
      var front := openings[..n];
      NoOpeningErrors(front);
      assert !OpensAccount(front, openings[n].account);
      assert forall i :: 0 <= i < n ==> openings[i] == front[i] && front[i] in front;
      hide OpeningErrors;
    }
  }

  lemma {:induction false} OpeningIsUnique(openings: seq<Opening>, i: nat)
    requires DistinctOpenings(openings) && i < |openings|
    ensures OpeningOf(openings, openings[i].account) == CentsOf(openings[i].amount)
  {
    hide CentsOf;
    if i < |openings| - 1 { OpeningIsUnique(openings[..|openings| - 1], i); }
  }

  ghost predicate DistinctBalances(balances: seq<Balance>) {
    forall i, j :: 0 <= i < j < |balances| ==> balances[i].account != balances[j].account
  }

  lemma {:induction false} BalancesAgree(d: Document, balances: seq<Balance>, b: Balance)
    requires BalanceErrors(d, balances) == [] && b in balances
    ensures CentsOf(b.amount) == ClosingOf(d, b.account)
  {
    hide CentsOf, ClosingOf;
    if b != balances[|balances| - 1] { BalancesAgree(d, balances[..|balances| - 1], b); }
  }

  lemma DistinctStep(front: seq<Balance>, b: Balance)
    requires DistinctBalances(front) && !Reported(front, b.account)
    ensures DistinctBalances(front + [b])
  {
    assert forall i :: 0 <= i < |front| ==> front[i] in front;
  }

  lemma {:induction false} BalancesDistinct(d: Document, balances: seq<Balance>)
    requires BalanceErrors(d, balances) == []
    ensures DistinctBalances(balances)
  {
    hide CentsOf, ClosingOf, DistinctBalances, Reported;
    if |balances| > 0 {
      var n := |balances| - 1;
      BalancesDistinct(d, balances[..n]);
      DistinctStep(balances[..n], balances[n]);
      assert balances == balances[..n] + [balances[n]];
    } else {
      NothingDistinct(balances);
    }
  }

  lemma NothingDistinct(balances: seq<Balance>)
    requires balances == []
    ensures DistinctBalances(balances)
  {
  }

  /** Every line of a voucher is dated in the year and names declared objects only. */
  ghost predicate LinesFit(d: Document, v: Voucher) {
    forall x :: x in v.transactions ==>
      && (x.date.Some? ==> !Outside(x.date.value, d.fiscalYear))
      && (forall o :: o in x.objects ==> Declared(d, o))
  }

  lemma VoucherFits(d: Document, v: Voucher)
    requires VoucherErrors(d, v) == []
    ensures Balanced(v) && !Outside(v.date, d.fiscalYear) && LinesFit(d, v)
  {
    hide Balanced, Outside, Declared;
    forall x | x in v.transactions
      ensures x.date.Some? ==> !Outside(x.date.value, d.fiscalYear)
      ensures forall o :: o in x.objects ==> Declared(d, o)
    {
      NoLinesErrors(d, v.transactions, x);
      NoObjectErrors(d, x.objects);
    }
  }

  lemma FinishKeeps(r: Reader)
    requires GoodDocument(r.doc)
    ensures GoodDocument(Finish(r))
  {
    hide GoodObjects, GoodYears, GoodVouchers, GoodOpenings, GoodBalances, IsAccountNumber, VouchersErrors,
         OpeningErrors, BalanceErrors, SumOf;
    var accounts := Typed(r.doc.accounts, r.types);
    forall a | a in accounts ensures IsAccountNumber(a.number) && a.name != "" {
      var i :| 0 <= i < |accounts| && accounts[i] == a;
      assert r.doc.accounts[i] in r.doc.accounts;
    }
  }

  /** What holds of a document read without errors. */
  ghost predicate Sound(d: Document) {
    && GoodDocument(d)
    && (forall v :: v in d.vouchers ==> Balanced(v) && !Outside(v.date, d.fiscalYear) && LinesFit(d, v))
    && DistinctOpenings(d.openings)
    && SumOf(d.openings, OpeningCents()) == 0
    && (forall b :: b in d.openings ==> OpeningOf(d.openings, b.account) == CentsOf(b.amount))
    && DistinctBalances(d.balances)
    && (forall b :: b in d.balances ==>
       CentsOf(b.amount) == OpeningOf(d.openings, b.account) + SumOf(AllLines(d.vouchers), OnAccount(b.account)))
  }

  /** No errors from the checks across records. */
  lemma ChecksPassed(r: Reader)
    requires Finish(r).errors == []
    ensures r.doc.errors == [] && r.typeSeen && !r.open && !r.block
    ensures VouchersErrors(Finish(r), Finish(r).vouchers) == [] && Finish(r).vouchers == r.doc.vouchers
    ensures OpeningErrors(Finish(r).openings) == [] && SumOf(Finish(r).openings, OpeningCents()) == 0
    ensures BalanceErrors(Finish(r), Finish(r).balances) == []
  {
    var d := r.doc.(accounts := Typed(r.doc.accounts, r.types));
    assert Finish(r).errors == [];
    ErrorsOfChecks(d, Finish(r));
    hide Typed, VouchersErrors, OpeningErrors, BalanceErrors, SumOf;
  }

  /** The checks look neither at the accounts nor at the errors found so far. */
  lemma ErrorsOfChecks(d: Document, e: Document)
    requires e == d.(accounts := e.accounts, errors := e.errors)
    ensures VouchersErrors(d, d.vouchers) == VouchersErrors(e, e.vouchers)
    ensures BalanceErrors(d, d.balances) == BalanceErrors(e, e.balances)
  {
    VouchersErrorsSame(d, e, d.vouchers);
    BalanceErrorsSame(d, e, d.balances);
  }

  lemma {:induction false} VouchersErrorsSame(d: Document, e: Document, vs: seq<Voucher>)
    requires e == d.(accounts := e.accounts, errors := e.errors)
    ensures VouchersErrors(d, vs) == VouchersErrors(e, vs)
  {
    if |vs| > 0 {
      VouchersErrorsSame(d, e, vs[..|vs| - 1]);
      LinesErrorsSame(d, e, vs[|vs| - 1].transactions);
    }
  }

  lemma {:induction false} LinesErrorsSame(d: Document, e: Document, xs: seq<Transaction>)
    requires e == d.(accounts := e.accounts, errors := e.errors)
    ensures LinesErrors(d, xs) == LinesErrors(e, xs)
  {
    if |xs| > 0 {
      LinesErrorsSame(d, e, xs[..|xs| - 1]);
      ObjectErrorsSame(d, e, xs[|xs| - 1].objects);
    }
  }

  lemma {:induction false} ObjectErrorsSame(d: Document, e: Document, refs: seq<ObjectRef>)
    requires e == d.(accounts := e.accounts, errors := e.errors)
    ensures ObjectErrors(d, refs) == ObjectErrors(e, refs)
  {
    if |refs| > 0 { ObjectErrorsSame(d, e, refs[..|refs| - 1]); }
  }

  lemma {:induction false} BalanceErrorsSame(d: Document, e: Document, balances: seq<Balance>)
    requires e == d.(accounts := e.accounts, errors := e.errors)
    ensures BalanceErrors(d, balances) == BalanceErrors(e, balances)
  {
    if |balances| > 0 { BalanceErrorsSame(d, e, balances[..|balances| - 1]); }
  }

  /** A text read without errors: the document is sound, and the block records of the text are exactly the
      vouchers, each opened, filled with its transactions and closed. */
  lemma {:induction false} Soundness(text: string)
    requires Parse(text).errors == []
    ensures Sound(Parse(text))
    ensures Marks(SplitLines(WithoutMark(text))) == Shape(Parse(text).vouchers)
  {
    hide ReadLines, SplitLines, WithoutMark, Marks, Shape, GoodDocument, VouchersErrors, OpeningErrors, BalanceErrors,
         SumOf, AllLines, Balanced, Outside, LinesFit, CentsOf, OpeningOf, Finish, DistinctOpenings, DistinctBalances;
    var lines := SplitLines(WithoutMark(text));
    var r, d := ReadLines(lines), Parse(text);
    ReadKeeps(lines);
    FinishKeeps(r);
    ChecksPassed(r);
    ReadInStep(lines);
    forall v | v in d.vouchers ensures Balanced(v) && !Outside(v.date, d.fiscalYear) && LinesFit(d, v) {
      NoVouchersErrors(d, d.vouchers, v);
      VoucherFits(d, v);
    }
    NoOpeningErrors(d.openings);
    forall b | b in d.openings ensures OpeningOf(d.openings, b.account) == CentsOf(b.amount) {
      var i :| 0 <= i < |d.openings| && d.openings[i] == b;
      OpeningIsUnique(d.openings, i);
    }
    BalancesDistinct(d, d.balances);
    forall b | b in d.balances ensures CentsOf(b.amount) == ClosingOf(d, b.account) { BalancesAgree(d, d.balances, b); }
  }
}
