/** Which printed records the reader accepts: section by section, exactly when the data meet the limits of the
    format. */
module SieAccepts {
  import opened Common
  import opened SieText
  import opened SieTokens
  import opened SieParser
  import opened SieExport
  import opened SieReplay
  import opened SieRoundTrip
  import Calendar

  // ---------------------------------------------------------------- lists without repeated keys

  predicate Unique<T, K(==)>(s: seq<T>, key: T -> K) { forall i, j :: 0 <= i < j < |s| ==> key(s[i]) != key(s[j]) }

  predicate Missing<T(==), K(==)>(s: seq<T>, key: T -> K, k: K) { forall x :: x in s ==> key(x) != k }

  lemma UniqueSnoc<T, K>(s: seq<T>, x: T, key: T -> K)
    ensures Unique(s + [x], key) <==> Unique(s, key) && Missing(s, key, key(x))
  {
    var t := s + [x];
    if Unique(t, key) {
      forall y | y in s ensures key(y) != key(x) {
        var i :| 0 <= i < |s| && s[i] == y;
        assert t[i] == y && t[|s|] == x;
      }
      forall i, j | 0 <= i < j < |s| ensures key(s[i]) != key(s[j]) { assert t[i] == s[i] && t[j] == s[j]; }
    }
    if Unique(s, key) && Missing(s, key, key(x)) {
      forall i, j | 0 <= i < j < |t| ensures key(t[i]) != key(t[j]) { assert t[i] == s[i] && t[i] in s; }
    }
  }

  lemma MissingSnoc<T, K>(s: seq<T>, x: T, key: T -> K, k: K)
    ensures Missing(s + [x], key, k) <==> Missing(s, key, k) && key(x) != k
  {
    assert forall y :: y in s + [x] <==> y in s || y == x;
  }

  function Is<T, K(==)>(key: T -> K, k: K): T -> int { (x: T) => if key(x) == k then 1 else 0 }

  lemma {:induction false} MissingIsZero<T, K>(s: seq<T>, key: T -> K, k: K)
    ensures SumOf(s, Is(key, k)) >= 0
    ensures Missing(s, key, k) <==> SumOf(s, Is(key, k)) == 0
  {
    if |s| > 0 {
      var front, x := s[..|s| - 1], s[|s| - 1];
      assert s == front + [x];
      MissingIsZero(front, key, k);
      MissingSnoc(front, x, key, k);
    }
  }

  lemma {:induction false} UniqueIsCounted<T, K(!new)>(s: seq<T>, key: T -> K)
    ensures Unique(s, key) <==> forall k :: SumOf(s, Is(key, k)) <= 1
  {
    if |s| == 0 {
      assert forall k :: SumOf(s, Is(key, k)) == 0;
    } else {
      var front, x := s[..|s| - 1], s[|s| - 1];
      assert s == front + [x];
      UniqueIsCounted(front, key);
      UniqueSnoc(front, x, key);
      hide Unique;
      forall k ensures SumOf(s, Is(key, k)) == SumOf(front, Is(key, k)) + Is(key, k)(x) {}
      forall k ensures SumOf(front, Is(key, k)) >= 0 && (Missing(front, key, k) <==> SumOf(front, Is(key, k)) == 0) {
        MissingIsZero(front, key, k);
      }
      assert SumOf(s, Is(key, key(x))) == SumOf(front, Is(key, key(x))) + 1;
      hide SumOf, Missing;
    }
  }

  lemma UniquePermuted<T, K(!new)>(s: seq<T>, t: seq<T>, key: T -> K)
    requires multiset(s) == multiset(t)
    ensures Unique(s, key) <==> Unique(t, key)
  {
    forall k ensures SumOf(s, Is(key, k)) == SumOf(t, Is(key, k)) { SumPermuted(s, t, Is(key, k)); }
    UniqueIsCounted(s, key);
    UniqueIsCounted(t, key);
    hide Unique, SumOf, Is;
  }

  // ---------------------------------------------------------------- running sections

  lemma RunEachIff<T>(r: Reader, s: seq<T>, f: T -> Records)
    requires s != [] && Each(s, f).Ok?
    ensures var front, last := s[..|s| - 1], s[|s| - 1];
            && Each(front, f).Ok? && f(last).Ok?
            && (Run(r, Each(s, f).value).Some? <==>
                Run(r, Each(front, f).value).Some? && Run(Run(r, Each(front, f).value).value, f(last).value).Some?)
  {
    RunAppend(r, Each(s[..|s| - 1], f).value, f(s[|s| - 1]).value);
  }

  function AccountKey(): Account -> string { (a: Account) => a.number }

  predicate IsName(s: string) { s != "" && Units(s) <= 160 }

  lemma NameAccepted(r: Reader, a: Account, rec: Record)
    requires One("#KONTO", [Ok(Word(a.number)), TextField(a.name)]) == Ok([rec]) && IsAccountNumber(a.number)
    ensures Feed(r, rec).Some? <==> IsName(a.name) && Missing(r.doc.accounts, AccountKey(), a.number)
  {
    var fs := [Ok(Word(a.number)), TextField(a.name)];
    OneTokens("#KONTO", fs);
    var t := RecordTokens(rec);
    assert fs[0].Ok? && fs[1].Ok? && t[1] == a.number && t[2] == a.name;
    assert KindOf("#KONTO") == AccountName;
    hide KindOf, IsAccountNumber, Units, Quotable, RecordTokens;
    assert At(t, 1) == a.number && At(t, 2) == a.name;
  }

  lemma KindAccepted(r: Reader, a: Account)
    requires a.kind.Some? && IsAccountNumber(a.number)
    ensures Feed(r, Record("#KTYP", [Word(a.number), Word(Letter(a.kind.value))])).Some?
  {
    var rec := Record("#KTYP", [Word(a.number), Word(Letter(a.kind.value))]);
    SimpleTokens(rec.fields);
    LetterOfType(a.kind.value);
    var t := RecordTokens(rec);
    assert KindOf("#KTYP") == AccountKind;
    hide KindOf, IsAccountNumber, RecordTokens, TypeOfLetter;
    assert At(t, 1) == a.number && At(t, 2) == Letter(a.kind.value);
  }

  lemma AccountAccepted(r: Reader, a: Account)
    requires AccountRecords()(a).Ok?
    ensures Run(r, AccountRecords()(a).value).Some? <==>
            IsName(a.name) && Missing(r.doc.accounts, AccountKey(), a.number)
  {
    var name := One("#KONTO", [Ok(Word(a.number)), TextField(a.name)]);
    OneTokens("#KONTO", [Ok(Word(a.number)), TextField(a.name)]);
    assert name.value == [name.value[0]];
    var kind := if a.kind.Some? then [Record("#KTYP", [Word(a.number), Word(Letter(a.kind.value))])] else [];
    assert AccountRecords()(a).value == name.value + kind;
    hide Feed, One, TextField, Letter, IsName, Missing;
    RunAppend(r, name.value, kind);
    RunOne(r, name.value[0]);
    NameAccepted(r, a, name.value[0]);
    if a.kind.Some? && Feed(r, name.value[0]).Some? {
      var named := Feed(r, name.value[0]).value;
      RunOne(named, kind[0]);
      KindAccepted(named, a);
    }
  }

  lemma {:induction false} AccountsAccepted(r: Reader, s: seq<Account>)
    requires r.doc.accounts == [] && Each(s, AccountRecords()).Ok?
    ensures Run(r, Each(s, AccountRecords()).value).Some? <==>
            (forall a :: a in s ==> IsName(a.name)) && Unique(s, AccountKey())
  {
    hide AccountRecords, Each, Run, Feed, Map, Unnamed, IsName, Unique, Missing;
    if |s| > 0 {
      var front, a := s[..|s| - 1], s[|s| - 1];
      assert s == front + [a];
      RunEachIff(r, s, AccountRecords());
      AccountsAccepted(r, front);
      UniqueSnoc(front, a, AccountKey());
      if Run(r, Each(front, AccountRecords()).value).Some? {
        RunAccounts(r, front);
        NothingBefore(Map(front, Unnamed()));
        AccountAccepted(Run(r, Each(front, AccountRecords()).value).value, a);
        UnnamedKeys(front, a.number);
      }
    } else {
      RunNothing(r, s, AccountRecords());
      NothingRepeats(s, AccountKey());
    }
  }

  lemma NothingRepeats<T, K>(s: seq<T>, key: T -> K)
    requires s == []
    ensures Unique(s, key)
  {
  }

  lemma UnnamedKeys(s: seq<Account>, number: string)
    ensures Missing(Map(s, Unnamed()), AccountKey(), number) <==> Missing(s, AccountKey(), number)
  {
    var m := Map(s, Unnamed());
    forall x | x in m ensures exists a :: a in s && a.number == x.number {
      var i :| 0 <= i < |m| && m[i] == x;
      assert s[i] in s;
    }
    forall a | a in s ensures exists x :: x in m && x.number == a.number {
      var i :| 0 <= i < |s| && s[i] == a;
      assert m[i] in m;
    }
  }

  // ---------------------------------------------------------------- balances and objects

  lemma AmountAccepted(r: Reader, tag: string, account: string, amount: string, rec: Record)
    requires KindOf(tag) == BalanceAmount && MoneyCents(amount).Some? && IsAccountNumber(account)
    requires One(tag, [Ok(Word("0")), Ok(Word(account)), MoneyField(amount)]) == Ok([rec])
    ensures Feed(r, rec).Some?
  {
    hide KindOf, IsAccountNumber, RecordTokens, MoneyCents, CentsMoney, IsYearIndex, Pow10, One;
    var fs := [Ok(Word("0")), Ok(Word(account)), MoneyField(amount)];
    OneTokens(tag, fs);
    MoneyIsBounded(amount);
    ZeroIsYear();
    var t := RecordTokens(rec);
    assert fs[0].Ok? && fs[1].Ok? && fs[2].Ok? && t[1] == "0" && t[2] == account
      && t[3] == CentsMoney(MoneyCents(amount).value);
  }

  lemma AmountRuns(r: Reader, tag: string, account: string, amount: string)
    requires KindOf(tag) == BalanceAmount && IsAccountNumber(account)
    requires One(tag, [Ok(Word("0")), Ok(Word(account)), MoneyField(amount)]).Ok?
    ensures Run(r, One(tag, [Ok(Word("0")), Ok(Word(account)), MoneyField(amount)]).value).Some?
  {
    hide Run, Feed, KindOf, MoneyCents, CentsMoney, IsAccountNumber, Gather;
    var fs := [Ok(Word("0")), Ok(Word(account)), MoneyField(amount)];
    OneRecord(tag, fs);
    GatherOk(fs);
    assert fs[2].Ok?;
    var rec := One(tag, fs).value[0];
    RunOne(r, rec);
    AmountAccepted(r, tag, account, amount, rec);
  }

  lemma BalanceAccepted(r: Reader, accounts: seq<Account>, b: ExportBalance)
    requires BalanceRecords(accounts)(b).Ok?
    ensures Run(r, BalanceRecords(accounts)(b).value).Some?
  {
    hide Run, Feed, KindOf, KindIn, MoneyCents, One, MoneyField, IsAccountNumber, IsResultKind;
    BalanceKinds();
    if IsResultKind(KindIn(accounts, b.account)) {
      AmountRuns(r, "#RES", b.account, b.closing);
    } else {
      var ib := One("#IB", [Ok(Word("0")), Ok(Word(b.account)), MoneyField(b.opening)]);
      var ub := One("#UB", [Ok(Word("0")), Ok(Word(b.account)), MoneyField(b.closing)]);
      AmountRuns(r, "#IB", b.account, b.opening);
      RunAppend(r, ib.value, ub.value);
      AmountRuns(Run(r, ib.value).value, "#UB", b.account, b.closing);
    }
  }

  lemma {:induction false} BalancesAccepted(r: Reader, accounts: seq<Account>, s: seq<ExportBalance>)
    requires Each(s, BalanceRecords(accounts)).Ok?
    ensures Run(r, Each(s, BalanceRecords(accounts)).value).Some?
  {
    hide BalanceRecords, Each, Run;
    if |s| > 0 {
      RunEachIff(r, s, BalanceRecords(accounts));
      BalancesAccepted(r, accounts, s[..|s| - 1]);
      BalanceAccepted(Run(r, Each(s[..|s| - 1], BalanceRecords(accounts)).value).value, accounts, s[|s| - 1]);
    } else {
      RunNothing(r, s, BalanceRecords(accounts));
    }
  }

  function ObjectKey(): SieObject -> (string, string) { (o: SieObject) => (o.dimension, o.id) }

  lemma ObjectAccepted(r: Reader, o: SieObject)
    requires IsDimension(o.dimension) && ObjectRecords()(o).Ok?
    ensures Run(r, ObjectRecords()(o).value).Some? <==>
            IsIdentifier(o.id) && IsName(o.name) && Missing(r.doc.objects, ObjectKey(), ObjectKey()(o))
  {
    var fs := [Ok(Word(o.dimension)), TextField(o.id), TextField(o.name)];
    OneTokens("#OBJEKT", fs);
    OneRecord("#OBJEKT", fs);
    assert KindOf("#OBJEKT") == ObjectName;
    hide KindOf, IsIdentifier, IsDimension, Units, Quotable, RecordTokens, Gather;
    var rec := One("#OBJEKT", fs).value[0];
    RunOne(r, rec);
    var t := RecordTokens(rec);
    assert fs[0].Ok? && fs[1].Ok? && fs[2].Ok? && t[1] == o.dimension && t[2] == o.id && t[3] == o.name;
  }

  predicate ObjectFits(o: SieObject) { IsIdentifier(o.id) && IsName(o.name) }

  lemma {:induction false} ObjectsAccepted(r: Reader, s: seq<SieObject>)
    requires r.doc.objects == [] && Each(s, ObjectRecords()).Ok? && forall o :: o in s ==> IsDimension(o.dimension)
    ensures Run(r, Each(s, ObjectRecords()).value).Some? <==>
            (forall o :: o in s ==> ObjectFits(o)) && Unique(s, ObjectKey())
  {
    hide ObjectRecords, Each, Run, Feed, IsName, IsIdentifier, Unique, Missing, IsDimension;
    if |s| > 0 {
      var front, o := s[..|s| - 1], s[|s| - 1];
      assert s == front + [o];
      RunEachIff(r, s, ObjectRecords());
      ObjectsAccepted(r, front);
      UniqueSnoc(front, o, ObjectKey());
      if Run(r, Each(front, ObjectRecords()).value).Some? {
        RunObjects(r, front);
        NothingBefore(front);
        ObjectAccepted(Run(r, Each(front, ObjectRecords()).value).value, o);
      }
    } else {
      RunNothing(r, s, ObjectRecords());
      NothingRepeats(s, ObjectKey());
    }
  }

  // ---------------------------------------------------------------- lines

  function DimensionKey(): ObjectRef -> string { (o: ObjectRef) => o.dimension }

  predicate RefFits(o: ObjectRef) { IsIdentifier(o.id) }

  /** The objects of a line: identifiers, no dimension twice. */
  predicate RefsFit(refs: seq<ObjectRef>) { (forall o :: o in refs ==> RefFits(o)) && Unique(refs, DimensionKey()) }

  lemma RefsFitSnoc(refs: seq<ObjectRef>, n: nat)
    requires n < |refs|
    ensures RefsFit(refs[..n + 1]) <==>
            RefsFit(refs[..n]) && RefFits(refs[n]) && Missing(refs[..n], DimensionKey(), refs[n].dimension)
  {
    assert refs[..n + 1] == refs[..n] + [refs[n]];
    UniqueSnoc(refs[..n], refs[n], DimensionKey());
    hide RefFits, Unique, Missing;
  }

  lemma ObjectsStep(t: seq<string>, end: nat, o: ObjectRef)
    requires 5 <= end <= |t| && t[end - 2] == o.dimension && t[end - 1] == o.id && IsDimension(o.dimension)
    ensures var front := ObjectsUpTo(t, end - 2);
            ObjectsUpTo(t, end)
            == if front.Some? && RefFits(o) && Missing(front.value, DimensionKey(), o.dimension)
              then Some(front.value + [o]) else None
  {
    hide IsIdentifier, IsDimension;
    assert o == ObjectRef(t[end - 2], t[end - 1]);
  }

  lemma {:induction false} ObjectsAcceptedUpTo(t: seq<string>, refs: seq<ObjectRef>, n: nat)
    requires n <= |refs| && 3 + 2 * |refs| <= |t| && forall o :: o in refs ==> IsDimension(o.dimension)
    requires forall k :: 0 <= k < |refs| ==> t[3 + 2 * k] == refs[k].dimension && t[4 + 2 * k] == refs[k].id
    ensures ObjectsUpTo(t, 3 + 2 * n) == if RefsFit(refs[..n]) then Some(refs[..n]) else None
  {
    if n > 0 {
      assert refs[n - 1] in refs;
      assert t[3 + 2 * (n - 1)] == refs[n - 1].dimension && t[4 + 2 * (n - 1)] == refs[n - 1].id;
      assert refs[..n] == refs[..n - 1] + [refs[n - 1]];
      hide ObjectsUpTo, IsIdentifier, IsDimension, RefsFit, Missing, RefFits;
      ObjectsAcceptedUpTo(t, refs, n - 1);
      RefsFitSnoc(refs, n - 1);
      ObjectsStep(t, 3 + 2 * n, refs[n - 1]);
    }
  }

  lemma BraceIsNoIdentifier()
    ensures !IsIdentifier("}")
  {
    assert !IsIdentifierChar("}"[0]);
  }

  lemma IdentifiersDoNotClose(refs: seq<ObjectRef>)
    requires RefsFit(refs)
    ensures forall o :: o in refs ==> o.id != "}"
  {
    BraceIsNoIdentifier();
    hide IsIdentifier;
    assert forall o :: o in refs ==> RefFits(o);
  }

  /** When all object ids are identifiers, the first closing brace of the record is the one that was printed. */
  lemma ClosingIsPrinted(t: seq<string>, account: string, refs: seq<ObjectRef>, amount: string, date: string,
        text: string)
    requires LineShape(t, account, refs, amount, date, text) && forall o :: o in refs ==> IsDimension(o.dimension)
    requires account != "}" && forall o :: o in refs ==> o.id != "}"
    ensures Closing(t) == 3 + 2 * |refs|
  {
    forall j | 0 <= j < 3 + 2 * |refs| ensures t[j] != "}" {
      if j >= 3 {
        var k := (j - 3) / 2;
        assert refs[k] in refs && (j == 3 + 2 * k || j == 4 + 2 * k);
      }
    }
    assert t[3 + 2 * |refs|] in t;
    FirstIsFirst(t, 3 + 2 * |refs|);
  }

  lemma TransactionAccepted(r: Reader, t: seq<string>, account: string, refs: seq<ObjectRef>, amount: string,
        date: string, text: string)
    requires LineShape(t, account, refs, amount, date, text) && forall o :: o in refs ==> IsDimension(o.dimension)
    requires r.open && r.block && r.doc.vouchers != []
    requires MoneyCents(amount).Some? && (date == "" || ParseDate(date).Some?)
    ensures TransactionRecord(r, t).Ok? <==> IsAccountNumber(account) && RefsFit(refs) && Units(text) <= 500
  {
    hide IsAccountNumber, Units, ParseDate, MoneyCents, CentsMoney, IsDimension, AddTransaction, RefsFit;
    var c := 3 + 2 * |refs|;
    assert refs[..|refs|] == refs;
    ObjectsAcceptedUpTo(t, refs, |refs|);
    hide ObjectsUpTo;
    if TransactionRecord(r, t).Ok? {
      ClosingFound(t, account, refs, amount, date, text);
      assert At(t, c + 3) == text;
    }
    if IsAccountNumber(account) && RefsFit(refs) && Units(text) <= 500 {
      IdentifiersDoNotClose(refs);
      NumberIsNoBrace(account);
      ClosingIsPrinted(t, account, refs, amount, date, text);
      assert At(t, c + 1) == amount && At(t, c + 2) == date && At(t, c + 3) == text;
    }
  }

  lemma NumberIsNoBrace(s: string)
    requires IsAccountNumber(s)
    ensures s != "}"
  {
  }

  predicate LineFits(x: Transaction) {
    IsAccountNumber(x.account) && RefsFit(x.objects) && Units(if x.text.Some? then x.text.value else "") <= 500
  }

  lemma RefsFitSorted(refs: seq<ObjectRef>, cmp: (ObjectRef, ObjectRef) -> int)
    ensures RefsFit(Sort(refs, cmp)) <==> RefsFit(refs)
  {
    UniquePermuted(Sort(refs, cmp), refs, DimensionKey());
    forall o ensures o in Sort(refs, cmp) <==> o in refs { SortMembers(refs, cmp, o); }
    hide RefFits, Unique, Sort;
  }

  lemma LineAccepted(r: Reader, x: Transaction, collate: Collation)
    requires WellFormedLine(x) && LineRecords(collate)(x).Ok? && r.open && r.block && r.doc.vouchers != []
    ensures Run(r, LineRecords(collate)(x).value).Some? <==> LineFits(x)
  {
    hide LineRecords, LineShape, DatePart, Sort, MoneyCents, CentsMoney, CanonicalDay, ParseDate, IsDimension, Feed,
         Run, RefsFit, RecordTokens, TransactionRecord, IsAccountNumber, Units;
    var refs := Sort(x.objects, ByDimension(collate));
    forall o | o in refs ensures IsDimension(o.dimension) { SortMembers(x.objects, ByDimension(collate), o); }
    LineIsOne(x, collate);
    var rec := LineRecords(collate)(x).value[0];
    PrintedLine(x, collate, rec);
    MoneyIsBounded(x.amount);
    DateIsRead(x);
    RunOne(r, rec);
    FeedLine(r, rec);
    RefsFitSorted(x.objects, ByDimension(collate));
    TransactionAccepted(r, RecordTokens(rec), x.account, refs, CentsMoney(MoneyCents(x.amount).value),
      DatePart(x).value.text,
                        if x.text.Some? then x.text.value else "");
    hide Pow10;
  }

  lemma DateIsRead(x: Transaction)
    requires DatePart(x).Ok?
    ensures DatePart(x).value.Objects? || DatePart(x).value.text == "" || ParseDate(DatePart(x).value.text).Some?
  {
  }

  lemma {:induction false} LinesAccepted(r: Reader, s: seq<Transaction>, collate: Collation)
    requires r.doc.vouchers != [] && r.open && r.block && (forall x :: x in s ==> WellFormedLine(x))
    requires Each(s, LineRecords(collate)).Ok?
    ensures Run(r, Each(s, LineRecords(collate)).value).Some? <==> forall x :: x in s ==> LineFits(x)
  {
    var f, g := LineRecords(collate), CanonicalLine(collate);
    hide LineRecords, CanonicalLine, WellFormedLine, Each, Run, Feed, Map, LineFits;
    if |s| > 0 {
      var front, x := s[..|s| - 1], s[|s| - 1];
      assert s == front + [x];
      RunEachIff(r, s, f);
      LinesAccepted(r, front, collate);
      if Run(r, Each(front, f).value).Some? {
        RunLines(r, front, collate);
        LineAccepted(WithLines(r, Map(front, g)), x, collate);
      }
    } else {
      RunNothing(r, s, f);
    }
  }

  // ---------------------------------------------------------------- vouchers

  function VoucherKey(): Voucher -> (string, string) { (v: Voucher) => (v.series, v.number) }

  predicate HeadFits(v: Voucher) { IsIdentifier(v.series) && IsVoucherNumber(v.number) && Units(v.text) <= 500 }

  predicate VoucherFits(v: Voucher) { HeadFits(v) && forall x :: x in v.transactions ==> LineFits(x) }

  lemma HeadStep(r: Reader, t: seq<string>, v: Voucher)
    requires |t| == 5 && t[1] == v.series && t[2] == v.number && ParseDate(t[3]).Some? && t[4] == v.text && !r.open
    requires !r.block
    ensures VoucherRecord(r, t).Ok? <==> HeadFits(v) && Missing(r.doc.vouchers, VoucherKey(), VoucherKey()(v))
  {
    hide IsIdentifier, IsVoucherNumber, Units, ParseDate;
  }

  lemma HeadAccepted(r: Reader, v: Voucher, rec: Record)
    requires One("#VER", [TextField(v.series), Ok(Word(v.number)), DateField(v.date), TextField(v.text)]) == Ok([rec])
    requires !r.open && !r.block
    ensures Feed(r, rec).Some? <==> HeadFits(v) && Missing(r.doc.vouchers, VoucherKey(), VoucherKey()(v))
  {
    var fs := [TextField(v.series), Ok(Word(v.number)), DateField(v.date), TextField(v.text)];
    OneTokens("#VER", fs);
    assert KindOf("#VER") == VoucherHead;
    hide KindOf, RecordTokens, WithoutDashes, ParseDate, HeadFits, Missing, Quotable, VoucherRecord;
    var t := RecordTokens(rec);
    assert fs[0].Ok? && fs[1].Ok? && fs[2].Ok? && fs[3].Ok?;
    assert t[1] == v.series && t[2] == v.number && t[3] == WithoutDashes(v.date) && t[4] == v.text;
    HeadStep(r, t, v);
  }

  lemma BracesAccepted(r: Reader)
    ensures r.open && !r.block ==> Feed(r, Record("{", [])).Some?
    ensures r.open && r.block ==> Feed(r, Record("}", [])).Some?
  {
    assert KindOf("{") == OpenBrace && KindOf("}") == CloseBrace;
    hide KindOf;
  }

  lemma VoucherAccepted(r: Reader, v: Voucher, collate: Collation)
    requires WellFormedVoucher(v) && VoucherRecords(collate)(v).Ok? && !r.open && !r.block
    ensures Run(r, VoucherRecords(collate)(v).value).Some? <==>
            VoucherFits(v) && Missing(r.doc.vouchers, VoucherKey(), VoucherKey()(v))
  {
    hide Feed, Run, Each, One, TextField, DateField, LineRecords, CanonicalLine, CanonicalDay, WellFormedLine, LineFits,
         HeadFits, Missing;
    var fs := [TextField(v.series), Ok(Word(v.number)), DateField(v.date), TextField(v.text)];
    var head := One("#VER", fs);
    OneRecord("#VER", fs);
    var lines := Each(v.transactions, LineRecords(collate));
    var begun, ended := [Record("{", [])], [Record("}", [])];
    assert VoucherRecords(collate)(v).value == head.value + begun + lines.value + ended;
    RunAppend(r, head.value + begun + lines.value, ended);
    RunAppend(r, head.value + begun, lines.value);
    RunAppend(r, head.value, begun);
    RunOne(r, head.value[0]);
    HeadAccepted(r, v, head.value[0]);
    if Feed(r, head.value[0]).Some? {
      FeedVoucher(r, v, head.value[0]);
      var r1 := Feed(r, head.value[0]).value;
      RunOne(r1, begun[0]);
      BracesAccepted(r1);
      FeedBraces(r1);
      var r2 := r1.(block := true);
      LinesAccepted(r2, v.transactions, collate);
      if Run(r2, lines.value).Some? {
        RunLines(r2, v.transactions, collate);
        var r3 := WithLines(r2, Map(v.transactions, CanonicalLine(collate)));
        RunOne(r3, ended[0]);
        BracesAccepted(r3);
      }
    }
  }

  lemma CanonicalKeys(s: seq<Voucher>, k: (string, string), collate: Collation)
    ensures Missing(Map(s, CanonicalVoucher(collate)), VoucherKey(), k) <==> Missing(s, VoucherKey(), k)
  {
    hide CanonicalLine, CanonicalDay;
    var m := Map(s, CanonicalVoucher(collate));
    forall x | x in m ensures exists v :: v in s && VoucherKey()(v) == VoucherKey()(x) {
      var i :| 0 <= i < |m| && m[i] == x;
      assert s[i] in s;
    }
    forall v | v in s ensures exists x :: x in m && VoucherKey()(v) == VoucherKey()(x) {
      var i :| 0 <= i < |s| && s[i] == v;
      assert m[i] in m;
    }
  }

  lemma {:induction false} VouchersAccepted(r: Reader, s: seq<Voucher>, collate: Collation)
    requires (forall v :: v in s ==> WellFormedVoucher(v)) && Each(s, VoucherRecords(collate)).Ok?
    requires !r.open && !r.block && r.doc.vouchers == []
    ensures Run(r, Each(s, VoucherRecords(collate)).value).Some? <==>
            (forall v :: v in s ==> VoucherFits(v)) && Unique(s, VoucherKey())
  {
    var f, g := VoucherRecords(collate), CanonicalVoucher(collate);
    hide VoucherRecords, CanonicalVoucher, WellFormedVoucher, Each, Run, Feed, Map, VoucherFits, Unique, Missing;
    if |s| > 0 {
      var front, v := s[..|s| - 1], s[|s| - 1];
      assert s == front + [v];
      RunEachIff(r, s, f);
      VouchersAccepted(r, front, collate);
      UniqueSnoc(front, v, VoucherKey());
      if Run(r, Each(front, f).value).Some? {
        RunVouchers(r, front, collate);
        NothingBefore(Map(front, g));
        VoucherAccepted(Run(r, Each(front, f).value).value, v, collate);
        CanonicalKeys(front, VoucherKey()(v), collate);
      }
    } else {
      RunNothing(r, s, f);
      NothingRepeats(s, VoucherKey());
    }
  }

  // ---------------------------------------------------------------- header and the whole export

  /** The year does not end before it starts. */
  predicate YearInOrder(year: Span) {
    SieDate(year.start).Some? && SieDate(year.end).Some? ==> !Less(CanonicalDate(year.end), CanonicalDate(year.start))
  }

  lemma YearAccepted(r: Reader, year: Span, rec: Record)
    requires One("#RAR", [Ok(Word("0")), DateField(year.start), DateField(year.end)]) == Ok([rec])
    requires r.doc.fiscalYears == []
    ensures Feed(r, rec).Some? <==> YearInOrder(year)
  {
    var fs := [Ok(Word("0")), DateField(year.start), DateField(year.end)];
    OneTokens("#RAR", fs);
    ZeroIsYear();
    assert KindOf("#RAR") == Year;
    hide KindOf, RecordTokens, WithoutDashes, Less, IsYearIndex, Calendar.Valid;
    var t := RecordTokens(rec);
    assert fs[0].Ok? && fs[1].Ok? && fs[2].Ok? && t[1] == "0" && t[2] == WithoutDashes(year.start)
      && t[3] == WithoutDashes(year.end);
  }

  lemma {:induction false} HeaderAccepted(data: ExportData)
    requires HeaderRecords(data).Ok?
    ensures Run(START, HeaderRecords(data).value).Some? <==> YearInOrder(data.year)
  {
    hide Run, Feed, One, TextField, DateField, KindOf, CanonicalYear, YearInOrder;
    var fixed := [Record("#FLAGGA", [Word("0")]), Record("#PROGRAM", [Quoted("LedgerApp"), Quoted("0.1")])]
                 + [Record("#FORMAT", [Word("PC8")]), Record("#SIETYP", [Word("4")])];
    var gen := One("#GEN", [DateField(data.generated), Ok(Quoted("LedgerApp"))]).value;
    var number := if data.number.Some? && data.number.value != ""
      then One("#ORGNR", [TextField(data.number.value)]).value else [];
    var name := One("#FNAMN", [TextField(data.name)]).value;
    var rar := One("#RAR", [Ok(Word("0")), DateField(data.year.start), DateField(data.year.end)]).value;
    assert HeaderRecords(data).value == fixed + gen + (number + name) + rar;
    RunAppend(START, fixed + gen + (number + name), rar);
    RunAppend(START, fixed + gen, number + name);
    RunAppend(START, fixed, gen);
    var typed := START.(typeSeen := true);
    RunFixed();
    RunGenerated(typed, data);
    var titled := RunTitle(typed, data);
    OneRecord("#RAR", [Ok(Word("0")), DateField(data.year.start), DateField(data.year.end)]);
    RunOne(titled, rar[0]);
    YearAccepted(titled, data.year, rar[0]);
  }

  lemma RunChainIff(r: Reader, a: Records, b: Records)
    requires Chain(a, b).Ok?
    ensures a.Ok? && b.Ok?
    ensures Run(r, Chain(a, b).value).Some? <==> Run(r, a.value).Some? && Run(Run(r, a.value).value, b.value).Some?
    ensures Run(r, Chain(a, b).value).Some? ==> Run(r, Chain(a, b).value) == Run(Run(r, a.value).value, b.value)
  {
    RunAppend(r, a.value, b.value);
  }
}
