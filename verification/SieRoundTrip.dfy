/** Printing and reading undo each other: an exported ledger is read back as its canonical form. */
module SieRoundTrip {
  import opened Common
  import opened SieText
  import opened SieTokens
  import opened SieLines
  import opened SieParser
  import opened SieExport
  import opened SieReplay
  import SieSound

  // ---------------------------------------------------------------- what may be exported, and its canonical form

  predicate WellFormedLine(x: Transaction)
  {
    IsNumber(x.account) && forall o :: o in x.objects ==> IsDimension(o.dimension)
  }

  predicate WellFormedVoucher(v: Voucher)
  {
    IsNumber(v.number) && forall x :: x in v.transactions ==> WellFormedLine(x)
  }

  /** Account and voucher numbers are digits, and only the dimensions 1 and 6 occur. */
  predicate WellFormed(data: ExportData) {
    (forall v :: v in data.vouchers ==> WellFormedVoucher(v))
      && (forall o :: o in data.objects ==> IsDimension(o.dimension))
  }

  function CanonicalMoney(s: string): string { if MoneyCents(s).Some? then CentsMoney(MoneyCents(s).value) else s }

  function CanonicalDay(s: string): string { if SieDate(s).Some? then CanonicalDate(s) else s }

  /** Objects in order, canonical amount and date, an absent text read as the empty one. */
  function CanonicalLine(collate: Collation): Transaction -> Transaction {
    (x: Transaction) =>
      Transaction(x.account, CanonicalMoney(x.amount),
                  if x.date.Some? && x.date.value != "" then Some(CanonicalDay(x.date.value)) else None,
                  Some(if x.text.Some? then x.text.value else ""), Sort(x.objects, ByDimension(collate)))
  }

  function CanonicalVoucher(collate: Collation): Voucher -> Voucher {
    (v: Voucher) =>
      Voucher(CanonicalDay(v.date), v.number, v.series, v.text, Map(v.transactions, CanonicalLine(collate)))
  }

  /** A result account has no opening record. */
  function OpeningPart(accounts: seq<Account>, b: ExportBalance): seq<Opening> {
    if IsResultKind(KindIn(accounts, b.account)) then [] else [Opening(b.account, CanonicalMoney(b.opening), "0")]
  }

  function CanonicalOpenings(accounts: seq<Account>, bs: seq<ExportBalance>): seq<Opening> {
    if |bs| == 0 then [] else CanonicalOpenings(accounts, bs[..|bs| - 1]) + OpeningPart(accounts, bs[|bs| - 1])
  }

  function CanonicalBalances(accounts: seq<Account>): ExportBalance -> Balance {
    (b: ExportBalance) =>
      Balance(if IsResultKind(KindIn(accounts, b.account)) then "#RES" else "#UB",
              b.account, CanonicalMoney(b.closing), "0")
  }

  function CanonicalYear(y: Span): Span { Span(CanonicalDay(y.start), CanonicalDay(y.end)) }

  /** The document an export is read back as. */
  function Canonical(data: ExportData, collate: Collation): Document {
    var balances := Sort(data.balances, ByAccount(collate));
    var year := CanonicalYear(data.year);
    Document(Sort(data.accounts, ByNumber(collate)), Some(year), [FiscalYear("0", year)],
             CanonicalOpenings(data.accounts, balances), Map(balances, CanonicalBalances(data.accounts)),
             Sort(data.objects, ByIdentity(collate)),
             Some(Organization(Some(data.name),
                               if data.number.Some? && data.number.value != "" then data.number else None)),
             Map(Sort(data.vouchers, ByDate(collate)), CanonicalVoucher(collate)), [], [])
  }

  // ---------------------------------------------------------------- accounts

  function Unnamed(): Account -> Account { (a: Account) => Account(a.number, a.name, None) }

  function TypesAfter(types: map<string, AccountType>, s: seq<Account>): map<string, AccountType> {
    if |s| == 0 then types
    else
      var front, a := TypesAfter(types, s[..|s| - 1]), s[|s| - 1];
      if a.kind.Some? then front[a.number := a.kind.value] else front
  }

  lemma LetterOfType(k: AccountType)
    ensures TypeOfLetter(Letter(k)) == Some(k) && IsWord(Letter(k))
  {
    match k { case Asset => case Debt => case Income => case Cost => }
  }

  lemma FeedName(r: Reader, a: Account, rec: Record)
    requires One("#KONTO", [Ok(Word(a.number)), TextField(a.name)]) == Ok([rec]) && Feed(r, rec).Some?
    ensures Feed(r, rec) == Some(WithDoc(r, r.doc.(accounts := r.doc.accounts + [Unnamed()(a)])))
  {
    var fs := [Ok(Word(a.number)), TextField(a.name)];
    OneTokens("#KONTO", fs);
    var t := RecordTokens(rec);
    assert fs[0].Ok? && fs[1].Ok? && t[1] == a.number && t[2] == a.name;
    assert KindOf("#KONTO") == AccountName;
    hide KindOf, IsAccountNumber, Units, Quotable, RecordTokens;
    assert At(t, 1) == a.number && At(t, 2) == a.name;
  }

  lemma FeedKind(r: Reader, a: Account)
    requires a.kind.Some? && Feed(r, Record("#KTYP", [Word(a.number), Word(Letter(a.kind.value))])).Some?
    ensures Feed(r, Record("#KTYP", [Word(a.number), Word(Letter(a.kind.value))]))
            == Some(r.(types := r.types[a.number := a.kind.value]))
  {
    var rec := Record("#KTYP", [Word(a.number), Word(Letter(a.kind.value))]);
    SimpleTokens(rec.fields);
    LetterOfType(a.kind.value);
    var t := RecordTokens(rec);
    assert KindOf("#KTYP") == AccountKind;
    hide KindOf, IsAccountNumber, RecordTokens, TypeOfLetter;
    assert At(t, 1) == a.number && At(t, 2) == Letter(a.kind.value);
  }

  lemma RunAccount(r: Reader, a: Account)
    requires AccountRecords()(a).Ok? && Run(r, AccountRecords()(a).value).Some?
    ensures Run(r, AccountRecords()(a).value) ==
      Some(WithDoc(r, r.doc.(accounts := r.doc.accounts + [Unnamed()(a)]))
        .(types := if a.kind.Some? then r.types[a.number := a.kind.value] else r.types))
  {
    var name := One("#KONTO", [Ok(Word(a.number)), TextField(a.name)]);
    OneTokens("#KONTO", [Ok(Word(a.number)), TextField(a.name)]);
    assert name.value == [name.value[0]];
    var kind := if a.kind.Some? then [Record("#KTYP", [Word(a.number), Word(Letter(a.kind.value))])] else [];
    assert AccountRecords()(a).value == name.value + kind;
    hide Feed, One, TextField, Letter;
    RunAppend(r, name.value, kind);
    RunOne(r, name.value[0]);
    FeedName(r, a, name.value[0]);
    var named := Feed(r, name.value[0]).value;
    if a.kind.Some? {
      RunOne(named, kind[0]);
      FeedKind(named, a);
    }
  }

  lemma {:induction false} RunEach<T>(r: Reader, s: seq<T>, f: T -> Records)
    requires s != [] && Each(s, f).Ok? && Run(r, Each(s, f).value).Some?
    ensures var front, last := s[..|s| - 1], s[|s| - 1];
            && Each(front, f).Ok? && f(last).Ok? && Run(r, Each(front, f).value).Some?
            && Run(r, Each(s, f).value) == Run(Run(r, Each(front, f).value).value, f(last).value)
  {
    RunAppend(r, Each(s[..|s| - 1], f).value, f(s[|s| - 1]).value);
  }

  lemma RunNothing<T>(r: Reader, s: seq<T>, f: T -> Records)
    requires s == []
    ensures Each(s, f) == Ok([]) && Run(r, Each(s, f).value) == Some(r)
  {
  }

  lemma MapNothing<T, U>(s: seq<T>, f: T -> U, before: seq<U>)
    requires s == []
    ensures before + Map(s, f) == before && Map(s, f) == []
  {
  }

  lemma AppendTwice<T>(a: seq<T>, b: seq<T>, c: seq<T>)
    ensures a + b + c == a + (b + c) && a + [] == a
  {
  }

  lemma {:induction false} RunAccounts(r: Reader, s: seq<Account>)
    requires Each(s, AccountRecords()).Ok? && Run(r, Each(s, AccountRecords()).value).Some?
    ensures Run(r, Each(s, AccountRecords()).value)
            == Some(WithDoc(r, r.doc.(accounts := r.doc.accounts + Map(s, Unnamed())))
              .(types := TypesAfter(r.types, s)))
  {
    hide AccountRecords, Each, Run, Feed, Map, Unnamed;
    if |s| > 0 {
      var front, a := s[..|s| - 1], s[|s| - 1];
      RunEach(r, s, AccountRecords());
      RunAccounts(r, front);
      RunAccount(Run(r, Each(front, AccountRecords()).value).value, a);
      assert s == front + [a];
      MapSnoc(front, a, Unnamed());
      AppendTwice(r.doc.accounts, Map(front, Unnamed()), [Unnamed()(a)]);
    } else {
      RunNothing(r, s, AccountRecords());
      MapNothing(s, Unnamed(), r.doc.accounts);
    }
  }

  /** With distinct numbers the type records restore every account. */
  lemma {:induction false} TypesRestored(s: seq<Account>)
    requires forall i, j :: 0 <= i < j < |s| ==> s[i].number != s[j].number
    ensures forall i :: 0 <= i < |s| ==>
              (if s[i].number in TypesAfter(map[], s) then Some(TypesAfter(map[], s)[s[i].number]) else None)
                == s[i].kind
    ensures forall n :: n in TypesAfter(map[], s) ==> exists a :: a in s && a.number == n
  {
    if |s| > 0 {
      var front, a := s[..|s| - 1], s[|s| - 1];
      TypesRestored(front);
      assert a.number !in TypesAfter(map[], front) by {
        assert forall b :: b in front ==> b.number != a.number;
      }
      assert forall x :: x in front ==> x in s;
      assert a in s;
    }
  }

  lemma {:induction false} TypedAccounts(s: seq<Account>)
    requires forall i, j :: 0 <= i < j < |s| ==> s[i].number != s[j].number
    ensures Typed(Map(s, Unnamed()), TypesAfter(map[], s)) == s
  {
    TypesRestored(s);
    hide TypesAfter;
  }

  // ---------------------------------------------------------------- balances and objects

  lemma ZeroIsYear()
    ensures IsYearIndex("0")
  {
  }

  lemma FeedBalance(r: Reader, tag: string, account: string, amount: string, rec: Record)
    requires KindOf(tag) == BalanceAmount && MoneyCents(amount).Some?
    requires One(tag, [Ok(Word("0")), Ok(Word(account)), MoneyField(amount)]) == Ok([rec]) && Feed(r, rec).Some?
    ensures Feed(r, rec) == Some(WithDoc(r,
      if tag == "#IB" then r.doc.(openings := r.doc.openings + [Opening(account, CanonicalMoney(amount), "0")])
      else r.doc.(balances := r.doc.balances + [Balance(tag, account, CanonicalMoney(amount), "0")])))
  {
    hide KindOf, IsAccountNumber, RecordTokens, MoneyCents, CentsMoney, IsYearIndex, Pow10, One;
    var fs := [Ok(Word("0")), Ok(Word(account)), MoneyField(amount)];
    OneTokens(tag, fs);
    MoneyIsBounded(amount);
    ZeroIsYear();
    var t := RecordTokens(rec);
    assert fs[0].Ok? && fs[1].Ok? && fs[2].Ok? && t[1] == "0" && t[2] == account
      && t[3] == CentsMoney(MoneyCents(amount).value);
  }

  lemma BalanceKinds()
    ensures KindOf("#IB") == BalanceAmount && KindOf("#UB") == BalanceAmount && KindOf("#RES") == BalanceAmount
  {
  }

  lemma OneRecord(tag: string, fs: seq<Result<Field, ExportError>>)
    requires One(tag, fs).Ok?
    ensures One(tag, fs) == Ok([One(tag, fs).value[0]])
  {
  }

  lemma {:induction false} RunResult(r: Reader, accounts: seq<Account>, b: ExportBalance)
    requires BalanceRecords(accounts)(b).Ok? && Run(r, BalanceRecords(accounts)(b).value).Some?
    requires IsResultKind(KindIn(accounts, b.account))
    ensures Run(r, BalanceRecords(accounts)(b).value)
            == Some(WithDoc(r, r.doc.(balances := r.doc.balances + [CanonicalBalances(accounts)(b)])))
  {
    hide Run, Feed, KindOf, KindIn, MoneyCents, CentsMoney, IsAccountNumber, Gather;
    var fs := [Ok(Word("0")), Ok(Word(b.account)), MoneyField(b.closing)];
    OneRecord("#RES", fs);
    GatherOk(fs);
    assert fs[2].Ok?;
    BalanceKinds();
    var rec := One("#RES", fs).value[0];
    RunOne(r, rec);
    FeedBalance(r, "#RES", b.account, b.closing, rec);
  }

  lemma {:induction false} RunStock(r: Reader, accounts: seq<Account>, b: ExportBalance)
    requires BalanceRecords(accounts)(b).Ok? && Run(r, BalanceRecords(accounts)(b).value).Some?
    requires !IsResultKind(KindIn(accounts, b.account))
    ensures Run(r, BalanceRecords(accounts)(b).value)
            == Some(WithDoc(r, r.doc.(openings := r.doc.openings + [Opening(b.account, CanonicalMoney(b.opening), "0")],
                                      balances := r.doc.balances + [CanonicalBalances(accounts)(b)])))
  {
    hide Run, Feed, KindOf, KindIn, MoneyCents, CentsMoney, IsAccountNumber, Gather, One;
    var fs := [Ok(Word("0")), Ok(Word(b.account)), MoneyField(b.opening)];
    var gs := [Ok(Word("0")), Ok(Word(b.account)), MoneyField(b.closing)];
    OneIsGathered("#IB", fs);
    OneIsGathered("#UB", gs);
    assert fs[2].Ok? && gs[2].Ok?;
    BalanceKinds();
    var ib, ub := One("#IB", fs).value[0], One("#UB", gs).value[0];
    assert BalanceRecords(accounts)(b).value == [ib] + [ub];
    RunAppend(r, [ib], [ub]);
    RunOne(r, ib);
    FeedBalance(r, "#IB", b.account, b.opening, ib);
    RunOne(Feed(r, ib).value, ub);
    FeedBalance(Feed(r, ib).value, "#UB", b.account, b.closing, ub);
  }

  lemma OneIsGathered(tag: string, fs: seq<Result<Field, ExportError>>)
    requires One(tag, fs).Ok?
    ensures One(tag, fs) == Ok([One(tag, fs).value[0]]) && forall i :: 0 <= i < |fs| ==> fs[i].Ok?
  {
    GatherOk(fs);
  }

  lemma {:induction false} RunBalance(r: Reader, accounts: seq<Account>, b: ExportBalance)
    requires BalanceRecords(accounts)(b).Ok? && Run(r, BalanceRecords(accounts)(b).value).Some?
    ensures Run(r, BalanceRecords(accounts)(b).value)
            == Some(WithDoc(r, r.doc.(openings := r.doc.openings + OpeningPart(accounts, b),
                                      balances := r.doc.balances + [CanonicalBalances(accounts)(b)])))
  {
    hide Run, BalanceRecords, KindIn, CanonicalBalances;
    if IsResultKind(KindIn(accounts, b.account)) {
      RunResult(r, accounts, b);
      assert r.doc.openings + OpeningPart(accounts, b) == r.doc.openings;
    } else {
      RunStock(r, accounts, b);
    }
  }

  /** The reader after balance records: openings and closing amounts appended. */
  function WithBalances(r: Reader, openings: seq<Opening>, balances: seq<Balance>): Reader {
    WithDoc(r, r.doc.(openings := r.doc.openings + openings, balances := r.doc.balances + balances))
  }

  lemma WithBalancesTwice(r: Reader, o1: seq<Opening>, b1: seq<Balance>, o2: seq<Opening>, b2: seq<Balance>)
    ensures WithBalances(WithBalances(r, o1, b1), o2, b2) == WithBalances(r, o1 + o2, b1 + b2)
    ensures WithBalances(r, [], []) == r
  {
    AppendTwice(r.doc.openings, o1, o2);
    AppendTwice(r.doc.balances, b1, b2);
    assert r.doc.openings + [] == r.doc.openings && r.doc.balances + [] == r.doc.balances;
  }

  lemma {:induction false} RunBalances(r: Reader, accounts: seq<Account>, s: seq<ExportBalance>)
    requires Each(s, BalanceRecords(accounts)).Ok? && Run(r, Each(s, BalanceRecords(accounts)).value).Some?
    ensures Run(r, Each(s, BalanceRecords(accounts)).value)
            == Some(WithBalances(r, CanonicalOpenings(accounts, s), Map(s, CanonicalBalances(accounts))))
  {
    hide BalanceRecords, CanonicalBalances, KindIn, OpeningPart, Each, Run, Feed, Map, WithBalances;
    var f, g := BalanceRecords(accounts), CanonicalBalances(accounts);
    if |s| > 0 {
      var front, b := s[..|s| - 1], s[|s| - 1];
      RunEach(r, s, f);
      RunBalances(r, accounts, front);
      var r' := WithBalances(r, CanonicalOpenings(accounts, front), Map(front, g));
      RunBalanceStep(r', accounts, b);
      assert s == front + [b];
      MapSnoc(front, b, g);
      WithBalancesTwice(r, CanonicalOpenings(accounts, front), Map(front, g), OpeningPart(accounts, b), [g(b)]);
    } else {
      RunNothing(r, s, f);
      MapNothing(s, g, []);
      WithBalancesTwice(r, [], [], [], []);
    }
  }

  lemma {:induction false} RunBalanceStep(r: Reader, accounts: seq<Account>, b: ExportBalance)
    requires BalanceRecords(accounts)(b).Ok? && Run(r, BalanceRecords(accounts)(b).value).Some?
    ensures Run(r, BalanceRecords(accounts)(b).value)
            == Some(WithBalances(r, OpeningPart(accounts, b), [CanonicalBalances(accounts)(b)]))
  {
    hide BalanceRecords, CanonicalBalances, KindIn, OpeningPart, Run;
    RunBalance(r, accounts, b);
  }

  lemma {:induction false} RunObject(r: Reader, o: SieObject)
    requires ObjectRecords()(o).Ok? && Run(r, ObjectRecords()(o).value).Some?
    ensures Run(r, ObjectRecords()(o).value) == Some(WithDoc(r, r.doc.(objects := r.doc.objects + [o])))
  {
    var fs := [Ok(Word(o.dimension)), TextField(o.id), TextField(o.name)];
    OneTokens("#OBJEKT", fs);
    OneRecord("#OBJEKT", fs);
    assert KindOf("#OBJEKT") == ObjectName;
    hide KindOf, IsIdentifier, IsDimension, Units, Quotable, RecordTokens, Gather;
    var rec := One("#OBJEKT", fs).value[0];
    RunOne(r, rec);
    var t := RecordTokens(rec);
    assert fs[0].Ok? && fs[1].Ok? && fs[2].Ok? && t[1] == o.dimension && t[2] == o.id && t[3] == o.name;
  }

  lemma {:induction false} RunObjects(r: Reader, s: seq<SieObject>)
    requires Each(s, ObjectRecords()).Ok? && Run(r, Each(s, ObjectRecords()).value).Some?
    ensures Run(r, Each(s, ObjectRecords()).value) == Some(WithDoc(r, r.doc.(objects := r.doc.objects + s)))
  {
    hide ObjectRecords, Each, Run, Feed;
    if |s| > 0 {
      var front, o := s[..|s| - 1], s[|s| - 1];
      RunEach(r, s, ObjectRecords());
      RunObjects(r, front);
      RunObject(Run(r, Each(front, ObjectRecords()).value).value, o);
      assert s == front + [o];
      AppendTwice(r.doc.objects, front, [o]);
    } else {
      RunNothing(r, s, ObjectRecords());
      AppendTwice(r.doc.objects, s, s);
    }
  }

  // ---------------------------------------------------------------- header

  function TitleOf(data: ExportData): Organization {
    Organization(Some(data.name), if data.number.Some? && data.number.value != "" then data.number else None)
  }

  lemma FeedIgnored(r: Reader, rec: Record)
    requires KindOf(rec.tag) == Silent
    ensures Feed(r, rec) == Some(r)
  {
    hide KindOf;
  }

  lemma FeedFormat(r: Reader)
    ensures Feed(r, Record("#FORMAT", [Word("PC8")])) == Some(r)
    ensures Feed(r, Record("#SIETYP", [Word("4")])) == Some(r.(typeSeen := true))
  {
    SimpleTokens([Word("PC8")]);
    SimpleTokens([Word("4")]);
    assert KindOf("#FORMAT") == Format && KindOf("#SIETYP") == TypeOfFile;
    hide KindOf, FieldsTokens;
  }

  lemma FeedTitle(r: Reader, tag: string, text: string, rec: Record)
    requires KindOf(tag) == OrgNumber || KindOf(tag) == OrgName
    requires One(tag, [TextField(text)]) == Ok([rec])
    ensures Feed(r, rec) == Some(WithDoc(r, r.doc.(organization := Some(
              if KindOf(tag) == OrgNumber then OrganizationOf(r.doc).(number := Some(text))
                else OrganizationOf(r.doc).(name := Some(text))))))
  {
    var fs := [TextField(text)];
    OneTokens(tag, fs);
    hide KindOf, RecordTokens, Quotable;
    assert fs[0].Ok? && RecordTokens(rec)[1] == text;
  }

  lemma FeedYear(r: Reader, year: Span, rec: Record)
    requires One("#RAR", [Ok(Word("0")), DateField(year.start), DateField(year.end)]) == Ok([rec]) && Feed(r, rec).Some?
    ensures Feed(r, rec)
            == Some(WithDoc(r, r.doc.(fiscalYears := r.doc.fiscalYears + [FiscalYear("0", CanonicalYear(year))],
                                                   fiscalYear := Some(CanonicalYear(year)))))
  {
    var fs := [Ok(Word("0")), DateField(year.start), DateField(year.end)];
    OneTokens("#RAR", fs);
    assert KindOf("#RAR") == Year;
    hide KindOf, RecordTokens, WithoutDashes, Less, IsYearIndex, Calendar.Valid;
    var t := RecordTokens(rec);
    assert fs[0].Ok? && fs[1].Ok? && fs[2].Ok? && t[1] == "0" && t[2] == WithoutDashes(year.start)
      && t[3] == WithoutDashes(year.end);
  }

  lemma {:induction false} RunHeader(data: ExportData)
    requires HeaderRecords(data).Ok? && Run(START, HeaderRecords(data).value).Some?
    ensures var year := CanonicalYear(data.year);
            Run(START, HeaderRecords(data).value)
            == Some(Reader(EMPTY.(organization := Some(TitleOf(data)),
              fiscalYears := [FiscalYear("0", year)], fiscalYear := Some(year)),
                           false, false, true, map[]))
  {
    hide Run, Feed, One, TextField, DateField, KindOf, CanonicalYear;
    var fixed := [Record("#FLAGGA", [Word("0")]), Record("#PROGRAM", [Quoted("LedgerApp"), Quoted("0.1")])]
                 + [Record("#FORMAT", [Word("PC8")]), Record("#SIETYP", [Word("4")])];
    var gen := One("#GEN", [DateField(data.generated), Ok(Quoted("LedgerApp"))]).value;
    var number := if data.number.Some? && data.number.value != ""
      then One("#ORGNR", [TextField(data.number.value)]).value else [];
    var name := One("#FNAMN", [TextField(data.name)]).value;
    var rar := One("#RAR", [Ok(Word("0")), DateField(data.year.start), DateField(data.year.end)]).value;
    assert HeaderRecords(data).value == fixed + gen + (number + name) + rar;
    RunAppend(START, fixed + gen + (number + name), rar);
    RunAppend(START, fixed + gen, number + name);
    RunAppend(START, fixed, gen);
    var typed := START.(typeSeen := true);
    RunFixed();
    RunGenerated(typed, data);
    var titled := RunTitle(typed, data);
    OneRecord("#RAR", [Ok(Word("0")), DateField(data.year.start), DateField(data.year.end)]);
    RunOne(titled, rar[0]);
    FeedYear(titled, data.year, rar[0]);
    assert [] + [FiscalYear("0", CanonicalYear(data.year))] == [FiscalYear("0", CanonicalYear(data.year))];
  }

  lemma RunFixed()
    ensures Run(START, [Record("#FLAGGA", [Word("0")]), Record("#PROGRAM", [Quoted("LedgerApp"), Quoted("0.1")])]
                       + [Record("#FORMAT", [Word("PC8")]), Record("#SIETYP", [Word("4")])])
            == Some(START.(typeSeen := true))
  {
    assert KindOf("#FLAGGA") == Silent && KindOf("#PROGRAM") == Silent;
    hide KindOf, Feed, Run;
    var a, b := Record("#FLAGGA", [Word("0")]), Record("#PROGRAM", [Quoted("LedgerApp"), Quoted("0.1")]);
    var c, d := Record("#FORMAT", [Word("PC8")]), Record("#SIETYP", [Word("4")]);
    FeedIgnored(START, a);
    FeedIgnored(START, b);
    FeedFormat(START);
    RunOne(START, a); RunOne(START, b); RunOne(START, c); RunOne(START, d);
    RunAppend(START, [a], [b]);
    RunAppend(START, [c], [d]);
    assert [a] + [b] == [a, b] && [c] + [d] == [c, d];
    RunAppend(START, [a, b], [c, d]);
  }

  lemma RunGenerated(r: Reader, data: ExportData)
    requires One("#GEN", [DateField(data.generated), Ok(Quoted("LedgerApp"))]).Ok?
    ensures Run(r, One("#GEN", [DateField(data.generated), Ok(Quoted("LedgerApp"))]).value) == Some(r)
  {
    var fs := [DateField(data.generated), Ok(Quoted("LedgerApp"))];
    OneTokens("#GEN", fs);
    OneRecord("#GEN", fs);
    assert KindOf("#GEN") == Silent;
    hide KindOf, Feed, Run, One, DateField;
    RunOne(r, One("#GEN", fs).value[0]);
    FeedIgnored(r, One("#GEN", fs).value[0]);
  }

  lemma RunTitle(r: Reader, data: ExportData) returns (titled: Reader)
    requires r.doc.organization.None? && One("#FNAMN", [TextField(data.name)]).Ok?
    requires data.number.Some? && data.number.value != "" ==> One("#ORGNR", [TextField(data.number.value)]).Ok?
    ensures titled == WithDoc(r, r.doc.(organization := Some(TitleOf(data))))
    ensures Run(r,
            (if data.number.Some? && data.number.value != "" then One("#ORGNR", [TextField(data.number.value)]).value
              else [])
                   + One("#FNAMN", [TextField(data.name)]).value) == Some(titled)
  {
    titled := WithDoc(r, r.doc.(organization := Some(TitleOf(data))));
    assert KindOf("#ORGNR") == OrgNumber && KindOf("#FNAMN") == OrgName;
    hide KindOf, Feed, Run, One, TextField;
    var name := One("#FNAMN", [TextField(data.name)]).value;
    OneRecord("#FNAMN", [TextField(data.name)]);
    if data.number.Some? && data.number.value != "" {
      var number := One("#ORGNR", [TextField(data.number.value)]).value;
      OneRecord("#ORGNR", [TextField(data.number.value)]);
      RunAppend(r, number, name);
      RunOne(r, number[0]);
      FeedTitle(r, "#ORGNR", data.number.value, number[0]);
      RunOne(Feed(r, number[0]).value, name[0]);
      FeedTitle(Feed(r, number[0]).value, "#FNAMN", data.name, name[0]);
    } else {
      assert [] + name == name;
      RunOne(r, name[0]);
      FeedTitle(r, "#FNAMN", data.name, name[0]);
    }
  }

  lemma RunDimensions(r: Reader)
    ensures Run(r, DIMENSIONS) == Some(r)
  {
    var a, b := DIMENSIONS[0], DIMENSIONS[1];
    SimpleTokens(a.fields);
    SimpleTokens(b.fields);
    assert KindOf("#DIM") == Dimension;
    hide KindOf, FieldsTokens;
    assert RecordTokens(a)[1] == "1" && RecordTokens(b)[1] == "6";
    RunOne(r, a);
    RunOne(r, b);
    RunAppend(r, [a], [b]);
    assert DIMENSIONS == [a] + [b];
  }

  // ---------------------------------------------------------------- vouchers

  lemma {:induction false} RefTokensAt(refs: seq<ObjectRef>)
    ensures |RefTokens(refs)| == 2 * |refs|
    ensures forall k :: 0 <= k < |refs| ==>
            RefTokens(refs)[2 * k] == refs[k].dimension && RefTokens(refs)[2 * k + 1] == refs[k].id
  {
    if |refs| > 0 {
      RefTokensAt(refs[1..]);
      forall k | 0 <= k < |refs|
        ensures RefTokens(refs)[2 * k] == refs[k].dimension && RefTokens(refs)[2 * k + 1] == refs[k].id
      {
        if k > 0 {
          assert refs[k] == refs[1..][k - 1];
          assert RefTokens(refs)[2 * k] == RefTokens(refs[1..])[2 * (k - 1)];
          assert RefTokens(refs)[2 * k + 1] == RefTokens(refs[1..])[2 * (k - 1) + 1];
        }
      }
    }
  }

  /** The tokens of a transaction record: account, the object list between braces, amount, date, text. */
  ghost predicate LineShape(t: seq<string>, account: string, refs: seq<ObjectRef>, amount: string, date: string,
        text: string) {
    && |t| == 7 + 2 * |refs| && t[0] == "#TRANS" && t[1] == account && t[2] == "{"
    && (forall k :: 0 <= k < |refs| ==> t[3 + 2 * k] == refs[k].dimension && t[4 + 2 * k] == refs[k].id)
    && t[3 + 2 * |refs|] == "}" && t[4 + 2 * |refs|] == amount && t[5 + 2 * |refs|] == date && t[6 + 2 * |refs|] == text
  }

  lemma LineTokensAre(account: string, refs: seq<ObjectRef>, amount: Field, date: Field, text: Field)
    requires IsSimple(amount) && IsSimple(date) && IsSimple(text)
    ensures RecordTokens(Record("#TRANS", [Word(account), Objects(refs), amount, date, text]))
            == ["#TRANS", account, "{"] + RefTokens(refs) + ["}", amount.text, date.text, text.text]
  {
    hide RefTokens;
    var fields := [Word(account), Objects(refs), amount, date, text];
    var tail := [amount, date, text];
    SimpleTokens(tail);
    assert fields[1..][1..] == tail && fields[1..][0] == Objects(refs);
    assert FieldsTokens(fields) == [account] + FieldsTokens(fields[1..]);
    assert FieldsTokens(fields[1..]) == (["{"] + RefTokens(refs) + ["}"]) + FieldsTokens(tail);
    assert FieldsTokens(tail) == [amount.text, date.text, text.text];
    hide FieldsTokens;
  }

  lemma LineTokensShape(account: string, refs: seq<ObjectRef>, amount: Field, date: Field, text: Field)
    requires IsSimple(amount) && IsSimple(date) && IsSimple(text)
    ensures LineShape(RecordTokens(Record("#TRANS", [Word(account), Objects(refs), amount, date, text])),
                      account, refs, amount.text, date.text, text.text)
  {
    hide RecordTokens, RefTokens, IsSimple;
    var t := RecordTokens(Record("#TRANS", [Word(account), Objects(refs), amount, date, text]));
    LineTokensAre(account, refs, amount, date, text);
    RefTokensAt(refs);
    forall k | 0 <= k < |refs| ensures t[3 + 2 * k] == refs[k].dimension && t[4 + 2 * k] == refs[k].id {
      assert t[3 + 2 * k] == RefTokens(refs)[2 * k] && t[4 + 2 * k] == RefTokens(refs)[2 * k + 1];
    }
  }

  lemma DimensionsDoNotClose(t: seq<string>, account: string, refs: seq<ObjectRef>, amount: string, date: string,
        text: string)
    requires LineShape(t, account, refs, amount, date, text) && forall o :: o in refs ==> IsDimension(o.dimension)
    ensures forall j :: 3 <= j < 3 + 2 * |refs| && (j - 3) % 2 == 0 ==> t[j] != "}"
  {
    forall j | 3 <= j < 3 + 2 * |refs| && (j - 3) % 2 == 0 ensures t[j] != "}" {
      var k := (j - 3) / 2;
      assert j == 3 + 2 * k && refs[k] in refs && t[3 + 2 * k] == refs[k].dimension;
    }
  }

  /** The first closing brace at an admissible position is the one that was printed. */
  lemma ClosingFound(t: seq<string>, account: string, refs: seq<ObjectRef>, amount: string, date: string, text: string)
    requires LineShape(t, account, refs, amount, date, text) && forall o :: o in refs ==> IsDimension(o.dimension)
    requires Closing(t) >= 3 && (Closing(t) - 3) % 2 == 0
    ensures Closing(t) == 3 + 2 * |refs|
  {
    DimensionsDoNotClose(t, account, refs, amount, date, text);
    FirstIsFirst(t, 3 + 2 * |refs|);
  }

  lemma FirstIsFirst(t: seq<string>, i: nat)
    requires i < |t| && t[i] == "}"
    ensures Closing(t) <= i
  {
    var k := FirstIndex(t, "}");
    assert forall j :: 0 <= j < k.value ==> t[j] != "}";
  }

  lemma {:induction false} ObjectsReadBack(t: seq<string>, refs: seq<ObjectRef>, n: nat)
    requires n <= |refs| && 3 + 2 * |refs| <= |t| && ObjectsUpTo(t, 3 + 2 * n).Some?
    requires forall k :: 0 <= k < |refs| ==> t[3 + 2 * k] == refs[k].dimension && t[4 + 2 * k] == refs[k].id
    ensures ObjectsUpTo(t, 3 + 2 * n) == Some(refs[..n])
  {
    if n > 0 {
      hide IsIdentifier, IsDimension;
      ObjectsReadBack(t, refs, n - 1);
      assert t[3 + 2 * (n - 1)] == refs[n - 1].dimension && t[4 + 2 * (n - 1)] == refs[n - 1].id;
      assert refs[..n] == refs[..n - 1] + [ObjectRef(refs[n - 1].dimension, refs[n - 1].id)];
    }
  }

  lemma {:induction false} TransactionReadBack(r: Reader, t: seq<string>, account: string, refs: seq<ObjectRef>,
        amount: string, date: string, text: string)
    requires LineShape(t, account, refs, amount, date, text) && forall o :: o in refs ==> IsDimension(o.dimension)
    requires TransactionRecord(r, t).Ok?
    ensures r.doc.vouchers != [] && MoneyCents(amount).Some? && (date != "" ==> ParseDate(date).Some?)
    ensures var day := if date == "" then None else ParseDate(date);
            TransactionRecord(r, t).value
            == WithDoc(r, AddTransaction(r.doc,
                 Transaction(account, CentsMoney(MoneyCents(amount).value), day, Some(text), refs)))
  {
    hide IsAccountNumber, Units, ParseDate, MoneyCents, CentsMoney, IsDimension, AddTransaction;
    ClosingFound(t, account, refs, amount, date, text);
    ObjectsReadBack(t, refs, |refs|);
    assert refs[..|refs|] == refs;
    hide Closing, ObjectsUpTo;
    var c := 3 + 2 * |refs|;
    assert At(t, c + 1) == amount && At(t, c + 2) == date && Maybe(t, c + 3) == Some(text);
  }

  function DatePart(x: Transaction): Result<Field, ExportError> {
    if x.date.Some? && x.date.value != "" then DateField(x.date.value) else Ok(Quoted(""))
  }

  lemma PrintedLine(x: Transaction, collate: Collation, rec: Record)
    requires LineRecords(collate)(x) == Ok([rec])
    ensures rec.tag == "#TRANS" && MoneyCents(x.amount).Some? && DatePart(x).Ok? && IsSimple(DatePart(x).value)
    ensures LineShape(RecordTokens(rec), x.account, Sort(x.objects, ByDimension(collate)),
            CentsMoney(MoneyCents(x.amount).value),
                      DatePart(x).value.text, if x.text.Some? then x.text.value else "")
  {
    var refs, text := Sort(x.objects, ByDimension(collate)), if x.text.Some? then x.text.value else "";
    var fs := [Ok(Word(x.account)), ObjectsField(refs), MoneyField(x.amount), DatePart(x), TextField(text)];
    hide LineShape, RecordTokens, Sort, Quotable, MoneyCents, CentsMoney, SieDate;
    GatherOk(fs);
    assert fs[1].Ok? && fs[2].Ok? && fs[3].Ok? && fs[4].Ok?;
    assert Gather(fs).value == [Word(x.account), Objects(refs), fs[2].value, fs[3].value, fs[4].value];
    LineTokensShape(x.account, refs, fs[2].value, fs[3].value, fs[4].value);
  }

  lemma PrintedDate(x: Transaction)
    requires DatePart(x).Ok?
    ensures var token := DatePart(x).value.text;
            (if token == "" then None else ParseDate(token)) == if x.date.Some? && x.date.value != ""
              then Some(CanonicalDay(x.date.value)) else None
  {
  }

  lemma {:induction false} RunLine(r: Reader, x: Transaction, collate: Collation)
    requires WellFormedLine(x) && LineRecords(collate)(x).Ok? && Run(r, LineRecords(collate)(x).value).Some?
    ensures r.doc.vouchers != [] && r.open && r.block
    ensures Run(r, LineRecords(collate)(x).value) == Some(WithDoc(r, AddTransaction(r.doc, CanonicalLine(collate)(x))))
  {
    hide LineRecords, LineShape, DatePart, Sort, MoneyCents, CentsMoney, CanonicalDay, ParseDate, AddTransaction,
         IsDimension, Feed, Run, RecordTokens, TransactionRecord;
    var refs := Sort(x.objects, ByDimension(collate));
    forall o | o in refs ensures IsDimension(o.dimension) { SortMembers(x.objects, ByDimension(collate), o); }
    LineIsOne(x, collate);
    var rec := LineRecords(collate)(x).value[0];
    PrintedLine(x, collate, rec);
    PrintedDate(x);
    MoneyIsBounded(x.amount);
    RunOne(r, rec);
    FeedLine(r, rec);
    TransactionReadBack(r, RecordTokens(rec), x.account, refs, CentsMoney(MoneyCents(x.amount).value),
      DatePart(x).value.text,
                        if x.text.Some? then x.text.value else "");
    hide Pow10;
  }

  lemma FeedLine(r: Reader, rec: Record)
    requires rec.tag == "#TRANS"
    ensures var step := TransactionRecord(r, RecordTokens(rec));
            && Feed(r, rec) == (if step.Ok? then Some(step.value) else None)
            && (step.Ok? ==> r.open && r.block)
  {
    assert KindOf("#TRANS") == VoucherLine;
    hide KindOf, Closing, ObjectsUpTo, TransactionRest, IsAccountNumber;
  }

  lemma LineIsOne(x: Transaction, collate: Collation)
    requires LineRecords(collate)(x).Ok?
    ensures LineRecords(collate)(x) == Ok([LineRecords(collate)(x).value[0]])
  {
  }

  /** The reader with transactions appended to its open voucher. */
  function WithLines(r: Reader, xs: seq<Transaction>): Reader
    requires r.doc.vouchers != []
  {
    var n := |r.doc.vouchers| - 1;
    WithDoc(r, r.doc
      .(vouchers := r.doc.vouchers[n := r.doc.vouchers[n].(transactions := r.doc.vouchers[n].transactions + xs)]))
  }

  lemma WithLinesStep(r: Reader, xs: seq<Transaction>, x: Transaction)
    requires r.doc.vouchers != []
    ensures WithDoc(WithLines(r, xs), AddTransaction(WithLines(r, xs).doc, x)) == WithLines(r, xs + [x])
    ensures WithLines(r, []) == r
  {
    var n := |r.doc.vouchers| - 1;
    var last := r.doc.vouchers[n];
    assert last.transactions + xs + [x] == last.transactions + (xs + [x]);
    assert last.transactions + [] == last.transactions;
    assert r.doc.vouchers[n := last] == r.doc.vouchers;
    var mid := last.(transactions := last.transactions + xs);
    assert r.doc.vouchers[n := mid][n := mid.(transactions := mid.transactions + [x])]
      == r.doc.vouchers[n := mid.(transactions := mid.transactions + [x])];
  }

  lemma {:induction false} RunLines(r: Reader, s: seq<Transaction>, collate: Collation)
    requires r.doc.vouchers != [] && forall x :: x in s ==> WellFormedLine(x)
    requires Each(s, LineRecords(collate)).Ok? && Run(r, Each(s, LineRecords(collate)).value).Some?
    ensures Run(r, Each(s, LineRecords(collate)).value) == Some(WithLines(r, Map(s, CanonicalLine(collate))))
  {
    var f, g := LineRecords(collate), CanonicalLine(collate);
    hide LineRecords, CanonicalLine, WellFormedLine, Each, Run, Feed, WithLines, AddTransaction, Map;
    if |s| > 0 {
      var front, x := s[..|s| - 1], s[|s| - 1];
      RunEach(r, s, f);
      RunLines(r, front, collate);
      RunLine(Run(r, Each(front, f).value).value, x, collate);
      assert s == front + [x];
      MapSnoc(front, x, g);
      WithLinesStep(r, Map(front, g), g(x));
    } else {
      RunNothing(r, s, f);
      MapNothing(s, g, []);
      WithLinesStep(r, [], Transaction("", "", None, None, []));
    }
  }

  lemma FeedVoucher(r: Reader, v: Voucher, rec: Record)
    requires One("#VER", [TextField(v.series), Ok(Word(v.number)), DateField(v.date), TextField(v.text)]) == Ok([rec])
    requires Feed(r, rec).Some?
    ensures !r.open && !r.block
    ensures Feed(r, rec)
            == Some(WithDoc(r, r.doc.(vouchers := r.doc.vouchers
                 + [Voucher(CanonicalDay(v.date), v.number, v.series, v.text, [])])).(open := true))
  {
    var fs := [TextField(v.series), Ok(Word(v.number)), DateField(v.date), TextField(v.text)];
    OneTokens("#VER", fs);
    assert KindOf("#VER") == VoucherHead;
    hide KindOf, RecordTokens, WithoutDashes, IsIdentifier, IsVoucherNumber, Units, Quotable, Calendar.Valid;
    var t := RecordTokens(rec);
    assert fs[0].Ok? && fs[1].Ok? && fs[2].Ok? && fs[3].Ok?;
    assert t[1] == v.series && t[2] == v.number && t[3] == WithoutDashes(v.date) && t[4] == v.text;
  }

  lemma FeedBraces(r: Reader)
    ensures Feed(r, Record("{", [])).Some? ==> Feed(r, Record("{", [])) == Some(r.(block := true))
    ensures Feed(r, Record("}", [])).Some? ==> Feed(r, Record("}", [])) == Some(r.(open := false, block := false))
  {
    assert KindOf("{") == OpenBrace && KindOf("}") == CloseBrace;
    hide KindOf;
  }

  lemma RunVoucher(r: Reader, v: Voucher, collate: Collation)
    requires WellFormedVoucher(v) && VoucherRecords(collate)(v).Ok? && Run(r, VoucherRecords(collate)(v).value).Some?
    ensures !r.open && !r.block
    ensures Run(r, VoucherRecords(collate)(v).value)
            == Some(WithDoc(r, r.doc.(vouchers := r.doc.vouchers + [CanonicalVoucher(collate)(v)])))
  {
    hide Feed, Run, Each, One, TextField, DateField, LineRecords, CanonicalLine, CanonicalDay, WellFormedLine;
    var fs := [TextField(v.series), Ok(Word(v.number)), DateField(v.date), TextField(v.text)];
    var head := One("#VER", fs);
    OneRecord("#VER", fs);
    var lines := Each(v.transactions, LineRecords(collate));
    var begun, ended := [Record("{", [])], [Record("}", [])];
    assert VoucherRecords(collate)(v).value == head.value + begun + lines.value + ended;
    RunAppend(r, head.value + begun + lines.value, ended);
    RunAppend(r, head.value + begun, lines.value);
    RunAppend(r, head.value, begun);
    RunOne(r, head.value[0]);
    FeedVoucher(r, v, head.value[0]);
    var r1 := Feed(r, head.value[0]).value;
    RunOne(r1, begun[0]);
    FeedBraces(r1);
    var r2 := r1.(block := true);
    RunLines(r2, v.transactions, collate);
    var r3 := WithLines(r2, Map(v.transactions, CanonicalLine(collate)));
    RunOne(r3, ended[0]);
    FeedBraces(r3);
    assert [] + Map(v.transactions, CanonicalLine(collate)) == Map(v.transactions, CanonicalLine(collate));
    assert r3.doc.vouchers == r.doc.vouchers + [CanonicalVoucher(collate)(v)];
    assert r3.(open := false, block := false)
      == WithDoc(r, r.doc.(vouchers := r.doc.vouchers + [CanonicalVoucher(collate)(v)]));
  }

  lemma {:induction false} RunVouchers(r: Reader, s: seq<Voucher>, collate: Collation)
    requires forall v :: v in s ==> WellFormedVoucher(v)
    requires Each(s, VoucherRecords(collate)).Ok? && Run(r, Each(s, VoucherRecords(collate)).value).Some?
    ensures Run(r, Each(s, VoucherRecords(collate)).value)
            == Some(WithDoc(r, r.doc.(vouchers := r.doc.vouchers + Map(s, CanonicalVoucher(collate)))))
  {
    var f, g := VoucherRecords(collate), CanonicalVoucher(collate);
    hide VoucherRecords, CanonicalVoucher, WellFormedVoucher, Each, Run, Feed, Map;
    if |s| > 0 {
      var front, v := s[..|s| - 1], s[|s| - 1];
      RunEach(r, s, f);
      RunVouchers(r, front, collate);
      RunVoucher(Run(r, Each(front, f).value).value, v, collate);
      assert s == front + [v];
      MapSnoc(front, v, g);
      AppendTwice(r.doc.vouchers, Map(front, g), [g(v)]);
    } else {
      RunNothing(r, s, f);
      MapNothing(s, g, r.doc.vouchers);
    }
  }

  // ---------------------------------------------------------------- the whole text

  lemma HashTag(tag: string)
    requires tag != "" && forall c :: c in tag ==> c == '#' || 'A' <= c <= 'Z'
    ensures IsTag(tag)
  {
    assert tag[0] in tag && tag[|tag| - 1] in tag;
  }

  lemma AccountTags()
    ensures IsTag("#KONTO") && IsTag("#KTYP") && IsTag("#OBJEKT")
  {
    hide IsTag;
    HashTag("#KONTO"); HashTag("#KTYP"); HashTag("#OBJEKT");
  }

  lemma BalanceTags()
    ensures IsTag("#IB") && IsTag("#UB") && IsTag("#RES")
  {
    hide IsTag;
    HashTag("#IB"); HashTag("#UB"); HashTag("#RES");
  }

  lemma VoucherTags()
    ensures IsTag("#VER") && IsTag("#TRANS")
  {
    hide IsTag;
    HashTag("#VER"); HashTag("#TRANS");
  }

  lemma HeaderTags()
    ensures IsTag("#ORGNR") && IsTag("#FNAMN") && IsTag("#GEN") && IsTag("#RAR")
  {
    hide IsTag;
    HashTag("#ORGNR"); HashTag("#FNAMN"); HashTag("#GEN"); HashTag("#RAR");
  }

  lemma NumberField(s: string)
    requires IsNumber(s)
    ensures GoodResult(Ok(Word(s)))
  {
    DigitsAreWord(s);
  }

  lemma KindPrintable(number: string, k: AccountType)
    requires IsNumber(number)
    ensures AllPrintable(Ok([Record("#KTYP", [Word(number), Word(Letter(k))])]))
  {
    AccountTags();
    DigitsAreWord(number);
    LetterOfType(k);
    hide IsTag, IsWord, Letter, IsDigits;
  }

  lemma {:induction false} AccountsPrintable(a: Account)
    ensures AllPrintable(AccountRecords()(a))
  {
    hide IsTag, GoodResult, AllPrintable, TextField, One, Letter, IsDigits;
    if IsAccountNumber(a.number) {
      AccountTags();
      NumberField(a.number);
      GoodPieces(a.name);
      var fs := [Ok(Word(a.number)), TextField(a.name)];
      assert forall i :: 0 <= i < |fs| ==> GoodResult(fs[i]);
      NothingIsPrintable();
      OneOrError("#KONTO", fs);
      var kind: Records :=
        if a.kind.Some? then Ok([Record("#KTYP", [Word(a.number), Word(Letter(a.kind.value))])]) else Ok([]);
      if a.kind.Some? { KindPrintable(a.number, a.kind.value); }
      ChainIsPrintable(One("#KONTO", fs), kind);
    }
    FailurePrintable(BadAccount);
  }

  lemma OneOrError(tag: string, fs: seq<Result<Field, ExportError>>)
    requires tag != "" && IsTag(tag) && forall i :: 0 <= i < |fs| ==> GoodResult(fs[i])
    ensures AllPrintable(One(tag, fs))
  {
    hide GoodResult, Printable, IsTag;
    OneIsPrintable(tag, fs);
  }

  lemma FailurePrintable(e: ExportError)
    ensures AllPrintable(Err(e))
  {
  }

  lemma ZeroField()
    ensures GoodResult(Ok(Word("0")))
  {
  }

  lemma BalancePieces(account: string, amount: string, tag: string)
    requires IsAccountNumber(account) && tag != "" && IsTag(tag)
    ensures AllPrintable(One(tag, [Ok(Word("0")), Ok(Word(account)), MoneyField(amount)]))
  {
    hide IsTag, GoodResult, AllPrintable, MoneyField, One, IsDigits;
    ZeroField();
    NumberField(account);
    GoodPieces(amount);
    var fs := [Ok(Word("0")), Ok(Word(account)), MoneyField(amount)];
    assert forall i :: 0 <= i < |fs| ==> GoodResult(fs[i]);
    OneOrError(tag, fs);
  }

  lemma {:induction false} BalancesPrintable(accounts: seq<Account>, b: ExportBalance)
    ensures AllPrintable(BalanceRecords(accounts)(b))
  {
    hide KindIn, MoneyCents, One, AllPrintable, IsAccountNumber, IsTag, MoneyField, IsResultKind;
    if IsAccountNumber(b.account) {
      BalanceTags();
      BalancePieces(b.account, b.opening, "#IB");
      BalancePieces(b.account, b.closing, "#UB");
      BalancePieces(b.account, b.closing, "#RES");
      ChainIsPrintable(One("#IB", [Ok(Word("0")), Ok(Word(b.account)), MoneyField(b.opening)]),
                       One("#UB", [Ok(Word("0")), Ok(Word(b.account)), MoneyField(b.closing)]));
    }
    FailurePrintable(BadBalanceAccount);
    FailurePrintable(BadAmount);
    FailurePrintable(OpeningOnResultAccount);
  }

  lemma DimensionField(s: string)
    requires IsDimension(s)
    ensures GoodResult(Ok(Word(s))) && IsWord(s)
  {
  }

  lemma ObjectsPrintable(o: SieObject)
    requires IsDimension(o.dimension)
    ensures AllPrintable(ObjectRecords()(o))
  {
    hide IsTag, GoodResult, AllPrintable, TextField, One, IsDimension;
    AccountTags();
    DimensionField(o.dimension);
    GoodPieces(o.id);
    GoodPieces(o.name);
    var fs := [Ok(Word(o.dimension)), TextField(o.id), TextField(o.name)];
    assert forall i :: 0 <= i < |fs| ==> GoodResult(fs[i]);
    OneOrError("#OBJEKT", fs);
  }

  lemma RefsField(refs: seq<ObjectRef>)
    requires forall o :: o in refs ==> IsDimension(o.dimension)
    ensures GoodResult(ObjectsField(refs))
  {
    hide IsDimension, IsWord, Quotable;
    forall o | o in refs ensures IsWord(o.dimension) { DimensionField(o.dimension); }
  }

  lemma DateField2(x: Transaction)
    ensures GoodResult(DatePart(x))
  {
    if x.date.Some? { GoodPieces(x.date.value); }
  }

  lemma {:induction false} LinesPrintable(x: Transaction, collate: Collation)
    requires WellFormedLine(x)
    ensures AllPrintable(LineRecords(collate)(x))
  {
    hide IsTag, GoodResult, AllPrintable, TextField, MoneyField, DateField, ObjectsField, One, IsDimension, Sort,
         IsDigits;
    var refs, text := Sort(x.objects, ByDimension(collate)), if x.text.Some? then x.text.value else "";
    forall o | o in refs ensures IsDimension(o.dimension) { SortMembers(x.objects, ByDimension(collate), o); }
    VoucherTags();
    NumberField(x.account);
    RefsField(refs);
    GoodPieces(x.amount);
    DateField2(x);
    GoodPieces(text);
    var fs := [Ok(Word(x.account)), ObjectsField(refs), MoneyField(x.amount), DatePart(x), TextField(text)];
    assert forall i :: 0 <= i < |fs| ==> GoodResult(fs[i]);
    OneOrError("#TRANS", fs);
  }

  lemma HeadPrintable(v: Voucher)
    requires IsNumber(v.number)
    ensures AllPrintable(One("#VER", [TextField(v.series), Ok(Word(v.number)), DateField(v.date), TextField(v.text)]))
  {
    hide IsTag, GoodResult, AllPrintable, TextField, DateField, One, IsDigits;
    VoucherTags();
    GoodPieces(v.series);
    NumberField(v.number);
    GoodPieces(v.date);
    GoodPieces(v.text);
    var fs := [TextField(v.series), Ok(Word(v.number)), DateField(v.date), TextField(v.text)];
    assert forall i :: 0 <= i < |fs| ==> GoodResult(fs[i]);
    OneOrError("#VER", fs);
  }

  lemma VouchersPrintable(v: Voucher, collate: Collation)
    requires WellFormedVoucher(v)
    ensures AllPrintable(VoucherRecords(collate)(v))
  {
    hide LineRecords, WellFormedLine, Each, AllPrintable, One, Chain;
    HeadPrintable(v);
    forall x | x in v.transactions ensures AllPrintable(LineRecords(collate)(x)) { LinesPrintable(x, collate); }
    EachIsPrintable(v.transactions, LineRecords(collate));
    BracesPrintable();
    var head := One("#VER", [TextField(v.series), Ok(Word(v.number)), DateField(v.date), TextField(v.text)]);
    ChainIsPrintable(head, Ok([Record("{", [])]));
    ChainIsPrintable(Chain(head, Ok([Record("{", [])])), Each(v.transactions, LineRecords(collate)));
    ChainIsPrintable(Chain(Chain(head, Ok([Record("{", [])])), Each(v.transactions, LineRecords(collate))),
      Ok([Record("}", [])]));
  }

  lemma BracesPrintable()
    ensures AllPrintable(Ok([Record("{", [])])) && AllPrintable(Ok([Record("}", [])]))
  {
  }

  lemma {:induction false} PlainIsUnambiguous(s: string)
    requires '\\' !in s
    ensures Unambiguous(s)
  {
    if |s| > 0 { PlainIsUnambiguous(s[1..]); }
  }

  lemma PlainRecord(tag: string, fields: seq<Field>)
    requires tag != "" && IsTag(tag)
    requires forall f :: f in fields ==>
             IsSimple(f) && (f.Word? ==> IsWord(f.text)) && (f.Quoted? ==> '\\' !in f.text && Clean(f.text))
    ensures Printable(Record(tag, fields))
  {
    hide IsTag, IsWord, Unambiguous;
    forall f | f in fields ensures GoodField(f) { if f.Quoted? { PlainIsUnambiguous(f.text); } }
  }

  lemma {:induction false} FixedPrintable()
    ensures AllPrintable(Ok(DIMENSIONS))
  {
    hide Printable, IsTag, IsWord;
    HashTag("#DIM");
    FixedWords();
    DimensionPrintable("1", "Kostnadsställe");
    DimensionPrintable("6", "Projekt");
  }

  lemma DimensionPrintable(dimension: string, name: string)
    requires IsWord(dimension) && IsTag("#DIM")
    requires forall c :: c in name ==> c as int >= 32 && c as int != 127 && c != '\\'
    ensures Printable(Record("#DIM", [Word(dimension), Quoted(name)]))
  {
    hide Printable, IsTag, IsWord;
    PlainRecord("#DIM", [Word(dimension), Quoted(name)]);
  }

  const PREAMBLE := [Record("#FLAGGA", [Word("0")]), Record("#PROGRAM", [Quoted("LedgerApp"), Quoted("0.1")]),
                     Record("#FORMAT", [Word("PC8")]), Record("#SIETYP", [Word("4")])]

  lemma {:induction false} PreamblePrintable()
    ensures AllPrintable(Ok(PREAMBLE))
  {
    hide Printable;
    FirstPrintable();
    SecondPrintable();
  }

  lemma FixedWords()
    ensures IsWord("0") && IsWord("1") && IsWord("4") && IsWord("6") && IsWord("PC8")
  {
  }

  lemma {:induction false} FirstPrintable()
    ensures Printable(PREAMBLE[0]) && Printable(PREAMBLE[1])
  {
    hide Printable, IsTag, IsWord;
    HashTag("#FLAGGA");
    HashTag("#PROGRAM");
    FixedWords();
    PlainRecord("#FLAGGA", [Word("0")]);
    PlainRecord("#PROGRAM", [Quoted("LedgerApp"), Quoted("0.1")]);
  }

  lemma {:induction false} SecondPrintable()
    ensures Printable(PREAMBLE[2]) && Printable(PREAMBLE[3])
  {
    hide Printable, IsTag, IsWord;
    HashTag("#FORMAT");
    HashTag("#SIETYP");
    FixedWords();
    PlainRecord("#FORMAT", [Word("PC8")]);
    PlainRecord("#SIETYP", [Word("4")]);
  }

  lemma {:induction false} HeaderPrintable(data: ExportData)
    ensures AllPrintable(HeaderRecords(data))
  {
    hide Chain, One, TextField, DateField, AllPrintable, IsTag;
    HeaderTags();
    PreamblePrintable();
    GenPrintable(data);
    TitlePrintable(data);
    YearPrintable(data.year);
    var gen := One("#GEN", [DateField(data.generated), Ok(Quoted("LedgerApp"))]);
    var rar := One("#RAR", [Ok(Word("0")), DateField(data.year.start), DateField(data.year.end)]);
    ChainIsPrintable(Ok(PREAMBLE), gen);
    ChainIsPrintable(Chain(Ok(PREAMBLE), gen), TitleRecords(data));
    ChainIsPrintable(Chain(Chain(Ok(PREAMBLE), gen), TitleRecords(data)), rar);
  }

  function TitleRecords(data: ExportData): Records {
    Chain(if data.number.Some? && data.number.value != "" then One("#ORGNR", [TextField(data.number.value)])
      else Ok([]),
          One("#FNAMN", [TextField(data.name)]))
  }

  lemma GenPrintable(data: ExportData)
    ensures AllPrintable(One("#GEN", [DateField(data.generated), Ok(Quoted("LedgerApp"))]))
  {
    hide IsTag, GoodResult, AllPrintable, DateField, One;
    HeaderTags();
    GoodPieces(data.generated);
    QuotedName();
    var fs := [DateField(data.generated), Ok(Quoted("LedgerApp"))];
    assert forall i :: 0 <= i < |fs| ==> GoodResult(fs[i]);
    OneOrError("#GEN", fs);
  }

  lemma QuotedName()
    ensures GoodResult(Ok(Quoted("LedgerApp")))
  {
    hide Unambiguous;
    PlainIsUnambiguous("LedgerApp");
  }

  lemma {:induction false} TitlePrintable(data: ExportData)
    ensures AllPrintable(TitleRecords(data))
  {
    hide IsTag, AllPrintable, One, TextField, Chain;
    HeaderTags();
    NothingIsPrintable();
    if data.number.Some? && data.number.value != "" { TextPrintable("#ORGNR", data.number.value); }
    TextPrintable("#FNAMN", data.name);
    var number: Records :=
      if data.number.Some? && data.number.value != "" then One("#ORGNR", [TextField(data.number.value)]) else Ok([]);
    ChainIsPrintable(number, One("#FNAMN", [TextField(data.name)]));
  }

  lemma TextPrintable(tag: string, text: string)
    requires tag != "" && IsTag(tag)
    ensures AllPrintable(One(tag, [TextField(text)]))
  {
    hide IsTag, GoodResult, AllPrintable, TextField, One;
    GoodPieces(text);
    OneOrError(tag, [TextField(text)]);
  }

  lemma YearPrintable(year: Span)
    ensures AllPrintable(One("#RAR", [Ok(Word("0")), DateField(year.start), DateField(year.end)]))
  {
    hide IsTag, GoodResult, AllPrintable, DateField, One;
    HeaderTags();
    ZeroField();
    GoodPieces(year.start);
    GoodPieces(year.end);
    var fs := [Ok(Word("0")), DateField(year.start), DateField(year.end)];
    assert forall i :: 0 <= i < |fs| ==> GoodResult(fs[i]);
    OneOrError("#RAR", fs);
  }

  lemma {:induction false} AllArePrintable(data: ExportData, collate: Collation)
    requires WellFormed(data)
    ensures AllPrintable(AllRecords(data, collate))
  {
    hide Chain, Each, AllPrintable, HeaderRecords, AccountRecords, BalanceRecords, ObjectRecords, VoucherRecords, Sort,
         WellFormedVoucher, IsDimension;
    var accounts, bs := Sort(data.accounts, ByNumber(collate)), Sort(data.balances, ByAccount(collate));
    var os, vs := Sort(data.objects, ByIdentity(collate)), Sort(data.vouchers, ByDate(collate));
    HeaderPrintable(data);
    FixedPrintable();
    forall a | a in accounts ensures AllPrintable(AccountRecords()(a)) { AccountsPrintable(a); }
    EachIsPrintable(accounts, AccountRecords());
    forall b | b in bs ensures AllPrintable(BalanceRecords(data.accounts)(b)) { BalancesPrintable(data.accounts, b); }
    EachIsPrintable(bs, BalanceRecords(data.accounts));
    forall o | o in os ensures AllPrintable(ObjectRecords()(o)) {
      SortMembers(data.objects, ByIdentity(collate), o); ObjectsPrintable(o);
    }
    EachIsPrintable(os, ObjectRecords());
    forall v | v in vs ensures AllPrintable(VoucherRecords(collate)(v)) {
      SortMembers(data.vouchers, ByDate(collate), v); VouchersPrintable(v, collate);
    }
    EachIsPrintable(vs, VoucherRecords(collate));
    var s1 := Chain(HeaderRecords(data), Each(accounts, AccountRecords()));
    var s2 := Chain(s1, Each(bs, BalanceRecords(data.accounts)));
    var s3 := Chain(s2, Ok(DIMENSIONS));
    var s4 := Chain(s3, Each(os, ObjectRecords()));
    ChainIsPrintable(HeaderRecords(data), Each(accounts, AccountRecords()));
    ChainIsPrintable(s1, Each(bs, BalanceRecords(data.accounts)));
    ChainIsPrintable(s2, Ok(DIMENSIONS));
    ChainIsPrintable(s3, Each(os, ObjectRecords()));
    ChainIsPrintable(s4, Each(vs, VoucherRecords(collate)));
  }

  lemma RunChain(r: Reader, a: Records, b: Records)
    requires Chain(a, b).Ok? && Run(r, Chain(a, b).value).Some?
    ensures a.Ok? && b.Ok? && Run(r, a.value).Some?
    ensures Run(r, Chain(a, b).value) == Run(Run(r, a.value).value, b.value)
  {
    RunAppend(r, a.value, b.value);
  }

  /** The reader after all records of an export. */
  lemma {:induction false} RunAll(data: ExportData, collate: Collation)
    requires WellFormed(data) && AllRecords(data, collate).Ok? && Run(START, AllRecords(data, collate).value).Some?
    ensures var r := Run(START, AllRecords(data, collate).value).value;
            var accounts := Sort(data.accounts, ByNumber(collate));
            && r == Reader(Canonical(data, collate).(accounts := Map(accounts, Unnamed())), false, false, true,
               TypesAfter(map[], accounts))
  {
    hide Chain, Each, Run, HeaderRecords, AccountRecords, BalanceRecords, ObjectRecords, VoucherRecords, Sort,
         WellFormedVoucher, CanonicalOpenings, CanonicalBalances, CanonicalVoucher, CanonicalYear, TypesAfter, Map;
    var accounts, bs := Sort(data.accounts, ByNumber(collate)), Sort(data.balances, ByAccount(collate));
    var os, vs := Sort(data.objects, ByIdentity(collate)), Sort(data.vouchers, ByDate(collate));
    var s1 := Chain(HeaderRecords(data), Each(accounts, AccountRecords()));
    var s2 := Chain(s1, Each(bs, BalanceRecords(data.accounts)));
    var s3 := Chain(s2, Ok(DIMENSIONS));
    var s4 := Chain(s3, Each(os, ObjectRecords()));
    RunChain(START, s4, Each(vs, VoucherRecords(collate)));
    RunChain(START, s3, Each(os, ObjectRecords()));
    RunChain(START, s2, Ok(DIMENSIONS));
    RunChain(START, s1, Each(bs, BalanceRecords(data.accounts)));
    RunChain(START, HeaderRecords(data), Each(accounts, AccountRecords()));
    RunHeader(data);
    var r0 := Run(START, HeaderRecords(data).value).value;
    RunAccounts(r0, accounts);
    var r1 := Run(START, s1.value).value;
    RunBalances(r1, data.accounts, bs);
    var r2 := Run(START, s2.value).value;
    RunDimensions(r2);
    RunObjects(r2, os);
    var r4 := Run(START, s4.value).value;
    forall v | v in vs ensures WellFormedVoucher(v) { SortMembers(data.vouchers, ByDate(collate), v); }
    RunVouchers(r4, vs, collate);
    NothingBefore(Map(accounts, Unnamed()));
    NothingBefore(CanonicalOpenings(data.accounts, bs));
    NothingBefore(Map(bs, CanonicalBalances(data.accounts)));
    NothingBefore(os);
    NothingBefore(Map(vs, CanonicalVoucher(collate)));
  }

  lemma NothingBefore<T>(s: seq<T>)
    ensures [] + s == s
  {
  }

  lemma {:induction false} StartsWithFlag(data: ExportData, collate: Collation)
    requires AllRecords(data, collate).Ok?
    ensures AllRecords(data, collate).value != [] && AllRecords(data, collate).value[0].tag == "#FLAGGA"
  {
    hide Each, One, TextField, DateField, AccountRecords, BalanceRecords, ObjectRecords, VoucherRecords, Sort;
    var h := HeaderRecords(data).value;
    assert h != [] && h[0].tag == "#FLAGGA";
    assert h <= AllRecords(data, collate).value;
  }

  lemma PrintableMembers(rs: Records)
    requires AllPrintable(rs) && rs.Ok?
    ensures forall rec :: rec in rs.value ==> Printable(rec)
  {
  }

  /** The checks at the end add the account types and, here, nothing else. */
  lemma FinishCanonical(r: Reader, d: Document, accounts: seq<Account>)
    requires Finish(r).errors == [] && r.types == TypesAfter(map[], accounts)
    requires r.doc == d.(accounts := Map(accounts, Unnamed())) && d.errors == [] && d.accounts == accounts
    requires SieSound.GoodAccounts(Finish(r).accounts)
    ensures Finish(r) == d
  {
    hide VouchersErrors, OpeningErrors, BalanceErrors, SumOf, TypesAfter, IsAccountNumber;
    var typed := Typed(r.doc.accounts, r.types);
    assert Finish(r).accounts == typed;
    forall i, j | 0 <= i < j < |accounts| ensures accounts[i].number != accounts[j].number {
      assert typed[i].number == accounts[i].number && typed[j].number == accounts[j].number;
    }
    TypedAccounts(accounts);
    hide Typed;
  }

  lemma {:induction false} ExportChecked(data: ExportData, collate: Collation)
    requires Export(data, collate).Ok?
    ensures AllRecords(data, collate).Ok?
    ensures var output := Export(data, collate).value;
            && output == Joined(Map(AllRecords(data, collate).value, RecordText())) && Parse(output).errors == []
            && SieSound.GoodAccounts(Parse(output).accounts)
    ensures Canonical(data, collate).accounts == Sort(data.accounts, ByNumber(collate))
    ensures Canonical(data, collate).errors == []
  {
    hide Parse, AllRecords, Joined, Encode, SieSound.GoodAccounts;
    SieSound.Soundness(Export(data, collate).value);
  }

  /** Only texts that read back without errors are exported, and they read back as the canonical form:
      same accounts with types, year, objects, opening, closing and result balances, and vouchers. */
  lemma {:induction false} ReadsBackAsCanonical(data: ExportData, collate: Collation)
    requires WellFormed(data) && Export(data, collate).Ok?
    ensures Parse(Export(data, collate).value) == Canonical(data, collate)
  {
    hide *;
    ExportChecked(data, collate);
    var recs := AllRecords(data, collate).value;
    var accounts := Sort(data.accounts, ByNumber(collate));
    AllArePrintable(data, collate);
    StartsWithFlag(data, collate);
    PrintableMembers(AllRecords(data, collate));
    ReadOutput(recs);
    RunAll(data, collate);
    FinishCanonical(Run(START, recs).value, Canonical(data, collate), accounts);
  }

  /** The same for the exported bytes: they decode to the exported text. */
  lemma {:induction false} BytesRoundTrip(data: ExportData, collate: Collation)
    requires WellFormed(data) && Export(data, collate).Ok?
    ensures Encode(Export(data, collate).value).Some?
    ensures Parse(Decode(Encode(Export(data, collate).value).value)) == Canonical(data, collate)
  {
    hide Parse, Canonical, Decode, Encode, AllRecords, WellFormed;
    ReadsBackAsCanonical(data, collate);
    DecodeUndoesEncode(Export(data, collate).value);
  }
}
