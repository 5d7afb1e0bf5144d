/** Which records an export prints: every record fits its format and the code page exactly when its fields do. */
module SiePrints {
  import opened Common
  import opened SieText
  import opened SieTokens
  import opened SieLines
  import opened SieParser
  import opened SieExport
  import opened SieReplay
  import opened SieRoundTrip

  // ---------------------------------------------------------------- texts of the code page

  /** Every character has a byte in the code page. */
  predicate Encodable(s: string) { forall c :: c in s ==> EncodeChar(c).Some? }

  lemma {:induction false} EncodeSucceedsIff(s: string)
    ensures Encode(s).Some? <==> Encodable(s)
  {
    hide EncodeChar;
    if |s| > 0 {
      EncodeSucceedsIff(s[..|s| - 1]);
      assert s == s[..|s| - 1] + [s[|s| - 1]];
    }
  }

  lemma EncodableAppend(a: string, b: string)
    ensures Encodable(a + b) <==> Encodable(a) && Encodable(b)
  {
    hide EncodeChar;
    assert forall c :: c in a ==> c in a + b;
    assert forall c :: c in b ==> c in a + b;
  }

  lemma AsciiEncodable(s: string)
    requires forall c :: c in s ==> c as int < 128
    ensures Encodable(s)
  {
  }

  lemma {:induction false} EscapedEncodable(s: string)
    ensures Encodable(Escaped(s)) <==> Encodable(s)
  {
    if |s| > 0 {
      EscapedEncodable(s[1..]);
      var head := if s[0] == '"' then "\\\"" else [s[0]];
      EncodableAppend(head, Escaped(s[1..]));
      EncodableAppend([s[0]], s[1..]);
      assert s == [s[0]] + s[1..];
      if s[0] == '"' { AsciiEncodable(head); AsciiEncodable([s[0]]); }
      hide Encodable;
    }
  }

  lemma QuotedEncodable(s: string)
    ensures Encodable(QuoteText(s)) <==> Encodable(s)
  {
    EscapedEncodable(s);
    AsciiEncodable("\"");
    hide Encodable, Escaped;
    EncodableAppend("\"", Escaped(s));
    EncodableAppend("\"" + Escaped(s), "\"");
  }

  predicate RefsEncode(refs: seq<ObjectRef>) { forall r :: r in refs ==> Encodable(r.dimension) && Encodable(r.id) }

  predicate FieldEncodes(f: Field) {
    match f
    case Word(text) => Encodable(text)
    case Quoted(text) => Encodable(text)
    case Objects(refs) => RefsEncode(refs)
  }

  lemma RefEncodable(r: ObjectRef, more: bool)
    ensures Encodable(RefText(r, more)) <==> Encodable(r.dimension) && Encodable(r.id)
  {
    AsciiEncodable(" ");
    AsciiEncodable("");
    QuotedEncodable(r.id);
    hide Encodable, QuoteText;
    var tail := if more then " " else "";
    EncodableAppend(QuoteText(r.id), tail);
    EncodableAppend(" ", QuoteText(r.id) + tail);
    EncodableAppend(r.dimension, " " + (QuoteText(r.id) + tail));
  }

  lemma {:induction false} RefsEncodable(refs: seq<ObjectRef>)
    ensures Encodable(RefsText(refs)) <==> RefsEncode(refs)
  {
    if |refs| > 0 {
      RefsEncodable(refs[1..]);
      RefEncodable(refs[0], |refs| > 1);
      hide Encodable, RefText;
      EncodableAppend(RefText(refs[0], |refs| > 1), RefsText(refs[1..]));
      assert refs == [refs[0]] + refs[1..];
    }
  }

  lemma FieldEncodable(f: Field)
    ensures Encodable(FieldText(f)) <==> FieldEncodes(f)
  {
    match f {
      case Word(text) =>
      case Quoted(text) => QuotedEncodable(text);
      case Objects(refs) =>
        RefsEncodable(refs);
        AsciiEncodable("{");
        AsciiEncodable("}");
        hide Encodable, RefsText, RefsEncode;
        EncodableAppend("{", RefsText(refs));
        EncodableAppend("{" + RefsText(refs), "}");
    }
  }

  lemma {:induction false} FieldsEncodable(fields: seq<Field>)
    ensures Encodable(FieldsText(fields)) <==> forall f :: f in fields ==> FieldEncodes(f)
  {
    if |fields| > 0 {
      FieldsEncodable(fields[1..]);
      FieldEncodable(fields[0]);
      AsciiEncodable(" ");
      hide Encodable, FieldText, FieldEncodes;
      EncodableAppend(" ", FieldText(fields[0]));
      EncodableAppend(" " + FieldText(fields[0]), FieldsText(fields[1..]));
      assert fields == [fields[0]] + fields[1..];
    }
  }

  predicate RecordEncodes(rec: Record) { Encodable(rec.tag) && forall f :: f in rec.fields ==> FieldEncodes(f) }

  lemma RecordEncodable(rec: Record)
    ensures Encodable(RecordText()(rec)) <==> RecordEncodes(rec)
  {
    FieldsEncodable(rec.fields);
    hide Encodable, FieldsText, FieldEncodes;
    EncodableAppend(rec.tag, FieldsText(rec.fields));
  }

  lemma {:induction false} JoinedEncodable(texts: seq<string>)
    ensures Encodable(Joined(texts)) <==> forall t :: t in texts ==> Encodable(t)
  {
    if |texts| > 0 {
      JoinedEncodable(texts[1..]);
      AsciiEncodable("\r\n");
      hide Encodable;
      EncodableAppend(texts[0], "\r\n");
      EncodableAppend(texts[0] + "\r\n", Joined(texts[1..]));
      assert texts == [texts[0]] + texts[1..];
    }
  }

  lemma OutputEncodable(recs: seq<Record>)
    ensures Encodable(Joined(Map(recs, RecordText()))) <==> forall rec :: rec in recs ==> RecordEncodes(rec)
  {
    hide Encodable, RecordText, RecordEncodes;
    var texts := Map(recs, RecordText());
    JoinedEncodable(texts);
    forall rec | rec in recs
      ensures RecordText()(rec) in texts && (Encodable(RecordText()(rec)) <==> RecordEncodes(rec))
    {
      var i :| 0 <= i < |recs| && recs[i] == rec;
      assert texts[i] == RecordText()(rec);
      RecordEncodable(rec);
    }
    forall t | t in texts ensures exists rec :: rec in recs && t == RecordText()(rec) {
      var i :| 0 <= i < |texts| && texts[i] == t;
    }
  }

  // ---------------------------------------------------------------- records that print

  /** The records exist, and all of them fit the code page. */
  predicate Prints(rs: Records) { rs.Ok? && forall rec :: rec in rs.value ==> RecordEncodes(rec) }

  /** A text that can be quoted in the code page. */
  predicate IsText(s: string) { Quotable(s) && Encodable(s) }

  lemma ChainPrints(a: Records, b: Records)
    ensures Prints(Chain(a, b)) <==> Prints(a) && Prints(b)
  {
    hide RecordEncodes;
  }

  lemma {:induction false} EachPrints<T(!new)>(s: seq<T>, f: T -> Records)
    ensures Prints(Each(s, f)) <==> forall x :: x in s ==> Prints(f(x))
  {
    if |s| > 0 {
      EachPrints(s[..|s| - 1], f);
      ChainPrints(Each(s[..|s| - 1], f), f(s[|s| - 1]));
      assert s == s[..|s| - 1] + [s[|s| - 1]];
    }
    hide Prints;
  }

  predicate FieldPrints(f: Result<Field, ExportError>) { f.Ok? && FieldEncodes(f.value) }

  lemma {:induction false} GatherIff(fs: seq<Result<Field, ExportError>>)
    ensures Gather(fs).Ok? <==> forall f :: f in fs ==> f.Ok?
    ensures Gather(fs).Ok? ==> |Gather(fs).value| == |fs| && forall i :: 0 <= i < |fs| ==>
            fs[i].Ok? && Gather(fs).value[i] == fs[i].value
  {
    if |fs| > 0 {
      GatherIff(fs[1..]);
      assert fs == [fs[0]] + fs[1..];
      assert forall i :: 1 <= i < |fs| ==> fs[i] == fs[1..][i - 1];
    }
  }

  lemma OnePrints(tag: string, fs: seq<Result<Field, ExportError>>)
    requires Encodable(tag)
    ensures Prints(One(tag, fs)) <==> forall f :: f in fs ==> FieldPrints(f)
  {
    GatherIff(fs);
    hide Encodable, FieldEncodes, Gather;
    if Gather(fs).Ok? {
      var fields := Gather(fs).value;
      assert One(tag, fs).value == [Record(tag, fields)];
      assert Prints(One(tag, fs)) <==> RecordEncodes(Record(tag, fields));
      assert forall i :: 0 <= i < |fs| ==> fields[i] in fields && fs[i] in fs;
    }
  }

  // ---------------------------------------------------------------- what a text, date or amount must be

  lemma TextPrints(s: string)
    ensures FieldPrints(TextField(s)) <==> IsText(s)
  {
  }

  lemma DigitsEncodable(s: string)
    requires IsDigits(s)
    ensures Encodable(s)
  {
    AsciiEncodable(s);
  }

  lemma DatePrints(s: string)
    ensures FieldPrints(DateField(s)) <==> SieDate(s).Some?
  {
    hide Encodable;
    if SieDate(s).Some? { DigitsEncodable(SieDate(s).value); }
  }

  lemma MoneyEncodable(v: int)
    ensures Encodable(CentsMoney(v))
  {
    hide Whole, Fraction;
    forall c | c in CentsMoney(v) ensures c as int < 128 { assert c == '-' || c == '.' || IsDigit(c); }
    AsciiEncodable(CentsMoney(v));
  }

  lemma MoneyPrints(s: string)
    ensures FieldPrints(MoneyField(s)) <==> MoneyCents(s).Some?
  {
    hide MoneyCents, CentsMoney, Encodable;
    if MoneyCents(s).Some? { MoneyEncodable(MoneyCents(s).value); }
  }

  lemma WordPrints(s: string)
    requires IsDigits(s) || (forall c :: c in s ==> c as int < 128)
    ensures FieldPrints(Ok(Word(s)))
  {
    AsciiEncodable(s);
  }

  lemma RefsPrint(refs: seq<ObjectRef>)
    requires forall r :: r in refs ==> IsDimension(r.dimension)
    ensures FieldPrints(ObjectsField(refs)) <==> forall r :: r in refs ==> IsText(r.id)
  {
    AsciiEncodable("1");
    AsciiEncodable("6");
    hide Encodable, Quotable;
  }

  lemma TagsEncodable()
    ensures Encodable("#KONTO") && Encodable("#KTYP") && Encodable("#IB") && Encodable("#UB") && Encodable("#RES")
    ensures Encodable("#OBJEKT") && Encodable("#VER") && Encodable("#TRANS") && Encodable("{") && Encodable("}")
    ensures Encodable("#ORGNR") && Encodable("#FNAMN") && Encodable("#GEN") && Encodable("#RAR")
  {
    hide Encodable;
    AsciiEncodable("#KONTO"); AsciiEncodable("#KTYP"); AsciiEncodable("#IB"); AsciiEncodable("#UB");
      AsciiEncodable("#RES");
    AsciiEncodable("#OBJEKT"); AsciiEncodable("#VER"); AsciiEncodable("#TRANS"); AsciiEncodable("{");
      AsciiEncodable("}");
    AsciiEncodable("#ORGNR"); AsciiEncodable("#FNAMN"); AsciiEncodable("#GEN"); AsciiEncodable("#RAR");
  }

  // ---------------------------------------------------------------- section by section

  lemma KindPrints(a: Account)
    requires a.kind.Some? && IsAccountNumber(a.number)
    ensures Prints(Ok([Record("#KTYP", [Word(a.number), Word(Letter(a.kind.value))])]))
  {
    TagsEncodable();
    DigitsEncodable(a.number);
    AsciiEncodable(Letter(a.kind.value));
    hide Encodable, Letter, IsDigits;
  }

  lemma AccountPrints(a: Account)
    ensures Prints(AccountRecords()(a)) <==> IsAccountNumber(a.number) && IsText(a.name)
  {
    TagsEncodable();
    if IsAccountNumber(a.number) {
      var fs := [Ok(Word(a.number)), TextField(a.name)];
      OnePrints("#KONTO", fs);
      WordPrints(a.number);
      TextPrints(a.name);
      if a.kind.Some? { KindPrints(a); }
      hide Encodable, Letter, IsDigits, FieldPrints, One, TextField, Quotable;
      assert fs[0] in fs && fs[1] in fs;
      var kind: Records :=
        if a.kind.Some? then Ok([Record("#KTYP", [Word(a.number), Word(Letter(a.kind.value))])]) else Ok([]);
      ChainPrints(One("#KONTO", fs), kind);
    }
  }

  /** A balance of an export: an account number, readable amounts, and no opening amount on a result account. */
  predicate BalanceFits(accounts: seq<Account>, b: ExportBalance) {
    && IsAccountNumber(b.account) && MoneyCents(b.opening).Some? && MoneyCents(b.closing).Some?
    && (IsResultKind(KindIn(accounts, b.account)) ==> MoneyCents(b.opening).value == 0)
  }

  lemma AmountPrints(tag: string, account: string, amount: string)
    requires Encodable(tag) && IsAccountNumber(account)
    ensures Prints(One(tag, [Ok(Word("0")), Ok(Word(account)), MoneyField(amount)])) <==> MoneyCents(amount).Some?
  {
    var fs := [Ok(Word("0")), Ok(Word(account)), MoneyField(amount)];
    OnePrints(tag, fs);
    WordPrints("0");
    WordPrints(account);
    MoneyPrints(amount);
    hide Encodable, IsDigits, FieldPrints, One, MoneyField, MoneyCents;
    assert fs[0] in fs && fs[1] in fs && fs[2] in fs;
  }

  lemma BalancePrints(accounts: seq<Account>, b: ExportBalance)
    ensures Prints(BalanceRecords(accounts)(b)) <==> BalanceFits(accounts, b)
  {
    TagsEncodable();
    hide Encodable, MoneyCents, KindIn, One, MoneyField, Prints, Chain;
    if IsAccountNumber(b.account) {
      AmountPrints("#IB", b.account, b.opening);
      AmountPrints("#UB", b.account, b.closing);
      AmountPrints("#RES", b.account, b.closing);
      ChainPrints(One("#IB", [Ok(Word("0")), Ok(Word(b.account)), MoneyField(b.opening)]),
                  One("#UB", [Ok(Word("0")), Ok(Word(b.account)), MoneyField(b.closing)]));
    }
    FailureDoesNotPrint(BadBalanceAccount);
    FailureDoesNotPrint(BadAmount);
    FailureDoesNotPrint(OpeningOnResultAccount);
  }

  lemma FailureDoesNotPrint(e: ExportError)
    ensures !Prints(Err(e))
  {
  }

  lemma ObjectPrints(o: SieObject)
    requires IsDimension(o.dimension)
    ensures Prints(ObjectRecords()(o)) <==> IsText(o.id) && IsText(o.name)
  {
    TagsEncodable();
    var fs := [Ok(Word(o.dimension)), TextField(o.id), TextField(o.name)];
    OnePrints("#OBJEKT", fs);
    WordPrints(o.dimension);
    TextPrints(o.id);
    TextPrints(o.name);
    hide Encodable, FieldPrints, One, TextField, Quotable;
    assert fs[0] in fs && fs[1] in fs && fs[2] in fs;
  }

  predicate DateFits(date: Option<string>) { date.Some? && date.value != "" ==> SieDate(date.value).Some? }

  function TextOrNone(text: Option<string>): string { if text.Some? then text.value else "" }

  lemma DatePartPrints(x: Transaction)
    ensures FieldPrints(DatePart(x)) <==> DateFits(x.date)
  {
    AsciiEncodable("");
    if x.date.Some? { DatePrints(x.date.value); }
    hide Encodable, SieDate;
  }

  lemma LinePrints(x: Transaction, collate: Collation)
    requires WellFormedLine(x)
    ensures Prints(LineRecords(collate)(x)) <==>
            (forall o :: o in x.objects ==> IsText(o.id)) && MoneyCents(x.amount).Some? && DateFits(x.date)
              && IsText(TextOrNone(x.text))
  {
    TagsEncodable();
    var refs := Sort(x.objects, ByDimension(collate));
    forall o ensures o in refs <==> o in x.objects { SortMembers(x.objects, ByDimension(collate), o); }
    var fs := [Ok(Word(x.account)), ObjectsField(refs), MoneyField(x.amount), DatePart(x),
      TextField(TextOrNone(x.text))];
    OnePrints("#TRANS", fs);
    WordPrints(x.account);
    hide IsDimension, IsText;
    RefsPrint(refs);
    MoneyPrints(x.amount);
    DatePartPrints(x);
    TextPrints(TextOrNone(x.text));
    hide Encodable, FieldPrints, One, TextField, MoneyField, ObjectsField, MoneyCents, DateFits, IsDigits, Sort, Prints;
    assert fs[0] in fs && fs[1] in fs && fs[2] in fs && fs[3] in fs && fs[4] in fs;
    assert LineRecords(collate)(x) == One("#TRANS", fs);
  }

  lemma HeadPrints(v: Voucher)
    requires IsNumber(v.number)
    ensures Prints(One("#VER", [TextField(v.series), Ok(Word(v.number)), DateField(v.date), TextField(v.text)])) <==>
            IsText(v.series) && SieDate(v.date).Some? && IsText(v.text)
  {
    TagsEncodable();
    var fs := [TextField(v.series), Ok(Word(v.number)), DateField(v.date), TextField(v.text)];
    OnePrints("#VER", fs);
    TextPrints(v.series);
    WordPrints(v.number);
    DatePrints(v.date);
    TextPrints(v.text);
    hide Encodable, FieldPrints, One, TextField, DateField, SieDate, IsDigits, IsText;
    assert fs[0] in fs && fs[1] in fs && fs[2] in fs && fs[3] in fs;
  }

  lemma BracesPrint()
    ensures Prints(Ok([Record("{", [])])) && Prints(Ok([Record("}", [])])) && Prints(Ok([]))
  {
    TagsEncodable();
  }

  lemma VoucherPrints(v: Voucher, collate: Collation)
    requires WellFormedVoucher(v)
    ensures Prints(VoucherRecords(collate)(v)) <==>
            IsText(v.series) && SieDate(v.date).Some? && IsText(v.text)
            && forall x :: x in v.transactions ==> Prints(LineRecords(collate)(x))
  {
    hide LineRecords, WellFormedLine, Each, Prints, One, Chain, IsText, SieDate;
    var head := One("#VER", [TextField(v.series), Ok(Word(v.number)), DateField(v.date), TextField(v.text)]);
    var lines := Each(v.transactions, LineRecords(collate));
    HeadPrints(v);
    EachPrints(v.transactions, LineRecords(collate));
    BracesPrint();
    ChainPrints(head, Ok([Record("{", [])]));
    ChainPrints(Chain(head, Ok([Record("{", [])])), lines);
    ChainPrints(Chain(Chain(head, Ok([Record("{", [])])), lines), Ok([Record("}", [])]));
  }

  // ---------------------------------------------------------------- fixed records and header

  lemma SimpleRecord(tag: string, fields: seq<Field>)
    requires forall f :: f in fields ==> IsSimple(f) && Encodable(f.text)
    requires forall c :: c in tag ==> c as int < 128
    ensures RecordEncodes(Record(tag, fields))
  {
    AsciiEncodable(tag);
    hide Encodable;
  }

  lemma FixedTexts()
    ensures Encodable("0") && Encodable("1") && Encodable("4") && Encodable("6") && Encodable("PC8")
    ensures Encodable("Projekt") && Encodable("LedgerApp") && Encodable("0.1")
  {
    hide Encodable;
    AsciiEncodable("0"); AsciiEncodable("1"); AsciiEncodable("4"); AsciiEncodable("6"); AsciiEncodable("PC8");
    AsciiEncodable("Projekt"); AsciiEncodable("LedgerApp"); AsciiEncodable("0.1");
  }

  lemma FixedEncode()
    ensures Prints(Ok(DIMENSIONS)) && Prints(Ok(PREAMBLE))
  {
    FixedTexts();
    SwedishEncodable();
    hide Encodable, RecordEncodes;
    SimpleRecord("#DIM", [Word("1"), Quoted("Kostnadsställe")]);
    SimpleRecord("#DIM", [Word("6"), Quoted("Projekt")]);
    SimpleRecord("#FLAGGA", [Word("0")]);
    SimpleRecord("#PROGRAM", [Quoted("LedgerApp"), Quoted("0.1")]);
    SimpleRecord("#FORMAT", [Word("PC8")]);
    SimpleRecord("#SIETYP", [Word("4")]);
  }

  lemma SwedishEncodable()
    ensures Encodable("Kostnadsställe")
  {
    IdentifierCharEncodes('ä');
    forall c | c in "Kostnadsställe" ensures EncodeChar(c).Some? { assert c == 'ä' || c as int < 128; }
  }

  /** Identifiers use letters of the code page only. */
  lemma IdentifierCharEncodes(c: char)
    requires IsIdentifierChar(c)
    ensures EncodeChar(c).Some?
  {
    if c as int >= 128 {
      var k := if c == 'Å' then 15 else if c == 'Ä' then 14 else if c == 'Ö' then 25 else if c == 'å'
        then 6 else if c == 'ä' then 4 else 20;
      assert ROW_128[k] == c;
      assert High()[k] == c;
      assert c in High();
    }
  }

  predicate HeaderFits(data: ExportData) {
    && SieDate(data.generated).Some? && IsText(data.name)
       && (data.number.Some? && data.number.value != "" ==> IsText(data.number.value))
    && SieDate(data.year.start).Some? && SieDate(data.year.end).Some?
  }

  lemma HeaderPrints(data: ExportData)
    ensures Prints(HeaderRecords(data)) <==> HeaderFits(data)
  {
    var gen := One("#GEN", [DateField(data.generated), Ok(Quoted("LedgerApp"))]);
    var rar := One("#RAR", [Ok(Word("0")), DateField(data.year.start), DateField(data.year.end)]);
    GenPrints(data.generated);
    YearPrints(data.year);
    TitlePrints(data);
    FixedEncode();
    hide Prints, One, Chain, IsText, SieDate, TextField, DateField;
    ChainPrints(Ok(PREAMBLE), gen);
    ChainPrints(Chain(Ok(PREAMBLE), gen), TitleRecords(data));
    ChainPrints(Chain(Chain(Ok(PREAMBLE), gen), TitleRecords(data)), rar);
  }

  lemma GenPrints(generated: string)
    ensures Prints(One("#GEN", [DateField(generated), Ok(Quoted("LedgerApp"))])) <==> SieDate(generated).Some?
  {
    TagsEncodable();
    var fs := [DateField(generated), Ok(Quoted("LedgerApp"))];
    OnePrints("#GEN", fs);
    DatePrints(generated);
    AsciiEncodable("LedgerApp");
    hide Encodable, One, DateField, SieDate;
    assert fs[0] in fs && fs[1] in fs;
  }

  lemma YearPrints(year: Span)
    ensures Prints(One("#RAR", [Ok(Word("0")), DateField(year.start), DateField(year.end)])) <==>
            SieDate(year.start).Some? && SieDate(year.end).Some?
  {
    TagsEncodable();
    var fs := [Ok(Word("0")), DateField(year.start), DateField(year.end)];
    OnePrints("#RAR", fs);
    WordPrints("0");
    DatePrints(year.start);
    DatePrints(year.end);
    hide Encodable, One, DateField, SieDate, FieldPrints;
    assert fs[0] in fs && fs[1] in fs && fs[2] in fs;
  }

  lemma OneTextPrints(tag: string, text: string)
    requires Encodable(tag)
    ensures Prints(One(tag, [TextField(text)])) <==> IsText(text)
  {
    OnePrints(tag, [TextField(text)]);
    TextPrints(text);
    hide Encodable, One, TextField, FieldPrints, IsText;
    assert TextField(text) in [TextField(text)];
  }

  lemma TitlePrints(data: ExportData)
    ensures Prints(TitleRecords(data)) <==>
            IsText(data.name) && (data.number.Some? && data.number.value != "" ==> IsText(data.number.value))
  {
    TagsEncodable();
    BracesPrint();
    hide Encodable, One, TextField, IsText, Prints, Chain;
    OneTextPrints("#FNAMN", data.name);
    var number: Records :=
      if data.number.Some? && data.number.value != "" then One("#ORGNR", [TextField(data.number.value)]) else Ok([]);
    if data.number.Some? && data.number.value != "" { OneTextPrints("#ORGNR", data.number.value); }
    ChainPrints(number, One("#FNAMN", [TextField(data.name)]));
  }
}
