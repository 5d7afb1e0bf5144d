/** A small SIE file with one voucher whose lines carry their own dates, read record by record. */
module DatedFile {
  import opened Common
  import opened OpeningsFile
  import opened SieExport
  import opened SieParser
  import opened SieReplay
  import opened SieText
  import opened SieTokens
  import Calendar
  import SieLines

  // ---------------------------------------------------------------- the file

  /** 100 kronor from equity to cash on 15 January, both lines dated five days before. */
  const LINES := ["#FLAGGA 0", "#SIETYP 4", "#RAR 0 20260101 20260131", "#VER A 1 20260115", "{",
                  "#TRANS 1910 {} 100.00 20260110", "#TRANS 2010 {} -100.00 20260110", "}"]

  function Text(): string { SieLines.Joined(LINES) }

  const HEAD := Record("#VER", [Word("A"), Word("1"), Word("20260115")])

  function DatedLine(account: string, amount: string): Record {
    Record("#TRANS", [Word(account), Objects([]), Word(amount), Word("20260110")])
  }

  function Records(): seq<Record> {
    [FileRecords()[0], FileRecords()[1], FileRecords()[2], HEAD, Record("{", []), DatedLine("1910", "100.00"),
     DatedLine("2010", "-100.00"), Record("}", [])]
  }

  lemma DatedText(account: string, amount: string)
    ensures RecordText()(DatedLine(account, amount))
            == "#TRANS" + (" " + account + (" {}" + (" " + amount + " 20260110")))
  {
    var f := DatedLine(account, amount).fields;
    var g := [Objects([]), Word(amount), Word("20260110")];
    var h := [Word(amount), Word("20260110")];
    assert f[1..] == g && g[1..] == h && h[1..] == [Word("20260110")] && [Word("20260110")][1..] == [];
    assert FieldsText([]) == "" && FieldsText([Word("20260110")]) == " 20260110";
    assert FieldsText(h) == " " + amount + " 20260110";
    assert RefsText([]) == "" && FieldText(Objects([])) == "{}";
    assert FieldsText(g) == " {}" + FieldsText(h);
    assert FieldsText(f) == " " + account + FieldsText(g);
  }

  /** The lines are those printed for the records. */
  lemma TextIsPrinted()
    ensures Map(Records(), RecordText()) == LINES
  {
    HeadLines();
    VoucherLines();
    BraceLines();
    hide Line;
    var texts := Map(Records(), RecordText());
    assert texts[0] == LINES[0] && texts[1] == LINES[1] && texts[2] == LINES[2] && texts[3] == LINES[3];
    assert texts[4] == LINES[4] && texts[5] == LINES[5] && texts[6] == LINES[6] && texts[7] == LINES[7];
  }

  lemma HeadLines()
    ensures RecordText()(Records()[0]) == LINES[0] && RecordText()(Records()[1]) == LINES[1]
    ensures RecordText()(Records()[2]) == LINES[2] && RecordText()(Records()[3]) == LINES[3]
  {
    hide Line;
    ShortLines();
    YearLine();
    LineOfWords("#VER", "A", "1", "20260115");
  }

  lemma VoucherLines()
    ensures RecordText()(Records()[5]) == LINES[5] && RecordText()(Records()[6]) == LINES[6]
  {
    hide Line, RecordText;
    DatedText("1910", "100.00");
    DatedText("2010", "-100.00");
  }

  lemma BraceLines()
    ensures Line("{", []) == "{" && Line("}", []) == "}"
  {
  }

  lemma DatedPrintable(account: string, amount: string)
    requires GoodField(Word(account)) && GoodField(Word(amount))
    ensures Printable(DatedLine(account, amount))
  {
    PlainWord("20260110");
    assert SieLines.IsTag("#TRANS");
    assert GoodField(Objects([]));
    hide GoodField, SieLines.IsTag;
  }

  lemma HeadPrintable()
    ensures Printable(HEAD) && Printable(Record("{", [])) && Printable(Record("}", []))
  {
    PlainWord("1");
    PlainWord("20260115");
    assert GoodField(Word("A"));
    assert SieLines.IsTag("#VER");
    hide GoodField, SieLines.IsTag;
  }

  lemma AllPrintableHere()
    ensures forall rec :: rec in Records() ==> Printable(rec)
  {
    PlainWord("1910");
    PlainWord("2010");
    PlainWord("100.00");
    PlainWord("-100.00");
    HeadPrintable();
    DatedPrintable("1910", "100.00");
    DatedPrintable("2010", "-100.00");
    FilePrintable();
    assert FileRecords()[0] in FileRecords() && FileRecords()[1] in FileRecords() && FileRecords()[2] in FileRecords();
    hide Printable, GoodField, FileRecords, HEAD, DatedLine;
  }

  // ---------------------------------------------------------------- reading it

  lemma DatesAreRead()
    ensures ParseDate("20260115") == Some("2026-01-15") && DateOf("20260115") == Calendar.Date(2026, 1, 15)
    ensures ParseDate("20260110") == Some("2026-01-10") && DateOf("20260110") == Calendar.Date(2026, 1, 10)
  {
    hide Value, ParseDate, DateOf;
    DateIsRead("20260115", Calendar.Date(2026, 1, 15));
    DateIsRead("20260110", Calendar.Date(2026, 1, 10));
    assert Iso("20260115") == "2026-01-15" && Iso("20260110") == "2026-01-10";
  }

  lemma HeadTexts()
    ensures IsIdentifier("A") && IsVoucherNumber("1") && Value("1") == 1 && Units("") == 0
  {
    assert "1"[..0] == "";
  }

  const SPANNED := EMPTY.(fiscalYears := [FiscalYear("0", SPAN)], fiscalYear := Some(SPAN))

  function VoucherWith(xs: seq<Transaction>): Voucher { Voucher("2026-01-15", "1", "A", "", xs) }

  lemma FeedHead(r: Reader)
    requires r.doc == SPANNED && !r.open && !r.block
    ensures Feed(r, HEAD) == Some(WithDoc(r, SPANNED.(vouchers := [VoucherWith([])])).(open := true))
  {
    WordsAreTokens("#VER", "A", "1", "20260115");
    assert KindOf("#VER") == VoucherHead;
    HeadTexts();
    DatesAreRead();
    assert [] + [VoucherWith([])] == [VoucherWith([])];
    hide RecordTokens, KindOf, ParseDate, IsIdentifier, IsVoucherNumber, Units;
  }

  lemma FeedBrace(r: Reader)
    ensures r.open && !r.block ==> Feed(r, Record("{", [])) == Some(r.(block := true))
    ensures r.open && r.block ==> Feed(r, Record("}", [])) == Some(r.(open := false, block := false))
  {
    assert KindOf("{") == OpenBrace && KindOf("}") == CloseBrace;
    hide KindOf;
  }

  function DatedTokens(account: string, amount: string): seq<string> {
    ["#TRANS", account, "{", "}", amount, "20260110"]
  }

  lemma DatedAreTokens(account: string, amount: string)
    ensures RecordTokens(DatedLine(account, amount)) == DatedTokens(account, amount)
  {
    var f := DatedLine(account, amount).fields;
    var g := [Objects([]), Word(amount), Word("20260110")];
    var h := [Word(amount), Word("20260110")];
    assert f[1..] == g && g[1..] == h && h[1..] == [Word("20260110")] && [Word("20260110")][1..] == [];
    assert FieldsTokens([]) == [] && FieldsTokens([Word("20260110")]) == ["20260110"];
    assert FieldsTokens(h) == [amount, "20260110"];
    assert RefTokens([]) == [] && FieldTokens(Objects([])) == ["{", "}"];
    assert FieldsTokens(g) == ["{", "}"] + [amount, "20260110"];
    assert FieldsTokens(f) == [account] + FieldsTokens(g);
  }

  lemma DatedClosing(account: string, amount: string)
    requires account != "}"
    ensures Closing(DatedTokens(account, amount)) == 3
  {
    var t := DatedTokens(account, amount);
    assert t[1..][1..] == t[2..] && t[2..][1..] == t[3..];
    assert FirstIndex(t[3..], "}") == Some(0);
    assert FirstIndex(t[2..], "}") == Some(1);
    assert FirstIndex(t[1..], "}") == Some(2);
  }

  function DatedTransaction(account: string, cents: int): Transaction {
    Transaction(account, CentsMoney(cents), Some("2026-01-10"), None, [])
  }

  lemma DatedRest(account: string, cents: int)
    requires MoneyCents(CentsMoney(cents)) == Some(cents)
    ensures TransactionRest(DatedTokens(account, CentsMoney(cents)), 3, []) == Ok(DatedTransaction(account, cents))
  {
    DatesAreRead();
    HeadTexts();
    hide ParseDate, CentsMoney, MoneyCents, Units;
  }

  lemma FeedLine(r: Reader, account: string, cents: int)
    requires IsAccountNumber(account) && MoneyCents(CentsMoney(cents)) == Some(cents)
    requires r.open && r.block && r.doc.vouchers != []
    ensures Feed(r, DatedLine(account, CentsMoney(cents)))
            == Some(WithDoc(r, AddTransaction(r.doc, DatedTransaction(account, cents))))
  {
    hide RecordTokens, MoneyCents, CentsMoney, IsAccountNumber, TransactionRecord, AddTransaction;
    DatedAreTokens(account, CentsMoney(cents));
    RecordDated(r, account, cents);
    KindIsLine();
    hide KindOf;
  }

  lemma KindIsLine()
    ensures KindOf("#TRANS") == VoucherLine
  {
  }

  lemma RecordDated(r: Reader, account: string, cents: int)
    requires IsAccountNumber(account) && MoneyCents(CentsMoney(cents)) == Some(cents)
    requires r.open && r.block && r.doc.vouchers != []
    ensures TransactionRecord(r, DatedTokens(account, CentsMoney(cents)))
            == Ok(WithDoc(r, AddTransaction(r.doc, DatedTransaction(account, cents))))
  {
    hide MoneyCents, CentsMoney, Closing, TransactionRest, AddTransaction;
    assert account != "}";
    DatedClosing(account, CentsMoney(cents));
    DatedRest(account, cents);
    assert ObjectsUpTo(DatedTokens(account, CentsMoney(cents)), 3) == Some([]);
    hide IsAccountNumber, ObjectsUpTo;
  }

  function Booked(): Voucher { VoucherWith([DatedTransaction("1910", 10000), DatedTransaction("2010", -10000)]) }

  /** The document of the file. */
  function Document(): SieParser.Document { SPANNED.(vouchers := [Booked()]) }

  lemma LinesAdded()
    ensures var one := AddTransaction(SPANNED.(vouchers := [VoucherWith([])]), DatedTransaction("1910", 10000));
            one.vouchers != [] && AddTransaction(one, DatedTransaction("2010", -10000)) == Document()
  {
    hide CentsMoney;
    var a, b := DatedTransaction("1910", 10000), DatedTransaction("2010", -10000);
    assert [] + [a] == [a] && [a] + [b] == [a, b];
    assert [VoucherWith([])][0 := VoucherWith([a])] == [VoucherWith([a])];
    assert [VoucherWith([a])][0 := VoucherWith([a, b])] == [VoucherWith([a, b])];
  }

  lemma VoucherRuns(r: Reader)
    requires r == Reader(SPANNED, false, false, true, map[])
    ensures var recs := Records();
            var a := Feed(r, recs[3]);
            && a.Some? && Feed(a.value, recs[4]).Some?
            && var b := Feed(Feed(a.value, recs[4]).value, recs[5]);
               && b.Some? && Feed(b.value, recs[6]).Some?
               && Feed(Feed(b.value, recs[6]).value, recs[7]) == Some(Reader(Document(), false, false, true, map[]))
  {
    hide Feed, MoneyCents, CentsMoney, AddTransaction, Document;
    FileAmounts();
    assert IsAccountNumber("1910") && IsAccountNumber("2010");
    FeedHead(r);
    var r1 := Feed(r, HEAD).value;
    FeedBrace(r1);
    var r2 := r1.(block := true);
    FeedLine(r2, "1910", 10000);
    var r3 := WithDoc(r2, AddTransaction(r2.doc, DatedTransaction("1910", 10000)));
    LinesAdded();
    FeedLine(r3, "2010", -10000);
    FeedBrace(WithDoc(r3, AddTransaction(r3.doc, DatedTransaction("2010", -10000))));
  }

  lemma TextRuns()
    ensures SieReplay.Run(START, Records()) == Some(Reader(Document(), false, false, true, map[]))
  {
    hide Feed, SieReplay.Run, Document, FileRecords;
    var recs := Records();
    var a, b, c, d, e, f, g, h := recs[0], recs[1], recs[2], recs[3], recs[4], recs[5], recs[6], recs[7];
    FeedFlag();
    FeedSpan(START.(typeSeen := true));
    VoucherRuns(Reader(SPANNED, false, false, true, map[]));
    RunNext([], a);
    RunNext([a], b);
    RunNext([a] + [b], c);
    RunNext([a] + [b] + [c], d);
    RunNext([a] + [b] + [c] + [d], e);
    RunNext([a] + [b] + [c] + [d] + [e], f);
    RunNext([a] + [b] + [c] + [d] + [e] + [f], g);
    RunNext([a] + [b] + [c] + [d] + [e] + [f] + [g], h);
    assert [] + [a] == [a] && recs == [a] + [b] + [c] + [d] + [e] + [f] + [g] + [h];
  }

  lemma BookedBalances()
    ensures Balanced(Booked())
  {
    hide CentsMoney, MoneyCents;
    FileAmounts();
    var a, b := DatedTransaction("1910", 10000), DatedTransaction("2010", -10000);
    assert NonZero()(a) && NonZero()(b);
    var xs := [a, b];
    assert xs[..1] == [a] && xs[..0] == [];
    SumSnoc([a], b, LineCents());
    SumOne(a, LineCents());
    assert [a] + [b] == xs;
    TwoKept(a, b, NonZero());
  }

  lemma TwoKept<T(!new)>(a: T, b: T, f: T -> bool)
    requires f(a) && f(b)
    ensures |Filter([a, b], f)| == 2
  {
    var s := [a, b];
    assert s[..1] == [a] && [a][..0] == [];
    assert Filter([a], f) == [a];
  }

  lemma InSpan()
    ensures !Outside("2026-01-15", Some(SPAN)) && !Outside("2026-01-10", Some(SPAN))
  {
    hide Value, Less, ParseDate, DateOf, Calendar.DayNumber;
    FileDates();
    DatesAreRead();
    assert Iso("20260101") == SPAN.start && Iso("20260131") == SPAN.end;
    assert Iso("20260115") == "2026-01-15" && Iso("20260110") == "2026-01-10";
    IsoOrder("20260115", "20260101");
    IsoOrder("20260131", "20260115");
    IsoOrder("20260110", "20260101");
    IsoOrder("20260131", "20260110");
    JanuaryOrder();
  }

  lemma JanuaryOrder()
    ensures Calendar.DayNumber(Calendar.Date(2026, 1, 10)) == Calendar.DayNumber(Calendar.Date(2026, 1, 1)) + 9
    ensures Calendar.DayNumber(Calendar.Date(2026, 1, 15)) == Calendar.DayNumber(Calendar.Date(2026, 1, 1)) + 14
    ensures Calendar.DayNumber(Calendar.Date(2026, 1, 31)) == Calendar.DayNumber(Calendar.Date(2026, 1, 1)) + 30
  {
    hide Calendar.MonthStart;
  }

  lemma NoLineErrors(d: SieParser.Document, x: Transaction)
    requires d.fiscalYear == Some(SPAN) && x.date == Some("2026-01-10") && x.objects == []
    ensures LineErrors(d, x) == []
  {
    InSpan();
    hide Outside;
  }

  lemma VoucherInOrder()
    ensures VouchersErrors(Document(), [Booked()]) == []
  {
    hide CentsMoney, Balanced, Outside, LineErrors;
    var a, b := DatedTransaction("1910", 10000), DatedTransaction("2010", -10000);
    NoLineErrors(Document(), a);
    NoLineErrors(Document(), b);
    var xs := [a, b];
    assert xs[..1] == [a] && [a][..0] == [];
    assert LinesErrors(Document(), [a]) == [];
    assert LinesErrors(Document(), xs) == [];
    BookedBalances();
    InSpan();
    assert [Booked()][..0] == [];
    assert VoucherErrors(Document(), Booked()) == [];
  }

  lemma TextInOrder()
    ensures Finish(Reader(Document(), false, false, true, map[])) == Document()
  {
    hide VouchersErrors, Booked, SumOf;
    VoucherInOrder();
    assert Typed([], map[]) == [];
    SumEmpty();
  }

  lemma SumEmpty()
    ensures SumOf([], OpeningCents()) == 0
  {
  }

  /** The file is read without errors as the document with the one voucher. */
  lemma TextIsRead()
    ensures Parse(Text()) == Document()
  {
    hide *;
    TextIsPrinted();
    AllPrintableHere();
    TextRuns();
    TextStarts();
    ReadRunning(Records());
    TextInOrder();
  }

  lemma TextStarts()
    ensures Records() != [] && Records()[0].tag == "#FLAGGA" && Text() == SieLines.Joined(LINES)
  {
  }
}
