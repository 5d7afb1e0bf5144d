/** A small SIE file with two opening balances, read record by record. */
module OpeningsFile {
  import opened Common
  import opened SieExport
  import opened SieParser
  import opened SieReplay
  import opened SieText
  import opened SieTokens
  import Calendar
  import SieLines

  // ---------------------------------------------------------------- the file

  /** 100 kronor of cash against equity; every line ends in carriage return and line feed. */
  const FILE_LINES := ["#FLAGGA 0", "#SIETYP 4", "#RAR 0 20260101 20260131", "#IB 0 1910 100.00", "#IB 0 2010 -100.00"]

  function File(): string { SieLines.Joined(FILE_LINES) }

  const SPAN := Span("2026-01-01", "2026-01-31")

  function FileRecords(): seq<Record> {
    [Record("#FLAGGA", [Word("0")]), Record("#SIETYP", [Word("4")]),
     Record("#RAR", [Word("0"), Word("20260101"), Word("20260131")]),
     Record("#IB", [Word("0"), Word("1910"), Word("100.00")]),
       Record("#IB", [Word("0"), Word("2010"), Word("-100.00")])]
  }

  lemma LineOfWord(tag: string, a: string)
    ensures Line(tag, [Word(a)]) == tag + (" " + a)
  {
    var f := [Word(a)];
    assert f[1..] == [] && FieldsText(f[1..]) == "";
    assert FieldsText(f) == " " + a;
  }

  lemma LineOfWords(tag: string, a: string, b: string, c: string)
    ensures Line(tag, [Word(a), Word(b), Word(c)]) == tag + (" " + a + (" " + b + (" " + c)))
  {
    var f := [Word(a), Word(b), Word(c)];
    assert f[1..] == [Word(b), Word(c)] && [Word(b), Word(c)][1..] == [Word(c)] && [Word(c)][1..] == [];
    assert FieldsText([]) == "";
    assert FieldsText([Word(c)]) == " " + c;
    assert FieldsText([Word(b), Word(c)]) == " " + b + (" " + c);
  }

  lemma ShortLines()
    ensures Line("#FLAGGA", [Word("0")]) == FILE_LINES[0] && Line("#SIETYP", [Word("4")]) == FILE_LINES[1]
  {
    LineOfWord("#FLAGGA", "0");
    LineOfWord("#SIETYP", "4");
    hide Line;
  }

  lemma YearLine()
    ensures Line("#RAR", [Word("0"), Word("20260101"), Word("20260131")]) == FILE_LINES[2]
  {
    LineOfWords("#RAR", "0", "20260101", "20260131");
    hide Line;
  }

  lemma OpeningLines()
    ensures Line("#IB", [Word("0"), Word("1910"), Word("100.00")]) == FILE_LINES[3]
    ensures Line("#IB", [Word("0"), Word("2010"), Word("-100.00")]) == FILE_LINES[4]
  {
    LineOfWords("#IB", "0", "1910", "100.00");
    LineOfWords("#IB", "0", "2010", "-100.00");
    hide Line;
  }

  /** The lines are those printed for the records. */
  lemma FileIsPrinted()
    ensures Map(FileRecords(), RecordText()) == FILE_LINES
  {
    ShortLines();
    YearLine();
    OpeningLines();
    hide Line;
    var texts := Map(FileRecords(), RecordText());
    assert texts[0] == FILE_LINES[0] && texts[1] == FILE_LINES[1] && texts[2] == FILE_LINES[2];
    assert texts[3] == FILE_LINES[3] && texts[4] == FILE_LINES[4];
  }

  // ---------------------------------------------------------------- its records

  lemma WordIsToken(tag: string, a: string)
    ensures RecordTokens(Record(tag, [Word(a)])) == [tag, a]
  {
    SimpleTokens([Word(a)]);
  }

  lemma WordsAreTokens(tag: string, a: string, b: string, c: string)
    ensures RecordTokens(Record(tag, [Word(a), Word(b), Word(c)])) == [tag, a, b, c]
  {
    SimpleTokens([Word(a), Word(b), Word(c)]);
  }

  lemma PlainWord(s: string)
    requires s != "" && forall c :: c in s ==> IsDigit(c) || c == '-' || c == '.'
    ensures GoodField(Word(s))
  {
    assert s[0] in s;
  }

  lemma HashIsTag(tag: string)
    requires tag == "#FLAGGA" || tag == "#SIETYP" || tag == "#RAR" || tag == "#IB"
    ensures SieLines.IsTag(tag)
  {
  }

  lemma FilePrintable()
    ensures forall rec :: rec in FileRecords() ==> Printable(rec)
  {
    PlainWord("0"); PlainWord("4");
    PlainWord("20260101"); PlainWord("20260131");
    PlainWord("1910"); PlainWord("2010"); PlainWord("100.00"); PlainWord("-100.00");
    HashIsTag("#FLAGGA"); HashIsTag("#SIETYP"); HashIsTag("#RAR"); HashIsTag("#IB");
    hide GoodField, SieLines.IsTag;
  }

  lemma DateIsRead(s: string, date: Calendar.Date)
    requires |s| == 8 && IsDigits(s) && Calendar.Valid(date)
    requires date.year == 1000 * DigitValue(s[0]) + 100 * DigitValue(s[1]) + 10 * DigitValue(s[2]) + DigitValue(s[3])
    requires date.month == 10 * DigitValue(s[4]) + DigitValue(s[5])
    requires date.day == 10 * DigitValue(s[6]) + DigitValue(s[7])
    ensures ParseDate(s) == Some(Iso(s)) && DateOf(s) == date
  {
    FourDigits(s[..4]);
    TwoDigitsOf(s[4..6]);
    TwoDigitsOf(s[6..]);
    hide Value, DigitValue, Calendar.Valid;
  }

  lemma FileDates()
    ensures ParseDate("20260101") == Some(SPAN.start) && DateOf("20260101") == Calendar.Date(2026, 1, 1)
    ensures ParseDate("20260131") == Some(SPAN.end) && DateOf("20260131") == Calendar.Date(2026, 1, 31)
    ensures !Less(SPAN.end, SPAN.start)
  {
    hide Value, Less, ParseDate, DateOf, Calendar.DayNumber;
    DateIsRead("20260101", Calendar.Date(2026, 1, 1));
    DateIsRead("20260131", Calendar.Date(2026, 1, 31));
    assert Iso("20260101") == SPAN.start && Iso("20260131") == SPAN.end;
    IsoOrder("20260131", "20260101");
    LaterInJanuary();
  }

  lemma LaterInJanuary()
    ensures Calendar.DayNumber(Calendar.Date(2026, 1, 31)) == Calendar.DayNumber(Calendar.Date(2026, 1, 1)) + 30
  {
    hide Calendar.MonthStart;
  }

  lemma FourDigits(s: string)
    requires |s| == 4
    ensures Value(s) == 1000 * DigitValue(s[0]) + 100 * DigitValue(s[1]) + 10 * DigitValue(s[2]) + DigitValue(s[3])
  {
    assert s[..3][..2] == s[..2] && s[..2][..1] == s[..1] && s[..1][..0] == "";
    assert Value(s[..1]) == DigitValue(s[0]);
    assert Value(s[..2]) == 10 * Value(s[..1]) + DigitValue(s[1]);
    assert Value(s[..3]) == 10 * Value(s[..2]) + DigitValue(s[2]);
  }

  lemma TwoDigitsOf(s: string)
    requires |s| == 2
    ensures Value(s) == 10 * DigitValue(s[0]) + DigitValue(s[1])
  {
    assert s[..1][..0] == "";
    assert Value(s[..1]) == DigitValue(s[0]);
  }

  lemma HundredText()
    ensures Whole(10000) == "100" && Fraction(10000) == "00"
  {
    assert Digits(1) == "1";
    assert Digits(10) == Digits(1) + "0";
    assert Digits(100) == Digits(10) + "0";
  }

  lemma FileAmounts()
    ensures CentsMoney(10000) == "100.00" && CentsMoney(-10000) == "-100.00"
    ensures MoneyCents("100.00") == Some(10000) && MoneyCents("-100.00") == Some(-10000)
  {
    hide Whole, Fraction, MoneyCents;
    HundredText();
    SmallMoney(10000);
    SmallMoney(-10000);
  }

  lemma SmallMoney(v: int)
    requires -100000 < v < 100000
    ensures MoneyCents(CentsMoney(v)) == Some(v)
  {
    MoneyRoundTrip(v);
    PowGrows(5, 18);
    assert Pow10(5) == 100000 by {
      assert Pow10(2) == 10 * Pow10(1) && Pow10(3) == 10 * Pow10(2) && Pow10(4) == 10 * Pow10(3)
        && Pow10(5) == 10 * Pow10(4);
    }
    hide Pow10, MoneyCents, CentsMoney;
  }

  lemma FeedFlag()
    ensures Feed(START, FileRecords()[0]) == Some(START)
    ensures Feed(START, FileRecords()[1]) == Some(START.(typeSeen := true))
  {
    WordIsToken("#FLAGGA", "0");
    WordIsToken("#SIETYP", "4");
    assert KindOf("#FLAGGA") == Silent && KindOf("#SIETYP") == TypeOfFile;
    hide RecordTokens, KindOf;
  }

  lemma ReadSpan(r: Reader)
    requires r.doc == EMPTY
    ensures YearRecord(r, ["#RAR", "0", "20260101", "20260131"])
            == Ok(WithDoc(r, EMPTY.(fiscalYears := [FiscalYear("0", SPAN)], fiscalYear := Some(SPAN))))
  {
    hide ParseDate, Less, DateOf;
    FileDates();
    assert [] + [FiscalYear("0", SPAN)] == [FiscalYear("0", SPAN)];
  }

  lemma FeedSpan(r: Reader)
    requires r.doc == EMPTY
    ensures Feed(r, FileRecords()[2])
            == Some(WithDoc(r, EMPTY.(fiscalYears := [FiscalYear("0", SPAN)], fiscalYear := Some(SPAN))))
  {
    assert KindOf("#RAR") == Year;
    hide RecordTokens, KindOf, YearRecord;
    WordsAreTokens("#RAR", "0", "20260101", "20260131");
    ReadSpan(r);
  }

  lemma FeedOpening(r: Reader, account: string, cents: int)
    requires IsAccountNumber(account) && MoneyCents(CentsMoney(cents)) == Some(cents)
    ensures Feed(r, Record("#IB", [Word("0"), Word(account), Word(CentsMoney(cents))]))
            == Some(WithDoc(r, r.doc.(openings := r.doc.openings + [Opening(account, CentsMoney(cents), "0")])))
  {
    WordsAreTokens("#IB", "0", account, CentsMoney(cents));
    assert KindOf("#IB") == BalanceAmount;
    hide RecordTokens, KindOf, MoneyCents, CentsMoney, IsAccountNumber;
  }

  /** The document of the file. */
  const READ := EMPTY.(fiscalYears := [FiscalYear("0", SPAN)], fiscalYear := Some(SPAN),
                       openings := [Opening("1910", "100.00", "0"), Opening("2010", "-100.00", "0")])

  lemma FileOpenings(r: Reader)
    requires r.doc == EMPTY.(fiscalYears := [FiscalYear("0", SPAN)], fiscalYear := Some(SPAN))
    ensures Feed(r, FileRecords()[3]).Some?
    ensures Feed(Feed(r, FileRecords()[3]).value, FileRecords()[4]) == Some(WithDoc(r, READ))
  {
    hide Feed, MoneyCents, CentsMoney;
    FileAmounts();
    assert IsAccountNumber("1910") && IsAccountNumber("2010");
    FeedOpening(r, "1910", 10000);
    var one := Feed(r, FileRecords()[3]).value;
    FeedOpening(one, "2010", -10000);
    assert [] + [Opening("1910", "100.00", "0")] == [Opening("1910", "100.00", "0")];
    assert [Opening("1910", "100.00", "0")] + [Opening("2010", "-100.00", "0")] == READ.openings;
  }

  lemma FileRuns()
    ensures SieReplay.Run(START, FileRecords()) == Some(Reader(READ, false, false, true, map[]))
  {
    hide Feed, SieReplay.Run;
    var recs := FileRecords();
    var a, b, c, d, e := recs[0], recs[1], recs[2], recs[3], recs[4];
    FeedFlag();
    FeedSpan(START.(typeSeen := true));
    FileOpenings(Feed(START.(typeSeen := true), c).value);
    RunNext([], a);
    RunNext([a], b);
    RunNext([a] + [b], c);
    RunNext([a] + [b] + [c], d);
    RunNext([a] + [b] + [c] + [d], e);
    assert [] + [a] == [a] && recs == [a] + [b] + [c] + [d] + [e];
  }

  lemma RunNext(recs: seq<Record>, rec: Record)
    ensures SieReplay.Run(START, []) == Some(START)
    ensures SieReplay.Run(START, recs + [rec])
            == if SieReplay.Run(START, recs).Some? then Feed(SieReplay.Run(START, recs).value, rec) else None
  {
    assert (recs + [rec])[..|recs|] == recs;
  }

  lemma TwoSum(a: Opening, b: Opening)
    ensures SumOf([a, b], OpeningCents()) == CentsOf(a.amount) + CentsOf(b.amount)
  {
    SumOne(a, OpeningCents());
    SumSnoc([a], b, OpeningCents());
    assert [a] + [b] == [a, b];
  }

  lemma TwoDistinct(a: Opening, b: Opening)
    requires a.account != b.account
    ensures OpeningErrors([a, b]) == []
  {
    assert [a, b][..1] == [a] && [a][..0] == [];
    assert OpeningErrors([a]) == [];
  }

  lemma NothingWrong()
    ensures Finish(Reader(READ, false, false, true, map[])) == READ
  {
    hide CentsOf, MoneyCents, SumOf, OpeningErrors;
    var a, b := READ.openings[0], READ.openings[1];
    TwoSum(a, b);
    TwoDistinct(a, b);
    ReadCents();
    assert Typed([], map[]) == [];
  }

  lemma ReadCents()
    ensures CentsOf("100.00") == 10000 && CentsOf("-100.00") == -10000
  {
    FileAmounts();
    hide MoneyCents;
  }

  /** The file is read without errors as the document with the two openings. */
  lemma FileIsRead()
    ensures Parse(File()) == READ
  {
    hide *;
    FileIsPrinted();
    FilePrintable();
    FileRuns();
    FileStarts();
    ReadRunning(FileRecords());
    NothingWrong();
    FileText();
  }

  lemma FileText()
    ensures File() == SieLines.Joined(FILE_LINES)
  {
  }

  lemma FileStarts()
    ensures FileRecords() != [] && FileRecords()[0].tag == "#FLAGGA"
  {
  }
}
