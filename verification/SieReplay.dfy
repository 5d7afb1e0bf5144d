/** Reading printed records: one line per record, one step of the reader per line. */
module SieReplay {
  import opened Common
  import opened SieText
  import opened SieTokens
  import opened SieLines
  import opened SieParser
  import opened SieExport
  import SieSound

  // ---------------------------------------------------------------- running records

  function RecordTokens(rec: Record): seq<string> { [rec.tag] + FieldsTokens(rec.fields) }

  /** A record printed in a form that reads back. */
  predicate Printable(rec: Record) { rec.tag != "" && IsTag(rec.tag) && GoodFields(rec.fields) }

  function Feed(r: Reader, rec: Record): Option<Reader> {
    var step := Apply(Noted(r, RecordTokens(rec)), RecordTokens(rec));
    if step.Ok? then Some(step.value) else None
  }

  /** The reader after a list of records; None when one of them is refused. */
  function Run(r: Reader, recs: seq<Record>): Option<Reader> {
    if |recs| == 0 then Some(r)
    else
      var front := Run(r, recs[..|recs| - 1]);
      if front.Some? then Feed(front.value, recs[|recs| - 1]) else None
  }

  lemma {:induction false} RunAppend(r: Reader, a: seq<Record>, b: seq<Record>)
    ensures Run(r, a + b) == if Run(r, a).Some? then Run(Run(r, a).value, b) else None
  {
    if |b| == 0 { assert a + b == a; }
    else {
      assert (a + b)[..|a + b| - 1] == a + b[..|b| - 1];
      RunAppend(r, a, b[..|b| - 1]);
    }
  }

  lemma RunOne(r: Reader, rec: Record)
    ensures Run(r, [rec]) == Feed(r, rec)
  {
    assert [rec][..0] == [];
  }

  lemma ReadPrinted(r: Reader, line: nat, rec: Record)
    requires Printable(rec)
    requires ReadLine(r, line, RecordText()(rec)).doc.errors == []
    ensures Feed(r, rec) == Some(ReadLine(r, line, RecordText()(rec)))
  {
    hide Apply, IsTag, GoodFields, Tokenize, Line, FieldsTokens;
    LineReadsBack(rec.tag, rec.fields);
    SieSound.ErrorsGrow(r, line, Line(rec.tag, rec.fields));
  }

  lemma {:induction false} ReadAllPrinted(recs: seq<Record>)
    requires forall rec :: rec in recs ==> Printable(rec)
    requires ReadLines(Map(recs, RecordText())).doc.errors == []
    ensures Run(START, recs) == Some(ReadLines(Map(recs, RecordText())))
  {
    hide ReadLine, Printable, Feed;
    if |recs| > 0 {
      var n := |recs| - 1;
      var texts := Map(recs, RecordText());
      assert texts[..n] == Map(recs[..n], RecordText());
      SieSound.ErrorsGrow(ReadLines(texts[..n]), |recs|, texts[n]);
      ReadAllPrinted(recs[..n]);
      ReadPrinted(ReadLines(texts[..n]), |recs|, recs[n]);
    }
  }

  /** A printed record is read as that record; when it is refused, the reader notes an error. */
  lemma PrintedIsRead(r: Reader, line: nat, rec: Record)
    requires Printable(rec)
    ensures Feed(r, rec).Some? ==> ReadLine(r, line, RecordText()(rec)) == Feed(r, rec).value
    ensures Feed(r, rec).None? ==> ReadLine(r, line, RecordText()(rec)).doc.errors != []
  {
    hide Apply, IsTag, GoodFields, Tokenize, Line, FieldsTokens;
    LineReadsBack(rec.tag, rec.fields);
  }

  lemma {:induction false} RunIsRead(recs: seq<Record>)
    requires (forall rec :: rec in recs ==> Printable(rec)) && Run(START, recs).Some?
    ensures ReadLines(Map(recs, RecordText())) == Run(START, recs).value
  {
    hide ReadLine, Printable, Feed;
    if |recs| > 0 {
      var n := |recs| - 1;
      var texts := Map(recs, RecordText());
      assert texts[..n] == Map(recs[..n], RecordText());
      RunIsRead(recs[..n]);
      PrintedIsRead(ReadLines(texts[..n]), |recs|, recs[n]);
    }
  }

  /** A text whose records run is read as their run, whatever the checks across records then find. */
  lemma {:induction false} ReadRunning(recs: seq<Record>)
    requires recs != [] && recs[0].tag == "#FLAGGA" && forall rec :: rec in recs ==> Printable(rec)
    requires Run(START, recs).Some?
    ensures Parse(Joined(Map(recs, RecordText()))) == Finish(Run(START, recs).value)
  {
    var texts := Map(recs, RecordText());
    forall t | t in texts ensures Clean(t) {
      var i :| 0 <= i < |texts| && texts[i] == t;
      TextOfPrintable(recs[i]);
    }
    TextOfPrintable(recs[0]);
    hide *;
    OutputLines(texts);
    RunIsRead(recs);
  }

  lemma BlankLine(r: Reader, line: nat)
    ensures ReadLine(r, line, "") == r
  {
    assert Tokenize(Trim("")) == Ok([]);
  }

  lemma TextOfPrintable(rec: Record)
    requires Printable(rec)
    ensures Clean(RecordText()(rec)) && RecordText()(rec) != "" && RecordText()(rec)[0] == rec.tag[0]
  {
    LineReadsBack(rec.tag, rec.fields);
  }

  /** Reading a whole exported text is running its records. */
  lemma {:induction false} ReadOutput(recs: seq<Record>)
    requires recs != [] && recs[0].tag == "#FLAGGA" && forall rec :: rec in recs ==> Printable(rec)
    requires Parse(Joined(Map(recs, RecordText()))).errors == []
    ensures Run(START, recs).Some? && Parse(Joined(Map(recs, RecordText()))) == Finish(Run(START, recs).value)
  {
    var texts := Map(recs, RecordText());
    var output := Joined(texts);
    forall t | t in texts ensures Clean(t) {
      var i :| 0 <= i < |texts| && texts[i] == t;
      TextOfPrintable(recs[i]);
    }
    TextOfPrintable(recs[0]);
    hide *;
    OutputLines(texts);
    SieSound.ChecksPassed(ReadLines(texts));
    ReadAllPrinted(recs);
  }

  lemma {:induction false} OutputLines(texts: seq<string>)
    requires texts != [] && (forall t :: t in texts ==> Clean(t)) && texts[0] != "" && texts[0][0] == '#'
    ensures Parse(Joined(texts)) == Finish(ReadLines(texts))
  {
    hide Clean, ReadLine, Finish;
    SplitJoined(texts);
    assert Joined(texts)[0] == '#';
    assert WithoutMark(Joined(texts)) == Joined(texts);
    assert (texts + [""])[..|texts|] == texts;
    BlankLine(ReadLines(texts), |texts| + 1);
  }

  // ---------------------------------------------------------------- fields

  predicate IsSimple(f: Field) { f.Word? || f.Quoted? }

  function TextOf(): Field -> string { (f: Field) => if f.Objects? then "" else f.text }

  lemma {:induction false} SimpleTokens(fields: seq<Field>)
    requires forall f :: f in fields ==> IsSimple(f)
    ensures FieldsTokens(fields) == Map(fields, TextOf())
  {
    if |fields| > 0 {
      SimpleTokens(fields[1..]);
      assert IsSimple(fields[0]);
      assert FieldTokens(fields[0]) == [TextOf()(fields[0])];
      assert Map(fields, TextOf()) == [TextOf()(fields[0])] + Map(fields[1..], TextOf());
    }
  }

  lemma {:induction false} GatherOk(fs: seq<Result<Field, ExportError>>)
    requires Gather(fs).Ok?
    ensures |Gather(fs).value| == |fs| && forall i :: 0 <= i < |fs| ==> fs[i].Ok? && Gather(fs).value[i] == fs[i].value
  {
    if |fs| > 0 {
      GatherOk(fs[1..]);
      assert forall i :: 1 <= i < |fs| ==> fs[i] == fs[1..][i - 1];
    }
  }

  /** The tokens of a printed record without an object list. */
  lemma OneTokens(tag: string, fs: seq<Result<Field, ExportError>>)
    requires One(tag, fs).Ok? && forall i :: 0 <= i < |fs| && fs[i].Ok? ==> IsSimple(fs[i].value)
    ensures |One(tag, fs).value| == 1 && One(tag, fs).value[0].tag == tag
    ensures var t := RecordTokens(One(tag, fs).value[0]);
            && |t| == |fs| + 1 && t[0] == tag
            && forall i :: 0 <= i < |fs| ==> fs[i].Ok? && t[i + 1] == TextOf()(fs[i].value)
  {
    GatherOk(fs);
    SimpleTokens(Gather(fs).value);
  }

  predicate IsNumber(s: string) { s != "" && IsDigits(s) }

  lemma DigitsAreWord(s: string)
    requires IsNumber(s)
    ensures IsWord(s)
  {
    assert s[0] in s;
  }

  lemma MoneyIsWord(v: int)
    ensures IsWord(CentsMoney(v))
  {
    var whole, fraction := Whole(Abs(v)), Fraction(Abs(v));
    assert IsDigit(whole[0]);
    hide Whole, Fraction;
    forall c | c in CentsMoney(v) ensures !IsBreak(c) && !IsControl(c) {
      assert c == '-' || c == '.' || IsDigit(c);
    }
  }

  predicate GoodResult(f: Result<Field, ExportError>) { f.Ok? ==> GoodField(f.value) }

  lemma GoodPieces(s: string)
    ensures GoodResult(TextField(s)) && GoodResult(DateField(s)) && GoodResult(MoneyField(s))
    ensures IsNumber(s) ==> GoodField(Word(s))
  {
    if IsNumber(s) { DigitsAreWord(s); }
    if SieDate(s).Some? { DigitsAreWord(WithoutDashes(s)); }
    if MoneyCents(s).Some? { MoneyIsWord(MoneyCents(s).value); }
  }

  lemma OneIsPrintable(tag: string, fs: seq<Result<Field, ExportError>>)
    requires tag != "" && IsTag(tag) && forall i :: 0 <= i < |fs| ==> GoodResult(fs[i])
    ensures One(tag, fs).Ok? ==> forall rec :: rec in One(tag, fs).value ==> Printable(rec)
  {
    if One(tag, fs).Ok? { GatherOk(fs); }
  }

  ghost predicate AllPrintable(rs: Records) { rs.Ok? ==> forall rec :: rec in rs.value ==> Printable(rec) }

  lemma ChainIsPrintable(a: Records, b: Records)
    requires AllPrintable(a) && AllPrintable(b)
    ensures AllPrintable(Chain(a, b))
  {
    hide Printable;
  }

  lemma {:induction false} EachIsPrintable<T(!new)>(s: seq<T>, f: T -> Records)
    requires forall x :: x in s ==> AllPrintable(f(x))
    ensures AllPrintable(Each(s, f))
  {
    hide AllPrintable;
    if |s| > 0 {
      EachIsPrintable(s[..|s| - 1], f);
      ChainIsPrintable(Each(s[..|s| - 1], f), f(s[|s| - 1]));
    } else {
      NothingIsPrintable();
    }
  }

  lemma NothingIsPrintable()
    ensures AllPrintable(Ok([]))
  {
  }
}
