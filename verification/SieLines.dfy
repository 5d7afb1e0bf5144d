/** The lines of an SIE text: splitting, trimming, joining, and what printed records look like as lines. */
module SieLines {
  import opened Common
  import opened SieText
  import opened SieTokens

  /** A leading byte order mark is dropped. */
  function WithoutMark(text: string): string { if text != "" && text[0] as int == 0xFEFF then text[1..] else text }

  function WithoutReturn(line: string): string {
    if line != "" && line[|line| - 1] == '\r' then line[..|line| - 1] else line
  }

  /** The lines between line feeds, each without one carriage return at its end. */
  function SplitLines(text: string): (lines: seq<string>)
    ensures |lines| > 0
    decreases |text|
  {
    var feed := IndexOf(text, '\n');
    if feed.None? then [text] else [WithoutReturn(text[..feed.value])] + SplitLines(text[feed.value + 1..])
  }

  function TrimStart(s: string): string { if s != "" && IsSpace(s[0]) then TrimStart(s[1..]) else s }

  function TrimEnd(s: string): string { if s != "" && IsSpace(s[|s| - 1]) then TrimEnd(s[..|s| - 1]) else s }

  function Trim(s: string): string { TrimEnd(TrimStart(s)) }

  /** Control characters refused anywhere in a line: all but tab, line feed, carriage return. */
  predicate HasForbidden(s: string)
  {
    exists c :: c in s && IsControl(c) && c as int != 9 && c as int != 10 && c as int != 13
  }

  /** Every line followed by carriage return and line feed. */
  function Joined(lines: seq<string>): string { if |lines| == 0 then "" else lines[0] + "\r\n" + Joined(lines[1..]) }

  predicate Clean(s: string) { forall c :: c in s ==> !IsControl(c) }

  lemma {:induction false} FirstFeed(line: string, rest: string)
    requires '\n' !in line
    ensures IndexOf(line + "\n" + rest, '\n') == Some(|line|)
  {
    var s := line + "\n" + rest;
    if |line| > 0 {
      assert s[1..] == line[1..] + "\n" + rest;
      FirstFeed(line[1..], rest);
    }
  }

  lemma SplitFirst(line: string, rest: string)
    requires Clean(line)
    ensures SplitLines(line + "\r\n" + rest) == [line] + SplitLines(rest)
  {
    var cr := line + "\r";
    var text := cr + "\n" + rest;
    assert line + "\r\n" + rest == text;
    FirstFeed(cr, rest);
    hide IndexOf, Clean;
    assert text[..|cr|] == cr && text[|cr| + 1..] == rest;
    assert WithoutReturn(cr) == line;
  }

  lemma {:induction false} SplitJoined(lines: seq<string>)
    requires forall l :: l in lines ==> Clean(l)
    ensures SplitLines(Joined(lines)) == lines + [""]
  {
    if |lines| > 0 {
      hide Clean, IndexOf;
      SplitJoined(lines[1..]);
      SplitFirst(lines[0], Joined(lines[1..]));
      assert lines + [""] == [lines[0]] + (lines[1..] + [""]);
    }
  }

  lemma TrimmedAlready(s: string)
    requires s != "" && !IsSpace(s[0]) && !IsSpace(s[|s| - 1])
    ensures Trim(s) == s
  {
  }

  lemma {:induction false} EscapedClean(value: string)
    requires Clean(value)
    ensures Clean(Escaped(value))
  {
    if |value| > 0 { EscapedClean(value[1..]); }
  }

  lemma QuotedClean(value: string)
    requires Quotable(value)
    ensures Clean(QuoteText(value))
  {
    EscapedClean(value);
  }

  lemma {:induction false} RefsClean(refs: seq<ObjectRef>)
    requires forall r :: r in refs ==> IsWord(r.dimension) && Quotable(r.id)
    ensures Clean(RefsText(refs))
  {
    if |refs| > 0 {
      QuotedClean(refs[0].id);
      RefsClean(refs[1..]);
    }
  }

  lemma FieldClean(f: Field)
    requires GoodField(f)
    ensures Clean(FieldText(f)) && FieldText(f) != "" && !IsSpace(FieldText(f)[|FieldText(f)| - 1])
  {
    match f
    case Word(text) => assert text[|text| - 1] in text;
    case Quoted(text) => QuotedClean(text);
    case Objects(refs) => RefsClean(refs);
  }

  lemma {:induction false} FieldsClean(fields: seq<Field>)
    requires GoodFields(fields)
    ensures Clean(FieldsText(fields))
    ensures fields != [] ==> FieldsText(fields) != "" && !IsSpace(FieldsText(fields)[|FieldsText(fields)| - 1])
  {
    if |fields| > 0 {
      FieldClean(fields[0]);
      FieldsClean(fields[1..]);
    }
  }

  predicate IsTag(tag: string) { (IsWord(tag) && !IsSpace(tag[|tag| - 1])) || tag == "{" || tag == "}" }

  /** A printed record is a clean line that trimming leaves alone and that reads back as its fields. */
  lemma {:induction false} LineReadsBack(tag: string, fields: seq<Field>)
    requires IsTag(tag) && GoodFields(fields)
    ensures Clean(Line(tag, fields)) && !HasForbidden(Line(tag, fields))
    ensures Tokenize(Trim(Line(tag, fields))) == Ok([tag] + FieldsTokens(fields))
  {
    var line, text := Line(tag, fields), FieldsText(fields);
    FieldsClean(fields);
    TokenizeLine(tag, fields);
    assert line[0] == tag[0] && (IsWord(tag) ==> tag[0] in tag);
    assert line[|line| - 1] == if text == "" then tag[|tag| - 1] else text[|text| - 1];
    TrimmedAlready(line);
  }
}
