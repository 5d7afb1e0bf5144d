/** Fields of one SIE record: the tokenizer, the quoting rules, and why they undo each other. */
module SieTokens {
  import opened Common

  // ---------------------------------------------------------------- tokenizer

  /** White space in the sense of the pattern \s. */
  predicate IsSpace(c: char) {
    var n := c as int;
    9 <= n <= 13 || n == 32 || n == 0xA0 || n == 0x1680 || 0x2000 <= n <= 0x200A || n == 0x2028 || n == 0x2029
    || n == 0x202F || n == 0x205F || n == 0x3000 || n == 0xFEFF
  }

  predicate IsBrace(c: char) { c == '{' || c == '}' }

  predicate IsBreak(c: char) { IsSpace(c) || IsBrace(c) }

  /** Length of the leading run of characters that end no word. */
  function WordLength(s: string): (n: nat)
    ensures n <= |s| && (forall c :: c in s[..n] ==> !IsBreak(c)) && (n < |s| ==> IsBreak(s[n]))
  {
    if |s| == 0 || IsBreak(s[0]) then 0 else 1 + WordLength(s[1..])
  }

  /** The value of a quoted field and the text after its closing quote; None when it is never closed. */
  function QuotedField(s: string): (r: Option<(string, string)>)
    ensures r.Some? ==> |r.value.1| < |s|
  {
    if |s| == 0 then None
    else if s[0] == '\\' && |s| > 1 && s[1] == '"' then Prefix("\"", QuotedField(s[2..]))
    else if s[0] == '"' then Some(("", s[1..]))
    else Prefix([s[0]], QuotedField(s[1..]))
  }

  function Prefix(value: string, r: Option<(string, string)>): Option<(string, string)> {
    if r.Some? then Some((value + r.value.0, r.value.1)) else None
  }

  datatype Malformed = Malformed

  type Tokens = Result<seq<string>, Malformed>

  function Before(front: seq<string>, r: Tokens): Tokens { if r.Ok? then Ok(front + r.value) else r }

  /** A quoted field must be closed, and be followed by white space, a brace or the end. */
  predicate WellClosed(field: Option<(string, string)>) {
    field.Some? && (field.value.1 == "" || IsBreak(field.value.1[0]))
  }

  function Tokenize(s: string): Tokens
    decreases |s|
  {
    if |s| == 0 then Ok([])
    else if IsSpace(s[0]) then Tokenize(s[1..])
    else if s[0] == '"' then
      var field := QuotedField(s[1..]);
      if WellClosed(field) then Before([field.value.0], Tokenize(field.value.1)) else Err(Malformed)
    else if IsBrace(s[0]) then Before([[s[0]]], Tokenize(s[1..]))
    else Before([s[..WordLength(s)]], Tokenize(s[WordLength(s)..]))
  }

  lemma BeforeTwice(a: seq<string>, b: seq<string>, r: Tokens)
    ensures Before(a, Before(b, r)) == Before(a + b, r)
    ensures Before([], r) == r && Before(a, Ok([])) == Ok(a)
  {
    if r.Ok? { assert a + (b + r.value) == a + b + r.value && [] + r.value == r.value; }
    assert a + [] == a;
  }

  lemma PrefixTwice(a: string, b: string, r: Option<(string, string)>)
    ensures Prefix(a, Prefix(b, r)) == Prefix(a + b, r)
    ensures Prefix("", r) == r
  {
    if r.Some? { assert a + (b + r.value.0) == a + b + r.value.0 && "" + r.value.0 == r.value.0; }
  }

  /** The scanning loop. */
  method Scan(line: string) returns (r: Tokens)
    ensures r == Tokenize(line)
  {
    hide Before, Tokenize;
    var result: seq<string> := [];
    var i := 0;
    assert line[0..] == line;
    BeforeTwice([], [], Tokenize(line));
    while i < |line|
      invariant 0 <= i <= |line|
      invariant Tokenize(line) == Before(result, Tokenize(line[i..]))
    {
      if IsSpace(line[i]) {
        SkipSpace(line, i);
        i := i + 1;
        continue;
      }
      var ok, token, next := ScanToken(line, i);
      if !ok { BeforeError(result); return Err(Malformed); }
      BeforeTwice(result, [token], Tokenize(line[next..]));
      result := result + [token];
      i := next;
    }
    NothingLeft(line[i..]);
    BeforeTwice(result, [], Tokenize(line[i..]));
    r := Ok(result);
  }

  lemma SkipSpace(line: string, i: nat)
    requires i < |line| && IsSpace(line[i])
    ensures Tokenize(line[i..]) == Tokenize(line[i + 1..])
  {
    assert line[i..][1..] == line[i + 1..];
  }

  lemma BeforeError(front: seq<string>)
    ensures Before(front, Err(Malformed)) == Err(Malformed)
  {
  }

  lemma NothingLeft(s: string)
    requires s == ""
    ensures Tokenize(s) == Ok([])
  {
  }

  /** One field: quoted, a brace, or a word. */
  method ScanToken(line: string, start: nat) returns (ok: bool, token: string, i: nat)
    requires start < |line| && !IsSpace(line[start])
    ensures start < i <= |line|
    ensures Tokenize(line[start..]) == if ok then Before([token], Tokenize(line[i..])) else Err(Malformed)
  {
    ghost var rest := line[start..];
    if line[start] == '"' {
      assert rest[1..] == line[start + 1..];
      var closed;
      token, closed, i := ScanQuoted(line, start + 1);
      ok := closed && !(i < |line| && !IsBreak(line[i]));
      if i < |line| { assert line[i..][0] == line[i]; }
    } else if IsBrace(line[start]) {
      assert rest[1..] == line[start + 1..];
      ok, token, i := true, [line[start]], start + 1;
    } else {
      i := ScanWord(line, start);
      assert rest[..i - start] == line[start..i] && rest[i - start..] == line[i..];
      ok, token := true, line[start..i];
    }
  }

  method ScanWord(line: string, start: nat) returns (i: nat)
    requires start < |line| && !IsBreak(line[start])
    ensures start < i <= |line| && i - start == WordLength(line[start..])
  {
    i := start;
    while i < |line| && !IsBreak(line[i])
      invariant start <= i <= |line|
      invariant WordLength(line[start..]) == i - start + WordLength(line[i..])
    {
      assert line[i..][1..] == line[i + 1..];
      i := i + 1;
    }
    assert WordLength(line[i..]) == 0;
  }

  method ScanQuoted(line: string, start: nat) returns (value: string, closed: bool, i: nat)
    requires start <= |line|
    ensures start <= i <= |line|
    ensures QuotedField(line[start..]) == if closed then Some((value, line[i..])) else None
    ensures closed ==> i > start
  {
    value, closed, i := "", false, start;
    PrefixTwice("", "", QuotedField(line[start..]));
    while i < |line|
      invariant start <= i <= |line|
      invariant QuotedField(line[start..]) == Prefix(value, QuotedField(line[i..]))
    {
      ghost var rest := line[i..];
      if line[i] == '\\' && i + 1 < |line| && line[i + 1] == '"' {
        PrefixTwice(value, "\"", QuotedField(line[i + 2..]));
        assert rest[2..] == line[i + 2..];
        value := value + "\"";
        i := i + 2;
      } else if line[i] == '"' {
        assert rest[1..] == line[i + 1..];
        i := i + 1;
        closed := true;
        assert value + "" == value;
        return;
      } else {
        PrefixTwice(value, [line[i]], QuotedField(line[i + 1..]));
        assert rest[1..] == line[i + 1..];
        value := value + [line[i]];
        i := i + 1;
      }
    }
  }

  // ---------------------------------------------------------------- quoting

  /** Characters refused inside a quoted field. */
  predicate IsControl(c: char) { c as int < 32 || c as int == 127 }

  /** A backslash must be followed by something other than a quote or a backslash. */
  predicate Unambiguous(value: string) {
    if |value| == 0 then true
    else (value[0] == '\\' ==> |value| > 1 && value[1] != '"' && value[1] != '\\') && Unambiguous(value[1..])
  }

  predicate Quotable(value: string) { (forall c :: c in value ==> !IsControl(c)) && Unambiguous(value) }

  function Escaped(value: string): string {
    if |value| == 0 then "" else (if value[0] == '"' then "\\\"" else [value[0]]) + Escaped(value[1..])
  }

  function QuoteText(value: string): string { "\"" + Escaped(value) + "\"" }

  /** Reading a quoted field back gives the value that was quoted. */
  lemma {:induction false} QuoteRoundTrip(value: string, rest: string)
    requires Unambiguous(value)
    ensures QuotedField(Escaped(value) + "\"" + rest) == Some((value, rest))
  {
    var s := Escaped(value) + "\"" + rest;
    if |value| == 0 {
      assert s[1..] == rest;
    } else {
      QuoteRoundTrip(value[1..], rest);
      var tail := Escaped(value[1..]) + "\"" + rest;
      assert value == [value[0]] + value[1..];
      if value[0] == '"' {
        assert s[2..] == tail;
      } else {
        assert s[1..] == tail;
        if value[0] == '\\' { assert s[1] == value[1]; }
      }
    }
  }

  // ---------------------------------------------------------------- records

  datatype ObjectRef = ObjectRef(dimension: string, id: string)

  /** A field of a printed record; an object list is printed between braces. */
  datatype Field = Word(text: string) | Quoted(text: string) | Objects(refs: seq<ObjectRef>)

  /** One object reference, followed by a separator when another follows. */
  function RefText(r: ObjectRef, more: bool): string
  {
    r.dimension + (" " + (QuoteText(r.id) + (if more then " " else "")))
  }

  function RefsText(refs: seq<ObjectRef>): string {
    if |refs| == 0 then ""
    else RefText(refs[0], |refs| > 1) + RefsText(refs[1..])
  }

  function FieldText(f: Field): string {
    match f
    case Word(text) => text
    case Quoted(text) => QuoteText(text)
    case Objects(refs) => "{" + RefsText(refs) + "}"
  }

  function FieldsText(fields: seq<Field>): string {
    if |fields| == 0 then "" else " " + FieldText(fields[0]) + FieldsText(fields[1..])
  }

  /** A record line: its tag and its fields, one space between them. */
  function Line(tag: string, fields: seq<Field>): string { tag + FieldsText(fields) }

  function RefTokens(refs: seq<ObjectRef>): seq<string> {
    if |refs| == 0 then [] else [refs[0].dimension, refs[0].id] + RefTokens(refs[1..])
  }

  function FieldTokens(f: Field): seq<string> {
    match f
    case Word(text) => [text]
    case Quoted(text) => [text]
    case Objects(refs) => ["{"] + RefTokens(refs) + ["}"]
  }

  function FieldsTokens(fields: seq<Field>): seq<string> {
    if |fields| == 0 then [] else FieldTokens(fields[0]) + FieldsTokens(fields[1..])
  }

  /** Text that reads back as one word. */
  predicate IsWord(s: string) { s != "" && s[0] != '"' && forall c :: c in s ==> !IsBreak(c) && !IsControl(c) }

  predicate GoodField(f: Field) {
    match f
    case Word(text) => IsWord(text)
    case Quoted(text) => Quotable(text)
    case Objects(refs) => forall r :: r in refs ==> IsWord(r.dimension) && Quotable(r.id)
  }

  predicate GoodFields(fields: seq<Field>) { forall f :: f in fields ==> GoodField(f) }

  /** Text that may follow a field: nothing, or something starting with white space or a brace. */
  predicate Ends(rest: string) { rest == "" || IsBreak(rest[0]) }

  lemma {:induction false} WordSplit(word: string, rest: string)
    requires Ends(rest) && forall c :: c in word ==> !IsBreak(c)
    ensures WordLength(word + rest) == |word|
  {
    if |word| > 0 {
      assert (word + rest)[1..] == word[1..] + rest;
      WordSplit(word[1..], rest);
    } else {
      assert word + rest == rest;
    }
  }

  lemma TokenizeWord(word: string, rest: string)
    requires IsWord(word) && Ends(rest)
    ensures Tokenize(word + rest) == Before([word], Tokenize(rest))
  {
    WordSplit(word, rest);
    assert word[0] in word && (word + rest)[0] == word[0];
    assert (word + rest)[..|word|] == word && (word + rest)[|word|..] == rest;
  }

  lemma TokenizeQuoted(value: string, rest: string)
    requires Quotable(value) && Ends(rest)
    ensures Tokenize(QuoteText(value) + rest) == Before([value], Tokenize(rest))
  {
    QuoteRoundTrip(value, rest);
    var s := QuoteText(value) + rest;
    assert s[1..] == Escaped(value) + "\"" + rest;
    assert WellClosed(Some((value, rest)));
  }

  lemma TokenizeMark(c: char, rest: string)
    requires IsSpace(c) || IsBrace(c)
    ensures Tokenize([c] + rest) == if IsSpace(c) then Tokenize(rest) else Before([[c]], Tokenize(rest))
  {
    assert ([c] + rest)[1..] == rest;
  }

  lemma RefsOpened(refs: seq<ObjectRef>, rest: string)
    requires |refs| > 0
    ensures |refs| == 1 ==> RefsText(refs[1..]) + rest == rest
    ensures RefsText(refs) + rest == RefText(refs[0], |refs| > 1) + (RefsText(refs[1..]) + rest)
    ensures RefTokens(refs) == [refs[0].dimension, refs[0].id] + RefTokens(refs[1..])
  {
    hide RefText;
  }

  lemma {:induction false} TokenizeRefs(refs: seq<ObjectRef>, rest: string)
    requires Ends(rest) && forall r :: r in refs ==> IsWord(r.dimension) && Quotable(r.id)
    ensures Tokenize(RefsText(refs) + rest) == Before(RefTokens(refs), Tokenize(rest))
  {
    hide Tokenize, Before, IsWord, Quotable, RefText;
    if |refs| == 0 {
      assert RefsText(refs) + rest == rest;
      BeforeTwice([], [], Tokenize(rest));
    } else {
      RefsOpened(refs, rest);
      TokenizeRefs(refs[1..], rest);
      hide RefsText, RefTokens;
      TokenizeRef(refs[0], RefsText(refs[1..]) + rest, |refs| > 1);
      BeforeTwice([refs[0].dimension, refs[0].id], RefTokens(refs[1..]), Tokenize(rest));
    }
  }

  lemma Assoc4(a: string, b: string, c: string, d: string, e: string)
    ensures a + (b + (c + d)) + e == a + (b + (c + (d + e)))
  {
  }

  lemma TokenizeRef(r: ObjectRef, tail: string, more: bool)
    requires IsWord(r.dimension) && Quotable(r.id) && (more || Ends(tail))
    ensures Tokenize(RefText(r, more) + tail) == Before([r.dimension, r.id], Tokenize(tail))
  {
    var rest := (if more then " " else "") + tail;
    hide Tokenize, Before, IsWord, Quotable, QuoteText;
    if !more { assert rest == tail; } else { TokenizeMark(' ', tail); }
    TokenizeQuoted(r.id, rest);
    var quoted := QuoteText(r.id) + rest;
    TokenizeMark(' ', quoted);
    TokenizeWord(r.dimension, " " + quoted);
    Assoc4(r.dimension, " ", QuoteText(r.id), if more then " " else "", tail);
    BeforeTwice([r.dimension], [r.id], Tokenize(tail));
    assert [r.dimension] + [r.id] == [r.dimension, r.id];
  }

  lemma TokenizeObjects(refs: seq<ObjectRef>, rest: string)
    requires forall r :: r in refs ==> IsWord(r.dimension) && Quotable(r.id)
    ensures Tokenize("{" + RefsText(refs) + "}" + rest) == Before(["{"] + RefTokens(refs) + ["}"], Tokenize(rest))
  {
    hide Tokenize, Before, IsWord, Quotable, RefsText, RefTokens;
    TokenizeRefs(refs, "}" + rest);
    TokenizeMark('}', rest);
    TokenizeMark('{', RefsText(refs) + ("}" + rest));
    assert "{" + RefsText(refs) + "}" + rest == "{" + (RefsText(refs) + ("}" + rest));
    BeforeTwice(RefTokens(refs), ["}"], Tokenize(rest));
    BeforeTwice(["{"], RefTokens(refs) + ["}"], Tokenize(rest));
    assert ["{"] + (RefTokens(refs) + ["}"]) == ["{"] + RefTokens(refs) + ["}"];
  }

  lemma TokenizeField(f: Field, rest: string)
    requires GoodField(f) && Ends(rest)
    ensures Tokenize(FieldText(f) + rest) == Before(FieldTokens(f), Tokenize(rest))
  {
    hide Tokenize, Before, IsWord, Quotable, RefsText, RefTokens, QuoteText;
    match f
    case Word(text) => TokenizeWord(text, rest);
    case Quoted(text) => TokenizeQuoted(text, rest);
    case Objects(refs) => TokenizeObjects(refs, rest);
  }

  lemma {:induction false} TokenizeFields(fields: seq<Field>)
    requires GoodFields(fields)
    ensures Ends(FieldsText(fields)) && Tokenize(FieldsText(fields)) == Ok(FieldsTokens(fields))
  {
    if |fields| > 0 {
      var f, rest := fields[0], FieldsText(fields[1..]);
      TokenizeFields(fields[1..]);
      TokenizeField(f, rest);
      TokenizeMark(' ', FieldText(f) + rest);
      assert FieldsText(fields) == " " + (FieldText(f) + rest);
    }
  }

  /** The tokenizer undoes the printing of a record. */
  lemma TokenizeLine(tag: string, fields: seq<Field>)
    requires (IsWord(tag) || tag == "{" || tag == "}") && GoodFields(fields)
    ensures Tokenize(Line(tag, fields)) == Ok([tag] + FieldsTokens(fields))
  {
    TokenizeFields(fields);
    if IsWord(tag) { TokenizeWord(tag, FieldsText(fields)); } else { TokenizeMark(tag[0], FieldsText(fields)); }
  }
}
