/** The voucher requests, step by step on the stored tables; a failed request leaves them as they were. */
module JournalService {
  import opened Common
  import opened LedgerModel
  import opened SieLines
  import opened Journal
  import Calendar

  const MAX_ATTEMPTS := 3

  lemma {:induction false} LinesFail(inputs: seq<LineInput>, i: nat)
    requires i <= |inputs| && MapLines(inputs[..i]).Err?
    ensures MapLines(inputs) == MapLines(inputs[..i])
    decreases |inputs| - i
  {
    if i < |inputs| {
      assert inputs[..i + 1][..i] == inputs[..i];
      LinesFail(inputs, i + 1);
    } else {
      assert inputs[..i] == inputs;
    }
  }

  method BuildLines(inputs: seq<LineInput>) returns (r: Result<seq<Line>, Error>)
    ensures r == MapLines(inputs)
  {
    hide PrepareLine;
    var lines: seq<Line> := [];
    for i := 0 to |inputs|
      invariant MapLines(inputs[..i]) == Ok(lines)
    {
      assert inputs[..i + 1][..i] == inputs[..i];
      var x := PrepareLine(inputs[i]);
      if x.Err? {
        LinesFail(inputs, i + 1);
        return Err(x.error);
      }
      lines := lines + [x.value];
    }
    assert inputs[..|inputs|] == inputs;
    r := Ok(lines);
  }

  method Prepare(db: Store, env: Registers, day: int, series: nat, text: string, inputs: seq<LineInput>)
    returns (r: Result<Prepared, Error>)
    ensures r == PrepareDraft(db.State(), env, day, series, text, inputs)
  {
    hide AccountsUsable, AccountsEligible, CodesKnown, Resolve, MapLines;
    if Trim(text) == "" { return Err(BlankText); }
    var scope := Resolve(db.State(), day);
    if scope.Err? { return Err(scope.error); }
    if series >= |db.series| || db.series[series].year != scope.value.0 || !db.series[series].active {
      return Err(SeriesUnavailable);
    }
    if inputs == [] { return Err(NoLines); }
    var accounts := Map(inputs, AccountOfInput());
    if !AccountsUsable(db.State(), accounts) { return Err(AccountUnavailable); }
    if !AccountsEligible(db.State(), env, accounts) { return Err(NotEligible); }
    if exists i :: i in inputs && !CodesKnown(env, i) { return Err(CodeUnavailable); }
    var lines := BuildLines(inputs);
    if lines.Err? { return Err(lines.error); }
    r := Ok(Prepared(scope.value.0, scope.value.1, day, series, Trim(text), lines.value));
  }

  method Create(db: Store, env: Registers, date: Calendar.Date, series: nat, text: string, inputs: seq<LineInput>)
    returns (error: Option<Error>)
    modifies db
    ensures CreateDraft(old(db.State()), env, date, series, text, inputs)
            == if error.None? then Ok(db.State()) else Err(error.value)
    ensures error.Some? ==> db.State() == old(db.State())
  {
    hide PrepareDraft, RequireOpen;
    if Trim(text) == "" { return Some(BlankText); }
    var day := DayOf(date);
    if day.None? { return Some(InvalidDate); }
    var p := Prepare(db, env, day.value, series, text, inputs);
    if p.Err? { return Some(p.error); }
    var guard := CheckOpen(db, p.value.year, Some(p.value.period));
    if guard.Some? { return guard; }
    db.entries := db.entries
      + [Entry(p.value.year, p.value.period, p.value.series, p.value.day, p.value.text, false, 1, None, p.value.lines,
        None, Manual)];
    return None;
  }

  method CheckChange(db: Store, id: nat, c: DraftChange) returns (error: Option<Error>)
    ensures error == ChangeRefusal(db.State(), id, c)
  {
    hide RequireOpen, Resolve;
    if Empty(c) { return Some(NothingToUpdate); }
    if id >= |db.entries| { return Some(NotFound); }
    var before := db.entries[id];
    var target := TargetYear(db.State(), before, c);
    if target.Err? { return Some(target.error); }
    error := CheckOpen(db, before.year, None);
    if error.Some? { return; }
    error := CheckOpen(db, target.value, None);
    if error.Some? { return; }
    if before.posted { return Some(NotDraft); }
    if before.version != c.expected { return Some(VersionConflict); }
    error := CheckOpen(db, before.year, Some(before.period));
  }

  method Update(db: Store, env: Registers, id: nat, c: DraftChange) returns (error: Option<Error>)
    modifies db
    ensures UpdateDraft(old(db.State()), env, id, c) == if error.None? then Ok(db.State()) else Err(error.value)
    ensures error.Some? ==> db.State() == old(db.State())
  {
    hide PrepareDraft, RequireOpen, TargetYear;
    error := CheckChange(db, id, c);
    if error.Some? { return; }
    var before := db.entries[id];
    var day := if c.date.Some? && DayOf(c.date.value).Some? then DayOf(c.date.value).value else before.date;
    var p := Prepare(db, env, day, if c.series.Some? then c.series.value else before.series,
                     if c.text.Some? then c.text.value else before.text,
                     if c.lines.Some? then c.lines.value else Map(before.lines, InputOfLine()));
    if p.Err? { return Some(p.error); }
    error := CheckOpen(db, p.value.year, Some(p.value.period));
    if error.Some? { return; }
    var e := before.(version := before.version + 1);
    if c.lines.Some? { e := e.(lines := p.value.lines); }
    e := e.(year := p.value.year, period := p.value.period, series := p.value.series, date := p.value.day,
      text := p.value.text);
    db.entries := db.entries[id := e];
  }

  method Totals(lines: seq<Line>) returns (debit: int, credit: int)
    ensures debit == Debits(lines) && credit == Credits(lines)
  {
    debit, credit := 0, 0;
    for i := 0 to |lines|
      invariant debit == Debits(lines[..i]) && credit == Credits(lines[..i])
    {
      assert lines[..i + 1][..i] == lines[..i];
      debit, credit := debit + lines[i].debit, credit + lines[i].credit;
    }
    assert lines[..|lines|] == lines;
  }

  method CheckPost(db: Store, env: Option<Registers>, id: nat, expected: Option<int>) returns (error: Option<Error>)
    ensures error == PostRefusal(db.State(), env, id, expected)
  {
    hide RequireOpen, ReferenceError, Debits, Credits;
    if id >= |db.entries| { return Some(NotFound); }
    var e := db.entries[id];
    error := CheckOpen(db, e.year, Some(e.period));
    if error.Some? { return; }
    if e.posted { return Some(NotDraft); }
    if expected.Some? && expected.value != e.version { return Some(VersionConflict); }
    if !InCalendar(db.State(), e) { return Some(CalendarMismatch); }
    if !SeriesOpen(db.State(), e.series, e.year) { return Some(SeriesUnavailable); }
    if |e.lines| < 2 { return Some(TooFewLines); }
    var debit, credit := Totals(e.lines);
    if !(debit > 0) || debit != credit { return Some(NotBalanced); }
    if env.Some? {
      error := ReferenceError(db.State(), env.value, e);
      if error.Some? { return; }
    }
    if db.series[e.series].next + 1 > MAX_INT4 { return Some(CounterExhausted); }
    if db.series[e.series].next < 1 { return Some(SeriesUnavailable); }
    return None;
  }

  method FreezeLines(db: Store, env: Registers, lines: seq<Line>) returns (frozen: seq<Line>)
    ensures frozen == FrozenLines(db.State(), env, lines)
  {
    frozen := lines;
    for i := 0 to |lines|
      invariant |frozen| == |lines|
      invariant forall j :: 0 <= j < i ==> frozen[j] == Frozen(db.State(), env, lines[j])
      invariant forall j :: i <= j < |lines| ==> frozen[j] == lines[j]
    {
      frozen := frozen[i := Frozen(db.State(), env, lines[i])];
    }
    assert frozen == Map(lines, FreezeWith(db.State(), env));
  }

  /** Posting inside a transaction: checks, frozen VAT metadata, number allocation, status. */
  method PostInTransaction(db: Store, env: Option<Registers>, id: nat, expected: Option<int>)
    returns (error: Option<Error>)
    modifies db
    ensures Post(old(db.State()), env, id, expected) == if error.None? then Ok(db.State()) else Err(error.value)
    ensures error.Some? ==> db.State() == old(db.State())
  {
    error := CheckPost(db, env, id, expected);
    if error.Some? { return; }
    PostSucceeds(db.State(), env, id, expected);
    hide PostRefusal, FrozenLines;
    ghost var before := db.State();
    var e := db.entries[id];
    var lines := e.lines;
    if env.Some? { lines := FreezeLines(db, env.value, lines); }
    var s := db.series[e.series];
    var number := s.next;
    db.series := db.series[e.series := s.(next := s.next + 1)];
    db.entries := db.entries
      [id := e.(posted := true, version := e.version + 1, number := Some(number), lines := lines)];
    assert db.State() == WithEntry(Advanced(before, e.series), id, PostedEntry(before, env, e));
  }

  lemma PostSucceeds(l: Ledger, env: Option<Registers>, id: nat, expected: Option<int>)
    requires PostRefusal(l, env, id, expected).None?
    ensures id < |l.entries| && l.entries[id].series < |l.series|
    ensures Post(l, env, id, expected)
            == Ok(WithEntry(Advanced(l, l.entries[id].series), id, PostedEntry(l, env, l.entries[id])))
  {
    hide RequireOpen, ReferenceError, Postable, InCalendar;
  }

  /** A request is tried again after a serialization failure, which commits nothing; `failures` of them happen
      first. The failure of the last attempt is passed on. */
  method PostEntry(db: Store, env: Registers, id: nat, expected: int, failures: nat) returns (error: Option<Error>)
    modifies db
    ensures failures < MAX_ATTEMPTS ==>
      Post(old(db.State()), Some(env), id, Some(expected)) == if error.None? then Ok(db.State()) else Err(error.value)
    ensures failures >= MAX_ATTEMPTS ==> error == Some(SerializationFailure)
    ensures error.Some? ==> db.State() == old(db.State())
  {
    var attempt := 0;
    while true
      invariant 0 <= attempt < MAX_ATTEMPTS && attempt <= failures
      invariant db.State() == old(db.State())
      decreases MAX_ATTEMPTS - attempt
    {
      if attempt < failures {
        if attempt == MAX_ATTEMPTS - 1 { return Some(SerializationFailure); }
        attempt := attempt + 1;
        continue;
      }
      error := PostInTransaction(db, Some(env), id, Some(expected));
      return;
    }
  }

  method CheckReverse(db: Store, id: nat, date: Calendar.Date, series: nat, text: Option<string>)
    returns (error: Option<Error>)
    ensures error == ReverseRefusal(db.State(), id, date, series, text)
  {
    hide RequireOpen, Resolve, Corrected, SeriesOpen, Debits, Credits;
    var day := DayOf(date);
    if day.None? { return Some(InvalidDate); }
    var target := Resolve(db.State(), day.value);
    if target.Err? { return Some(target.error); }
    error := CheckOpen(db, target.value.0, Some(target.value.1));
    if error.Some? { return; }
    if id >= |db.entries| { return Some(NotFound); }
    var original := db.entries[id];
    if !original.posted { return Some(NotPosted); }
    if original.reverses.Some? { return Some(IsCorrection); }
    if Corrected(db.State(), id) { return Some(AlreadyCorrected); }
    if !SeriesOpen(db.State(), series, target.value.0) { return Some(SeriesUnavailable); }
    if text.Some? && Trim(text.value) == "" { return Some(BlankText); }
    if |original.lines| < 2 { return Some(TooFewLines); }
    var debit, credit := Totals(original.lines);
    if !(debit > 0) || debit != credit { return Some(NotBalanced); }
    return None;
  }

  method ReverseInTransaction(db: Store, id: nat, date: Calendar.Date, series: nat, text: Option<string>)
    returns (error: Option<Error>)
    modifies db
    ensures Reverse(old(db.State()), id, date, series, text) == if error.None? then Ok(db.State()) else Err(error.value)
    ensures error.Some? ==> db.State() == old(db.State())
  {
    error := CheckReverse(db, id, date, series, text);
    if error.Some? { return; }
    ReverseContinues(db.State(), id, date, series, text);
    hide ReverseRefusal, Post;
    var saved := db.entries;
    var day := DayOf(date).value;
    var created := Correction(db.State(), id, Resolve(db.State(), day).value, day, series, text);
    db.entries := db.entries + [created];
    error := PostInTransaction(db, None, |saved|, None);
    if error.Some? { db.entries := saved; }  // rollback
  }

  lemma ReverseContinues(l: Ledger, id: nat, date: Calendar.Date, series: nat, text: Option<string>)
    requires ReverseRefusal(l, id, date, series, text).None?
    ensures DayOf(date).Some? && Resolve(l, DayOf(date).value).Ok? && id < |l.entries|
    ensures var created := Correction(l, id, Resolve(l, DayOf(date).value).value, DayOf(date).value, series, text);
            Reverse(l, id, date, series, text) == Post(l.(entries := l.entries + [created]), None, |l.entries|, None)
  {
    hide RequireOpen, Postable, Corrected, SeriesOpen, Post;
  }

  method ReverseEntry(db: Store, id: nat, date: Calendar.Date, series: nat, text: Option<string>, failures: nat)
    returns (error: Option<Error>)
    modifies db
    ensures failures < MAX_ATTEMPTS ==>
      Reverse(old(db.State()), id, date, series, text) == if error.None? then Ok(db.State()) else Err(error.value)
    ensures failures >= MAX_ATTEMPTS ==> error == Some(SerializationFailure)
    ensures error.Some? ==> db.State() == old(db.State())
  {
    var attempt := 0;
    while true
      invariant 0 <= attempt < MAX_ATTEMPTS && attempt <= failures
      invariant db.State() == old(db.State())
      decreases MAX_ATTEMPTS - attempt
    {
      if attempt < failures {
        if attempt == MAX_ATTEMPTS - 1 { return Some(SerializationFailure); }
        attempt := attempt + 1;
        continue;
      }
      error := ReverseInTransaction(db, id, date, series, text);
      return;
    }
  }
}
