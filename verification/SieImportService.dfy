/** The SIE import, step by step on the stored tables; any failure rolls the whole import back. */
module SieImportService {
  import opened Common
  import opened LedgerModel
  import opened SieImport
  import AccountingData
  import SieParser
  import SieText

  method ActivateAccount(db: Store, reviewed: Ledger, r: Review, doc: SieParser.Document, number: string)
    modifies db
    ensures db.State() == old(db.State()).(accounts := Activate(reviewed, r, doc, old(db.accounts), number))
  {
    hide NeedsActivation;
    if NeedsActivation(reviewed, r, doc, number) {
      var existing := FindAccount(db.accounts, number);
      if existing.Some? { db.accounts := db.accounts[existing.value := db.accounts[existing.value].(active := true)]; }
    }
  }

  method ActivateAccounts(db: Store, r: Review, doc: SieParser.Document)
    modifies db
    ensures db.State() == old(db.State()).(accounts := ActivateAll(old(db.State()), r, doc, Numbers(doc)))
  {
    hide Activate, Numbers;
    var reviewed := db.State();
    var numbers := Numbers(doc);
    for i := 0 to |numbers|
      invariant db.State() == reviewed.(accounts := ActivateAll(reviewed, r, doc, numbers[..i]))
    {
      assert numbers[..i + 1][..i] == numbers[..i];
      ActivateAccount(db, reviewed, r, doc, numbers[i]);
    }
    assert numbers[..|numbers|] == numbers;
  }

  method CreateAccount(db: Store, reviewed: Ledger, r: Review, doc: SieParser.Document, a: SieParser.Account)
    modifies db
    ensures db.State() == old(db.State()).(accounts := AddAccount(reviewed, r, doc, old(db.accounts), a))
  {
    hide NeedsActivation, KindFor;
    if FindAccount(db.accounts, a.number).Some? { return; }
    if a.number in r.catalog {
      if !NeedsActivation(reviewed, r, doc, a.number) { return; }
      db.accounts := db.accounts
        + [Account(a.number, r.catalog[a.number].name, r.catalog[a.number].kind, true, true, None)];
    } else {
      db.accounts := db.accounts + [Account(a.number, a.name, KindFor(a.number, a.kind), true, false, None)];
    }
  }

  method CreateAccounts(db: Store, reviewed: Ledger, r: Review, doc: SieParser.Document)
    modifies db
    ensures db.State() == old(db.State()).(accounts := AddAccounts(reviewed, r, doc, old(db.accounts), doc.accounts))
  {
    hide AddAccount;
    ghost var l := db.State();
    for i := 0 to |doc.accounts|
      invariant db.State() == l.(accounts := AddAccounts(reviewed, r, doc, l.accounts, doc.accounts[..i]))
    {
      assert doc.accounts[..i + 1][..i] == doc.accounts[..i];
      CreateAccount(db, reviewed, r, doc, doc.accounts[i]);
    }
    assert doc.accounts[..|doc.accounts|] == doc.accounts;
  }

  lemma {:induction false} OpeningsFail(l: Ledger, openings: seq<SieParser.Opening>, i: nat)
    requires i <= |openings| && OpeningRows(l, openings[..i]).Err?
    ensures OpeningRows(l, openings) == OpeningRows(l, openings[..i])
    decreases |openings| - i
  {
    if i < |openings| {
      assert openings[..i + 1][..i] == openings[..i];
      hide OpeningRow;
      OpeningsFail(l, openings, i + 1);
    } else {
      assert openings[..i] == openings;
    }
  }

  method BuildOpening(db: Store, b: SieParser.Opening) returns (row: Result<seq<IbRow>, Error>)
    ensures row == OpeningRow(db.State(), b)
  {
    hide SieParser.CentsOf;
    var cents := SieParser.CentsOf(b.amount);
    if cents == 0 { return Ok([]); }
    var a := FindAccount(db.accounts, b.account);
    if a.None? { return Err(OpeningAccountMissing); }
    if !IsBalanceKind(db.accounts[a.value].kind) { return Err(ResultOpening); }
    row := Ok([IbRow(a.value, if cents > 0 then cents else 0, if cents < 0 then -cents else 0)]);
  }

  method BuildOpenings(db: Store, openings: seq<SieParser.Opening>) returns (rows: Result<seq<IbRow>, Error>)
    ensures rows == OpeningRows(db.State(), openings)
  {
    hide OpeningRow;
    var built: seq<IbRow> := [];
    for i := 0 to |openings|
      invariant OpeningRows(db.State(), openings[..i]) == Ok(built)
    {
      assert openings[..i + 1][..i] == openings[..i];
      var row := BuildOpening(db, openings[i]);
      if row.Err? { OpeningsFail(db.State(), openings, i + 1); return row; }
      built := built + row.value;
    }
    assert openings[..|openings|] == openings;
    rows := Ok(built);
  }

  /** On an error the caller rolls back. */
  method ImportOpenings(db: Store, year: nat, doc: SieParser.Document) returns (error: Option<Error>)
    requires year < |db.years|
    modifies db
    ensures WithOpenings(old(db.State()), year, doc) == if error.None? then Ok(db.State()) else Err(error.value)
  {
    hide AccountingData.ContextError, OpeningRows;
    if doc.openings != [] && (db.years[year].ib != [] || HasPosted(db.State(), year)) { return Some(OpeningNotEmpty); }
    var rows := BuildOpenings(db, doc.openings);
    if rows.Err? { return Some(rows.error); }
    if rows.value != [] {
      db.years := db.years[year := db.years[year].(ib := rows.value, stamp := db.years[year].stamp + 1)];
    }
    var opening, debit, credit;
    error, opening, debit, credit := AccountingData.ReadContext(db, year);
  }

  lemma {:induction false} LinesFail(l: Ledger, xs: seq<SieParser.Transaction>, i: nat)
    requires i <= |xs| && LinesOf(l, xs[..i]).Err?
    ensures LinesOf(l, xs) == LinesOf(l, xs[..i])
    decreases |xs| - i
  {
    if i < |xs| {
      assert xs[..i + 1][..i] == xs[..i];
      LinesFail(l, xs, i + 1);
    } else {
      assert xs[..i] == xs;
    }
  }

  method BuildLines(db: Store, xs: seq<SieParser.Transaction>) returns (lines: Result<seq<Line>, Error>)
    ensures lines == LinesOf(db.State(), xs)
  {
    hide LineOf;
    var built: seq<Line> := [];
    for i := 0 to |xs|
      invariant LinesOf(db.State(), xs[..i]) == Ok(built)
    {
      assert xs[..i + 1][..i] == xs[..i];
      var a := FindAccount(db.accounts, xs[i].account);
      if a.None? { LinesFail(db.State(), xs, i + 1); return Err(LineAccountMissing); }
      built := built + [LineOf(a.value, xs[i])];
    }
    assert xs[..|xs|] == xs;
    lines := Ok(built);
  }

  lemma {:induction false} DateErrorStays(l: Ledger, year: nat, xs: seq<SieParser.Transaction>, i: nat)
    requires year < |l.years| && i <= |xs| && LineDatesError(l, year, xs[..i]).Some?
    ensures LineDatesError(l, year, xs) == LineDatesError(l, year, xs[..i])
    decreases |xs| - i
  {
    if i < |xs| {
      assert xs[..i + 1][..i] == xs[..i];
      hide LineDateError;
      DateErrorStays(l, year, xs, i + 1);
    } else {
      assert xs[..i] == xs;
    }
  }

  method CheckLineDates(db: Store, year: nat, xs: seq<SieParser.Transaction>) returns (error: Option<Error>)
    requires year < |db.years|
    ensures error == LineDatesError(db.State(), year, xs)
  {
    hide IsoDay, RequireOpen;
    for i := 0 to |xs|
      invariant LineDatesError(db.State(), year, xs[..i]).None?
    {
      assert xs[..i + 1][..i] == xs[..i];
      error := CheckLineDate(db, year, xs[i]);
      if error.Some? { DateErrorStays(db.State(), year, xs, i + 1); return; }
    }
    assert xs[..|xs|] == xs;
    error := None;
  }

  method CheckLineDate(db: Store, year: nat, x: SieParser.Transaction) returns (error: Option<Error>)
    requires year < |db.years|
    ensures error == LineDateError(db.State(), year, x)
  {
    hide IsoDay, RequireOpen;
    if x.date.None? { return None; }
    var day := IsoDay(x.date.value);
    if day.None? { return Some(InvalidDate); }
    var p := FindPeriod(db.years[year].periods, day.value);
    if p.None? { return Some(NoPeriodForDate); }
    error := CheckOpen(db, year, p);
  }

  method HighestNumber(entries: seq<Entry>, s: nat) returns (n: int)
    ensures n == MaxNumber(entries, s)
  {
    n := 0;
    for i := 0 to |entries|
      invariant n == MaxNumber(entries[..i], s)
    {
      assert entries[..i + 1][..i] == entries[..i];
      if entries[i].series == s && entries[i].number.Some? && entries[i].number.value > n {
        n := entries[i].number.value;
      }
    }
    assert entries[..|entries|] == entries;
  }

  method RaiseSeries(db: Store, year: nat, code: string, number: int) returns (s: nat)
    modifies db
    ensures (db.State(), s) == WithSeriesFor(old(db.State()), year, code, number)
  {
    hide MaxNumber;
    var found := FindSeries(db.series, year, code);
    if found.Some? {
      s := found.value;
    } else {
      s := |db.series|;
      db.series := db.series + [Series(year, code, number + 1, true)];
    }
    var highest := HighestNumber(db.entries, s);
    var next := db.series[s].next;
    if number + 1 > next { next := number + 1; }
    if highest + 1 > next { next := highest + 1; }
    db.series := db.series[s := db.series[s].(next := next)];
  }

  method ImportVoucher(db: Store, year: nat, v: SieParser.Voucher) returns (error: Option<Error>)
    requires year < |db.years|
    modifies db
    ensures WithVoucher(old(db.State()), year, v) == if error.None? then Ok(db.State()) else Err(error.value)
  {
    hide IsoDay, RequireOpen, WithSeriesFor, LineDatesError, LinesOf;
    var day := IsoDay(v.date);
    if day.None? { return Some(InvalidDate); }
    var period := FindPeriod(db.years[year].periods, day.value);
    if period.None? { return Some(NoPeriodForDate); }
    error := CheckOpen(db, year, period);
    if error.Some? { return; }
    ghost var l := db.State();
    error := CheckLineDates(db, year, v.transactions);
    if error.Some? { return; }
    var lines := BuildLines(db, v.transactions);
    if lines.Err? { return Some(lines.error); }
    var s := RaiseSeries(db, year, v.series, SieText.Value(v.number));
    db.entries := db.entries + [ImportedEntry(year, period.value, s, day.value, v, lines.value)];
  }

  lemma {:induction false} VouchersFail(l: Ledger, year: nat, vs: seq<SieParser.Voucher>, i: nat)
    requires year < |l.years| && i <= |vs| && WithVouchers(l, year, vs[..i]).Err?
    ensures WithVouchers(l, year, vs) == WithVouchers(l, year, vs[..i])
    decreases |vs| - i
  {
    if i < |vs| {
      assert vs[..i + 1][..i] == vs[..i];
      hide WithVoucher;
      VouchersFail(l, year, vs, i + 1);
    } else {
      assert vs[..i] == vs;
    }
  }

  method ImportVouchers(db: Store, year: nat, vs: seq<SieParser.Voucher>) returns (error: Option<Error>)
    requires year < |db.years|
    modifies db
    ensures WithVouchers(old(db.State()), year, vs) == if error.None? then Ok(db.State()) else Err(error.value)
  {
    hide WithVoucher;
    ghost var l := db.State();
    for i := 0 to |vs|
      invariant WithVouchers(l, year, vs[..i]) == Ok(db.State())
    {
      assert vs[..i + 1][..i] == vs[..i];
      error := ImportVoucher(db, year, vs[i]);
      if error.Some? { VouchersFail(l, year, vs, i + 1); return; }
    }
    assert vs[..|vs|] == vs;
    error := None;
  }

  method CheckImport(db: Store, r: Review, year: nat, doc: SieParser.Document) returns (error: Option<Error>)
    ensures error == ImportRefusal(db.State(), r, year, doc)
  {
    hide MatchesYear, RequireOpen, HasConflict, NeedsActivation, Numbers;
    if doc.errors != [] { return Some(DocumentInvalid); }
    if doc.fiscalYear.None? { return Some(NoFiscalYear); }
    if year >= |db.years| || !MatchesYear(db.years[year], doc.fiscalYear.value) { return Some(NotFound); }
    error := CheckOpen(db, year, None);
    if error.Some? { return; }
    if HasConflict(db.State(), r, year, doc) { return Some(MappingConflict); }
    if !r.acknowledged && exists n :: n in Numbers(doc) && NeedsActivation(db.State(), r, doc, n) {
      return Some(ActivationUnconfirmed);
    }
    return None;
  }

  lemma ImportStarts(l: Ledger, r: Review, year: nat, doc: SieParser.Document)
    ensures ImportRefusal(l, r, year, doc).Some? ==>
            Import(l, r, year, doc) == Err(ImportRefusal(l, r, year, doc).value)
    ensures ImportRefusal(l, r, year, doc).None? ==> year < |l.years|
    ensures ImportRefusal(l, r, year, doc).None? ==>
      (var opened' := WithOpenings(WithAccounts(l, r, doc), year, doc);
       && (opened'.Err? ==> Import(l, r, year, doc) == opened')
       && (opened'.Ok? ==>
          year < |opened'.value.years| && Import(l, r, year, doc) == WithVouchers(opened'.value, year, doc.vouchers)))
  {
    hide ActivateAll, AddAccounts, WithOpenings, ImportRefusal, WithVouchers;
    RefusalNeedsYear(l, r, year, doc);
  }

  lemma RefusalNeedsYear(l: Ledger, r: Review, year: nat, doc: SieParser.Document)
    ensures ImportRefusal(l, r, year, doc).None? ==> year < |l.years|
  {
    hide HasConflict, MatchesYear, NeedsActivation;
  }

  method Rollback(db: Store, saved: Ledger)
    modifies db
    ensures db.State() == saved
  {
    db.years, db.accounts, db.series, db.entries, db.carries :=
      saved.years, saved.accounts, saved.series, saved.entries, saved.carries;
  }

  /** The writes of an import; on an error the caller rolls back. */
  method Write(db: Store, r: Review, year: nat, doc: SieParser.Document) returns (error: Option<Error>)
    requires year < |db.years|
    modifies db
    ensures var opened' := WithOpenings(WithAccounts(old(db.State()), r, doc), year, doc);
            if opened'.Err? then error == Some(opened'.error)
            else WithVouchers(opened'.value, year, doc.vouchers)
                 == if error.None? then Ok(db.State()) else Err(error.value)
  {
    hide WithOpenings, WithVouchers, ActivateAll, AddAccounts;
    var reviewed := db.State();
    ActivateAccounts(db, r, doc);
    CreateAccounts(db, reviewed, r, doc);
    assert db.State() == WithAccounts(reviewed, r, doc);
    error := ImportOpenings(db, year, doc);
    if error.None? { error := ImportVouchers(db, year, doc.vouchers); }
  }

  /** Everything happens in one transaction. */
  method ImportDocument(db: Store, r: Review, year: nat, doc: SieParser.Document) returns (error: Option<Error>)
    modifies db
    ensures Import(old(db.State()), r, year, doc) == if error.None? then Ok(db.State()) else Err(error.value)
    ensures error.Some? ==> db.State() == old(db.State())
  {
    ImportStarts(db.State(), r, year, doc);
    hide ImportRefusal, Import, WithOpenings, WithVouchers, WithAccounts;
    error := CheckImport(db, r, year, doc);
    if error.Some? { return; }
    var saved := db.State();
    error := Write(db, r, year, doc);
    if error.Some? { Rollback(db, saved); }
  }
}
