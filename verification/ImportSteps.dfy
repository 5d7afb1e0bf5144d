/** An SIE import keeps the ledger in order, whatever text is imported. */
module ImportSteps {
  import opened Common
  import opened LedgerModel
  import opened LedgerMachine
  import opened LedgerUpdates
  import opened LedgerSteps
  import opened SieImport
  import AccountingData
  import Calendar
  import Journal
  import SieParser
  import SieSound
  import SieText

  // ---------------------------------------------------------------- accounts

  lemma ActivateKeeps(l: Ledger, reviewed: Ledger, r: Review, doc: SieParser.Document, number: string)
    requires Inv(l)
    ensures Kept(l, Ok(l.(accounts := Activate(reviewed, r, doc, l.accounts, number))))
  {
    var a := FindAccount(l.accounts, number);
    var accounts := Activate(reviewed, r, doc, l.accounts, number);
    assert AccountsOk(l.accounts);
    hide Inv, Grows, NeedsActivation, AccountUsed;
    if accounts == l.accounts {
      GrowsSame(l);
    } else {
      var x := l.accounts[a.value].(active := true);
      SetAccountKeeps(l, a.value, x);
      assert l.(accounts := accounts) == WithAccount(l, a.value, x);
    }
  }

  lemma {:induction false} ActivateAllKeeps(l: Ledger, r: Review, doc: SieParser.Document, numbers: seq<string>)
    requires Inv(l)
    ensures Kept(l, Ok(l.(accounts := ActivateAll(l, r, doc, numbers))))
  {
    hide Inv, Grows, Activate;
    if |numbers| == 0 {
      GrowsSame(l);
    } else {
      var m := l.(accounts := ActivateAll(l, r, doc, numbers[..|numbers| - 1]));
      ActivateAllKeeps(l, r, doc, numbers[..|numbers| - 1]);
      ActivateKeeps(m, l, r, doc, numbers[|numbers| - 1]);
      GrowsTwice(l, m, l.(accounts := ActivateAll(l, r, doc, numbers)));
    }
  }

  lemma AddKeeps(l: Ledger, reviewed: Ledger, r: Review, doc: SieParser.Document, a: SieParser.Account)
    requires Inv(l)
    ensures Kept(l, Ok(l.(accounts := AddAccount(reviewed, r, doc, l.accounts, a))))
  {
    hide Inv, Grows, NeedsActivation, KindFor;
    var accounts := AddAccount(reviewed, r, doc, l.accounts, a);
    if |accounts| == |l.accounts| {
      assert accounts == l.accounts;
      GrowsSame(l);
    } else {
      AddAccountKeeps(l, accounts[|l.accounts|]);
    }
  }

  lemma {:induction false} AddAllKeeps(l: Ledger, reviewed: Ledger, r: Review, doc: SieParser.Document,
        added: seq<SieParser.Account>)
    requires Inv(l)
    ensures Kept(l, Ok(l.(accounts := AddAccounts(reviewed, r, doc, l.accounts, added))))
  {
    hide Inv, Grows, AddAccount;
    if |added| == 0 {
      GrowsSame(l);
    } else {
      var m := l.(accounts := AddAccounts(reviewed, r, doc, l.accounts, added[..|added| - 1]));
      AddAllKeeps(l, reviewed, r, doc, added[..|added| - 1]);
      AddKeeps(m, reviewed, r, doc, added[|added| - 1]);
      GrowsTwice(l, m, l.(accounts := AddAccounts(reviewed, r, doc, l.accounts, added)));
    }
  }

  lemma AccountsKeep(l: Ledger, r: Review, doc: SieParser.Document)
    requires Inv(l)
    ensures Kept(l, Ok(WithAccounts(l, r, doc)))
  {
    hide Inv, Grows, ActivateAll, AddAccounts;
    var m := l.(accounts := ActivateAll(l, r, doc, Numbers(doc)));
    ActivateAllKeeps(l, r, doc, Numbers(doc));
    AddAllKeeps(m, l, r, doc, doc.accounts);
    GrowsTwice(l, m, WithAccounts(l, r, doc));
  }

  // ---------------------------------------------------------------- opening balances

  lemma ContextIsIbOk(l: Ledger, year: nat)
    requires AccountingData.ContextError(l, year).None?
    ensures year < |l.years| && IbOk(l, l.years[year].ib)
  {
  }

  lemma {:induction false} OpeningsKeep(l: Ledger, year: nat, doc: SieParser.Document)
    requires Inv(l) && year < |l.years| && !l.years[year].closed
    ensures Kept(l, WithOpenings(l, year, doc))
    ensures WithOpenings(l, year, doc).Ok? ==> (var m := WithOpenings(l, year, doc).value;
              m.entries == l.entries && m.series == l.series && m.accounts == l.accounts && year < |m.years|
                && !m.years[year].closed)
  {
    hide Inv, Grows, IbOk, OpeningRows, AccountingData.ContextError;
    if WithOpenings(l, year, doc).Ok? {
      var m := WithOpenings(l, year, doc).value;
      if m == l {
        GrowsSame(l);
      } else {
        ContextIsIbOk(m, year);
        SameIb(m, l, m.years[year].ib);
        WithIbKeeps(l, year, m.years[year].ib);
      }
    }
  }

  // ---------------------------------------------------------------- voucher lines

  lemma LineOfNet(a: nat, x: SieParser.Transaction)
    ensures var y := LineOf(a, x);
            && y.account == a && y.debit >= 0 && y.credit >= 0 && !(y.debit > 0 && y.credit > 0)
            && y.debit - y.credit == SieParser.CentsOf(x.amount)
            && (SieParser.CentsOf(x.amount) != 0 ==> y.debit + y.credit >= 1)
  {
    hide SieParser.CentsOf;
  }

  lemma {:induction false} LinesAmounts(l: Ledger, xs: seq<SieParser.Transaction>)
    requires LinesOf(l, xs).Ok?
    ensures var lines := LinesOf(l, xs).value;
            && |lines| == |xs| && (forall x :: x in lines ==> LineOk(|l.accounts|, x))
            && Debits(lines) - Credits(lines) == SumOf(xs, SieParser.LineCents())
            && Debits(lines) + Credits(lines) >= |Filter(xs, SieParser.NonZero())|
  {
    if |xs| > 0 {
      var front, x := xs[..|xs| - 1], xs[|xs| - 1];
      LinesAmounts(l, front);
      var a := FindAccount(l.accounts, x.account);
      LineOfNet(a.value, x);
      var lines := LinesOf(l, front).value;
      hide LineOf, SieParser.CentsOf;
      assert LinesOf(l, xs).value == lines + [LineOf(a.value, x)];
      SumSnoc(lines, LineOf(a.value, x), DebitOf());
      SumSnoc(lines, LineOf(a.value, x), CreditOf());
    }
  }

  lemma BalancedLines(l: Ledger, v: SieParser.Voucher)
    requires LinesOf(l, v.transactions).Ok? && SieParser.Balanced(v)
    ensures Journal.Postable(LinesOf(l, v.transactions).value)
    ensures forall x :: x in LinesOf(l, v.transactions).value ==> LineOk(|l.accounts|, x)
  {
    hide LinesOf, SumOf, LineOk, Filter;
    LinesAmounts(l, v.transactions);
    FilterSize(v.transactions, SieParser.NonZero());
  }

  lemma {:induction false} FilterSize<T(!new)>(s: seq<T>, p: T -> bool)
    ensures |Filter(s, p)| <= |s|
  {
    if |s| > 0 { FilterSize(s[..|s| - 1], p); }
  }

  // ---------------------------------------------------------------- one voucher

  /** Periods lie within their year. */
  lemma {:induction false} PeriodInYear(y: Year, p: nat)
    requires YearOk(y) && p < |y.periods|
    ensures y.first <= y.periods[p].first && y.periods[p].last <= y.last
  {
    PeriodsAfter(y, p);
    PeriodsBefore(y, p);
  }

  lemma {:induction false} PeriodsAfter(y: Year, p: nat)
    requires YearOk(y) && p < |y.periods|
    ensures y.first <= y.periods[p].first
  {
    if p > 0 { PeriodsAfter(y, p - 1); assert y.periods[p - 1].last + 1 == y.periods[p].first; }
  }

  lemma {:induction false} PeriodsBefore(y: Year, p: nat)
    requires YearOk(y) && p < |y.periods|
    ensures y.periods[p].last <= y.last
    decreases |y.periods| - p
  {
    if p < |y.periods| - 1 { PeriodsBefore(y, p + 1); assert y.periods[p].last + 1 == y.periods[p + 1].first; }
  }

  lemma RaisedKeeps(l: Ledger, s: nat, number: int)
    requires Inv(l) && s < |l.series|
    ensures Kept(l, Ok(Raised(l, s, number))) && Raised(l, s, number).series[s].next > number
  {
    assert SeriesOk(l);
    hide Inv, Grows, MaxNumber;
    SetSeriesKeeps(l, s,
      l.series[s].(next := Calendar.Max(l.series[s].next, Calendar.Max(number + 1, MaxNumber(l.entries, s) + 1))));
  }

  lemma SeriesForKeeps(l: Ledger, year: nat, code: string, number: int)
    requires Inv(l) && year < |l.years| && number >= 1
    ensures var (m, s) := WithSeriesFor(l, year, code, number);
            && Kept(l, Ok(m)) && m.years == l.years && m.accounts == l.accounts && m.entries == l.entries
               && m.carries == l.carries
            && m.series[s].year == year && m.series[s].code == code && m.series[s].next > number
            && (forall t :: 0 <= t < |l.series| ==>
               m.series[t].code == l.series[t].code && m.series[t].year == l.series[t].year)
  {
    hide Inv, Grows, MaxNumber;
    var found := FindSeries(l.series, year, code);
    if found.Some? {
      RaisedKeeps(l, found.value, number);
    } else {
      var m := l.(series := l.series + [Series(year, code, number + 1, true)]);
      AddSeriesKeeps(l, Series(year, code, number + 1, true));
      RaisedKeeps(m, |l.series|, number);
      GrowsTwice(l, m, Raised(m, |l.series|, number));
    }
  }

  /** A posted number of the series is a number of the code in the year. */
  lemma UsedIsOccupied(l: Ledger, m: Ledger, year: nat, s: nat, v: SieParser.Voucher, j: nat)
    requires Inv(l) && j < |l.entries| && l.entries[j].posted && l.entries[j].series == s
    requires l.entries[j].number == Some(SieText.Value(v.number))
    requires s < |m.series| && m.series[s].year == year && m.series[s].code == v.series && |l.series| <= |m.series|
    requires forall t :: 0 <= t < |l.series| ==>
             m.series[t].code == l.series[t].code && m.series[t].year == l.series[t].year
    ensures Occupied(l, year, v)
  {
    assert EntryOk(l, l.entries[j]);
    assert l.entries[j] in l.entries;
  }

  lemma ImportedFits(l: Ledger, m: Ledger, year: nat, v: SieParser.Voucher, e: Entry)
    requires Inv(l) && m.entries == l.entries && !Occupied(l, year, v) && |l.series| <= |m.series|
    requires e.posted && e.reverses.None? && e.number == Some(SieText.Value(v.number))
    requires e.series < |m.series| && m.series[e.series].year == year && m.series[e.series].code == v.series
    requires forall t :: 0 <= t < |l.series| ==>
             m.series[t].code == l.series[t].code && m.series[t].year == l.series[t].year
    ensures FitsIn(m.entries, |m.entries|, e)
  {
    hide Occupied;
    forall j | 0 <= j < |m.entries| ensures !SameNumber(m.entries[j], e) {
      if SameNumber(m.entries[j], e) { UsedIsOccupied(l, m, year, e.series, v, j); }
    }
  }

  lemma ImportedIsOk(m: Ledger, year: nat, s: nat, day: int, period: nat, v: SieParser.Voucher, lines: seq<Line>)
    requires Inv(m) && year < |m.years| && s < |m.series| && m.series[s].year == year
    requires period < |m.years[year].periods|
    requires Holds(m.years[year].periods[period].first, m.years[year].periods[period].last, day)
    requires 1 <= SieText.Value(v.number) < m.series[s].next
    requires Journal.Postable(lines) && forall x :: x in lines ==> LineOk(|m.accounts|, x)
    ensures EntryOk(m, ImportedEntry(year, period, s, day, v, lines))
  {
    hide Journal.Postable, LineOk;
    assert YearOk(m.years[year]);
    PeriodInYear(m.years[year], period);
  }

  lemma VoucherNumberPositive(s: string)
    requires SieParser.IsVoucherNumber(s)
    ensures SieText.Value(s) >= 1
  {
    FirstDigitCounts(s);
  }

  lemma {:induction false} FirstDigitCounts(s: string)
    requires s != "" && SieText.IsDigits(s) && s[0] != '0'
    ensures SieText.Value(s) >= 1
  {
    if |s| > 1 { FirstDigitCounts(s[..|s| - 1]); } else { assert s[..0] == "" && SieText.IsDigit(s[0]); }
  }

  /** What one imported voucher leaves alone and what it occupies. */
  ghost predicate Occupies(l: Ledger, m: Ledger, year: nat, v: SieParser.Voucher) {
    forall u: SieParser.Voucher :: Occupied(m, year, u) ==>
      Occupied(l, year, u) || (u.series == v.series && SieText.Value(u.number) == SieText.Value(v.number))
  }

  lemma AddedOccupies(l: Ledger, m: Ledger, year: nat, v: SieParser.Voucher, e: Entry)
    requires Inv(l) && |l.series| <= |m.series| && m.entries == l.entries + [e]
    requires e.number == Some(SieText.Value(v.number))
    requires e.series < |m.series| && m.series[e.series].code == v.series
    requires forall t :: 0 <= t < |l.series| ==> m.series[t].code == l.series[t].code
    ensures Occupies(l, m, year, v)
  {
    forall u: SieParser.Voucher | Occupied(m, year, u)
      ensures Occupied(l, year, u) || (u.series == v.series && SieText.Value(u.number) == SieText.Value(v.number))
    {
      var x :| x in m.entries && x.year == year && x.number == Some(SieText.Value(u.number)) && x.series < |m.series|
        && m.series[x.series].code == u.series;
      if x in l.entries {
        var i :| 0 <= i < |l.entries| && l.entries[i] == x;
        assert EntryOk(l, l.entries[i]);
      } else {
        assert x == e;
      }
    }
  }

  lemma {:induction false} VoucherAllowed(l: Ledger, year: nat, v: SieParser.Voucher)
    requires year < |l.years| && VoucherRefusal(l, year, v).None?
    ensures IsoDay(v.date).Some? && FindPeriod(l.years[year].periods, IsoDay(v.date).value).Some?
    ensures LinesOf(l, v.transactions).Ok?
  {
    hide IsoDay, RequireOpen, LineDatesError, LinesOf;
  }

  lemma {:induction false} VoucherKeeps(l: Ledger, year: nat, v: SieParser.Voucher)
    requires Inv(l) && year < |l.years| && !Occupied(l, year, v) && SieParser.Balanced(v)
    requires SieParser.IsVoucherNumber(v.number)
    ensures Kept(l, WithVoucher(l, year, v))
    ensures WithVoucher(l, year, v).Ok? ==> Occupies(l, WithVoucher(l, year, v).value, year, v)
  {
    hide Inv, Grows, VoucherRefusal, IsoDay, LinesOf, WithSeriesFor, Occupied, SieParser.Balanced,
         SieParser.IsVoucherNumber, FitsIn, Occupies, SieText.Value, EntryOk, Journal.Postable;
    if WithVoucher(l, year, v).Ok? {
      var number := SieText.Value(v.number);
      VoucherAllowed(l, year, v);
      VoucherNumberPositive(v.number);
      SeriesForKeeps(l, year, v.series, number);
      var (m, s) := WithSeriesFor(l, year, v.series, number);
      GrowsCounts(l, m);
      BalancedLines(l, v);
      var day := IsoDay(v.date).value;
      var period := FindPeriod(l.years[year].periods, day).value;
      var e := ImportedEntry(year, period, s, day, v, LinesOf(l, v.transactions).value);
      ImportedIsOk(m, year, s, day, period, v, LinesOf(l, v.transactions).value);
      ImportedFits(l, m, year, v, e);
      AddEntryKeeps(m, e);
      GrowsTwice(l, m, m.(entries := m.entries + [e]));
      AddedOccupies(l, m.(entries := m.entries + [e]), year, v, e);
    }
  }

  lemma GrowsCounts(l: Ledger, m: Ledger)
    requires Grows(l, m)
    ensures |l.series| <= |m.series| && |l.years| <= |m.years| && |l.entries| <= |m.entries|
  {
  }

  // ---------------------------------------------------------------- all vouchers

  /** Voucher numbers without leading zeros are their own digits. */
  lemma {:induction false} NumberIsItsDigits(s: string)
    requires s != "" && SieText.IsDigits(s) && s[0] != '0'
    ensures SieText.Digits(SieText.Value(s)) == s
  {
    assert SieText.IsDigit(s[|s| - 1]);
    if |s| > 1 {
      NumberIsItsDigits(s[..|s| - 1]);
      FirstDigitCounts(s[..|s| - 1]);
      assert s == s[..|s| - 1] + [s[|s| - 1]];
    } else {
      assert s[..0] == "" && s == [s[0]];
    }
  }

  ghost predicate Importable(l: Ledger, year: nat, vs: seq<SieParser.Voucher>) {
    && (forall v :: v in vs ==> SieParser.Balanced(v) && SieParser.IsVoucherNumber(v.number) && !Occupied(l, year, v))
    && (forall i, j :: 0 <= i < j < |vs| ==>
       vs[i].series != vs[j].series || SieText.Value(vs[i].number) != SieText.Value(vs[j].number))
  }

  /** Everything occupied after the first n vouchers was occupied before, or is one of them. */
  ghost predicate OccupiesOnly(l: Ledger, m: Ledger, year: nat, vs: seq<SieParser.Voucher>) {
    forall u: SieParser.Voucher :: Occupied(m, year, u) ==>
      Occupied(l, year, u)
        || exists v :: v in vs && u.series == v.series && SieText.Value(u.number) == SieText.Value(v.number)
  }

  lemma OccupiesStep(l: Ledger, m: Ledger, n: Ledger, year: nat, vs: seq<SieParser.Voucher>, v: SieParser.Voucher)
    requires OccupiesOnly(l, m, year, vs) && Occupies(m, n, year, v)
    ensures OccupiesOnly(l, n, year, vs + [v])
  {
    hide Occupied;
    forall u: SieParser.Voucher | Occupied(n, year, u)
      ensures Occupied(l, year, u)
              || exists w :: w in vs + [v] && u.series == w.series && SieText.Value(u.number) == SieText.Value(w.number)
    {
      assert v in vs + [v];
      if Occupied(m, year, u) && !Occupied(l, year, u) {
        var w :| w in vs && u.series == w.series && SieText.Value(u.number) == SieText.Value(w.number);
        assert w in vs + [v];
      }
    }
  }

  lemma NextIsFree(l: Ledger, m: Ledger, year: nat, vs: seq<SieParser.Voucher>, i: nat)
    requires Importable(l, year, vs) && i < |vs| && OccupiesOnly(l, m, year, vs[..i])
    ensures !Occupied(m, year, vs[i])
  {
    hide Occupied, SieParser.Balanced, SieParser.IsVoucherNumber;
    assert vs[i] in vs;
    assert forall v :: v in vs[..i] ==>
      vs[i].series != v.series || SieText.Value(vs[i].number) != SieText.Value(v.number);
  }

  lemma {:induction false} VouchersKeep(l: Ledger, year: nat, all: seq<SieParser.Voucher>, n: nat)
    requires Inv(l) && year < |l.years| && Importable(l, year, all) && n <= |all|
    ensures Kept(l, WithVouchers(l, year, all[..n]))
    ensures WithVouchers(l, year, all[..n]).Ok? ==>
            OccupiesOnly(l, WithVouchers(l, year, all[..n]).value, year, all[..n])
  {
    hide Inv, Grows, WithVoucher, Occupied, SieParser.Balanced, SieParser.IsVoucherNumber, OccupiesOnly, Occupies;
    if n == 0 {
      GrowsSame(l);
      NothingOccupied(l, year);
    } else {
      VouchersKeep(l, year, all, n - 1);
      assert all[..n][..n - 1] == all[..n - 1] && all[..n][n - 1] == all[n - 1];
      var front := WithVouchers(l, year, all[..n - 1]);
      if front.Ok? {
        var m := front.value;
        NextIsFree(l, m, year, all, n - 1);
        VoucherKeeps(m, year, all[n - 1]);
        var r := WithVoucher(m, year, all[n - 1]);
        if r.Ok? {
          GrowsTwice(l, m, r.value);
          OccupiesStep(l, m, r.value, year, all[..n - 1], all[n - 1]);
          assert all[..n] == all[..n - 1] + [all[n - 1]];
        }
      }
    }
  }

  lemma NothingOccupied(l: Ledger, year: nat)
    ensures OccupiesOnly(l, l, year, [])
  {
  }

  // ---------------------------------------------------------------- the whole import

  /** Vouchers of a document read without errors: balanced, properly numbered, no identity twice. */
  ghost predicate Identified(vs: seq<SieParser.Voucher>) {
    && (forall v :: v in vs ==> SieParser.Balanced(v) && SieParser.IsVoucherNumber(v.number))
    && (forall i, j :: 0 <= i < j < |vs| ==> vs[i].series != vs[j].series || vs[i].number != vs[j].number)
  }

  lemma SoundIsIdentified(d: SieParser.Document)
    requires SieSound.Sound(d)
    ensures Identified(d.vouchers)
  {
    hide SieParser.Balanced, SieParser.IsVoucherNumber, SieParser.Outside, SieSound.LinesFit, SieSound.GoodTransaction,
         SieSound.IsIsoDate, SieParser.IsIdentifier, SieSound.GoodAccounts, SieSound.GoodObjects, SieSound.GoodYears,
         SieSound.GoodOpenings, SieSound.GoodBalances, SieSound.DistinctOpenings, SieSound.DistinctBalances, SumOf,
         SieParser.OpeningOf, SieParser.AllLines;
    forall v | v in d.vouchers ensures SieParser.IsVoucherNumber(v.number) { assert SieSound.GoodVoucher(v); }
  }

  lemma NumbersDiffer(a: string, b: string)
    requires SieParser.IsVoucherNumber(a) && SieParser.IsVoucherNumber(b) && a != b
    ensures SieText.Value(a) != SieText.Value(b)
  {
    NumberIsItsDigits(a);
    NumberIsItsDigits(b);
  }

  lemma {:induction false} IdentifiedIsImportable(l: Ledger, year: nat, vs: seq<SieParser.Voucher>)
    requires Identified(vs) && forall v :: v in vs ==> !Occupied(l, year, v)
    ensures Importable(l, year, vs)
  {
    hide SieParser.Balanced, SieParser.IsVoucherNumber, Occupied, SieText.Value;
    forall i, j | 0 <= i < j < |vs|
      ensures vs[i].series != vs[j].series || SieText.Value(vs[i].number) != SieText.Value(vs[j].number)
    {
      assert vs[i] in vs && vs[j] in vs;
      if vs[i].series == vs[j].series { NumbersDiffer(vs[i].number, vs[j].number); }
    }
  }

  lemma NoConflictIsFree(l: Ledger, m: Ledger, r: Review, year: nat, doc: SieParser.Document)
    requires year < |l.years| && !HasConflict(l, r, year, doc) && m.entries == l.entries && m.series == l.series
    ensures forall v :: v in doc.vouchers ==> !Occupied(m, year, v)
  {
    hide RowConflict, NeedsActivation, Mentioned, VoucherUses, Numbers, KindMatches, HasPosted;
  }

  lemma {:induction false} SoundIsImportable(l: Ledger, m: Ledger, r: Review, year: nat, content: string)
    requires SieParser.Parse(content).errors == [] && year < |l.years|
    requires !HasConflict(l, r, year, SieParser.Parse(content))
    requires m.entries == l.entries && m.series == l.series
    ensures Importable(m, year, SieParser.Parse(content).vouchers)
  {
    hide SieParser.Parse, SieSound.Sound, HasConflict, Identified, Occupied, Importable;
    SieSound.Soundness(content);
    SoundIsIdentified(SieParser.Parse(content));
    NoConflictIsFree(l, m, r, year, SieParser.Parse(content));
    IdentifiedIsImportable(m, year, SieParser.Parse(content).vouchers);
  }

  lemma {:induction false} ImportAllowed(l: Ledger, r: Review, year: nat, doc: SieParser.Document)
    requires ImportRefusal(l, r, year, doc).None?
    ensures doc.errors == [] && year < |l.years| && !l.years[year].closed && !HasConflict(l, r, year, doc)
  {
    hide MatchesYear, HasConflict, NeedsActivation;
  }

  lemma AccountsOnly(l: Ledger, r: Review, doc: SieParser.Document)
    ensures var m := WithAccounts(l, r, doc); m.entries == l.entries && m.series == l.series && m.years == l.years
  {
    hide ActivateAll, AddAccounts;
  }

  lemma {:induction false} ImportKeeps(l: Ledger, r: Review, year: nat, content: string)
    requires Inv(l)
    ensures Kept(l, Import(l, r, year, SieParser.Parse(content)))
  {
    var doc := SieParser.Parse(content);
    hide Inv, Grows, ImportRefusal, WithAccounts, WithOpenings, WithVouchers, SieParser.Parse, HasConflict, Importable;
    if Import(l, r, year, doc).Ok? {
      ImportAllowed(l, r, year, doc);
      var m := WithAccounts(l, r, doc);
      AccountsKeep(l, r, doc);
      AccountsOnly(l, r, doc);
      OpeningsKeep(m, year, doc);
      var n := WithOpenings(m, year, doc).value;
      SoundIsImportable(l, n, r, year, content);
      VouchersKeep(n, year, doc.vouchers, |doc.vouchers|);
      assert doc.vouchers[..|doc.vouchers|] == doc.vouchers;
      GrowsTwice(l, m, n);
      GrowsTwice(l, n, Import(l, r, year, doc).value);
    }
  }
}
