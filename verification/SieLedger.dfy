/** Export of a fiscal year as SIE data, and what survives importing a document and exporting it again. */
module SieLedger {
  import opened Common
  import opened LedgerModel
  import opened LedgerMachine
  import opened SieImport
  import AccountingData
  import Calendar
  import ImportSteps
  import OpeningBalances
  import SieExport
  import SieParser
  import SieSound
  import SieText
  import SieTokens

  // ---------------------------------------------------------------- days as ISO text

  /** The month that contains day n, searched upwards from month k. */
  function MonthFrom(n: int, k: nat): nat
    requires Calendar.MonthStart(k) <= n
    decreases n - Calendar.MonthStart(k)
  {
    Calendar.MonthStartGrows(k, k + 1);
    if n < Calendar.MonthStart(k + 1) then k else MonthFrom(n, k + 1)
  }

  /** The last k decimal digits of n. */
  function Padded(n: nat, k: nat): (s: string)
    ensures |s| == k
  {
    if k == 0 then "" else Padded(n / 10, k - 1) + [SieText.DigitChar(n % 10)]
  }

  function IsoText(n: nat): string {
    var k := MonthFrom(n, 0);
    MonthFound(n, 0);
    Padded(k / 12, 4) + "-" + Padded(k % 12 + 1, 2) + "-" + Padded(n - Calendar.MonthStart(k) + 1, 2)
  }

  lemma {:induction false} MonthFound(n: int, k: nat)
    requires Calendar.MonthStart(k) <= n
    ensures Calendar.InMonth(n, MonthFrom(n, k))
    decreases n - Calendar.MonthStart(k)
  {
    Calendar.MonthStartGrows(k, k + 1);
    if n >= Calendar.MonthStart(k + 1) { MonthFound(n, k + 1); }
  }

  lemma {:induction false} PaddedValue(s: string)
    requires SieText.IsDigits(s)
    ensures Padded(SieText.Value(s), |s|) == s
  {
    if |s| > 0 {
      var n := |s| - 1;
      assert SieText.IsDigit(s[n]);
      PaddedValue(s[..n]);
      var d := SieText.DigitValue(s[n]);
      assert SieText.Value(s) == 10 * SieText.Value(s[..n]) + d && d < 10;
      assert SieText.Value(s) / 10 == SieText.Value(s[..n]) && SieText.Value(s) % 10 == d;
      assert SieText.DigitChar(d) == s[n];
      assert s == s[..n] + [s[n]];
    }
  }

  /** The text of the day of an ISO date is that date. */
  lemma {:induction false} IsoTextOfDay(s: string)
    requires IsoDay(s).Some?
    ensures IsoDay(s).value >= 0 && IsoText(IsoDay(s).value) == s
  {
    hide MonthFrom, Padded, IsoText, SieText.ParseDate, Calendar.MonthStart, Calendar.Valid, Calendar.DayNumber,
         SieText.Value, SieText.IsDigits;
    var digits := SieText.WithoutDashes(s);
    ParsedParts(digits, s);
    DayIsText(SieText.DateOf(digits));
    DigitParts(digits);
    PaddedValue(digits[..4]);
    PaddedValue(digits[4..6]);
    PaddedValue(digits[6..]);
  }

  /** The day number of a date is in its month. */
  lemma DayIsText(d: Calendar.Date)
    requires Calendar.Valid(d)
    ensures Calendar.DayNumber(d) >= 0
    ensures IsoText(Calendar.DayNumber(d)) == Padded(d.year, 4) + "-" + Padded(d.month, 2) + "-" + Padded(d.day, 2)
  {
    assert Calendar.MonthStart(0) == 0;
    hide MonthFrom, Padded, Calendar.MonthStart;
    var n := Calendar.DayNumber(d);
    Calendar.DayInItsMonth(d);
    MonthFound(n, 0);
    Calendar.MonthUnique(n, MonthFrom(n, 0), Calendar.MonthIndex(d));
    assert Calendar.MonthIndex(d) / 12 == d.year && Calendar.MonthIndex(d) % 12 + 1 == d.month;
  }

  lemma ParsedParts(digits: string, s: string)
    requires SieText.ParseDate(digits) == Some(s)
    ensures |digits| == 8 && SieText.IsDigits(digits) && Calendar.Valid(SieText.DateOf(digits))
    ensures s == SieText.Iso(digits)
  {
  }

  lemma DigitParts(digits: string)
    requires |digits| == 8 && SieText.IsDigits(digits)
    ensures SieText.IsDigits(digits[..4]) && SieText.IsDigits(digits[4..6]) && SieText.IsDigits(digits[6..])
  {
  }

  // ---------------------------------------------------------------- exported data

  function ObjectsOf(x: Line): seq<SieTokens.ObjectRef> {
    (if x.project.Some? then [SieTokens.ObjectRef("6", x.project.value)] else [])
    + (if x.centre.Some? then [SieTokens.ObjectRef("1", x.centre.value)] else [])
  }

  function NumberOf(l: Ledger, a: nat): string { if a < |l.accounts| then l.accounts[a].number else "" }

  function DayText(day: int): string { if day >= 0 then IsoText(day) else "" }

  /** A line without text is exported with the text of its voucher. */
  function ExportedLine(l: Ledger, e: Entry): Line -> SieParser.Transaction {
    (x: Line) =>
      SieParser.Transaction(NumberOf(l, x.account), SieText.CentsMoney(x.debit - x.credit),
                            if x.date.Some? then Some(DayText(x.date.value)) else None,
                            Some(if x.text.Some? then x.text.value else e.text), ObjectsOf(x))
  }

  function ExportedVoucher(l: Ledger): Entry -> SieParser.Voucher {
    (e: Entry) =>
      SieParser.Voucher(DayText(e.date),
                        if e.number.Some? && e.number.value >= 0 then SieText.Digits(e.number.value) else "0",
                        if e.series < |l.series| then l.series[e.series].code else "",
                        e.text, Map(e.lines, ExportedLine(l, e)))
  }

  function PostedOf(year: nat): Entry -> bool { (e: Entry) => e.posted && e.year == year }

  function ByDateNumber(): (Entry, Entry) -> int {
    (a: Entry, b: Entry) =>
      if a.date != b.date then a.date - b.date
      else (if a.number.Some? then a.number.value else 0) - (if b.number.Some? then b.number.value else 0)
  }

  function ExportedVouchers(l: Ledger, year: nat): seq<SieParser.Voucher> {
    Map(Sort(Filter(l.entries, PostedOf(year)), ByDateNumber()), ExportedVoucher(l))
  }

  function PostedLines(entries: seq<Entry>, year: nat): seq<Line> {
    if |entries| == 0 then []
    else
      var front, e := PostedLines(entries[..|entries| - 1], year), entries[|entries| - 1];
      if PostedOf(year)(e) then front + e.lines else front
  }

  function NetOn(a: nat): Line -> int { (x: Line) => if x.account == a then x.debit - x.credit else 0 }

  function ClosingOn(l: Ledger, year: nat, a: nat): int
    requires year < |l.years|
  {
    AccountingData.OpeningNet(l.years[year].ib, a) + SumOf(PostedLines(l.entries, year), NetOn(a))
  }

  function ExportedBalance(l: Ledger, year: nat): nat -> SieExport.ExportBalance
    requires year < |l.years|
  {
    (a: nat) => SieExport.ExportBalance(NumberOf(l, a),
      SieText.CentsMoney(AccountingData.OpeningNet(l.years[year].ib, a)), SieText.CentsMoney(ClosingOn(l, year, a)))
  }

  function TypeOfKind(k: Kind): SieParser.AccountType {
    match k
    case Asset => SieParser.Asset
    case Revenue => SieParser.Income
    case Expense => SieParser.Cost
    case _ => SieParser.Debt
  }

  function ExportedAccount(): Account -> SieParser.Account
  {
    (a: Account) => SieParser.Account(a.number, a.name, Some(TypeOfKind(a.kind)))
  }

  /** Organization and object names come from the registers. */
  datatype Names = Names(generated: string, name: string, number: Option<string>, objects: seq<SieParser.SieObject>)

  function ExportDataOf(l: Ledger, year: nat, names: Names): SieExport.ExportData
    requires year < |l.years|
  {
    SieExport.ExportData(names.generated, Map(l.accounts, ExportedAccount()),
                         Map(OpeningBalances.Upto(|l.accounts|), ExportedBalance(l, year)),
                         SieParser.Span(DayText(l.years[year].first), DayText(l.years[year].last)),
                         names.name, names.number, ExportedVouchers(l, year), names.objects)
  }

  // ---------------------------------------------------------------- the balance loops

  /** Opening and closing amounts gathered account by account. */
  ghost predicate Gathered(n: nat, opening: map<nat, int>, closing: map<nat, int>, rows: seq<IbRow>, lines: seq<Line>) {
    && (forall a: nat :: a in opening <==> a < n) && (forall a: nat :: a in closing <==> a < n)
    && (forall a: nat :: a < n ==> opening[a] == AccountingData.OpeningNet(rows, a))
    && (forall a: nat :: a < n ==> closing[a] == AccountingData.OpeningNet(rows, a) + SumOf(lines, NetOn(a)))
  }

  lemma GatheredRow(n: nat, opening: map<nat, int>, closing: map<nat, int>, rows: seq<IbRow>, r: IbRow)
    requires Gathered(n, opening, closing, rows, [])
    ensures r.account < n ==>
            Gathered(n, opening[r.account := opening[r.account] + (r.debit - r.credit)],
              closing[r.account := closing[r.account] + (r.debit - r.credit)], rows + [r], [])
    ensures r.account >= n ==> Gathered(n, opening, closing, rows + [r], [])
  {
    forall a: nat
      ensures AccountingData.OpeningNet(rows + [r], a)
              == AccountingData.OpeningNet(rows, a) + (if r.account == a then r.debit - r.credit else 0)
    {
      SumSnoc(rows, r, AccountingData.IbOn(a));
    }
    hide AccountingData.OpeningNet;
  }

  lemma GatheredLine(n: nat, opening: map<nat, int>, closing: map<nat, int>, rows: seq<IbRow>, lines: seq<Line>,
        x: Line)
    requires Gathered(n, opening, closing, rows, lines)
    ensures x.account < n ==>
            Gathered(n, opening, closing[x.account := closing[x.account] + (x.debit - x.credit)], rows, lines + [x])
    ensures x.account >= n ==> Gathered(n, opening, closing, rows, lines + [x])
  {
    forall a: nat
      ensures SumOf(lines + [x], NetOn(a))
              == SumOf(lines, NetOn(a)) + (if x.account == a then x.debit - x.credit else 0)
    {
      SumSnoc(lines, x, NetOn(a));
    }
    hide AccountingData.OpeningNet, SumOf;
  }

  method ZeroBalances(n: nat) returns (zero: map<nat, int>)
    ensures forall a: nat :: (a in zero <==> a < n) && (a in zero ==> zero[a] == 0)
  {
    zero := map[];
    for a := 0 to n
      invariant forall b: nat :: (b in zero <==> b < a) && (b in zero ==> zero[b] == 0)
    {
      zero := zero[a := 0];
    }
  }

  method GatherExport(db: Store, year: nat) returns (opening: map<nat, int>, closing: map<nat, int>)
    requires year < |db.years|
    ensures Gathered(|db.accounts|, opening, closing, db.years[year].ib, PostedLines(db.entries, year))
  {
    var n, rows := |db.accounts|, db.years[year].ib;
    opening := ZeroBalances(n);
    closing := opening;
    hide Gathered, PostedLines;
    assert Gathered(n, opening, closing, rows[..0], []) by { NothingGathered(n, opening, rows); }
    for i := 0 to |rows|
      invariant Gathered(n, opening, closing, rows[..i], [])
    {
      var r := rows[i];
      assert rows[..i + 1] == rows[..i] + [r];
      GatheredRow(n, opening, closing, rows[..i], r);
      GatheredKeys(n, opening, closing, rows[..i], []);
      if r.account in opening {
        opening := opening[r.account := opening[r.account] + (r.debit - r.credit)];
        closing := closing[r.account := closing[r.account] + (r.debit - r.credit)];
      }
    }
    assert rows[..|rows|] == rows;
    closing := AddEntries(db.entries, year, n, opening, closing, rows);
  }

  lemma NothingGathered(n: nat, zero: map<nat, int>, rows: seq<IbRow>)
    requires forall a: nat :: (a in zero <==> a < n) && (a in zero ==> zero[a] == 0)
    ensures Gathered(n, zero, zero, rows[..0], [])
  {
  }

  lemma GatheredKeys(n: nat, opening: map<nat, int>, closing: map<nat, int>, rows: seq<IbRow>, lines: seq<Line>)
    requires Gathered(n, opening, closing, rows, lines)
    ensures forall a: nat :: (a in opening <==> a < n) && (a in closing <==> a < n)
  {
  }

  method AddEntries(entries: seq<Entry>, year: nat, ghost n: nat, ghost opening: map<nat, int>, closing: map<nat, int>,
        ghost rows: seq<IbRow>)
    returns (closing': map<nat, int>)
    requires Gathered(n, opening, closing, rows, [])
    ensures Gathered(n, opening, closing', rows, PostedLines(entries, year))
  {
    hide Gathered;
    closing' := closing;
    for i := 0 to |entries|
      invariant Gathered(n, opening, closing', rows, PostedLines(entries[..i], year))
    {
      assert entries[..i + 1][..i] == entries[..i];
      if entries[i].posted && entries[i].year == year {
        closing' := AddLines(entries[i].lines, n, opening, closing', rows, PostedLines(entries[..i], year));
      }
    }
    assert entries[..|entries|] == entries;
  }

  method AddLines(xs: seq<Line>, ghost n: nat, ghost opening: map<nat, int>, closing: map<nat, int>,
        ghost rows: seq<IbRow>, ghost before: seq<Line>)
    returns (closing': map<nat, int>)
    requires Gathered(n, opening, closing, rows, before)
    ensures Gathered(n, opening, closing', rows, before + xs)
  {
    hide Gathered;
    closing' := closing;
    assert before + xs[..0] == before;
    for i := 0 to |xs|
      invariant Gathered(n, opening, closing', rows, before + xs[..i])
    {
      var x := xs[i];
      assert before + xs[..i + 1] == before + xs[..i] + [x];
      GatheredLine(n, opening, closing', rows, before + xs[..i], x);
      GatheredKeys(n, opening, closing', rows, before + xs[..i]);
      if x.account in closing' { closing' := closing'[x.account := closing'[x.account] + (x.debit - x.credit)]; }
    }
    assert xs[..|xs|] == xs;
  }

  /** The balances of the exported data, computed by the loops. */
  method ExportBalances(db: Store, year: nat) returns (balances: seq<SieExport.ExportBalance>)
    requires year < |db.years|
    ensures balances == Map(OpeningBalances.Upto(|db.accounts|), ExportedBalance(db.State(), year))
  {
    var opening, closing := GatherExport(db, year);
    hide AccountingData.OpeningNet, PostedLines, SumOf, SieText.CentsMoney;
    balances := [];
    for a := 0 to |db.accounts|
      invariant |balances| == a && forall b: nat :: b < a ==> balances[b] == ExportedBalance(db.State(), year)(b)
    {
      balances := balances
        + [SieExport.ExportBalance(db.accounts[a].number, SieText.CentsMoney(opening[a]),
          SieText.CentsMoney(closing[a]))];
    }
    assert balances == Map(OpeningBalances.Upto(|db.accounts|), ExportedBalance(db.State(), year));
  }

  // ---------------------------------------------------------------- import, then export

  /** What the round trip keeps of a line and of a voucher: everything but texts. */
  datatype Kept = Kept(account: string, cents: int, date: Option<string>, objects: set<SieTokens.ObjectRef>)

  datatype KeptVoucher = KeptVoucher(series: string, number: string, date: string, lines: seq<Kept>)

  function KeptLine(): SieParser.Transaction -> Kept {
    (x: SieParser.Transaction) => Kept(x.account, SieParser.CentsOf(x.amount), x.date, set o | o in x.objects)
  }

  function KeptOf(): SieParser.Voucher -> KeptVoucher {
    (v: SieParser.Voucher) => KeptVoucher(v.series, v.number, v.date, Map(v.transactions, KeptLine()))
  }

  /** An entry made from a voucher of the document. */
  predicate MadeFrom(l: Ledger, year: nat, e: Entry, v: SieParser.Voucher) {
    && e.posted && e.year == year && e.number == Some(SieText.Value(v.number)) && IsoDay(v.date) == Some(e.date)
    && LinesOf(l, v.transactions) == Ok(e.lines)
    && e.series < |l.series| && l.series[e.series].code == v.series
    && e.text == (if v.text == "" then "SIE-import" else v.text)
    && e.source == Imported && e.version == 2 && e.reverses.None?
  }

  /** The entries after position n are the imported vouchers, in document order. */
  ghost predicate Appended(l: Ledger, n: nat, year: nat, vs: seq<SieParser.Voucher>) {
    |l.entries| == n + |vs| && forall k :: 0 <= k < |vs| ==> MadeFrom(l, year, l.entries[n + k], vs[k])
  }

  predicate SameCodes(l: Ledger, m: Ledger) {
    |l.series| <= |m.series| && forall s :: 0 <= s < |l.series| ==> m.series[s].code == l.series[s].code
  }

  lemma {:induction false} SameLinesOf(l: Ledger, m: Ledger, xs: seq<SieParser.Transaction>)
    requires m.accounts == l.accounts
    ensures LinesOf(m, xs) == LinesOf(l, xs)
  {
    if |xs| > 0 { SameLinesOf(l, m, xs[..|xs| - 1]); }
  }

  lemma {:induction false} MadeStays(l: Ledger, m: Ledger, year: nat, e: Entry, v: SieParser.Voucher)
    requires MadeFrom(l, year, e, v) && SameCodes(l, m) && m.accounts == l.accounts
    ensures MadeFrom(m, year, e, v)
  {
    SameLinesOf(l, m, v.transactions);
    hide LinesOf, IsoDay;
  }

  lemma SeriesOnly(l: Ledger, year: nat, code: string, number: int)
    ensures var (m, s) := WithSeriesFor(l, year, code, number);
            SameCodes(l, m) && m.accounts == l.accounts && m.entries == l.entries && m.series[s].code == code
  {
    hide MaxNumber;
  }

  lemma {:induction false} VoucherAppends(l: Ledger, n: nat, year: nat, before: seq<SieParser.Voucher>,
        v: SieParser.Voucher)
    requires year < |l.years| && Appended(l, n, year, before) && WithVoucher(l, year, v).Ok?
    ensures Appended(WithVoucher(l, year, v).value, n, year, before + [v])
    ensures SameCodes(l, WithVoucher(l, year, v).value)
    ensures WithVoucher(l, year, v).value.entries[..|l.entries|] == l.entries
  {
    hide VoucherRefusal, WithSeriesFor, LinesOf, MadeFrom, IsoDay;
    ImportSteps.VoucherAllowed(l, year, v);
    SeriesOnly(l, year, v.series, SieText.Value(v.number));
    var m := WithVoucher(l, year, v).value;
    forall k | 0 <= k < |before| ensures MadeFrom(m, year, m.entries[n + k], (before + [v])[k]) {
      MadeStays(l, m, year, l.entries[n + k], before[k]);
    }
    LastMade(l, m, year, v);
  }

  lemma {:induction false} LastMade(l: Ledger, m: Ledger, year: nat, v: SieParser.Voucher)
    requires year < |l.years| && WithVoucher(l, year, v) == Ok(m)
    ensures |m.entries| > 0 && MadeFrom(m, year, m.entries[|m.entries| - 1], v)
  {
    hide VoucherRefusal, WithSeriesFor, LinesOf, IsoDay;
    ImportSteps.VoucherAllowed(l, year, v);
    SeriesOnly(l, year, v.series, SieText.Value(v.number));
    SameLinesOf(l, m, v.transactions);
  }

  lemma CodesTwice(l: Ledger, m: Ledger, n: Ledger)
    requires SameCodes(l, m) && SameCodes(m, n)
    ensures SameCodes(l, n)
  {
  }

  lemma {:induction false} VouchersAppend(l: Ledger, year: nat, vs: seq<SieParser.Voucher>)
    requires year < |l.years| && WithVouchers(l, year, vs).Ok?
    ensures var m := WithVouchers(l, year, vs).value;
            Appended(m, |l.entries|, year, vs) && SameCodes(l, m) && |m.entries| >= |l.entries|
              && m.entries[..|l.entries|] == l.entries
  {
    hide WithVoucher, MadeFrom;
    if |vs| == 0 {
      assert l.entries[..|l.entries|] == l.entries;
    } else {
      var front := vs[..|vs| - 1];
      VouchersAppend(l, year, front);
      var m := WithVouchers(l, year, front).value;
      VoucherAppends(m, |l.entries|, year, front, vs[|vs| - 1]);
      assert vs == front + [vs[|vs| - 1]];
      var n := WithVouchers(l, year, vs).value;
      CodesTwice(l, m, n);
      assert n.entries[..|l.entries|] == n.entries[..|m.entries|][..|l.entries|];
    }
  }

  // ---------------------------------------------------------------- one imported voucher exported again

  lemma {:induction false} ObjectFound(objects: seq<SieTokens.ObjectRef>, dimension: string)
    ensures ObjectIn(objects, dimension).Some? <==> exists o :: o in objects && o.dimension == dimension
    ensures ObjectIn(objects, dimension).Some? ==>
            SieTokens.ObjectRef(dimension, ObjectIn(objects, dimension).value) in objects
  {
    if |objects| > 0 { ObjectFound(objects[1..], dimension); }
  }

  lemma ObjectsKept(a: nat, x: SieParser.Transaction)
    requires SieSound.GoodRefs(x.objects)
    ensures (set o | o in ObjectsOf(LineOf(a, x))) == (set o | o in x.objects)
  {
    ObjectFound(x.objects, "6");
    ObjectFound(x.objects, "1");
    hide ObjectIn, SieParser.CentsOf, IsoDay;
    var exported := ObjectsOf(LineOf(a, x));
    forall o ensures o in exported <==> o in x.objects {
      if o in x.objects {
        assert SieParser.IsDimension(o.dimension);
        SameObject(x.objects, o, ObjectIn(x.objects, o.dimension).value);
      }
    }
  }

  lemma SameObject(objects: seq<SieTokens.ObjectRef>, o: SieTokens.ObjectRef, id: string)
    requires SieSound.GoodRefs(objects) && o in objects && SieTokens.ObjectRef(o.dimension, id) in objects
    ensures o.id == id
  {
    var i :| 0 <= i < |objects| && objects[i] == o;
    var j :| 0 <= j < |objects| && objects[j] == SieTokens.ObjectRef(o.dimension, id);
    OnePosition(objects, i, j);
  }

  lemma OnePosition(objects: seq<SieTokens.ObjectRef>, i: nat, j: nat)
    requires SieSound.GoodRefs(objects) && i < |objects| && j < |objects|
    requires objects[i].dimension == objects[j].dimension
    ensures i == j
  {
  }

  lemma LineKept(l: Ledger, e: Entry, a: nat, x: SieParser.Transaction)
    requires SieSound.GoodTransaction(x) && a < |l.accounts| && l.accounts[a].number == x.account
    requires x.date.Some? ==> IsoDay(x.date.value).Some?
    ensures KeptLine()(ExportedLine(l, e)(LineOf(a, x))) == KeptLine()(x)
  {
    hide IsoDay, DayText, SieParser.CentsOf, SieText.CentsMoney, SieSound.IsAmount, SieSound.GoodRefs,
         SieSound.IsIsoDate, ObjectIn, ObjectsOf, LineOf;
    CentsKept(a, x);
    DateKept(a, x);
    ObjectsKept(a, x);
    assert LineOf(a, x).account == a by { LineAccount(a, x); }
  }

  lemma LineAccount(a: nat, x: SieParser.Transaction)
    ensures LineOf(a, x).account == a
  {
  }

  lemma CentsKept(a: nat, x: SieParser.Transaction)
    requires SieSound.IsAmount(x.amount)
    ensures SieParser.CentsOf(SieText.CentsMoney(LineOf(a, x).debit - LineOf(a, x).credit))
            == SieParser.CentsOf(x.amount)
  {
    hide SieSound.IsAmount, SieText.CentsMoney, SieParser.CentsOf, LineOf;
    ImportSteps.LineOfNet(a, x);
    AmountReadsBack(x.amount);
  }

  lemma {:induction false} DateKept(a: nat, x: SieParser.Transaction)
    requires x.date.Some? ==> IsoDay(x.date.value).Some?
    ensures (if LineOf(a, x).date.Some? then Some(DayText(LineOf(a, x).date.value)) else None) == x.date
  {
    hide IsoDay, IsoText, ObjectIn, SieParser.CentsOf;
    if x.date.Some? { IsoTextOfDay(x.date.value); }
  }

  lemma AmountReadsBack(amount: string)
    requires SieSound.IsAmount(amount)
    ensures SieParser.CentsOf(SieText.CentsMoney(SieParser.CentsOf(amount))) == SieParser.CentsOf(amount)
  {
    SieText.MoneyIsBounded(amount);
    hide SieText.MoneyCents, SieText.CentsMoney, SieText.Pow10;
  }

  lemma {:induction false} LinesKept(l: Ledger, e: Entry, xs: seq<SieParser.Transaction>, lines: seq<Line>)
    requires LinesOf(l, xs) == Ok(lines)
    requires forall x :: x in xs ==> SieSound.GoodTransaction(x) && (x.date.Some? ==> IsoDay(x.date.value).Some?)
    ensures Map(Map(lines, ExportedLine(l, e)), KeptLine()) == Map(xs, KeptLine())
  {
    hide IsoDay, SieSound.GoodTransaction, KeptLine, ExportedLine, LineOf;
    if |xs| > 0 {
      var n := |xs| - 1;
      var front := LinesOf(l, xs[..n]).value;
      var a := FindAccount(l.accounts, xs[n].account).value;
      assert lines == front + [LineOf(a, xs[n])];
      hide LinesOf, Map;
      LinesKept(l, e, xs[..n], front);
      LineKept(l, e, a, xs[n]);
      MapSnoc(front, LineOf(a, xs[n]), ExportedLine(l, e));
      MapSnoc(Map(front, ExportedLine(l, e)), ExportedLine(l, e)(LineOf(a, xs[n])), KeptLine());
      MapSnoc(xs[..n], xs[n], KeptLine());
      assert xs == xs[..n] + [xs[n]];
    }
  }

  lemma IsoDayOfIso(s: string)
    requires SieSound.IsIsoDate(s)
    ensures IsoDay(s).Some?
  {
    var digits :| SieText.ParseDate(digits) == Some(s);
    SieText.IsoRoundTrip(digits);
    hide SieText.ParseDate, SieText.WithoutDashes;
  }

  lemma {:induction false} VoucherKept(l: Ledger, year: nat, e: Entry, v: SieParser.Voucher)
    requires MadeFrom(l, year, e, v) && SieSound.GoodVoucher(v)
    ensures KeptOf()(ExportedVoucher(l)(e)) == KeptOf()(v)
    ensures ExportedVoucher(l)(e).text == if v.text == "" then "SIE-import" else v.text
  {
    hide LinesOf, IsoDay, IsoText, SieSound.GoodTransaction, KeptLine, ExportedLine, SieText.Digits, SieText.Value;
    IsoTextOfDay(v.date);
    NumberKept(v.number);
    forall x | x in v.transactions
      ensures SieSound.GoodTransaction(x) && (x.date.Some? ==> IsoDay(x.date.value).Some?)
    {
      LineDate(x);
    }
    LinesKept(l, e, v.transactions, e.lines);
  }

  /** Texts are the exception: the text of a voucher comes back exactly when it was not empty. */
  lemma {:induction false} VoucherTextKeptIff(l: Ledger, year: nat, e: Entry, v: SieParser.Voucher)
    requires MadeFrom(l, year, e, v) && SieSound.GoodVoucher(v)
    ensures ExportedVoucher(l)(e).text == v.text <==> v.text != ""
  {
    hide LinesOf, IsoDay, SieSound.GoodVoucher, KeptOf, Map;
  }

  /** The text of a line comes back exactly when it was given; otherwise the text of the voucher stands in. */
  lemma LineTextKeptIff(l: Ledger, e: Entry, a: nat, x: SieParser.Transaction)
    ensures ExportedLine(l, e)(LineOf(a, x)).text == x.text <==> x.text.Some?
    ensures x.text.None? ==> ExportedLine(l, e)(LineOf(a, x)).text == Some(e.text)
  {
    hide IsoDay, SieParser.CentsOf, SieText.CentsMoney, ObjectsOf;
  }

  lemma LineDate(x: SieParser.Transaction)
    requires SieSound.GoodTransaction(x)
    ensures x.date.Some? ==> IsoDay(x.date.value).Some?
  {
    hide IsoDay, SieSound.IsIsoDate;
    if x.date.Some? { IsoDayOfIso(x.date.value); }
  }

  lemma NumberKept(s: string)
    requires SieParser.IsVoucherNumber(s)
    ensures SieText.Digits(SieText.Value(s)) == s
  {
    ImportSteps.NumberIsItsDigits(s);
  }

  // ---------------------------------------------------------------- the whole year

  predicate EmptyYear(l: Ledger, year: nat)
  {
    year < |l.years| && l.years[year].ib == [] && forall e :: e in l.entries ==> e.year != year
  }

  lemma {:induction false} AllChosen<T(!new)>(s: seq<T>, p: T -> bool)
    requires forall x :: x in s ==> p(x)
    ensures Filter(s, p) == s
  {
    if |s| > 0 {
      AllChosen(s[..|s| - 1], p);
      assert s[|s| - 1] in s;
    }
  }

  lemma {:induction false} NoneChosen<T(!new)>(s: seq<T>, p: T -> bool)
    requires forall x :: x in s ==> !p(x)
    ensures Filter(s, p) == []
  {
    if |s| > 0 { NoneChosen(s[..|s| - 1], p); }
  }

  lemma AppendedPosted(m: Ledger, n: nat, year: nat, vs: seq<SieParser.Voucher>)
    requires Appended(m, n, year, vs)
    ensures forall e :: e in m.entries[n..] ==> PostedOf(year)(e)
  {
    hide LinesOf, IsoDay, SieText.Value;
    forall k | 0 <= k < |vs| ensures PostedOf(year)(m.entries[n..][k]) {
      assert m.entries[n..][k] == m.entries[n + k] && MadeFrom(m, year, m.entries[n + k], vs[k]);
    }
  }

  /** The posted vouchers of the year are the imported ones. */
  lemma YearIsImported(l: Ledger, m: Ledger, year: nat, vs: seq<SieParser.Voucher>)
    requires EmptyYear(l, year) && Appended(m, |l.entries|, year, vs) && |m.entries| >= |l.entries|
    requires m.entries[..|l.entries|] == l.entries
    ensures Filter(m.entries, PostedOf(year)) == m.entries[|l.entries|..]
  {
    hide MadeFrom, Appended;
    var old', new' := m.entries[..|l.entries|], m.entries[|l.entries|..];
    assert m.entries == old' + new';
    FilterAppend(old', new', PostedOf(year));
    NoneChosen(old', PostedOf(year));
    AppendedPosted(m, |l.entries|, year, vs);
    AllChosen(new', PostedOf(year));
    assert [] + new' == new';
  }

  lemma {:induction false} ImportParts(l: Ledger, r: Review, year: nat, doc: SieParser.Document)
    requires Import(l, r, year, doc).Ok? && year < |l.years|
    ensures ImportRefusal(l, r, year, doc).None? && WithOpenings(WithAccounts(l, r, doc), year, doc).Ok?
    ensures var n := WithOpenings(WithAccounts(l, r, doc), year, doc).value;
            year < |n.years| && n.entries == l.entries && n.accounts == WithAccounts(l, r, doc).accounts
            && Import(l, r, year, doc) == WithVouchers(n, year, doc.vouchers)
  {
    hide ImportRefusal, ActivateAll, AddAccounts, OpeningRows, WithVouchers, AccountingData.ContextError;
  }

  /** Importing an error-free document into an empty year and exporting the year keeps every voucher: series,
      number, date, and its lines in order with account, signed amount, line date and objects. */
  lemma {:induction false} VouchersSurvive(l: Ledger, r: Review, year: nat, content: string)
    requires EmptyYear(l, year) && Import(l, r, year, SieParser.Parse(content)).Ok?
    ensures var doc, m := SieParser.Parse(content), Import(l, r, year, SieParser.Parse(content)).value;
            && multiset(Map(ExportedVouchers(m, year), KeptOf())) == multiset(Map(doc.vouchers, KeptOf()))
            && Map(Map(Filter(m.entries, PostedOf(year)), ExportedVoucher(m)), KeptOf()) == Map(doc.vouchers, KeptOf())
  {
    var doc := SieParser.Parse(content);
    hide Import, SieParser.Parse, WithVouchers, KeptOf, ExportedVoucher, Appended, WithAccounts, WithOpenings,
         ImportRefusal;
    ImportParts(l, r, year, doc);
    ImportSteps.ImportAllowed(l, r, year, doc);
    var n := WithOpenings(WithAccounts(l, r, doc), year, doc).value;
    var m := Import(l, r, year, doc).value;
    VouchersAppend(n, year, doc.vouchers);
    SieSound.Soundness(content);
    YearIsImported(l, m, year, doc.vouchers);
    GoodVouchersOf(doc);
    AllKept(m, |l.entries|, year, doc.vouchers);
    SortedKept(m, year);
  }

  lemma GoodVouchersOf(doc: SieParser.Document)
    requires SieSound.Sound(doc)
    ensures forall v :: v in doc.vouchers ==> SieSound.GoodVoucher(v)
  {
    hide SieSound.GoodVoucher, SieParser.Balanced, SieParser.Outside, SieSound.LinesFit, SumOf, SieParser.OpeningOf,
         SieParser.AllLines, SieSound.DistinctOpenings, SieSound.DistinctBalances, SieSound.GoodAccounts,
         SieSound.GoodObjects, SieSound.GoodYears, SieSound.GoodOpenings, SieSound.GoodBalances;
  }

  lemma AllKept(m: Ledger, n: nat, year: nat, vs: seq<SieParser.Voucher>)
    requires Appended(m, n, year, vs) && forall v :: v in vs ==> SieSound.GoodVoucher(v)
    ensures Map(Map(m.entries[n..], ExportedVoucher(m)), KeptOf()) == Map(vs, KeptOf())
  {
    hide MadeFrom, SieSound.GoodVoucher, ExportedVoucher, KeptOf;
    var es := m.entries[n..];
    forall k | 0 <= k < |vs| ensures KeptOf()(ExportedVoucher(m)(es[k])) == KeptOf()(vs[k]) {
      assert es[k] == m.entries[n + k] && vs[k] in vs;
      VoucherKept(m, year, es[k], vs[k]);
    }
  }

  lemma TakeOut<T>(t: seq<T>, i: nat)
    requires i < |t|
    ensures multiset(t[..i] + t[i + 1..]) == multiset(t) - multiset{t[i]}
  {
    assert t == t[..i] + [t[i]] + t[i + 1..];
    assert multiset(t) == multiset(t[..i]) + multiset{t[i]} + multiset(t[i + 1..]);
  }

  /** Removing the same element from two sequences with the same elements. */
  lemma WithoutOne<T>(s: seq<T>, t: seq<T>) returns (i: nat)
    requires multiset(s) == multiset(t) && |s| > 0
    ensures i < |t| && t[i] == s[|s| - 1] && multiset(s[..|s| - 1]) == multiset(t[..i] + t[i + 1..])
  {
    var n := |s| - 1;
    assert s[n] in multiset(t);
    i :| i < |t| && t[i] == s[n];
    TakeOut(t, i);
    TakeOut(s, n);
    assert s[..n] + s[n + 1..] == s[..n];
  }

  lemma {:induction false} MapMultiset<T, U>(s: seq<T>, t: seq<T>, f: T -> U)
    requires multiset(s) == multiset(t)
    ensures multiset(Map(s, f)) == multiset(Map(t, f))
    decreases |s|
  {
    if |s| == 0 {
      assert |multiset(t)| == 0;
    } else {
      hide Map;
      var i := WithoutOne(s, t);
      var n, x := |s| - 1, s[|s| - 1];
      var before, after := t[..i], t[i + 1..];
      assert t == before + [x] + after && s == s[..n] + [x];
      MapMultiset(s[..n], before + after, f);
      MapSnoc(s[..n], x, f);
      MapAround(before, x, after, f);
    }
  }

  lemma MapAround<T, U>(before: seq<T>, x: T, after: seq<T>, f: T -> U)
    ensures multiset(Map(before + [x] + after, f)) == multiset(Map(before + after, f)) + multiset{f(x)}
  {
    hide Map;
    MapAppend(before + [x], after, f);
    MapSnoc(before, x, f);
    MapAppend(before, after, f);
  }

  lemma {:induction false} SortedKept(m: Ledger, year: nat)
    ensures multiset(Map(ExportedVouchers(m, year), KeptOf()))
            == multiset(Map(Map(Filter(m.entries, PostedOf(year)), ExportedVoucher(m)), KeptOf()))
  {
    var es := Filter(m.entries, PostedOf(year));
    MapMultiset(Sort(es, ByDateNumber()), es, ExportedVoucher(m));
    MapMultiset(Map(Sort(es, ByDateNumber()), ExportedVoucher(m)), Map(es, ExportedVoucher(m)), KeptOf());
  }
}
