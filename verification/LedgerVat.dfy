/** The VAT report of a ledger. It reads the posted lines by date and line number and leaves the order of lines that
    agree in both to the database; what it adds up does not depend on that order, and a correction takes back what
    its voucher reported. */
module LedgerVat {
  import opened AccountingData
  import opened Common
  import opened LedgerModel
  import opened Vat
  import opened VatLaws
  import Journal
  import LedgerMachine
  import LedgerSafety
  import Reports
  import SieText

  // ---------------------------------------------------------------- lines as the report reads them

  /** A line of the books: voucher and position in it. */
  datatype Place = Place(entry: nat, line: nat)

  function LabelOf(l: Ledger, e: Entry): string {
    if e.number.Some? && e.number.value > 0 && e.series < |l.series|
    then l.series[e.series].code + SieText.Digits(e.number.value) else ""
  }

  /** A stored line of voucher `i` with the present number and VAT code of its account. */
  function View(l: Ledger, i: nat, x: Line): VatLine
    requires i < |l.entries|
  {
    var known := x.account < |l.accounts|;
    VatLine(i, if known then l.accounts[x.account].number else "", if known then l.accounts[x.account].vat else None,
            x.debit, x.credit, x.vatCode, x.role, x.group, x.stored, LabelOf(l, l.entries[i]))
  }

  function ViewOf(l: Ledger, i: nat): Line -> VatLine
    requires i < |l.entries|
  {
    (x: Line) => View(l, i, x)
  }

  predicate Stands(l: Ledger, p: Place) { p.entry < |l.entries| && p.line < |l.entries[p.entry].lines| }

  /** A place without a line reads as a line without effect. */
  function ViewAt(l: Ledger): Place -> VatLine {
    (p: Place) => if Stands(l, p) then View(l, p.entry, l.entries[p.entry].lines[p.line])
                  else VatLine(p.entry, "", None, 0, 0, None, NoRole, None, Absent, "")
  }

  predicate Wanted(l: Ledger, year: nat, from: int, to: int, p: Place) {
    Stands(l, p) && PostedIn(l.entries[p.entry], year, from, to)
  }

  /** Report order: date, then line number. */
  predicate Ahead(l: Ledger, p: Place, q: Place) {
    p.entry < |l.entries| && q.entry < |l.entries|
    && (l.entries[p.entry].date < l.entries[q.entry].date
        || (l.entries[p.entry].date == l.entries[q.entry].date && p.line < q.line))
  }

  /** No place twice, and none after a place it is ahead of. */
  ghost predicate InReportOrder(l: Ledger, places: seq<Place>) {
    forall i, j :: 0 <= i < j < |places| ==> places[i] != places[j] && !Ahead(l, places[j], places[i])
  }

  /** `places` names each posted line of the interval once, in report order; ties stand in any order. */
  ghost predicate Listing(l: Ledger, year: nat, from: int, to: int, places: seq<Place>) {
    (forall p :: p in places <==> Wanted(l, year, from, to, p)) && InReportOrder(l, places)
  }

  /** The answer of the VAT report when the database lists the lines as `places`. */
  function VatOf(l: Ledger, rates: Rates, collate: (string, string) -> int, year: nat, from: int, to: int,
        places: seq<Place>): Result<Report, Error> {
    if from > to then Err(BadInterval)
    else if year >= |l.years| then Err(NotFound)
    else if !Reports.GoodInterval(l.years[year], from, to) then Err(BadInterval)
    else if |places| > Reports.MAX_LINES then Err(TooLarge)
    else Ok(VatReport(rates, collate, Map(places, ViewAt(l))))
  }

  /** A stored line reads with its own amounts, code, role, group and stored configuration, with number and expected
      code of its account, and under series code and number of its voucher. */
  lemma ViewShows(l: Ledger, i: nat, k: nat)
    requires i < |l.entries| && k < |l.entries[i].lines| && l.entries[i].lines[k].account < |l.accounts|
    requires l.entries[i].number.Some? && l.entries[i].number.value > 0 && l.entries[i].series < |l.series|
    ensures var x, a := l.entries[i].lines[k], l.accounts[l.entries[i].lines[k].account];
            ViewAt(l)(Place(i, k))
            == VatLine(i, a.number, a.vat, x.debit, x.credit, x.vatCode, x.role, x.group, x.stored,
                       l.series[l.entries[i].series].code + SieText.Digits(l.entries[i].number.value))
  {
    hide SieText.Digits;
  }

  /** The VAT report answers if and only if the interval is one of the year and at most 20000 lines are read. */
  lemma VatSucceedsIff(l: Ledger, rates: Rates, collate: (string, string) -> int, year: nat, from: int, to: int,
        places: seq<Place>)
    ensures VatOf(l, rates, collate, year, from, to, places).Ok? <==>
            && year < |l.years| && l.years[year].first <= from <= to <= l.years[year].last && |places| <= 20000
  {
    hide VatReport;
  }

  /** Codes are listed by code text and, within one, by configuration version, as the locale compares texts. */
  lemma CodesAreOrdered(rates: Rates, collate: (string, string) -> int, lines: seq<VatLine>, i: nat, j: nat)
    requires TextOrder(collate)
    requires i < j < |VatReport(rates, collate, lines).codes|
    ensures var a, b := VatReport(rates, collate, lines).codes[i].meta, VatReport(rates, collate, lines).codes[j].meta;
            collate(a.code, b.code) < 0 || (collate(a.code, b.code) == 0 && collate(a.version, b.version) <= 0)
  {
    var codes := CodesOf(AllGroups(AcceptedLines(rates, lines)));
    CodeOrders(collate);
    SortSorts(codes, ByCode(collate));
    hide CodesOf, AllGroups, AcceptedLines, Sort, LineAnomalies, BalanceAnomalies, GroupAnomalies, CodeTotals, Orders;
    assert VatReport(rates, collate, lines).codes == Sort(codes, ByCode(collate));
    assert ByCode(collate)(Sort(codes, ByCode(collate))[i], Sort(codes, ByCode(collate))[j]) <= 0;
  }

  lemma CodeOrders(collate: (string, string) -> int)
    requires TextOrder(collate)
    ensures Orders(ByCode(collate))
  {
    forall x, y ensures ByCode(collate)(x, y) <= 0 || ByCode(collate)(y, x) <= 0 {
      OrderedThrough(collate, x.meta.code, y.meta.code, x.meta.code);
      OrderedThrough(collate, x.meta.version, y.meta.version, x.meta.version);
    }
    forall x, y, z | ByCode(collate)(x, y) <= 0 && ByCode(collate)(y, z) <= 0 ensures ByCode(collate)(x, z) <= 0 {
      OrderedThrough(collate, x.meta.code, y.meta.code, z.meta.code);
      OrderedThrough(collate, z.meta.code, x.meta.code, y.meta.code);
      OrderedThrough(collate, y.meta.code, z.meta.code, x.meta.code);
      OrderedThrough(collate, x.meta.version, y.meta.version, z.meta.version);
    }
  }

  // ---------------------------------------------------------------- the lines of one voucher

  function InEntry(e: nat): Place -> bool { (p: Place) => p.entry == e }

  /** Filtering keeps report order. */
  lemma {:induction false} FilterOrdered(l: Ledger, s: seq<Place>, p: Place -> bool)
    requires InReportOrder(l, s)
    ensures InReportOrder(l, Filter(s, p))
  {
    hide Ahead;
    if |s| > 0 {
      var before, x := s[..|s| - 1], s[|s| - 1];
      FilterOrdered(l, before, p);
      var r := Filter(before, p);
      forall i | 0 <= i < |r| ensures r[i] != x && !Ahead(l, x, r[i]) {
        assert r[i] in before;
        var k :| 0 <= k < |before| && before[k] == r[i];
        assert s[k] == r[i];
      }
    }
  }

  lemma LastIsLargest(s: seq<Place>, e: nat, n: nat)
    requires forall i, j :: 0 <= i < j < |s| ==> s[i].line < s[j].line
    requires (forall p :: p in s <==> p.entry == e && p.line < n) && n > 0
    ensures |s| > 0 && s[|s| - 1] == Place(e, n - 1)
    ensures forall p :: p in s[..|s| - 1] <==> p.entry == e && p.line < n - 1
  {
    assert Place(e, n - 1) in s;
    var i :| 0 <= i < |s| && s[i] == Place(e, n - 1);
    assert s[|s| - 1] in s;
    assert s == s[..|s| - 1] + [s[|s| - 1]];
    assert forall p :: p in s ==> p in s[..|s| - 1] || p == s[|s| - 1];
  }

  lemma Inhabited(s: seq<Place>)
    ensures s == [] || s[0] in s
  {
  }

  /** A rising list of line numbers that names exactly the first `n` counts them off. */
  lemma {:induction false} CountedOff(s: seq<Place>, e: nat, n: nat)
    requires forall i, j :: 0 <= i < j < |s| ==> s[i].line < s[j].line
    requires forall p :: p in s <==> p.entry == e && p.line < n
    ensures |s| == n && forall k :: 0 <= k < n ==> s[k] == Place(e, k)
  {
    if n == 0 {
      Inhabited(s);
    } else {
      LastIsLargest(s, e, n);
      CountedOff(s[..|s| - 1], e, n - 1);
    }
  }

  lemma PlacesOfEntry(l: Ledger, year: nat, from: int, to: int, places: seq<Place>, e: nat)
    requires Listing(l, year, from, to, places) && e < |l.entries| && PostedIn(l.entries[e], year, from, to)
    ensures var r := Filter(places, InEntry(e));
            |r| == |l.entries[e].lines| && forall k :: 0 <= k < |r| ==> r[k] == Place(e, k)
  {
    FilterOrdered(l, places, InEntry(e));
    var r := Filter(places, InEntry(e));
    forall p | p in r ensures p.entry == e && p.line < |l.entries[e].lines| { assert Wanted(l, year, from, to, p); }
    forall p: Place | p.entry == e && p.line < |l.entries[e].lines| ensures p in r {
      assert Wanted(l, year, from, to, p);
      assert p in places && InEntry(e)(p);
    }
    forall i, j | 0 <= i < j < |r| ensures r[i].line < r[j].line {
      assert r[i] in r && r[j] in r && r[i] != r[j] && !Ahead(l, r[j], r[i]);
    }
    CountedOff(r, e, |l.entries[e].lines|);
  }

  /** Whatever the order between vouchers, the report reads the lines of one voucher together and in their order,
      and all of them or none. */
  lemma ReadsVoucher(l: Ledger, year: nat, from: int, to: int, places: seq<Place>, e: nat)
    requires Listing(l, year, from, to, places)
    ensures Filter(Map(places, ViewAt(l)), OfEntry(e))
            == if e < |l.entries| && PostedIn(l.entries[e], year, from, to) then Map(l.entries[e].lines, ViewOf(l, e))
               else []
  {
    FilterMap(places, ViewAt(l), OfEntry(e));
    FilterExt(places, Then(ViewAt(l), OfEntry(e)), InEntry(e));
    var r := Filter(places, InEntry(e));
    if e < |l.entries| && PostedIn(l.entries[e], year, from, to) {
      PlacesOfEntry(l, year, from, to, places, e);
      assert Map(r, ViewAt(l)) == Map(l.entries[e].lines, ViewOf(l, e));
    } else {
      Inhabited(r);
    }
  }

  // ---------------------------------------------------------------- the order between vouchers

  /** Both list the same lines of every voucher in the same order. */
  ghost predicate SameVouchers(lines: seq<VatLine>, other: seq<VatLine>) {
    forall e: nat :: Filter(lines, OfEntry(e)) == Filter(other, OfEntry(e))
  }

  lemma {:induction false} FilterCounts(s: seq<VatLine>, p: VatLine -> bool, x: VatLine)
    requires p(x)
    ensures multiset(s)[x] == multiset(Filter(s, p))[x]
  {
    if |s| > 0 {
      assert s == s[..|s| - 1] + [s[|s| - 1]];
      FilterCounts(s[..|s| - 1], p, x);
    }
  }

  lemma SameLines(lines: seq<VatLine>, other: seq<VatLine>)
    requires SameVouchers(lines, other)
    ensures multiset(lines) == multiset(other)
  {
    forall x: VatLine ensures multiset(lines)[x] == multiset(other)[x] {
      FilterCounts(lines, OfEntry(x.entry), x);
      FilterCounts(other, OfEntry(x.entry), x);
    }
  }

  lemma SameGroups(rates: Rates, lines: seq<VatLine>, other: seq<VatLine>, k: Key)
    requires SameVouchers(lines, other)
    ensures GroupOf(AcceptedLines(rates, lines), k) == GroupOf(AcceptedLines(rates, other), k)
  {
    AcceptedFilter(rates, lines, OfEntry(k.entry), TaxedOf(k.entry));
    AcceptedFilter(rates, other, OfEntry(k.entry), TaxedOf(k.entry));
    GroupWithinEntry(AcceptedLines(rates, lines), k, TaxedOf(k.entry));
    GroupWithinEntry(AcceptedLines(rates, other), k, TaxedOf(k.entry));
  }

  lemma SameSum(rates: Rates, lines: seq<VatLine>, other: seq<VatLine>, f: Taxed -> int)
    requires SameVouchers(lines, other)
    ensures SumOf(AcceptedLines(rates, lines), f) == SumOf(AcceptedLines(rates, other), f)
  {
    SameLines(lines, other);
    LiftedSum(rates, lines, f);
    LiftedSum(rates, other, f);
    SumPermuted(lines, other, Lifted(rates, f));
  }

  lemma SameCodes(rates: Rates, lines: seq<VatLine>, other: seq<VatLine>, t: Taxed)
    requires SameVouchers(lines, other)
    ensures CodeOfLine(AcceptedLines(rates, lines), t) == CodeOfLine(AcceptedLines(rates, other), t)
  {
    SameGroups(rates, lines, other, KeyOf(t));
  }

  /** What every code reports depends on the order of lines within a voucher only. */
  lemma CodesIgnoreVoucherOrder(rates: Rates, lines: seq<VatLine>, other: seq<VatLine>, c: CodeKey, tax: bool)
    requires SameVouchers(lines, other)
    ensures CodeTotal(AcceptedLines(rates, lines), c, tax) == CodeTotal(AcceptedLines(rates, other), c, tax)
  {
    var ts, us := AcceptedLines(rates, lines), AcceptedLines(rates, other);
    CodeTotalIsLineSum(ts, c, tax);
    CodeTotalIsLineSum(us, c, tax);
    SameSum(rates, lines, other, LineIn(ts, c, tax));
    forall t | t in us ensures LineIn(ts, c, tax)(t) == LineIn(us, c, tax)(t) { SameCodes(rates, lines, other, t); }
    SumExt(us, LineIn(ts, c, tax), LineIn(us, c, tax));
  }

  lemma DirectionIgnoresVoucherOrder(rates: Rates, collate: (string, string) -> int, lines: seq<VatLine>,
        other: seq<VatLine>, d: Direction, tax: bool)
    requires SameVouchers(lines, other) && (tax ==> !d.Exempt?)
    ensures TotalOf(VatReport(rates, collate, lines).totals, d, tax)
            == TotalOf(VatReport(rates, collate, other).totals, d, tax)
  {
    var ts, us := AcceptedLines(rates, lines), AcceptedLines(rates, other);
    hide VatReport, TotalOf, CodesOf, AllGroups;
    TotalIsBucketSum(rates, collate, lines, d, tax);
    TotalIsBucketSum(rates, collate, other, d, tax);
    DirectionTotalIsLineSum(ts, d, tax);
    DirectionTotalIsLineSum(us, d, tax);
    SameSum(rates, lines, other, GroupLineFor(ts, d, tax));
    forall t | t in us ensures GroupLineFor(ts, d, tax)(t) == GroupLineFor(us, d, tax)(t) {
      SameCodes(rates, lines, other, t);
    }
    SumExt(us, GroupLineFor(ts, d, tax), GroupLineFor(us, d, tax));
  }

  lemma TotalsIgnoreVoucherOrder(rates: Rates, collate: (string, string) -> int, lines: seq<VatLine>,
        other: seq<VatLine>)
    requires SameVouchers(lines, other)
    ensures VatReport(rates, collate, lines).totals == VatReport(rates, collate, other).totals
  {
    hide VatReport, TotalOf, SameVouchers;
    forall d: Direction, tax: bool | tax ==> !d.Exempt?
      ensures TotalOf(VatReport(rates, collate, lines).totals, d, tax)
              == TotalOf(VatReport(rates, collate, other).totals, d, tax)
    {
      DirectionIgnoresVoucherOrder(rates, collate, lines, other, d, tax);
    }
    TotalsDetermined(rates, collate, lines);
    TotalsDetermined(rates, collate, other);
  }

  lemma ListingsShareVouchers(l: Ledger, year: nat, from: int, to: int, places: seq<Place>, other: seq<Place>)
    requires Listing(l, year, from, to, places) && Listing(l, year, from, to, other)
    ensures SameVouchers(Map(places, ViewAt(l)), Map(other, ViewAt(l)))
  {
    hide Listing, ViewAt;
    forall e: nat ensures Filter(Map(places, ViewAt(l)), OfEntry(e)) == Filter(Map(other, ViewAt(l)), OfEntry(e)) {
      ReadsVoucher(l, year, from, to, places, e);
      ReadsVoucher(l, year, from, to, other, e);
    }
  }

  /** The VAT report of an interval is determined by the books: however the database breaks ties, all totals and
      what each code reports are the same. */
  lemma VatIsDetermined(l: Ledger, rates: Rates, collate: (string, string) -> int, year: nat, from: int, to: int,
        places: seq<Place>, other: seq<Place>, r: Report, s: Report, c: CodeKey, tax: bool)
    requires Listing(l, year, from, to, places) && VatOf(l, rates, collate, year, from, to, places) == Ok(r)
    requires Listing(l, year, from, to, other) && VatOf(l, rates, collate, year, from, to, other) == Ok(s)
    ensures r.totals == s.totals
    ensures CodeTotal(AcceptedLines(rates, Map(places, ViewAt(l))), c, tax)
            == CodeTotal(AcceptedLines(rates, Map(other, ViewAt(l))), c, tax)
  {
    hide Listing, VatReport, ViewAt;
    ListingsShareVouchers(l, year, from, to, places, other);
    TotalsIgnoreVoucherOrder(rates, collate, Map(places, ViewAt(l)), Map(other, ViewAt(l)));
    CodesIgnoreVoucherOrder(rates, Map(places, ViewAt(l)), Map(other, ViewAt(l)), c, tax);
  }

  // ---------------------------------------------------------------- corrections

  /** The report reads a mirrored line as the image of the line it mirrors. */
  lemma MirrorIsImage(l: Ledger, o: nat, r: nat, xs: seq<Line>)
    requires o < |l.entries| && r < |l.entries|
    ensures Map(Map(xs, Journal.Mirror()), ViewOf(l, r))
            == Map(Map(xs, ViewOf(l, o)), ImageOf(r, LabelOf(l, l.entries[r])))
  {
    hide LabelOf;
  }

  lemma CorrectionReads(l: Ledger, r: nat, year: nat, from: int, to: int, places: seq<Place>)
    requires r < |l.entries| && LedgerMachine.CorrectionOk(l, l.entries[r]) && l.entries[r].reverses.Some?
    requires Listing(l, year, from, to, places)
    requires PostedIn(l.entries[r], year, from, to)
    requires PostedIn(l.entries[l.entries[r].reverses.value], year, from, to)
    ensures Corrects(Map(places, ViewAt(l)), l.entries[r].reverses.value, r, LabelOf(l, l.entries[r]))
  {
    var o := l.entries[r].reverses.value;
    hide Listing, ViewAt, LabelOf;
    ReadsVoucher(l, year, from, to, places, o);
    ReadsVoucher(l, year, from, to, places, r);
    MirrorIsImage(l, o, r, l.entries[o].lines);
  }

  lemma InOrder(steps: seq<LedgerMachine.Step>, r: nat)
    requires r < |LedgerMachine.Run(NOTHING, steps).entries|
    ensures var l := LedgerMachine.Run(NOTHING, steps); LedgerMachine.EntryOk(l, l.entries[r])
  {
    hide LedgerMachine.Run, LedgerMachine.EntryOk;
    LedgerSafety.ReachableInOrder(steps);
  }

  /** In every reachable ledger, a report that covers a voucher and its correction shows under every code what it
      would show without either. */
  lemma CorrectionIsVatNeutral(steps: seq<LedgerMachine.Step>, r: nat, year: nat, from: int, to: int,
        places: seq<Place>, rates: Rates, c: CodeKey, tax: bool)
    requires var l := LedgerMachine.Run(NOTHING, steps);
             && r < |l.entries| && l.entries[r].reverses.Some? && l.entries[r].reverses.value < |l.entries|
             && Listing(l, year, from, to, places) && PostedIn(l.entries[r], year, from, to)
             && PostedIn(l.entries[l.entries[r].reverses.value], year, from, to)
    ensures var l := LedgerMachine.Run(NOTHING, steps);
            var lines := Map(places, ViewAt(l));
            CodeTotal(AcceptedLines(rates, lines), c, tax)
            == CodeTotal(AcceptedLines(rates, Filter(lines, NotOf(l.entries[r].reverses.value, r))), c, tax)
  {
    hide LedgerMachine.Run, Listing, ViewAt, Journal.InCalendar;
    InOrder(steps, r);
    var l := LedgerMachine.Run(NOTHING, steps);
    CorrectionReads(l, r, year, from, to, places);
    CorrectionIsNeutral(rates, Map(places, ViewAt(l)), l.entries[r].reverses.value, r, LabelOf(l, l.entries[r]),
      c, tax);
  }

  // ---------------------------------------------------------------- balance

  function DebitRead(): VatLine -> int { (x: VatLine) => x.debit }

  function CreditRead(): VatLine -> int { (x: VatLine) => x.credit }

  lemma EntrySums(lines: seq<VatLine>, e: nat)
    ensures SumOf(lines, DebitIn(e)) == SumOf(Filter(lines, OfEntry(e)), DebitRead())
    ensures SumOf(lines, CreditIn(e)) == SumOf(Filter(lines, OfEntry(e)), CreditRead())
  {
    SumFilter(lines, OfEntry(e), DebitRead());
    SumFilter(lines, OfEntry(e), CreditRead());
    SumExt(lines, DebitIn(e), Where(OfEntry(e), DebitRead()));
    SumExt(lines, CreditIn(e), Where(OfEntry(e), CreditRead()));
  }

  lemma VoucherSums(l: Ledger, e: nat)
    requires e < |l.entries|
    ensures SumOf(Map(l.entries[e].lines, ViewOf(l, e)), DebitRead()) == Debits(l.entries[e].lines)
    ensures SumOf(Map(l.entries[e].lines, ViewOf(l, e)), CreditRead()) == Credits(l.entries[e].lines)
  {
    var xs := l.entries[e].lines;
    SumMap(xs, ViewOf(l, e), DebitRead());
    SumMap(xs, ViewOf(l, e), CreditRead());
    hide LabelOf;
    SumExt(xs, Then(ViewOf(l, e), DebitRead()), DebitOf());
    SumExt(xs, Then(ViewOf(l, e), CreditRead()), CreditOf());
  }

  lemma ReadBalanced(steps: seq<LedgerMachine.Step>, year: nat, from: int, to: int, places: seq<Place>, e: nat)
    requires Listing(LedgerMachine.Run(NOTHING, steps), year, from, to, places)
    ensures var lines := Map(places, ViewAt(LedgerMachine.Run(NOTHING, steps)));
            SumOf(lines, DebitIn(e)) == SumOf(lines, CreditIn(e))
  {
    hide LedgerMachine.Run, Listing, ViewAt, Journal.InCalendar, LedgerMachine.CorrectionOk;
    var l := LedgerMachine.Run(NOTHING, steps);
    EntrySums(Map(places, ViewAt(l)), e);
    ReadsVoucher(l, year, from, to, places, e);
    if e < |l.entries| && PostedIn(l.entries[e], year, from, to) {
      InOrder(steps, e);
      VoucherSums(l, e);
    }
  }

  lemma {:induction false} NoImbalance(lines: seq<VatLine>, es: seq<nat>)
    requires forall e: nat :: SumOf(lines, DebitIn(e)) == SumOf(lines, CreditIn(e))
    ensures BalanceAnomalies(lines, es) == []
  {
    if |es| > 0 { NoImbalance(lines, es[..|es| - 1]); }
  }

  /** The engine's check that vouchers balance never fires on a reachable ledger. */
  lemma ReachableVatBalances(steps: seq<LedgerMachine.Step>, year: nat, from: int, to: int, places: seq<Place>)
    requires Listing(LedgerMachine.Run(NOTHING, steps), year, from, to, places)
    ensures var lines := Map(places, ViewAt(LedgerMachine.Run(NOTHING, steps)));
            BalanceAnomalies(lines, Entries(lines)) == []
  {
    hide LedgerMachine.Run, Listing, ViewAt;
    var lines := Map(places, ViewAt(LedgerMachine.Run(NOTHING, steps)));
    forall e: nat ensures SumOf(lines, DebitIn(e)) == SumOf(lines, CreditIn(e)) {
      ReadBalanced(steps, year, from, to, places, e);
    }
    NoImbalance(lines, Entries(lines));
  }
}
