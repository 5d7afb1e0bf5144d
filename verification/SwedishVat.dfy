/** Mapping of a VAT report to the boxes of the Swedish return, and what a complete mapping guarantees. */
module SwedishVat {
  import opened Common
  import opened Vat
  import Calendar

  const VERSION := "SE-DOMESTIC-2026-01"
  const EFFECTIVE_FROM := Calendar.Date(2026, 1, 1)
  const EFFECTIVE_TO := Calendar.Date(2026, 12, 31)
  const DOMESTIC := "DOMESTIC_STANDARD"
  const NO_CATEGORY := "NONE"

  datatype Box = Box05 | Box10 | Box11 | Box12 | Box48 | Box49

  datatype Warning = PeriodNotCovered | NeedsAssessment(code: string) | Unsupported(code: string)

  datatype Return = Return(complete: bool, warnings: seq<Warning>, boxes: map<Box, int>)

  function OutputBox(rate: string): Option<Box> {
    if rate == "25.00" then Some(Box10)
    else if rate == "12.00" then Some(Box11)
    else if rate == "6.00" then Some(Box12)
    else None
  }

  /** An absent bound does not restrict. */
  predicate Covered(fromDate: Option<Calendar.Date>, toDate: Option<Calendar.Date>) {
    && (fromDate.Some? ==> !Calendar.Before(fromDate.value, EFFECTIVE_FROM))
    && (toDate.Some? ==> !Calendar.Before(EFFECTIVE_TO, toDate.value))
  }

  predicate NeedsReview(b: Bucket) { b.meta.category == NO_CATEGORY && b.meta.direction.Exempt? }

  predicate Mapped(b: Bucket) {
    !NeedsReview(b) && b.meta.version == VERSION && b.meta.category == DOMESTIC && OutputBox(b.meta.rate).Some?
  }

  function CodeWarning(b: Bucket): Option<Warning> {
    if NeedsReview(b) then Some(NeedsAssessment(b.meta.code))
    else if !Mapped(b) then Some(Unsupported(b.meta.code)) else None
  }

  function Warnings(codes: seq<Bucket>): seq<Warning> {
    if |codes| == 0 then []
    else
      var w := CodeWarning(codes[|codes| - 1]);
      Warnings(codes[..|codes| - 1]) + if w.Some? then [w.value] else []
  }

  /** What one code adds to a box. */
  function BoxShare(box: Box): Bucket -> int {
    (b: Bucket) =>
      if !Mapped(b) then 0
      else if b.meta.direction.Output? then
        (if box.Box05? then b.base else if OutputBox(b.meta.rate) == Some(box) then b.tax else 0)
      else if b.meta.direction.Input? && box.Box48? then b.tax else 0
  }

  function BoxAmount(codes: seq<Bucket>, box: Box): int
  {
    if box.Box49? then
      SumOf(codes, BoxShare(Box10)) + SumOf(codes, BoxShare(Box11))
        + SumOf(codes, BoxShare(Box12)) - SumOf(codes, BoxShare(Box48))
    else SumOf(codes, BoxShare(box))
  }

  method MapSwedishVatReport(report: Report, fromDate: Option<Calendar.Date>, toDate: Option<Calendar.Date>)
    returns (r: Return)
    ensures r.complete <==> Covered(fromDate, toDate) && Warnings(report.codes) == [] && report.anomalies == []
    ensures r.warnings == if Covered(fromDate, toDate) then Warnings(report.codes) else [PeriodNotCovered]
    ensures forall box: Box ::
            box in r.boxes && r.boxes[box] == if Covered(fromDate, toDate) then BoxAmount(report.codes, box) else 0
  {
    var amounts: map<Box, int> := map[];
    var warnings: seq<Warning> := [];
    var covered := Covered(fromDate, toDate);
    if !covered { warnings := warnings + [PeriodNotCovered]; }
    var codes := report.codes;
    hide Covered;
    for i := 0 to |codes|
      invariant warnings == if covered then Warnings(codes[..i]) else [PeriodNotCovered]
      invariant Totalled(amounts, if covered then codes[..i] else [])
    {
      if !covered { continue; }
      assert codes[..i + 1] == codes[..i] + [codes[i]];
      amounts, warnings := MapCode(codes[..i], codes[i], amounts, warnings);
    }
    assert codes[..|codes|] == codes;
    ghost var read := if covered then codes else [];
    var net := Get(amounts, Box10) + Get(amounts, Box11) + Get(amounts, Box12) - Get(amounts, Box48);
    ghost var summed := amounts;
    amounts := amounts[Box49 := net];
    var boxes := map box: Box | box in {Box05, Box10, Box11, Box12, Box48, Box49} :: Get(amounts, box);
    hide BoxAmount, Get, Totalled, Warnings;
    forall box: Box ensures box in boxes && boxes[box] == if covered then BoxAmount(codes, box) else 0 {
      AllBoxes(box);
      TotalledBox(summed, read, net, box);
    }
    r := Return(warnings == [] && report.anomalies == [], warnings, boxes);
    assert forall box: Box :: box in r.boxes && r.boxes[box] == if covered then BoxAmount(codes, box) else 0;
  }

  /** The box table holds the shares of the codes read so far. */
  ghost predicate Totalled(amounts: map<Box, int>, codes: seq<Bucket>) {
    forall box: Box :: !box.Box49? ==> Get(amounts, box) == SumOf(codes, BoxShare(box))
  }

  lemma AllBoxes(box: Box)
    ensures box in {Box05, Box10, Box11, Box12, Box48, Box49}
  {
    match box { case Box05 => case Box10 => case Box11 => case Box12 => case Box48 => case Box49 => }
  }

  lemma TotalledBox(amounts: map<Box, int>, codes: seq<Bucket>, net: int, box: Box)
    requires Totalled(amounts, codes)
    requires net == Get(amounts, Box10) + Get(amounts, Box11) + Get(amounts, Box12) - Get(amounts, Box48)
    ensures Get(amounts[Box49 := net], box) == BoxAmount(codes, box)
    ensures codes == [] ==> BoxAmount(codes, box) == 0
  {
    assert Box10 != Box49 && Box11 != Box49 && Box12 != Box49 && Box48 != Box49;
    if box != Box49 { assert Get(amounts[Box49 := net], box) == Get(amounts, box); }
  }

  method MapCode(ghost before: seq<Bucket>, code: Bucket, amounts: map<Box, int>, warnings: seq<Warning>)
    returns (amounts': map<Box, int>, warnings': seq<Warning>)
    requires Totalled(amounts, before) && warnings == Warnings(before)
    ensures Totalled(amounts', before + [code]) && warnings' == Warnings(before + [code])
  {
    assert (before + [code])[..|before|] == before;
    amounts', warnings' := amounts, warnings;
    var outputBox := OutputBox(code.meta.rate);
    if code.meta.category == NO_CATEGORY && code.meta.direction.Exempt? {
      warnings' := warnings + [NeedsAssessment(code.meta.code)];
    } else if code.meta.version != VERSION || code.meta.category != DOMESTIC || outputBox.None? {
      warnings' := warnings + [Unsupported(code.meta.code)];
    } else if code.meta.direction.Output? {
      amounts' := Add(amounts', Box05, code.base);
      amounts' := Add(amounts', outputBox.value, code.tax);
    } else if code.meta.direction.Input? {
      amounts' := Add(amounts', Box48, code.tax);
    }
  }

  function Get(amounts: map<Box, int>, box: Box): int { if box in amounts then amounts[box] else 0 }

  function Add(amounts: map<Box, int>, box: Box, amount: int): map<Box, int>
  {
    amounts[box := Get(amounts, box) + amount]
  }

  // ---------------------------------------------------------------- completeness

  /** The three Swedish rate texts are read as 25, 12 and 6 percent. */
  ghost predicate ReadsSwedishRates(rates: Rates) {
    rates("25.00") == Some(2500) && rates("12.00") == Some(1200) && rates("6.00") == Some(600)
  }

  /** An exempt code has rate zero, so it has no output box: it can never be passed over in silence. */
  lemma ExemptIsNeverSilent(rates: Rates, b: Bucket)
    requires ReadsSwedishRates(rates) && GoodRate(rates, b.meta) && b.meta.direction.Exempt?
    ensures CodeWarning(b).Some?
  {
  }

  lemma {:induction false} NoWarnings(codes: seq<Bucket>, b: Bucket)
    requires Warnings(codes) == [] && b in codes
    ensures Mapped(b)
  {
    if b != codes[|codes| - 1] { NoWarnings(codes[..|codes| - 1], b); }
  }

  lemma {:induction false} FullyMapped(codes: seq<Bucket>)
    requires forall b :: b in codes ==> Mapped(b) && !b.meta.direction.Exempt?
    ensures SumOf(codes, BoxShare(Box05)) == SumOf(codes, BaseFor(Output))
    ensures SumOf(codes, BoxShare(Box10)) + SumOf(codes, BoxShare(Box11)) + SumOf(codes, BoxShare(Box12))
            == SumOf(codes, TaxFor(Output))
    ensures SumOf(codes, BoxShare(Box48)) == SumOf(codes, TaxFor(Input))
    ensures SumOf(codes, BaseFor(Exempt)) == 0
  {
    if |codes| > 0 {
      FullyMapped(codes[..|codes| - 1]);
      assert codes[|codes| - 1] in codes;
    }
  }

  lemma {:induction false} GroupRatesAreGood(rates: Rates, ts: seq<Taxed>, g: Group)
    requires g in AllGroups(ts) && forall t :: t in ts ==> GoodRate(rates, t.meta)
    ensures GoodRate(rates, g.meta)
  {
    var i :| 0 <= i < |AllGroups(ts)| && AllGroups(ts)[i] == g;
    var k := GroupKeys(ts)[i];
    KeysHaveLines(ts, k);
    assert GroupOf(ts, k)[0] in GroupOf(ts, k);
  }

  lemma {:induction false} FirstWithIsAGroup(gs: seq<Group>, c: CodeKey)
    requires FirstWith(gs, c).Some?
    ensures exists g :: g in gs && g.meta == FirstWith(gs, c).value
  {
    var n := |gs| - 1;
    if FirstWith(gs[..n], c).Some? {
      FirstWithIsAGroup(gs[..n], c);
      var g :| g in gs[..n] && g.meta == FirstWith(gs[..n], c).value;
      assert g in gs;
    } else {
      assert gs[n] in gs;
    }
  }

  lemma {:induction false} ReportedRatesAreGood(rates: Rates, collate: (string, string) -> int, lines: seq<VatLine>,
        b: Bucket)
    requires b in VatReport(rates, collate, lines).codes
    ensures GoodRate(rates, b.meta)
  {
    var ts := AcceptedLines(rates, lines);
    var gs := AllGroups(ts);
    SortMembers(CodesOf(gs), ByCode(collate), b);
    var i :| 0 <= i < |CodesOf(gs)| && CodesOf(gs)[i] == b;
    FirstWithIsAGroup(gs, CodeKeys(gs)[i]);
    var g :| g in gs && g.meta == b.meta;
    GroupRatesAreGood(rates, ts, g);
  }

  /** A mapping without warnings drops nothing: box 05 is the whole output base, boxes 10, 11 and 12 the
      whole output tax, box 48 the whole input tax, box 49 the VAT position, and there was no exempt base. */
  lemma {:induction false} CompleteMappingDropsNothing(rates: Rates, collate: (string, string) -> int,
        lines: seq<VatLine>)
    requires ReadsSwedishRates(rates) && Warnings(VatReport(rates, collate, lines).codes) == []
    ensures var report := VatReport(rates, collate, lines);
            && BoxAmount(report.codes, Box05) == report.totals.outputBase
            && BoxAmount(report.codes, Box10) + BoxAmount(report.codes, Box11) + BoxAmount(report.codes, Box12)
               == report.totals.outputVat
            && BoxAmount(report.codes, Box48) == report.totals.inputVat
            && BoxAmount(report.codes, Box49) == report.totals.vatPosition
            && report.totals.nonVatBase == 0
  {
    var codes := VatReport(rates, collate, lines).codes;
    assert VatReport(rates, collate, lines).totals == CodeTotals(codes);
    hide VatReport, Warnings;
    forall b | b in codes ensures Mapped(b) && !b.meta.direction.Exempt? {
      NoWarnings(codes, b);
      ReportedRatesAreGood(rates, collate, lines, b);
      if b.meta.direction.Exempt? { ExemptIsNeverSilent(rates, b); }
    }
    FullyMapped(codes);
  }

  // ---------------------------------------------------------------- what each box shows

  /** A domestic code of the 2026 configuration at a given rate. */
  predicate Domestic(b: Bucket, d: Direction, rate: string) {
    b.meta.version == "SE-DOMESTIC-2026-01" && b.meta.category == "DOMESTIC_STANDARD" && b.meta.direction == d
    && b.meta.rate == rate
  }

  predicate DomesticAny(b: Bucket, d: Direction) {
    Domestic(b, d, "25.00") || Domestic(b, d, "12.00") || Domestic(b, d, "6.00")
  }

  function TaxAt(d: Direction, rate: string): Bucket -> int { (b: Bucket) => if Domestic(b, d, rate) then b.tax else 0 }

  function TaxAny(d: Direction): Bucket -> int { (b: Bucket) => if DomesticAny(b, d) then b.tax else 0 }

  function BaseAny(d: Direction): Bucket -> int { (b: Bucket) => if DomesticAny(b, d) then b.base else 0 }

  lemma Shares(b: Bucket)
    ensures BoxShare(Box05)(b) == BaseAny(Output)(b) && BoxShare(Box48)(b) == TaxAny(Input)(b)
    ensures BoxShare(Box10)(b) == TaxAt(Output, "25.00")(b)
    ensures BoxShare(Box11)(b) == TaxAt(Output, "12.00")(b)
    ensures BoxShare(Box12)(b) == TaxAt(Output, "6.00")(b)
  {
  }

  /** Box 10 is the output tax at 25 percent, box 11 that at 12 and box 12 that at 6; box 05 is the output base at these
      rates, box 48 the input tax at these rates, and box 49 boxes 10, 11 and 12 less box 48. */
  lemma BoxesShow(codes: seq<Bucket>)
    ensures BoxAmount(codes, Box05) == SumOf(codes, BaseAny(Output))
    ensures BoxAmount(codes, Box10) == SumOf(codes, TaxAt(Output, "25.00"))
    ensures BoxAmount(codes, Box11) == SumOf(codes, TaxAt(Output, "12.00"))
    ensures BoxAmount(codes, Box12) == SumOf(codes, TaxAt(Output, "6.00"))
    ensures BoxAmount(codes, Box48) == SumOf(codes, TaxAny(Input))
    ensures BoxAmount(codes, Box49) == BoxAmount(codes, Box10) + BoxAmount(codes, Box11) + BoxAmount(codes, Box12)
                                       - BoxAmount(codes, Box48)
  {
    forall b
      ensures BoxShare(Box05)(b) == BaseAny(Output)(b) && BoxShare(Box48)(b) == TaxAny(Input)(b)
      ensures BoxShare(Box10)(b) == TaxAt(Output, "25.00")(b)
      ensures BoxShare(Box11)(b) == TaxAt(Output, "12.00")(b)
      ensures BoxShare(Box12)(b) == TaxAt(Output, "6.00")(b)
    {
      Shares(b);
    }
    hide BoxShare, TaxAt, TaxAny, BaseAny;
    SumExt(codes, BoxShare(Box05), BaseAny(Output));
    SumExt(codes, BoxShare(Box10), TaxAt(Output, "25.00"));
    SumExt(codes, BoxShare(Box11), TaxAt(Output, "12.00"));
    SumExt(codes, BoxShare(Box12), TaxAt(Output, "6.00"));
    SumExt(codes, BoxShare(Box48), TaxAny(Input));
  }

  /** A code is warned of exactly when it is not one of these: for review when it is exempt without a category. */
  lemma WarnsIff(b: Bucket)
    ensures CodeWarning(b) == if b.meta.category == "NONE" && b.meta.direction == Exempt
                              then Some(NeedsAssessment(b.meta.code))
                              else if DomesticAny(b, b.meta.direction) then None else Some(Unsupported(b.meta.code))
  {
  }

  /** The mapping covers the days of 2026: none before the first of January, none after the last of December. */
  lemma CoversIff(fromDate: Option<Calendar.Date>, toDate: Option<Calendar.Date>)
    requires fromDate.Some? ==> Calendar.Valid(fromDate.value)
    requires toDate.Some? ==> Calendar.Valid(toDate.value)
    ensures Covered(fromDate, toDate) <==>
            (fromDate.Some? ==> fromDate.value.year >= 2026) && (toDate.Some? ==> toDate.value.year <= 2026)
  {
  }
}
