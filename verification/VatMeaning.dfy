/** What the amounts and warnings of the VAT report mean, read off debit and credit of the lines. */
module VatMeaning {
  import opened Common
  import opened Vat
  import opened VatLaws

  // ---------------------------------------------------------------- lines that count

  /** The line names a VAT code. */
  predicate HasCode(l: VatLine) { l.vatCode.Some? && l.vatCode.value != "" }

  /** Its stored configuration is that of the code. */
  predicate Configured(l: VatLine) { HasCode(l) && l.stored.Full? && Some(l.stored.meta.id) == l.vatCode }

  /** The rate is read, and an exempt code has rate zero. */
  predicate Rated(rates: Rates, m: Snapshot) {
    rates(m.rate).Some? && (m.direction == Exempt ==> rates(m.rate).value == 0)
  }

  /** The line is reported under its direction in its role. */
  predicate Counts(rates: Rates, l: VatLine, d: Direction, role: Role) {
    Configured(l) && l.role == role && Rated(rates, l.stored.meta) && l.stored.meta.direction == d
  }

  /** Credit less debit of the lines that count. */
  function CreditNet(rates: Rates, d: Direction, role: Role): VatLine -> int {
    (l: VatLine) => if Counts(rates, l, d, role) then l.credit - l.debit else 0
  }

  /** Debit less credit of the lines that count. */
  function DebitNet(rates: Rates, d: Direction, role: Role): VatLine -> int {
    (l: VatLine) => if Counts(rates, l, d, role) then l.debit - l.credit else 0
  }

  lemma AcceptedCounts(rates: Rates, l: VatLine)
    ensures Accepted(rates, l) <==> Configured(l) && (l.role == Base || l.role == Tax) && Rated(rates, l.stored.meta)
  {
  }

  lemma AmountOf(t: Taxed, tax: bool)
    ensures Amount(tax)(t) == if (t.line.role == Base) == tax then 0
                              else if t.meta.direction == Output then t.line.credit - t.line.debit
                              else t.line.debit - t.line.credit
  {
    assert Amount(tax)(t) == if tax then TaxAmount(t) else BaseAmount(t);
  }

  lemma OutputLine(rates: Rates, tax: bool, l: VatLine)
    ensures LineFor(rates, Output, tax)(l) == CreditNet(rates, Output, if tax then Tax else Base)(l)
  {
    AcceptedCounts(rates, l);
    if Accepted(rates, l) { AmountOf(Taxed(l, l.stored.meta), tax); }
    hide Accepted, Configured, Rated, Amount;
  }

  lemma OtherLine(rates: Rates, d: Direction, tax: bool, l: VatLine)
    requires d != Output
    ensures LineFor(rates, d, tax)(l) == DebitNet(rates, d, if tax then Tax else Base)(l)
  {
    AcceptedCounts(rates, l);
    if Accepted(rates, l) { AmountOf(Taxed(l, l.stored.meta), tax); }
    hide Accepted, Configured, Rated, Amount;
  }

  lemma OutputSum(rates: Rates, tax: bool, lines: seq<VatLine>)
    ensures SumOf(lines, LineFor(rates, Output, tax))
            == SumOf(lines, CreditNet(rates, Output, if tax then Tax else Base))
  {
    var f, g := LineFor(rates, Output, tax), CreditNet(rates, Output, if tax then Tax else Base);
    forall l | l in lines ensures f(l) == g(l) { OutputLine(rates, tax, l); }
    SumExt(lines, f, g);
  }

  lemma OtherSum(rates: Rates, d: Direction, tax: bool, lines: seq<VatLine>)
    requires d != Output
    ensures SumOf(lines, LineFor(rates, d, tax)) == SumOf(lines, DebitNet(rates, d, if tax then Tax else Base))
  {
    var f, g := LineFor(rates, d, tax), DebitNet(rates, d, if tax then Tax else Base);
    forall l | l in lines ensures f(l) == g(l) { OtherLine(rates, d, tax, l); }
    SumExt(lines, f, g);
  }

  /** Without a group of two directions: output base and output VAT are credit less debit of the output lines in role
      BASE and TAX, input base and input VAT debit less credit of the input lines, the base without VAT debit less
      credit of the exempt base lines, and the position is output VAT less input VAT. */
  lemma TotalsReadOff(rates: Rates, collate: (string, string) -> int, lines: seq<VatLine>)
    requires OneDirectionPerGroup(rates, lines)
    ensures var t := VatReport(rates, collate, lines).totals;
            && t.outputBase == SumOf(lines, CreditNet(rates, Output, Base))
            && t.outputVat == SumOf(lines, CreditNet(rates, Output, Tax))
            && t.inputBase == SumOf(lines, DebitNet(rates, Input, Base))
            && t.inputVat == SumOf(lines, DebitNet(rates, Input, Tax))
            && t.nonVatBase == SumOf(lines, DebitNet(rates, Exempt, Base))
            && t.vatPosition == t.outputVat - t.inputVat
  {
    hide *;
    var t := VatReport(rates, collate, lines).totals;
    OneDirectionTotalsArePlain(rates, collate, lines);
    PlainFive(rates, collate, lines);
    PositionIs(rates, collate, lines);
    OutputSum(rates, false, lines);
    OutputSum(rates, true, lines);
    OtherSum(rates, Input, false, lines);
    OtherSum(rates, Input, true, lines);
    OtherSum(rates, Exempt, false, lines);
  }

  lemma PlainFive(rates: Rates, collate: (string, string) -> int, lines: seq<VatLine>)
    requires PlainTotals(rates, collate, lines)
    ensures var t := VatReport(rates, collate, lines).totals;
            && t.outputBase == SumOf(lines, LineFor(rates, Output, false))
            && t.outputVat == SumOf(lines, LineFor(rates, Output, true))
            && t.inputBase == SumOf(lines, LineFor(rates, Input, false))
            && t.inputVat == SumOf(lines, LineFor(rates, Input, true))
            && t.nonVatBase == SumOf(lines, LineFor(rates, Exempt, false))
  {
    hide VatReport, LineFor;
    var t := VatReport(rates, collate, lines).totals;
    assert TotalOf(t, Output, false) == SumOf(lines, LineFor(rates, Output, false));
    assert TotalOf(t, Output, true) == SumOf(lines, LineFor(rates, Output, true));
    assert TotalOf(t, Input, false) == SumOf(lines, LineFor(rates, Input, false));
    assert TotalOf(t, Input, true) == SumOf(lines, LineFor(rates, Input, true));
    assert TotalOf(t, Exempt, false) == SumOf(lines, LineFor(rates, Exempt, false));
    hide SumOf;
  }

  lemma PositionIs(rates: Rates, collate: (string, string) -> int, lines: seq<VatLine>)
    ensures var t := VatReport(rates, collate, lines).totals; t.vatPosition == t.outputVat - t.inputVat
  {
    hide CodesOf, AllGroups, AcceptedLines, LineAnomalies, BalanceAnomalies, GroupAnomalies, SumOf;
  }

  /** Lines stand in one group when they agree in voucher and group, the VAT code standing for a missing group. */
  lemma SameGroupIff(a: VatLine, b: VatLine)
    requires Configured(a) && Configured(b)
    ensures KeyOf(Taxed(a, a.stored.meta)) == KeyOf(Taxed(b, b.stored.meta)) <==>
            a.entry == b.entry && (if a.group.Some? then a.group else a.vatCode) == (if b.group.Some? then b.group
                                                                                     else b.vatCode)
  {
  }

  // ---------------------------------------------------------------- amounts of one code

  /** Accepted lines of one group are configured alike. */
  predicate OneCodePerGroup(rates: Rates, lines: seq<VatLine>) {
    forall a, b :: a in lines && b in lines && Accepted(rates, a) && Accepted(rates, b)
                   && KeyOf(Taxed(a, a.stored.meta)) == KeyOf(Taxed(b, b.stored.meta))
                   ==> CodeOf(a.stored.meta) == CodeOf(b.stored.meta)
  }

  /** The line reports under that configuration of a code. */
  predicate Under(rates: Rates, l: VatLine, m: Snapshot, role: Role) {
    && Counts(rates, l, m.direction, role) && l.stored.meta.id == m.id && l.stored.meta.version == m.version
    && l.stored.meta.rate == m.rate && l.stored.meta.category == m.category
  }

  /** Output lines weigh credit less debit, the others debit less credit. */
  function NetUnder(rates: Rates, m: Snapshot, role: Role): VatLine -> int {
    (l: VatLine) =>
      if !Under(rates, l, m, role) then 0
      else if m.direction == Output then l.credit - l.debit else l.debit - l.credit
  }

  lemma CodeIsOwn(rates: Rates, lines: seq<VatLine>, t: Taxed)
    requires OneCodePerGroup(rates, lines) && t in AcceptedLines(rates, lines)
    ensures CodeOfLine(AcceptedLines(rates, lines), t) == CodeOf(t.meta)
  {
    var ts := AcceptedLines(rates, lines);
    InOwnGroup(ts, t);
    var first := GroupOf(ts, KeyOf(t))[0];
    assert first in GroupOf(ts, KeyOf(t));
    assert InGroup(KeyOf(t))(first) && first in ts;
    hide AcceptedLines;
  }

  function OwnCode(c: CodeKey, tax: bool): Taxed -> int {
    (t: Taxed) => if CodeOf(t.meta) == c then Amount(tax)(t) else 0
  }

  lemma OwnCodeLine(rates: Rates, m: Snapshot, tax: bool, l: VatLine)
    ensures Lifted(rates, OwnCode(CodeOf(m), tax))(l) == NetUnder(rates, m, if tax then Tax else Base)(l)
  {
    AcceptedCounts(rates, l);
    if Accepted(rates, l) { AmountOf(Taxed(l, l.stored.meta), tax); }
    hide Accepted, Configured, Rated, Amount;
  }

  lemma CodeTotalReadOff(rates: Rates, lines: seq<VatLine>, m: Snapshot, tax: bool)
    requires OneCodePerGroup(rates, lines)
    ensures CodeTotal(AcceptedLines(rates, lines), CodeOf(m), tax)
            == SumOf(lines, NetUnder(rates, m, if tax then Tax else Base))
  {
    var ts, c := AcceptedLines(rates, lines), CodeOf(m);
    var f, g := Lifted(rates, OwnCode(c, tax)), NetUnder(rates, m, if tax then Tax else Base);
    CodeTotalIsLineSum(ts, c, tax);
    forall t | t in ts ensures LineIn(ts, c, tax)(t) == OwnCode(c, tax)(t) {
      CodeIsOwn(rates, lines, t);
      hide CodeOfLine, Amount;
    }
    SumExt(ts, LineIn(ts, c, tax), OwnCode(c, tax));
    LiftedSum(rates, lines, OwnCode(c, tax));
    forall l | l in lines ensures f(l) == g(l) { OwnCodeLine(rates, m, tax, l); }
    SumExt(lines, f, g);
  }

  /** A code of the report shows the output lines under its configuration with credit less debit and the others with
      debit less credit, BASE lines as base and TAX lines as tax, when no group mixes configurations. */
  lemma CodeReadsOff(rates: Rates, collate: (string, string) -> int, lines: seq<VatLine>, b: Bucket)
    requires OneCodePerGroup(rates, lines) && b in VatReport(rates, collate, lines).codes
    ensures b.base == SumOf(lines, NetUnder(rates, b.meta, Base)) && b.tax == SumOf(lines, NetUnder(rates, b.meta, Tax))
  {
    hide *;
    var _ := BucketCode(rates, collate, lines, b);
    CodeTotalReadOff(rates, lines, b.meta, false);
    CodeTotalReadOff(rates, lines, b.meta, true);
  }

  /** Every accepted line is reported under its configuration, when no group mixes configurations. */
  lemma CodeIsListed(rates: Rates, collate: (string, string) -> int, lines: seq<VatLine>, l: VatLine)
    requires OneCodePerGroup(rates, lines) && l in lines && Accepted(rates, l)
    ensures exists b :: b in VatReport(rates, collate, lines).codes && CodeOf(b.meta) == CodeOf(l.stored.meta)
  {
    var ts, t := AcceptedLines(rates, lines), Taxed(l, l.stored.meta);
    var gs := AllGroups(ts);
    AcceptedMember(rates, lines, l);
    CodeIsOwn(rates, lines, t);
    InOwnGroup(ts, t);
    KeysHaveLines(ts, KeyOf(t));
    hide OneCodePerGroup, AcceptedLines, GroupOf, KeyOf, AllGroups, CodesOf, CodeKeys, LineAnomalies, BalanceAnomalies,
         GroupAnomalies, Entries, FirstWith;
    var k :| 0 <= k < |GroupKeys(ts)| && GroupKeys(ts)[k] == KeyOf(t);
    GroupCodeOfKey(ts, k);
    var i := ListedCode(gs, k);
    SortMembers(CodesOf(gs), ByCode(collate), CodesOf(gs)[i]);
  }

  lemma GroupCodeOfKey(ts: seq<Taxed>, k: nat)
    requires k < |GroupKeys(ts)| && GroupOf(ts, GroupKeys(ts)[k]) != []
    ensures k < |AllGroups(ts)| && GroupCode(AllGroups(ts)[k]) == CodeOf(GroupOf(ts, GroupKeys(ts)[k])[0].meta)
  {
    hide GroupKeys, GroupOf;
  }

  lemma ListedCode(gs: seq<Group>, k: nat) returns (i: nat)
    requires k < |gs|
    ensures i < |CodesOf(gs)| && CodeOf(CodesOf(gs)[i].meta) == GroupCode(gs[k])
  {
    hide FirstWith;
    assert Map(gs, GroupCode)[k] == GroupCode(gs[k]) && GroupCode(gs[k]) in CodeKeys(gs);
    i :| 0 <= i < |CodeKeys(gs)| && CodeKeys(gs)[i] == GroupCode(gs[k]);
  }

  // ---------------------------------------------------------------- warnings about one line

  /** The line carries an account expectation of that code: its own, or without a stored one that of the account. */
  predicate Expects(l: VatLine, code: string) {
    code != "" && match l.stored
                  case Full(m) => m.expected == Some(code)
                  case Partial(Some(e)) => e == Some(code)
                  case Partial(None) => l.accountExpected == Some(code)
                  case Absent => l.accountExpected == Some(code)
  }

  ghost predicate LineRaises(rates: Rates, l: VatLine, c: Code) {
    match c
    case MissingVatCode => !HasCode(l) && (l.role == Base || l.role == Tax || exists e :: Expects(l, e))
    case AccountConflict => HasCode(l) && exists e :: Expects(l, e) && l.vatCode != Some(e)
    case MissingSnapshot => HasCode(l) && !Configured(l)
    case UnclassifiedLine => Configured(l) && l.role != Base && l.role != Tax
    case InvalidRate => Configured(l) && (l.role == Base || l.role == Tax) && !Rated(rates, l.stored.meta)
    case _ => false
  }

  predicate IsLineCode(c: Code) {
    c == MissingVatCode || c == AccountConflict || c == MissingSnapshot || c == UnclassifiedLine || c == InvalidRate
  }

  lemma ExpectedIs(l: VatLine)
    ensures Present(Expected(l)) <==> exists e :: Expects(l, e)
    ensures forall e :: Expects(l, e) <==> e != "" && Expected(l) == Some(e)
  {
    if Present(Expected(l)) { assert Expects(l, Expected(l).value); }
  }

  lemma LineCodesMean(rates: Rates, l: VatLine, c: Code)
    requires IsLineCode(c)
    ensures c in LineCodes(rates, l) <==> LineRaises(rates, l, c)
  {
    ExpectedIs(l);
    hide Expected, Expects;
    if Present(Expected(l)) { assert Expects(l, Expected(l).value); }
  }

  ghost predicate RaisedBy(rates: Rates, lines: seq<VatLine>, x: Anomaly) {
    exists l :: l in lines && LineRaises(rates, l, x.code) && x.account == l.account && x.voucher == l.voucher
  }

  lemma WarnMeans(l: VatLine, codes: seq<Code>, x: Anomaly)
    ensures x in Warn(l, codes) <==> x.code in codes && x.account == l.account && x.voucher == l.voucher
  {
    var w := Warn(l, codes);
    if x.code in codes && x.account == l.account && x.voucher == l.voucher {
      var i :| 0 <= i < |codes| && codes[i] == x.code;
      assert w[i] == x;
    }
    if x in w { var i :| 0 <= i < |w| && w[i] == x; assert codes[i] in codes; }
  }

  lemma {:induction false} LineAnomalyIff(rates: Rates, lines: seq<VatLine>, x: Anomaly)
    requires IsLineCode(x.code)
    ensures x in LineAnomalies(rates, lines) <==> RaisedBy(rates, lines, x)
  {
    hide LineCodes, Warn, LineRaises, Mixes;
    if |lines| > 0 {
      var before, l := lines[..|lines| - 1], lines[|lines| - 1];
      assert lines == before + [l];
      LineAnomalyIff(rates, before, x);
      ScanStep(rates, before, l);
      var codes := LineCodes(rates, l) + if Mixes(rates, AcceptedLines(rates, before), l) then [MixedVatCodes] else [];
      WarnMeans(l, codes, x);
      LineCodesMean(rates, l, x.code);
      assert x.code in codes <==> x.code in LineCodes(rates, l);
    }
  }

  lemma {:induction false} BalanceCodes(lines: seq<VatLine>, es: seq<nat>, x: Anomaly)
    requires x in BalanceAnomalies(lines, es)
    ensures x.code == UnbalancedEntry
  {
    hide Warn, FirstOf;
    if |es| > 0 {
      var f := FirstOf(lines, es[|es| - 1]);
      if f.Some? { WarnMeans(f.value, [UnbalancedEntry], x); }
      if x in BalanceAnomalies(lines, es[..|es| - 1]) { BalanceCodes(lines, es[..|es| - 1], x); }
    }
  }

  predicate IsGroupCode(c: Code) {
    c == OrphanTax || c == MissingTaxLine || c == UnexpectedVatAmount || c == UnexpectedVatSide || c == RateBaseMismatch
  }

  lemma {:induction false} GroupAnomalyIsOf(rates: Rates, gs: seq<Group>, x: Anomaly)
    ensures x in GroupAnomalies(rates, gs) <==>
            exists g :: g in gs && x.code in GroupCodes(rates, g) && x.account == g.first.account
                        && x.voucher == g.first.voucher
  {
    hide Warn, GroupCodes;
    if |gs| > 0 {
      var before, g := gs[..|gs| - 1], gs[|gs| - 1];
      assert gs == before + [g];
      GroupAnomalyIsOf(rates, before, x);
      WarnMeans(g.first, GroupCodes(rates, g), x);
    }
  }

  lemma GroupCodesOnly(rates: Rates, g: Group, c: Code)
    requires c in GroupCodes(rates, g)
    ensures IsGroupCode(c)
  {
    hide ExpectedTax, RateOf;
  }

  /** A warning about a line is in the report if and only if some line gives reason for it. */
  lemma LineWarningIff(rates: Rates, collate: (string, string) -> int, lines: seq<VatLine>, x: Anomaly)
    requires IsLineCode(x.code)
    ensures x in VatReport(rates, collate, lines).anomalies <==> RaisedBy(rates, lines, x)
  {
    hide LineAnomalies, BalanceAnomalies, GroupAnomalies, AllGroups, Entries, CodesOf, RaisedBy, GroupCodes;
    var es, gs := Entries(lines), AllGroups(AcceptedLines(rates, lines));
    LineAnomalyIff(rates, lines, x);
    if x in BalanceAnomalies(lines, es) { BalanceCodes(lines, es, x); }
    GroupAnomalyIsOf(rates, gs, x);
    if x in GroupAnomalies(rates, gs) {
      var g :| g in gs && x.code in GroupCodes(rates, g);
      GroupCodesOnly(rates, g, x.code);
    }
  }

  // ---------------------------------------------------------------- warnings about vouchers and groups

  lemma {:induction false} SomeUnbalanced(lines: seq<VatLine>, es: seq<nat>)
    ensures (exists x :: x in BalanceAnomalies(lines, es)) <==>
            exists e :: e in es && FirstOf(lines, e).Some? && SumOf(lines, DebitIn(e)) != SumOf(lines, CreditIn(e))
  {
    hide Warn, FirstOf, SumOf;
    if |es| > 0 {
      var before, e := es[..|es| - 1], es[|es| - 1];
      assert es == before + [e];
      SomeUnbalanced(lines, before);
      var f := FirstOf(lines, e);
      if f.Some? && SumOf(lines, DebitIn(e)) != SumOf(lines, CreditIn(e)) {
        var x := Anomaly(UnbalancedEntry, f.value.account, f.value.voucher);
        WarnMeans(f.value, [UnbalancedEntry], x);
        assert x in BalanceAnomalies(lines, es);
      }
      if x :| x in BalanceAnomalies(lines, before) { assert x in BalanceAnomalies(lines, es); }
    }
  }

  /** The report warns of unbalanced vouchers if and only if debit and credit of some voucher differ. */
  lemma VoucherWarningIff(rates: Rates, collate: (string, string) -> int, lines: seq<VatLine>)
    ensures (exists x :: x in VatReport(rates, collate, lines).anomalies && x.code == UnbalancedEntry) <==>
            exists e: nat :: SumOf(lines, DebitIn(e)) != SumOf(lines, CreditIn(e))
  {
    SomeUnbalanced(lines, Entries(lines));
    OnlyVouchersUnbalanced(rates, collate, lines);
    hide VatReport, BalanceAnomalies, FirstOf, Entries, SumOf;
    forall e: nat
      ensures e in Entries(lines) <==> FirstOf(lines, e).Some?
      ensures e !in Entries(lines) ==> SumOf(lines, DebitIn(e)) == SumOf(lines, CreditIn(e))
    {
      EntriesAreUsed(lines, e);
    }
  }

  lemma OnlyVouchersUnbalanced(rates: Rates, collate: (string, string) -> int, lines: seq<VatLine>)
    ensures (exists x :: x in VatReport(rates, collate, lines).anomalies && x.code == UnbalancedEntry) <==>
            exists x :: x in BalanceAnomalies(lines, Entries(lines))
  {
    var es, gs := Entries(lines), AllGroups(AcceptedLines(rates, lines));
    hide LineAnomalies, BalanceAnomalies, GroupAnomalies, AllGroups, Entries, CodesOf, GroupCodes, AcceptedLines;
    forall x | x in LineAnomalies(rates, lines) ensures x.code != UnbalancedEntry { LineAnomalyCodes(rates, lines, x); }
    forall x | x in GroupAnomalies(rates, gs) ensures x.code != UnbalancedEntry {
      GroupAnomalyIsOf(rates, gs, x);
      var g :| g in gs && x.code in GroupCodes(rates, g);
      GroupCodesOnly(rates, g, x.code);
    }
    forall x | x in BalanceAnomalies(lines, es) ensures x.code == UnbalancedEntry { BalanceCodes(lines, es, x); }
    assert VatReport(rates, collate, lines).anomalies
           == LineAnomalies(rates, lines) + BalanceAnomalies(lines, es) + GroupAnomalies(rates, gs);
  }

  /** Two lines that count stand in one group under different configurations. */
  predicate Mixed(rates: Rates, a: VatLine, b: VatLine) {
    && Accepted(rates, a) && Accepted(rates, b) && KeyOf(Taxed(a, a.stored.meta)) == KeyOf(Taxed(b, b.stored.meta))
    && (a.stored.meta.id != b.stored.meta.id || a.stored.meta.version != b.stored.meta.version
        || a.stored.meta.rate != b.stored.meta.rate || a.stored.meta.direction != b.stored.meta.direction)
  }

  lemma {:induction false} MixedIsFound(rates: Rates, lines: seq<VatLine>)
    ensures MixedVatCodes in AnomalyCodes(LineAnomalies(rates, lines)) ==>
            exists a, b :: a in lines && b in lines && Mixed(rates, a, b)
  {
    if |lines| > 0 {
      var before, l := lines[..|lines| - 1], lines[|lines| - 1];
      assert lines == before + [l];
      MixedIsFound(rates, before);
      ScanStep(rates, before, l);
      var ts := AcceptedLines(rates, before);
      var codes := LineCodes(rates, l) + if Mixes(rates, ts, l) then [MixedVatCodes] else [];
      CodesOfWarn(LineAnomalies(rates, before), l, codes);
      hide GoodRate;
      if Mixes(rates, ts, l) {
        var g := GroupOf(ts, KeyOf(Taxed(l, l.stored.meta)));
        assert g[0] in g && InGroup(KeyOf(Taxed(l, l.stored.meta)))(g[0]);
        assert Mixed(rates, g[0].line, l);
      }
    } else {
      NoLinesNoAnomaly(rates);
    }
  }

  /** The report warns of mixed codes if and only if some group holds two lines under different configurations. */
  lemma MixWarningIff(rates: Rates, collate: (string, string) -> int, lines: seq<VatLine>)
    ensures MixedVatCodes in AnomalyCodes(VatReport(rates, collate, lines).anomalies) <==>
            exists a, b :: a in lines && b in lines && Mixed(rates, a, b)
  {
    OnlyLinesMix(rates, collate, lines);
    MixedIsFound(rates, lines);
    hide VatReport, LineAnomalies, AnomalyCodes, GroupOf, Mixed, Accepted;
    if MixedVatCodes !in AnomalyCodes(LineAnomalies(rates, lines)) {
      forall a, b | a in lines && b in lines ensures !Mixed(rates, a, b) { UnmixedPair(rates, lines, a, b); }
    }
  }

  lemma UnmixedPair(rates: Rates, lines: seq<VatLine>, a: VatLine, b: VatLine)
    requires MixedVatCodes !in AnomalyCodes(LineAnomalies(rates, lines)) && a in lines && b in lines
    ensures !Mixed(rates, a, b)
  {
    hide LineAnomalies, AnomalyCodes, GroupOf, GoodRate;
    if Accepted(rates, a) && Accepted(rates, b) {
      AcceptedMember(rates, lines, a);
      AcceptedMember(rates, lines, b);
      UnmixedLines(rates, lines, Taxed(a, a.stored.meta));
      UnmixedLines(rates, lines, Taxed(b, b.stored.meta));
    }
  }

  lemma OnlyLinesMix(rates: Rates, collate: (string, string) -> int, lines: seq<VatLine>)
    ensures MixedVatCodes in AnomalyCodes(VatReport(rates, collate, lines).anomalies) <==>
            MixedVatCodes in AnomalyCodes(LineAnomalies(rates, lines))
  {
    var es, gs := Entries(lines), AllGroups(AcceptedLines(rates, lines));
    var first := LineAnomalies(rates, lines);
    var rest := BalanceAnomalies(lines, es) + GroupAnomalies(rates, gs);
    hide LineAnomalies, BalanceAnomalies, GroupAnomalies, AllGroups, Entries, CodesOf, GroupCodes, AcceptedLines;
    forall x | x in GroupAnomalies(rates, gs) ensures x.code != MixedVatCodes {
      GroupAnomalyIsOf(rates, gs, x);
      var g :| g in gs && x.code in GroupCodes(rates, g);
      GroupCodesOnly(rates, g, x.code);
    }
    forall x | x in BalanceAnomalies(lines, es) ensures x.code != MixedVatCodes { BalanceCodes(lines, es, x); }
    assert VatReport(rates, collate, lines).anomalies == first + rest;
    MapAppend(first, rest, CodeOfAnomaly);
    forall i | 0 <= i < |rest| ensures AnomalyCodes(rest)[i] != MixedVatCodes { assert rest[i] in rest; }
  }

  /** A group is read as its BASE lines and its TAX lines. */
  function BaseNet(t: Taxed): int {
    if t.line.role != Base then 0
    else if t.meta.direction == Output then t.line.credit - t.line.debit else t.line.debit - t.line.credit
  }

  function TaxNet(t: Taxed): int {
    if t.line.role == Base then 0
    else if t.meta.direction == Output then t.line.credit - t.line.debit else t.line.debit - t.line.credit
  }

  predicate HasBase(g: seq<Taxed>) { exists t :: t in g && t.line.role == Base }

  predicate HasTax(g: seq<Taxed>) { exists t :: t in g && t.line.role != Base }

  /** The reasons for a warning about a group, whose first line decides rate and direction. */
  predicate GroupRaises(rates: Rates, g: seq<Taxed>, c: Code)
    requires g != []
  {
    var rate := if rates(g[0].meta.rate).Some? then rates(g[0].meta.rate).value else 0;
    var base, tax := SumOf(g, BaseNet), SumOf(g, TaxNet);
    match c
    case OrphanTax => HasTax(g) && !HasBase(g)
    case MissingTaxLine => HasBase(g) && !HasTax(g) && rate > 0
    case UnexpectedVatAmount => g[0].meta.direction == Exempt && HasTax(g)
    case UnexpectedVatSide => HasBase(g) && HasTax(g) && (base > 0 > tax || tax > 0 > base)
    case RateBaseMismatch => ExpectedTax(base, rate) != tax
    case _ => false
  }

  lemma {:induction false} CountsMean(g: seq<Taxed>)
    ensures SumOf(g, IsBase) >= 0 && SumOf(g, IsTax) >= 0
    ensures SumOf(g, IsBase) > 0 <==> HasBase(g)
    ensures SumOf(g, IsTax) > 0 <==> HasTax(g)
  {
    if |g| > 0 {
      CountsMean(g[..|g| - 1]);
      assert g == g[..|g| - 1] + [g[|g| - 1]];
    }
  }

  lemma SidesDiffer(a: int, b: int)
    ensures a * b < 0 <==> (a > 0 > b || b > 0 > a)
  {
    if a > 0 && b > 0 { assert a * b > 0; }
    if a < 0 && b < 0 { assert a * b == (-a) * (-b) && (-a) * (-b) > 0; }
    if a > 0 && b < 0 { assert a * -b > 0; }
    if a < 0 && b > 0 { assert -a * b > 0; }
  }

  lemma GroupNets(g: seq<Taxed>)
    requires g != []
    ensures MakeGroup(g).base == SumOf(g, BaseNet) && MakeGroup(g).tax == SumOf(g, TaxNet)
    ensures MakeGroup(g).bases == SumOf(g, IsBase) && MakeGroup(g).taxes == SumOf(g, IsTax)
    ensures MakeGroup(g).meta == g[0].meta && MakeGroup(g).first == g[0].line
  {
    SumExt(g, BaseAmount, BaseNet);
    SumExt(g, TaxAmount, TaxNet);
  }

  lemma GroupCodesMean(rates: Rates, g: seq<Taxed>, c: Code)
    requires g != []
    ensures c in GroupCodes(rates, MakeGroup(g)) <==> GroupRaises(rates, g, c)
  {
    GroupNets(g);
    CountsMean(g);
    SidesDiffer(SumOf(g, BaseNet), SumOf(g, TaxNet));
    hide MakeGroup, SumOf, HasBase, HasTax, ExpectedTax;
  }

  /** A warning about a group is in the report if and only if the lines of some group give reason for it; it names the
      first of these lines. */
  lemma GroupWarningIff(rates: Rates, collate: (string, string) -> int, lines: seq<VatLine>, x: Anomaly)
    requires IsGroupCode(x.code)
    ensures x in VatReport(rates, collate, lines).anomalies <==>
            exists k :: var g := GroupOf(AcceptedLines(rates, lines), k);
              && g != [] && GroupRaises(rates, g, x.code)
              && x.account == g[0].line.account && x.voucher == g[0].line.voucher
  {
    var ts := AcceptedLines(rates, lines);
    GroupPart(rates, collate, lines, x);
    GroupAnomalyIsOf(rates, AllGroups(ts), x);
    hide VatReport, GroupAnomalies, GroupRaises, GroupCodes, GroupOf, AcceptedLines;
    forall k ensures k in GroupKeys(ts) <==> GroupOf(ts, k) != [] { KeysHaveLines(ts, k); }
    if x in GroupAnomalies(rates, AllGroups(ts)) {
      var g :| g in AllGroups(ts) && x.code in GroupCodes(rates, g) && x.account == g.first.account
               && x.voucher == g.first.voucher;
      var i :| 0 <= i < |AllGroups(ts)| && AllGroups(ts)[i] == g;
      var k := GroupKeys(ts)[i];
      assert k in GroupKeys(ts);
      GroupCodesMean(rates, GroupOf(ts, k), x.code);
      GroupNets(GroupOf(ts, k));
    }
    forall k | GroupOf(ts, k) != [] && GroupRaises(rates, GroupOf(ts, k), x.code)
               && x.account == GroupOf(ts, k)[0].line.account && x.voucher == GroupOf(ts, k)[0].line.voucher
      ensures x in GroupAnomalies(rates, AllGroups(ts))
    {
      GroupCodesMean(rates, GroupOf(ts, k), x.code);
      GroupNets(GroupOf(ts, k));
      var i :| 0 <= i < |GroupKeys(ts)| && GroupKeys(ts)[i] == k;
      assert AllGroups(ts)[i] in AllGroups(ts);
    }
  }

  lemma GroupPart(rates: Rates, collate: (string, string) -> int, lines: seq<VatLine>, x: Anomaly)
    requires IsGroupCode(x.code)
    ensures x in VatReport(rates, collate, lines).anomalies <==>
            x in GroupAnomalies(rates, AllGroups(AcceptedLines(rates, lines)))
  {
    hide LineAnomalies, BalanceAnomalies, GroupAnomalies, AllGroups, Entries, CodesOf;
    if x in LineAnomalies(rates, lines) { LineAnomalyCodes(rates, lines, x); }
    if x in BalanceAnomalies(lines, Entries(lines)) { BalanceCodes(lines, Entries(lines), x); }
  }

  lemma {:induction false} LineAnomalyCodes(rates: Rates, lines: seq<VatLine>, x: Anomaly)
    requires x in LineAnomalies(rates, lines)
    ensures IsLineCode(x.code) || x.code == MixedVatCodes
  {
    if |lines| > 0 {
      var before, l := lines[..|lines| - 1], lines[|lines| - 1];
      hide LineAnomalies, Mixes, Warn, LineCodes, AcceptedLines;
      assert lines == before + [l];
      ScanStep(rates, before, l);
      forall c | c in LineCodes(rates, l) ensures IsLineCode(c) { LineCodesOnly(rates, l, c); }
      var codes := LineCodes(rates, l) + if Mixes(rates, AcceptedLines(rates, before), l) then [MixedVatCodes] else [];
      WarnMeans(l, codes, x);
      if x in LineAnomalies(rates, before) { LineAnomalyCodes(rates, before, x); }
    } else {
      NoLinesNoAnomaly(rates);
    }
  }

  lemma LineCodesOnly(rates: Rates, l: VatLine, c: Code)
    requires c in LineCodes(rates, l)
    ensures IsLineCode(c)
  {
    hide Expected, GoodRate;
  }

  lemma NoLinesNoAnomaly(rates: Rates)
    ensures LineAnomalies(rates, []) == []
  {
  }
}
