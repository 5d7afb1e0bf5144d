/** Laws of the VAT engine: conservation from lines to codes, the rounding bound, and the neutrality
    of a correction voucher. */
module VatLaws {
  import opened Common
  import opened Vat

  // ---------------------------------------------------------------- lines and codes

  function Amount(tax: bool): Taxed -> int { if tax then TaxAmount else BaseAmount }

  function GroupAmount(tax: bool): Group -> int { (g: Group) => if tax then g.tax else g.base }

  /** The code a line is reported under: that of the first line of its group. */
  function CodeOfLine(ts: seq<Taxed>, t: Taxed): CodeKey {
    var g := GroupOf(ts, KeyOf(t));
    if g == [] then CodeOf(t.meta) else CodeOf(g[0].meta)
  }

  function LineIn(ts: seq<Taxed>, c: CodeKey, tax: bool): Taxed -> int {
    (t: Taxed) => if CodeOfLine(ts, t) == c then Amount(tax)(t) else 0
  }

  function CodeIn(c: CodeKey, tax: bool): Group -> int { if tax then TaxIn(c) else BaseIn(c) }

  /** Base or tax reported for code `c` when the accepted lines are `ts`. */
  function CodeTotal(ts: seq<Taxed>, c: CodeKey, tax: bool): int {
    SumOf(AllGroups(ts), CodeIn(c, tax))
  }

  lemma GroupSharesCode(ts: seq<Taxed>, k: Key, c: CodeKey, tax: bool)
    requires GroupOf(ts, k) != []
    ensures CodeIn(c, tax)(MakeGroup(GroupOf(ts, k))) == SumOf(GroupOf(ts, k), LineIn(ts, c, tax))
  {
    var g := GroupOf(ts, k);
    forall t | t in g ensures CodeOfLine(ts, t) == CodeOf(g[0].meta) {
      assert InGroup(k)(t);
    }
    if CodeOf(g[0].meta) == c {
      SumExt(g, LineIn(ts, c, tax), Amount(tax));
    } else {
      SumZero(g, LineIn(ts, c, tax));
    }
  }

  lemma GroupIsKeySum(ts: seq<Taxed>, k: Key, c: CodeKey, tax: bool)
    requires GroupOf(ts, k) != []
    ensures CodeIn(c, tax)(MakeGroup(GroupOf(ts, k))) == PerKey(ts, KeyOf, LineIn(ts, c, tax))(k)
  {
    GroupSharesCode(ts, k, c, tax);
    hide CodeIn, MakeGroup, LineIn;
    SumFilter(ts, InGroup(k), LineIn(ts, c, tax));
    SumExt(ts, Where(InGroup(k), LineIn(ts, c, tax)), Only(KeyOf, k, LineIn(ts, c, tax)));
  }

  lemma {:induction false} GroupsSum(ts: seq<Taxed>, ks: seq<Key>, c: CodeKey, tax: bool)
    requires forall k :: k in ks ==> GroupOf(ts, k) != []
    ensures SumOf(Groups(ts, ks), CodeIn(c, tax)) == SumOf(ks, PerKey(ts, KeyOf, LineIn(ts, c, tax)))
  {
    hide CodeIn, MakeGroup, LineIn, GroupOf, PerKey;
    if |ks| > 0 {
      var k := ks[|ks| - 1];
      GroupsSum(ts, ks[..|ks| - 1], c, tax);
      GroupIsKeySum(ts, k, c, tax);
      SumSnoc(Groups(ts, ks[..|ks| - 1]), MakeGroup(GroupOf(ts, k)), CodeIn(c, tax));
    }
  }

  /** Conservation: what a code reports is the signed sum of the lines reported under it. Grouping
      neither loses an amount nor counts one twice. */
  lemma CodeTotalIsLineSum(ts: seq<Taxed>, c: CodeKey, tax: bool)
    ensures CodeTotal(ts, c, tax) == SumOf(ts, LineIn(ts, c, tax))
  {
    var ks := GroupKeys(ts);
    forall k | k in ks ensures GroupOf(ts, k) != [] { KeysHaveLines(ts, k); }
    GroupsSum(ts, ks, c, tax);
    Partition(ts, KeyOf, ks, LineIn(ts, c, tax));
    assert forall t :: t in ts ==> KeyOf(t) in ks by {
      forall t | t in ts ensures KeyOf(t) in ks {
        var i :| 0 <= i < |ts| && ts[i] == t;
        assert Map(ts, KeyOf)[i] == KeyOf(t);
      }
    }
    SumExt(ts, Among(KeyOf, ks, LineIn(ts, c, tax)), LineIn(ts, c, tax));
  }

  // ---------------------------------------------------------------- reversal

  /** The line a correction voucher posts for `l`: sides exchanged, everything read by the engine copied. */
  function Image(l: VatLine, entry: nat, voucher: string): VatLine {
    l.(entry := entry, voucher := voucher, debit := l.credit, credit := l.debit)
  }

  function ImageOf(entry: nat, voucher: string): VatLine -> VatLine { (l: VatLine) => Image(l, entry, voucher) }

  function TaxedImage(entry: nat, voucher: string): Taxed -> Taxed {
    (t: Taxed) => Taxed(Image(t.line, entry, voucher), t.meta)
  }

  function OfEntry(e: nat): VatLine -> bool { (l: VatLine) => l.entry == e }

  function TaxedOf(e: nat): Taxed -> bool { (t: Taxed) => t.line.entry == e }

  function NotOf(o: nat, r: nat): VatLine -> bool { (l: VatLine) => l.entry != o && l.entry != r }

  function TaxedNotOf(o: nat, r: nat): Taxed -> bool { (t: Taxed) => t.line.entry != o && t.line.entry != r }

  /** Entry `r` corrects entry `o` within `lines`: its lines are the images of o's, in order. */
  ghost predicate Corrects(lines: seq<VatLine>, o: nat, r: nat, voucher: string) {
    o != r && Filter(lines, OfEntry(r)) == Map(Filter(lines, OfEntry(o)), ImageOf(r, voucher))
  }

  lemma {:induction false} AcceptedFilter(rates: Rates, lines: seq<VatLine>, p: VatLine -> bool, q: Taxed -> bool)
    requires forall l, m :: q(Taxed(l, m)) == p(l)
    ensures AcceptedLines(rates, Filter(lines, p)) == Filter(AcceptedLines(rates, lines), q)
  {
    if |lines| > 0 {
      var before, l := lines[..|lines| - 1], lines[|lines| - 1];
      AcceptedFilter(rates, before, p, q);
      if p(l) { ScanStep(rates, Filter(before, p), l); }
      if Accepted(rates, l) {
        FilterAppend(AcceptedLines(rates, before), [Taxed(l, l.stored.meta)], q); FilterOne(Taxed(l, l.stored.meta), q);
      }
    }
  }

  lemma FilterOne<T(!new)>(x: T, p: T -> bool)
    ensures Filter([x], p) == if p(x) then [x] else []
  {
    assert [x][..0] == [];
  }

  lemma ImageRead(rates: Rates, l: VatLine, r: nat, voucher: string)
    ensures ImageOf(r, voucher)(l).stored == l.stored
    ensures Accepted(rates, ImageOf(r, voucher)(l)) == Accepted(rates, l)
    ensures Accepted(rates, l) ==> l.stored.Full?
    ensures Accepted(rates, l) ==>
            TaxedImage(r, voucher)(Taxed(l, l.stored.meta)) == Taxed(ImageOf(r, voucher)(l), l.stored.meta)
  {
  }

  lemma {:induction false} AcceptedImage(rates: Rates, lines: seq<VatLine>, r: nat, voucher: string)
    ensures AcceptedLines(rates, Map(lines, ImageOf(r, voucher)))
            == Map(AcceptedLines(rates, lines), TaxedImage(r, voucher))
  {
    hide Accepted, ImageOf, TaxedImage;
    if |lines| > 0 {
      var before, l := lines[..|lines| - 1], lines[|lines| - 1];
      var im := ImageOf(r, voucher);
      AcceptedImage(rates, before, r, voucher);
      ImageRead(rates, l, r, voucher);
      hide Map, AcceptedLines;
      assert lines == before + [l];
      MapSnoc(before, l, im);
      ScanStep(rates, before, l);
      ScanStep(rates, Map(before, im), im(l));
      if Accepted(rates, l) {
        MapSnoc(AcceptedLines(rates, before), Taxed(l, l.stored.meta), TaxedImage(r, voucher));
      }
    }
  }

  /** Groups never cross entries, so a group can be found among the lines of its entry alone. */
  lemma GroupWithinEntry(ts: seq<Taxed>, k: Key, p: Taxed -> bool)
    requires forall t: Taxed :: t.line.entry == k.entry ==> p(t)
    ensures GroupOf(ts, k) == GroupOf(Filter(ts, p), k)
  {
    FilterFilter(ts, p, InGroup(k));
    FilterExt(ts, InGroup(k), Both(p, InGroup(k)));
  }

  /** The image lines fall into the image groups. */
  lemma GroupOfImage(ts: seq<Taxed>, o: nat, r: nat, voucher: string, g: string)
    requires forall t :: t in ts ==> t.line.entry == o
    ensures GroupOf(Map(ts, TaxedImage(r, voucher)), Key(r, g)) == Map(GroupOf(ts, Key(o, g)), TaxedImage(r, voucher))
  {
    var im := TaxedImage(r, voucher);
    FilterMap(ts, im, InGroup(Key(r, g)));
    FilterExt(ts, Then(im, InGroup(Key(r, g))), InGroup(Key(o, g)));
  }

  lemma ImageKeepsCode(ts: seq<Taxed>, o: nat, r: nat, voucher: string, t: Taxed)
    requires o != r && t in ts && t.line.entry == o
    requires Filter(ts, TaxedOf(r)) == Map(Filter(ts, TaxedOf(o)), TaxedImage(r, voucher))
    ensures CodeOfLine(ts, TaxedImage(r, voucher)(t)) == CodeOfLine(ts, t)
  {
    var k := KeyOf(t);
    var k' := Key(r, k.group);
    GroupWithinEntry(ts, k, TaxedOf(o));
    GroupWithinEntry(ts, k', TaxedOf(r));
    GroupOfImage(Filter(ts, TaxedOf(o)), o, r, voucher, k.group);
    assert InGroup(k)(t) && t in GroupOf(ts, k);
    assert GroupOf(ts, k') == Map(GroupOf(ts, k), TaxedImage(r, voucher));
    assert KeyOf(TaxedImage(r, voucher)(t)) == k';
    assert GroupOf(ts, k')[0] == TaxedImage(r, voucher)(GroupOf(ts, k)[0]);
  }

  /** The contribution of entry e to code c. */
  function EntryLineIn(ts: seq<Taxed>, c: CodeKey, tax: bool, e: nat): Taxed -> int {
    (t: Taxed) => if TaxedOf(e)(t) then LineIn(ts, c, tax)(t) else 0
  }

  lemma ImageLineNegates(ts: seq<Taxed>, o: nat, r: nat, voucher: string, c: CodeKey, tax: bool, t: Taxed)
    requires o != r && t in ts && t.line.entry == o
    requires Filter(ts, TaxedOf(r)) == Map(Filter(ts, TaxedOf(o)), TaxedImage(r, voucher))
    ensures LineIn(ts, c, tax)(TaxedImage(r, voucher)(t)) == -LineIn(ts, c, tax)(t)
  {
    hide CodeOfLine, Amount, TaxedImage;
    ImageKeepsCode(ts, o, r, voucher, t);
    AmountNegates(t, r, voucher, tax);
  }

  lemma AmountNegates(t: Taxed, r: nat, voucher: string, tax: bool)
    ensures Amount(tax)(TaxedImage(r, voucher)(t)) == -Amount(tax)(t)
  {
  }

  lemma {:induction false} SumNegated<T>(s: seq<T>, f: T -> int, g: T -> int)
    requires forall x :: x in s ==> g(x) == -f(x)
    ensures SumOf(s, g) == -SumOf(s, f)
  {
    if |s| > 0 { SumNegated(s[..|s| - 1], f, g); }
  }

  lemma EntrySum(ts: seq<Taxed>, c: CodeKey, tax: bool, e: nat)
    ensures SumOf(ts, EntryLineIn(ts, c, tax, e)) == SumOf(Filter(ts, TaxedOf(e)), LineIn(ts, c, tax))
  {
    SumFilter(ts, TaxedOf(e), LineIn(ts, c, tax));
    SumExt(ts, Where(TaxedOf(e), LineIn(ts, c, tax)), EntryLineIn(ts, c, tax, e));
  }

  lemma EntriesCancel(ts: seq<Taxed>, o: nat, r: nat, voucher: string, c: CodeKey, tax: bool)
    requires o != r && Filter(ts, TaxedOf(r)) == Map(Filter(ts, TaxedOf(o)), TaxedImage(r, voucher))
    ensures SumOf(ts, EntryLineIn(ts, c, tax, o)) + SumOf(ts, EntryLineIn(ts, c, tax, r)) == 0
  {
    var f := LineIn(ts, c, tax);
    var a := Filter(ts, TaxedOf(o));
    var im := TaxedImage(r, voucher);
    EntrySum(ts, c, tax, o);
    EntrySum(ts, c, tax, r);
    hide EntryLineIn;
    SumMap(a, im, f);
    forall t | t in a ensures f(im(t)) == -f(t) {
      assert TaxedOf(o)(t);
      ImageLineNegates(ts, o, r, voucher, c, tax, t);
    }
    SumNegated(a, f, Then(im, f));
  }

  function RestLineIn(ts: seq<Taxed>, c: CodeKey, tax: bool, o: nat, r: nat): Taxed -> int {
    (t: Taxed) => if TaxedNotOf(o, r)(t) then LineIn(ts, c, tax)(t) else 0
  }

  lemma RestUnaffected(ts: seq<Taxed>, o: nat, r: nat, c: CodeKey, tax: bool)
    ensures var rest := Filter(ts, TaxedNotOf(o, r));
            SumOf(rest, LineIn(rest, c, tax)) == SumOf(ts, RestLineIn(ts, c, tax, o, r))
  {
    var p := TaxedNotOf(o, r);
    var rest := Filter(ts, p);
    forall t | t in rest ensures LineIn(rest, c, tax)(t) == LineIn(ts, c, tax)(t) {
      assert TaxedNotOf(o, r)(t);
      GroupWithinEntry(ts, KeyOf(t), p);
      assert CodeOfLine(rest, t) == CodeOfLine(ts, t);
    }
    SumExt(rest, LineIn(rest, c, tax), LineIn(ts, c, tax));
    SumFilter(ts, p, LineIn(ts, c, tax));
    SumExt(ts, Where(p, LineIn(ts, c, tax)), RestLineIn(ts, c, tax, o, r));
  }

  /** Over a report that contains a voucher and its correction, in whatever line order, every code shows
      the same base and tax as if neither voucher existed. */
  lemma CorrectionIsNeutral(rates: Rates, lines: seq<VatLine>, o: nat, r: nat, voucher: string, c: CodeKey, tax: bool)
    requires Corrects(lines, o, r, voucher)
    ensures CodeTotal(AcceptedLines(rates, lines), c, tax)
            == CodeTotal(AcceptedLines(rates, Filter(lines, NotOf(o, r))), c, tax)
  {
    var ts := AcceptedLines(rates, lines);
    var p := TaxedNotOf(o, r);
    AcceptedFilter(rates, lines, NotOf(o, r), p);
    AcceptedFilter(rates, lines, OfEntry(o), TaxedOf(o));
    AcceptedFilter(rates, lines, OfEntry(r), TaxedOf(r));
    AcceptedImage(rates, Filter(lines, OfEntry(o)), r, voucher);
    CodeTotalIsLineSum(ts, c, tax);
    CodeTotalIsLineSum(Filter(ts, p), c, tax);
    EntriesCancel(ts, o, r, voucher, c, tax);
    RestUnaffected(ts, o, r, c, tax);
    var fo, fr := EntryLineIn(ts, c, tax, o), EntryLineIn(ts, c, tax, r);
    var both := (x: Taxed) => fo(x) + fr(x);
    SumAdd(ts, fo, fr, both);
    SumAdd(ts, both, RestLineIn(ts, c, tax, o, r), LineIn(ts, c, tax));
  }

  /** In particular a voucher and its correction alone report zero base and zero tax for every code. */
  lemma VoucherPlusCorrectionIsZero(rates: Rates, lines: seq<VatLine>, o: nat, r: nat, voucher: string,
        collate: (string, string) -> int, b: Bucket)
    requires o != r && forall l :: l in lines ==> l.entry == o
    requires b in VatReport(rates, collate, lines + Map(lines, ImageOf(r, voucher))).codes
    ensures b.base == 0 && b.tax == 0
  {
    var all := lines + Map(lines, ImageOf(r, voucher));
    PairLeavesNothing(lines, o, r, voucher);
    hide *;
    var ts := AcceptedLines(rates, all);
    PairCorrects(lines, o, r, voucher);
    var c := BucketCode(rates, collate, all, b);
    CorrectionIsNeutral(rates, all, o, r, voucher, c, false);
    CorrectionIsNeutral(rates, all, o, r, voucher, c, true);
    FilterNone(all, NotOf(o, r));
    NothingReported(rates, c, false);
    NothingReported(rates, c, true);
  }

  lemma PairLeavesNothing(lines: seq<VatLine>, o: nat, r: nat, voucher: string)
    requires forall l :: l in lines ==> l.entry == o
    ensures forall l :: l in lines + Map(lines, ImageOf(r, voucher)) ==> !NotOf(o, r)(l)
  {
  }

  lemma NothingReported(rates: Rates, c: CodeKey, tax: bool)
    ensures CodeTotal(AcceptedLines(rates, []), c, tax) == 0
  {
  }

  /** A row of the report is the total of one code. */
  lemma BucketCode(rates: Rates, collate: (string, string) -> int, lines: seq<VatLine>, b: Bucket) returns (c: CodeKey)
    requires b in VatReport(rates, collate, lines).codes
    ensures var ts := AcceptedLines(rates, lines);
            b.base == CodeTotal(ts, c, false) && b.tax == CodeTotal(ts, c, true) && CodeOf(b.meta) == c
  {
    var gs := AllGroups(AcceptedLines(rates, lines));
    SortMembers(CodesOf(gs), ByCode(collate), b);
    var i :| 0 <= i < |CodesOf(gs)| && CodesOf(gs)[i] == b;
    c := CodeKeys(gs)[i];
  }

  lemma PairCorrects(lines: seq<VatLine>, o: nat, r: nat, voucher: string)
    requires o != r && forall l :: l in lines ==> l.entry == o
    ensures Corrects(lines + Map(lines, ImageOf(r, voucher)), o, r, voucher)
  {
    var im := Map(lines, ImageOf(r, voucher));
    FilterAppend(lines, im, OfEntry(o));
    FilterAppend(lines, im, OfEntry(r));
    FilterAll(lines, OfEntry(o));
    FilterAll(im, OfEntry(r));
    FilterNone(lines, OfEntry(r));
    FilterNone(im, OfEntry(o));
  }

  lemma {:induction false} FilterAll<T(!new)>(s: seq<T>, p: T -> bool)
    requires forall x :: x in s ==> p(x)
    ensures Filter(s, p) == s
  {
    if |s| > 0 { FilterAll(s[..|s| - 1], p); }
  }

  lemma FilterNone<T(!new)>(s: seq<T>, p: T -> bool)
    requires forall x :: x in s ==> !p(x)
    ensures Filter(s, p) == []
  {
    if Filter(s, p) != [] { assert Filter(s, p)[0] in Filter(s, p); }
  }

  // ---------------------------------------------------------------- anomalies of a correction

  function CodeOfAnomaly(a: Anomaly): Code { a.code }

  function AnomalyCodes(s: seq<Anomaly>): seq<Code> { Map(s, CodeOfAnomaly) }

  lemma CodesOfWarn(before: seq<Anomaly>, l: VatLine, codes: seq<Code>)
    ensures AnomalyCodes(before + Warn(l, codes)) == AnomalyCodes(before) + codes
  {
  }

  lemma RoundingIsOdd(n: int, d: int)
    requires d > 0
    ensures RoundHalfUp(-n, d) == -RoundHalfUp(n, d)
  {
    if n == 0 { assert (2 * 0 + d) / (2 * d) == 0; }
  }

  lemma NegatedGroupCodes(rates: Rates, g: Group, h: Group)
    requires Opposite(g, h)
    ensures GroupCodes(rates, h) == GroupCodes(rates, g)
  {
    ExpectedTaxIsOdd(g.base, RateOf(rates, g.meta));
    SameProduct(g.base, g.tax);
    hide ExpectedTax, RateOf;
  }

  lemma ExpectedTaxIsOdd(base: int, rate: nat)
    ensures ExpectedTax(-base, rate) == -ExpectedTax(base, rate)
  {
    assert -base * rate == -(base * rate);
    RoundingIsOdd(base * rate, 10000);
  }

  lemma SameProduct(a: int, b: int)
    ensures -a * -b == a * b
  {
  }

  lemma ClashOfImage(ts: seq<Taxed>, t: Taxed, o: nat, r: nat, voucher: string)
    requires t.line.entry == o && forall x :: x in ts ==> x.line.entry == o
    ensures Clashes(Map(ts, TaxedImage(r, voucher)), TaxedImage(r, voucher)(t)) == Clashes(ts, t)
  {
    GroupOfImage(ts, o, r, voucher, KeyOf(t).group);
  }

  lemma LineCodesOfImage(rates: Rates, l: VatLine, r: nat, voucher: string)
    ensures LineCodes(rates, Image(l, r, voucher)) == LineCodes(rates, l)
    ensures Accepted(rates, Image(l, r, voucher)) == Accepted(rates, l)
  {
  }

  lemma {:induction false} LineAnomaliesOfImage(rates: Rates, lines: seq<VatLine>, o: nat, r: nat, voucher: string)
    requires forall l :: l in lines ==> l.entry == o
    ensures AnomalyCodes(LineAnomalies(rates, Map(lines, ImageOf(r, voucher))))
            == AnomalyCodes(LineAnomalies(rates, lines))
  {
    if |lines| > 0 {
      var before, l := lines[..|lines| - 1], lines[|lines| - 1];
      var im := ImageOf(r, voucher);
      LineAnomaliesOfImage(rates, before, o, r, voucher);
      assert lines == before + [l] && Map(lines, im) == Map(before, im) + [im(l)];
      LineCodesOfImage(rates, l, r, voucher);
      AcceptedImage(rates, before, r, voucher);
      MixOfImage(rates, before, l, o, r, voucher);
      assert im(l) == Image(l, r, voucher);
      hide *;
      ScanStep(rates, before, l);
      ScanStep(rates, Map(before, im), im(l));
      var codes := LineCodes(rates, l) + if Mixes(rates, AcceptedLines(rates, before), l) then [MixedVatCodes] else [];
      CodesOfWarn(LineAnomalies(rates, before), l, codes);
      CodesOfWarn(LineAnomalies(rates, Map(before, im)), im(l), codes);
    }
  }

  lemma MixOfImage(rates: Rates, before: seq<VatLine>, l: VatLine, o: nat, r: nat, voucher: string)
    requires l.entry == o && forall x :: x in before ==> x.entry == o
    ensures Mixes(rates, AcceptedLines(rates, Map(before, ImageOf(r, voucher))), Image(l, r, voucher))
            == Mixes(rates, AcceptedLines(rates, before), l)
  {
    AcceptedImage(rates, before, r, voucher);
    LineCodesOfImage(rates, l, r, voucher);
    if Accepted(rates, l) { ClashOfImage(AcceptedLines(rates, before), Taxed(l, l.stored.meta), o, r, voucher); }
  }

  lemma {:induction false} OneEntry(lines: seq<VatLine>, e: nat)
    requires lines != [] && forall l :: l in lines ==> l.entry == e
    ensures Entries(lines) == [e] && FirstOf(lines, e) == Some(lines[0])
  {
    var front := lines[..|lines| - 1];
    assert Map(lines, EntryOf)[..|lines| - 1] == Map(front, EntryOf);
    if front == [] {
      assert FirstOf(front, e).None? && Entries(front) == [];
    } else {
      OneEntry(front, e);
    }
  }

  lemma BalanceOfImage(lines: seq<VatLine>, o: nat, r: nat, voucher: string)
    requires forall l :: l in lines ==> l.entry == o
    ensures var image := Map(lines, ImageOf(r, voucher));
            AnomalyCodes(BalanceAnomalies(image, Entries(image)))
              == AnomalyCodes(BalanceAnomalies(lines, Entries(lines)))
  {
    var im := ImageOf(r, voucher);
    var image := Map(lines, im);
    if lines != [] {
      OneEntry(lines, o);
      OneEntry(image, r);
      SumMap(lines, im, DebitIn(r));
      SumMap(lines, im, CreditIn(r));
      SumExt(lines, Then(im, DebitIn(r)), CreditIn(o));
      SumExt(lines, Then(im, CreditIn(r)), DebitIn(o));
      assert [o][..0] == [] && [r][..0] == [];
      CodesOfWarn([], lines[0], [UnbalancedEntry]);
      CodesOfWarn([], image[0], [UnbalancedEntry]);
    }
  }

  function Renamed(r: nat): Key -> Key { (k: Key) => Key(r, k.group) }

  lemma KeysOfEntry(ts: seq<Taxed>, o: nat, k: Key)
    requires (forall t :: t in ts ==> t.line.entry == o) && k in GroupKeys(ts)
    ensures k.entry == o
  {
    var i :| 0 <= i < |ts| && Map(ts, KeyOf)[i] == k;
    assert ts[i] in ts;
  }

  lemma {:induction false} GroupKeysOfImage(ts: seq<Taxed>, o: nat, r: nat, voucher: string)
    requires forall t :: t in ts ==> t.line.entry == o
    ensures GroupKeys(Map(ts, TaxedImage(r, voucher))) == Map(GroupKeys(ts), Renamed(r))
  {
    if |ts| > 0 {
      var before, t := ts[..|ts| - 1], ts[|ts| - 1];
      var im := TaxedImage(r, voucher);
      GroupKeysOfImage(before, o, r, voucher);
      assert ts == before + [t] && Map(ts, im) == Map(before, im) + [im(t)];
      assert KeyOf(im(t)) == Renamed(r)(KeyOf(t)) && KeyOf(t).entry == o;
      forall k | k in GroupKeys(before) ensures k.entry == o { KeysOfEntry(before, o, k); }
      hide *;
      KeysExtend(before, t);
      KeysExtend(Map(before, im), im(t));
      RenamedStep(GroupKeys(before), KeyOf(t), o, r);
    }
  }

  lemma RenamedStep(ks: seq<Key>, k: Key, o: nat, r: nat)
    requires k.entry == o && forall x :: x in ks ==> x.entry == o
    ensures Map(if k in ks then ks else ks + [k], Renamed(r))
            == if Renamed(r)(k) in Map(ks, Renamed(r)) then Map(ks, Renamed(r))
              else Map(ks, Renamed(r)) + [Renamed(r)(k)]
  {
    RenamedMember(ks, k, o, r);
  }

  lemma RenamedMember(ks: seq<Key>, k: Key, o: nat, r: nat)
    requires k.entry == o && forall x :: x in ks ==> x.entry == o
    ensures Renamed(r)(k) in Map(ks, Renamed(r)) <==> k in ks
  {
    if k in ks {
      var i :| 0 <= i < |ks| && ks[i] == k;
      assert Map(ks, Renamed(r))[i] == Renamed(r)(k);
    }
    if Renamed(r)(k) in Map(ks, Renamed(r)) {
      var i :| 0 <= i < |ks| && Map(ks, Renamed(r))[i] == Renamed(r)(k);
      assert ks[i] in ks;
    }
  }

  lemma AmountsOfImage(g: seq<Taxed>, r: nat, voucher: string)
    ensures SumOf(Map(g, TaxedImage(r, voucher)), BaseAmount) == -SumOf(g, BaseAmount)
    ensures SumOf(Map(g, TaxedImage(r, voucher)), TaxAmount) == -SumOf(g, TaxAmount)
  {
    var im := TaxedImage(r, voucher);
    SumMap(g, im, BaseAmount);
    SumMap(g, im, TaxAmount);
    SumNegated(g, BaseAmount, Then(im, BaseAmount));
    SumNegated(g, TaxAmount, Then(im, TaxAmount));
  }

  lemma CountsOfImage(g: seq<Taxed>, r: nat, voucher: string)
    ensures SumOf(Map(g, TaxedImage(r, voucher)), IsBase) == SumOf(g, IsBase)
    ensures SumOf(Map(g, TaxedImage(r, voucher)), IsTax) == SumOf(g, IsTax)
  {
    var im := TaxedImage(r, voucher);
    SumMap(g, im, IsBase);
    SumMap(g, im, IsTax);
    SumExt(g, Then(im, IsBase), IsBase);
    SumExt(g, Then(im, IsTax), IsTax);
  }

  /** Same configuration and counts, opposite amounts. */
  predicate Opposite(g: Group, h: Group) {
    h.meta == g.meta && h.base == -g.base && h.tax == -g.tax && h.bases == g.bases && h.taxes == g.taxes
  }

  lemma GroupOfImageNegates(ts: seq<Taxed>, o: nat, r: nat, voucher: string, k: Key)
    requires k.entry == o && GroupOf(ts, k) != [] && forall t :: t in ts ==> t.line.entry == o
    ensures var image := Map(ts, TaxedImage(r, voucher));
            && GroupOf(image, Renamed(r)(k)) != []
            && Opposite(MakeGroup(GroupOf(ts, k)), MakeGroup(GroupOf(image, Renamed(r)(k))))
  {
    var g := GroupOf(ts, k);
    GroupOfImage(ts, o, r, voucher, k.group);
    assert k == Key(o, k.group);
    AmountsOfImage(g, r, voucher);
    CountsOfImage(g, r, voucher);
    hide GroupOf;
  }

  lemma {:induction false} GroupAnomaliesOfImage(rates: Rates, ts: seq<Taxed>, ks: seq<Key>, o: nat, r: nat,
        voucher: string)
    requires forall t :: t in ts ==> t.line.entry == o
    requires forall k :: k in ks ==> k.entry == o && GroupOf(ts, k) != []
    requires forall k :: k in Map(ks, Renamed(r)) ==> GroupOf(Map(ts, TaxedImage(r, voucher)), k) != []
    ensures AnomalyCodes(GroupAnomalies(rates, Groups(Map(ts, TaxedImage(r, voucher)), Map(ks, Renamed(r)))))
            == AnomalyCodes(GroupAnomalies(rates, Groups(ts, ks)))
  {
    hide GroupOf, MakeGroup, GroupCodes, Warn, Opposite, AnomalyCodes;
    if |ks| > 0 {
      var n := |ks| - 1;
      var image := Map(ts, TaxedImage(r, voucher));
      assert Map(ks, Renamed(r))[..n] == Map(ks[..n], Renamed(r));
      GroupAnomaliesOfImage(rates, ts, ks[..n], o, r, voucher);
      GroupOfImageNegates(ts, o, r, voucher, ks[n]);
      var gs, hs := Groups(ts, ks), Groups(image, Map(ks, Renamed(r)));
      NegatedGroupCodes(rates, gs[n], hs[n]);
      assert gs[..n] == Groups(ts, ks[..n]) && hs[..n] == Groups(image, Map(ks[..n], Renamed(r)));
      CodesOfWarn(GroupAnomalies(rates, gs[..n]), gs[n].first, GroupCodes(rates, gs[n]));
      CodesOfWarn(GroupAnomalies(rates, hs[..n]), hs[n].first, GroupCodes(rates, hs[n]));
    }
  }

  /** The correction of a voucher raises the same anomalies as the voucher, one for one and in order. */
  lemma CorrectionRaisesSameAnomalies(rates: Rates, collate: (string, string) -> int, lines: seq<VatLine>, o: nat,
        r: nat, voucher: string)
    requires forall l :: l in lines ==> l.entry == o
    ensures AnomalyCodes(VatReport(rates, collate, Map(lines, ImageOf(r, voucher))).anomalies)
            == AnomalyCodes(VatReport(rates, collate, lines).anomalies)
  {
    hide LineAnomalies, BalanceAnomalies, GroupAnomalies, AcceptedLines, AllGroups, Entries, CodesOf, CodeTotals;
    var image := Map(lines, ImageOf(r, voucher));
    MapAppend(LineAnomalies(rates, image)
      + BalanceAnomalies(image, Entries(image)), GroupAnomalies(rates, AllGroups(AcceptedLines(rates, image))),
        CodeOfAnomaly);
    MapAppend(LineAnomalies(rates, lines)
      + BalanceAnomalies(lines, Entries(lines)), GroupAnomalies(rates, AllGroups(AcceptedLines(rates, lines))),
        CodeOfAnomaly);
    MapAppend(LineAnomalies(rates, image), BalanceAnomalies(image, Entries(image)), CodeOfAnomaly);
    MapAppend(LineAnomalies(rates, lines), BalanceAnomalies(lines, Entries(lines)), CodeOfAnomaly);
    LineAnomaliesOfImage(rates, lines, o, r, voucher);
    BalanceOfImage(lines, o, r, voucher);
    assert forall t :: t in AcceptedLines(rates, lines) ==> t.line.entry == o;
    AllGroupAnomaliesOfImage(rates, AcceptedLines(rates, lines), o, r, voucher);
    AcceptedImage(rates, lines, r, voucher);
  }

  lemma AllGroupAnomaliesOfImage(rates: Rates, ts: seq<Taxed>, o: nat, r: nat, voucher: string)
    requires forall t :: t in ts ==> t.line.entry == o
    ensures AnomalyCodes(GroupAnomalies(rates, AllGroups(Map(ts, TaxedImage(r, voucher)))))
            == AnomalyCodes(GroupAnomalies(rates, AllGroups(ts)))
  {
    var image := Map(ts, TaxedImage(r, voucher));
    GroupKeysOfImage(ts, o, r, voucher);
    forall k | k in GroupKeys(ts) ensures GroupOf(ts, k) != [] { KeysHaveLines(ts, k); }
    forall k | k in GroupKeys(image) ensures GroupOf(image, k) != [] { KeysHaveLines(image, k); }
    GroupAnomaliesOfImage(rates, ts, GroupKeys(ts), o, r, voucher);
  }

  // ---------------------------------------------------------------- rounding bound

  lemma RoundingBound(n: int, d: int)
    requires d > 0
    ensures 2 * Abs(d * RoundHalfUp(n, d) - n) <= d
    ensures 2 * Abs(d * RoundHalfUp(n, d) - n) == d ==> Abs(d * RoundHalfUp(n, d)) > Abs(n)
  {
    if n >= 0 { RoundingBoundNonNegative(n, d); }
    else {
      RoundingBoundNonNegative(-n, d);
      RoundingIsOdd(-n, d);
      hide RoundHalfUp;
      assert d * RoundHalfUp(n, d) == -(d * RoundHalfUp(-n, d));
    }
  }

  lemma RoundingBoundNonNegative(n: nat, d: int)
    requires d > 0
    ensures 2 * Abs(d * RoundHalfUp(n, d) - n) <= d
    ensures 2 * Abs(d * RoundHalfUp(n, d) - n) == d ==> Abs(d * RoundHalfUp(n, d)) > Abs(n)
  {
    var q := (2 * n + d) / (2 * d);
    assert 2 * d * q <= 2 * n + d < 2 * d * q + 2 * d;
    assert 2 * (d * q) == 2 * d * q;
  }

  function CountIn(c: CodeKey): Group -> int { (g: Group) => if GroupCode(g) == c then 1 else 0 }

  lemma {:induction false} NoMismatch(rates: Rates, gs: seq<Group>, g: Group)
    requires g in gs && RateBaseMismatch !in AnomalyCodes(GroupAnomalies(rates, gs))
    ensures g.tax == ExpectedTax(g.base, RateOf(rates, g.meta))
  {
    var before, last := gs[..|gs| - 1], gs[|gs| - 1];
    CodesOfWarn(GroupAnomalies(rates, before), last.first, GroupCodes(rates, last));
    if g != last { NoMismatch(rates, before, g); }
  }

  lemma BoundStep(tax: int, base: int, k: int, g: Group, rate: nat, counted: bool)
    requires Abs(10000 * tax - rate * base) <= 5000 * k
    requires counted ==> g.tax == ExpectedTax(g.base, rate)
    ensures counted ==> Abs(10000 * (tax + g.tax) - rate * (base + g.base)) <= 5000 * (k + 1)
  {
    if counted {
      RoundingBound(g.base * rate, 10000);
      assert rate * (base + g.base) == rate * base + g.base * rate;
    }
  }

  lemma {:induction false} BoundSums(gs: seq<Group>, c: CodeKey, rate: nat)
    requires forall g :: g in gs && GroupCode(g) == c ==> g.tax == ExpectedTax(g.base, rate)
    ensures Abs(10000 * SumOf(gs, TaxIn(c)) - rate * SumOf(gs, BaseIn(c))) <= 5000 * SumOf(gs, CountIn(c))
  {
    if |gs| > 0 {
      var before, g := gs[..|gs| - 1], gs[|gs| - 1];
      BoundSums(before, c, rate);
      BoundStep(SumOf(before, TaxIn(c)), SumOf(before, BaseIn(c)), SumOf(before, CountIn(c)), g, rate,
        GroupCode(g) == c);
    }
  }

  /** Without a rate mismatch, the tax of a code built from k groups is within half an öre per group
      of its base times its rate: |10000 tax - rate base| <= 5000 k. */
  lemma CodeTaxIsNearRateTimesBase(rates: Rates, collate: (string, string) -> int, lines: seq<VatLine>, b: Bucket)
    requires b in VatReport(rates, collate, lines).codes
    requires RateBaseMismatch !in AnomalyCodes(VatReport(rates, collate, lines).anomalies)
    ensures Abs(10000 * b.tax - RateOf(rates, b.meta) * b.base)
            <= 5000 * SumOf(AllGroups(AcceptedLines(rates, lines)), CountIn(CodeOf(b.meta)))
  {
    hide AllGroups, AcceptedLines, VatReport, AnomalyCodes, ExpectedTax;
    var gs := AllGroups(AcceptedLines(rates, lines));
    var c := BucketCode(rates, collate, lines, b);
    var rate := RateOf(rates, b.meta);
    GroupAnomaliesComeLast(rates, collate, lines, RateBaseMismatch);
    forall g | g in gs && GroupCode(g) == c ensures g.tax == ExpectedTax(g.base, rate) {
      NoMismatch(rates, gs, g);
      assert RateOf(rates, g.meta) == rate;
    }
    BoundSums(gs, c, rate);
  }

  lemma GroupAnomaliesComeLast(rates: Rates, collate: (string, string) -> int, lines: seq<VatLine>, c: Code)
    ensures c in AnomalyCodes(GroupAnomalies(rates, AllGroups(AcceptedLines(rates, lines))))
            ==> c in AnomalyCodes(VatReport(rates, collate, lines).anomalies)
  {
    hide LineAnomalies, BalanceAnomalies, GroupAnomalies, AllGroups, Entries, CodesOf;
    var first := LineAnomalies(rates, lines) + BalanceAnomalies(lines, Entries(lines));
    var last := GroupAnomalies(rates, AllGroups(AcceptedLines(rates, lines)));
    assert VatReport(rates, collate, lines).anomalies == first + last;
    MapAppend(first, last, CodeOfAnomaly);
  }

  // ---------------------------------------------------------------- totals per direction

  function GroupFor(d: Direction, tax: bool): Group -> int {
    (g: Group) => if g.meta.direction == d then GroupAmount(tax)(g) else 0
  }

  function BucketAmount(d: Direction, tax: bool): Bucket -> int { if tax then TaxFor(d) else BaseFor(d) }

  /** The line's own contribution to a direction, zero when the engine does not accept it. */
  function LineFor(rates: Rates, d: Direction, tax: bool): VatLine -> int {
    (l: VatLine) =>
      if Accepted(rates, l) && l.stored.meta.direction == d then Amount(tax)(Taxed(l, l.stored.meta)) else 0
  }

  function TaxedFor(d: Direction, tax: bool): Taxed -> int {
    (t: Taxed) => if t.meta.direction == d then Amount(tax)(t) else 0
  }

  function GroupLineFor(ts: seq<Taxed>, d: Direction, tax: bool): Taxed -> int {
    (t: Taxed) => if CodeOfLine(ts, t).direction == d then Amount(tax)(t) else 0
  }

  lemma BucketsSum(gs: seq<Group>, d: Direction, tax: bool)
    ensures SumOf(CodesOf(gs), BucketAmount(d, tax)) == SumOf(gs, GroupFor(d, tax))
  {
    var cs := CodeKeys(gs);
    var f := GroupFor(d, tax);
    BucketsSumOver(gs, cs, CodesOf(gs), d, tax);
    Partition(gs, GroupCode, cs, f);
    forall g | g in gs ensures GroupCode(g) in cs {
      var i :| 0 <= i < |gs| && gs[i] == g;
      assert Map(gs, GroupCode)[i] == GroupCode(g);
    }
    SumExt(gs, Among(GroupCode, cs, f), f);
  }

  lemma {:induction false} BucketsSumOver(gs: seq<Group>, cs: seq<CodeKey>, bs: seq<Bucket>, d: Direction, tax: bool)
    requires |bs| == |cs| && forall i :: 0 <= i < |cs| ==> FirstWith(gs, cs[i]).Some? && bs[i] == BucketFor(gs, cs[i])
    ensures SumOf(bs, BucketAmount(d, tax)) == SumOf(cs, PerKey(gs, GroupCode, GroupFor(d, tax)))
  {
    if |cs| > 0 {
      var n := |cs| - 1;
      BucketsSumOver(gs, cs[..n], bs[..n], d, tax);
      BucketSum(gs, cs[n], d, tax);
    }
  }

  lemma CodeInIsOnly(c: CodeKey, d: Direction, tax: bool, g: Group)
    requires c.direction == d
    ensures CodeIn(c, tax)(g) == Only(GroupCode, c, GroupFor(d, tax))(g)
  {
    if tax { assert CodeIn(c, tax)(g) == if GroupCode(g) == c then g.tax else 0; }
    else { assert CodeIn(c, tax)(g) == if GroupCode(g) == c then g.base else 0; }
    assert GroupFor(d, tax)(g) == if g.meta.direction == d then GroupAmount(tax)(g) else 0;
  }

  lemma BucketSum(gs: seq<Group>, c: CodeKey, d: Direction, tax: bool)
    requires FirstWith(gs, c).Some?
    ensures BucketAmount(d, tax)(BucketFor(gs, c)) == PerKey(gs, GroupCode, GroupFor(d, tax))(c)
  {
    if c.direction == d {
      forall g | g in gs ensures CodeIn(c, tax)(g) == Only(GroupCode, c, GroupFor(d, tax))(g) {
        CodeInIsOnly(c, d, tax, g);
      }
      SumExt(gs, CodeIn(c, tax), Only(GroupCode, c, GroupFor(d, tax)));
    } else {
      SumZero(gs, Only(GroupCode, c, GroupFor(d, tax)));
    }
  }

  lemma {:induction false} GroupsSumFor(ts: seq<Taxed>, ks: seq<Key>, d: Direction, tax: bool)
    requires forall k :: k in ks ==> GroupOf(ts, k) != []
    ensures SumOf(Groups(ts, ks), GroupFor(d, tax)) == SumOf(ks, PerKey(ts, KeyOf, GroupLineFor(ts, d, tax)))
  {
    if |ks| > 0 {
      var k := ks[|ks| - 1];
      GroupsSumFor(ts, ks[..|ks| - 1], d, tax);
      GroupSumFor(ts, k, d, tax);
      hide GroupFor, MakeGroup, GroupLineFor, GroupOf, PerKey;
      SumSnoc(Groups(ts, ks[..|ks| - 1]), MakeGroup(GroupOf(ts, k)), GroupFor(d, tax));
    }
  }

  lemma GroupSumFor(ts: seq<Taxed>, k: Key, d: Direction, tax: bool)
    requires GroupOf(ts, k) != []
    ensures GroupFor(d, tax)(MakeGroup(GroupOf(ts, k))) == PerKey(ts, KeyOf, GroupLineFor(ts, d, tax))(k)
  {
    GroupSharesDirection(ts, k, d, tax);
    hide GroupFor, MakeGroup, GroupLineFor;
    var f := GroupLineFor(ts, d, tax);
    SumFilter(ts, InGroup(k), f);
    SumExt(ts, Where(InGroup(k), f), Only(KeyOf, k, f));
  }

  lemma GroupSharesDirection(ts: seq<Taxed>, k: Key, d: Direction, tax: bool)
    requires GroupOf(ts, k) != []
    ensures GroupFor(d, tax)(MakeGroup(GroupOf(ts, k))) == SumOf(GroupOf(ts, k), GroupLineFor(ts, d, tax))
  {
    var g := GroupOf(ts, k);
    var f := GroupLineFor(ts, d, tax);
    forall t | t in g ensures f(t) == if g[0].meta.direction == d then Amount(tax)(t) else 0 {
      LineOfGroup(ts, k, d, tax, t);
    }
    MadeGroupAmount(g, d, tax);
    hide GroupLineFor, GroupOf, MakeGroup, GroupFor;
    if g[0].meta.direction == d { SumExt(g, f, Amount(tax)); } else { SumZero(g, f); }
  }

  lemma LineOfGroup(ts: seq<Taxed>, k: Key, d: Direction, tax: bool, t: Taxed)
    requires t in GroupOf(ts, k)
    ensures GroupLineFor(ts, d, tax)(t) == if GroupOf(ts, k)[0].meta.direction == d then Amount(tax)(t) else 0
  {
    assert InGroup(k)(t);
    assert CodeOfLine(ts, t) == CodeOf(GroupOf(ts, k)[0].meta);
  }

  lemma MadeGroupAmount(g: seq<Taxed>, d: Direction, tax: bool)
    requires g != []
    ensures GroupFor(d, tax)(MakeGroup(g)) == if g[0].meta.direction == d then SumOf(g, Amount(tax)) else 0
  {
    var m := MakeGroup(g);
    assert GroupFor(d, tax)(m) == if m.meta.direction == d then GroupAmount(tax)(m) else 0;
    if tax { assert GroupAmount(tax)(m) == m.tax; } else { assert GroupAmount(tax)(m) == m.base; }
  }

  /** The direction totals of the report, line by line: each accepted line counts in the direction of its group. */
  lemma DirectionTotalIsLineSum(ts: seq<Taxed>, d: Direction, tax: bool)
    ensures SumOf(CodesOf(AllGroups(ts)), BucketAmount(d, tax)) == SumOf(ts, GroupLineFor(ts, d, tax))
  {
    var ks := GroupKeys(ts);
    forall k | k in ks ensures GroupOf(ts, k) != [] { KeysHaveLines(ts, k); }
    BucketsSum(AllGroups(ts), d, tax);
    GroupsSumFor(ts, ks, d, tax);
    Partition(ts, KeyOf, ks, GroupLineFor(ts, d, tax));
    forall t | t in ts ensures KeyOf(t) in ks {
      var i :| 0 <= i < |ts| && ts[i] == t;
      assert Map(ts, KeyOf)[i] == KeyOf(t);
    }
    SumExt(ts, Among(KeyOf, ks, GroupLineFor(ts, d, tax)), GroupLineFor(ts, d, tax));
  }

  lemma {:induction false} UnmixedLines(rates: Rates, lines: seq<VatLine>, t: Taxed)
    requires MixedVatCodes !in AnomalyCodes(LineAnomalies(rates, lines)) && t in AcceptedLines(rates, lines)
    ensures SameConfiguration(GroupOf(AcceptedLines(rates, lines), KeyOf(t))[0].meta, t.meta)
  {
    var before, l := lines[..|lines| - 1], lines[|lines| - 1];
    assert lines == before + [l];
    ScanStep(rates, before, l);
    var ts := AcceptedLines(rates, before);
    var codes := LineCodes(rates, l) + if Mixes(rates, ts, l) then [MixedVatCodes] else [];
    CodesOfWarn(LineAnomalies(rates, before), l, codes);
    if t in ts { UnmixedLines(rates, before, t); }
    if Accepted(rates, l) {
      GroupExtends(ts, Taxed(l, l.stored.meta), KeyOf(t));
      if t in ts { assert InGroup(KeyOf(t))(t); }
    }
  }

  lemma {:induction false} AcceptedSum(rates: Rates, lines: seq<VatLine>, d: Direction, tax: bool)
    ensures SumOf(AcceptedLines(rates, lines), TaxedFor(d, tax)) == SumOf(lines, LineFor(rates, d, tax))
  {
    if |lines| > 0 {
      var before, l := lines[..|lines| - 1], lines[|lines| - 1];
      assert lines == before + [l];
      AcceptedSum(rates, before, d, tax);
      ScanStep(rates, before, l);
      if Accepted(rates, l) { SumSnoc(AcceptedLines(rates, before), Taxed(l, l.stored.meta), TaxedFor(d, tax)); }
    }
  }

  function TotalOf(t: Totals, d: Direction, tax: bool): int {
    match d
    case Output => if tax then t.outputVat else t.outputBase
    case Input => if tax then t.inputVat else t.inputBase
    case Exempt => if tax then t.outputVat - t.inputVat - t.vatPosition else t.nonVatBase
  }

  lemma InOwnGroup(ts: seq<Taxed>, t: Taxed)
    requires t in ts
    ensures t in GroupOf(ts, KeyOf(t))
  {
    assert InGroup(KeyOf(t))(t);
  }

  lemma TotalIsBucketSum(rates: Rates, collate: (string, string) -> int, lines: seq<VatLine>, d: Direction, tax: bool)
    requires tax ==> !d.Exempt?
    ensures TotalOf(VatReport(rates, collate, lines).totals, d, tax)
            == SumOf(CodesOf(AllGroups(AcceptedLines(rates, lines))), BucketAmount(d, tax))
  {
    hide CodesOf, AllGroups, AcceptedLines;
    SumPermuted(VatReport(rates, collate, lines).codes, CodesOf(AllGroups(AcceptedLines(rates, lines))),
      BucketAmount(d, tax));
  }

  // ---------------------------------------------------------------- when totals are plain sums

  /** No group holds accepted lines of two directions. */
  predicate OneDirectionPerGroup(rates: Rates, lines: seq<VatLine>) {
    forall a, b :: a in lines && b in lines && Accepted(rates, a) && Accepted(rates, b)
                   && KeyOf(Taxed(a, a.stored.meta)) == KeyOf(Taxed(b, b.stored.meta))
                   ==> a.stored.meta.direction == b.stored.meta.direction
  }

  /** Every total is the signed sum of the accepted lines of its direction. */
  ghost predicate PlainTotals(rates: Rates, collate: (string, string) -> int, lines: seq<VatLine>) {
    forall d: Direction, tax: bool :: (tax ==> !d.Exempt?) ==>
      TotalOf(VatReport(rates, collate, lines).totals, d, tax) == SumOf(lines, LineFor(rates, d, tax))
  }

  /** The same lines under other non-negative amounts. */
  predicate Reamounted(lines: seq<VatLine>, other: seq<VatLine>) {
    |other| == |lines|
    && forall i :: 0 <= i < |lines| ==>
         && other[i].debit >= 0 && other[i].credit >= 0
         && other[i] == lines[i].(debit := other[i].debit, credit := other[i].credit)
  }

  lemma LineIsDirected(rates: Rates, lines: seq<VatLine>, t: Taxed)
    requires OneDirectionPerGroup(rates, lines) && t in AcceptedLines(rates, lines)
    ensures CodeOfLine(AcceptedLines(rates, lines), t).direction == t.meta.direction
  {
    var ts := AcceptedLines(rates, lines);
    InOwnGroup(ts, t);
    var first := GroupOf(ts, KeyOf(t))[0];
    assert first in GroupOf(ts, KeyOf(t));
    assert InGroup(KeyOf(t))(first) && first in ts;
    hide AcceptedLines;
  }

  /** Without a group of two directions the grouped report refines the plain one, whatever the amounts. */
  lemma OneDirectionTotalsArePlain(rates: Rates, collate: (string, string) -> int, lines: seq<VatLine>)
    requires OneDirectionPerGroup(rates, lines)
    ensures PlainTotals(rates, collate, lines)
  {
    var ts := AcceptedLines(rates, lines);
    forall d: Direction, tax: bool | tax ==> !d.Exempt?
      ensures TotalOf(VatReport(rates, collate, lines).totals, d, tax) == SumOf(lines, LineFor(rates, d, tax))
    {
      hide *;
      TotalIsBucketSum(rates, collate, lines, d, tax);
      DirectionTotalIsLineSum(ts, d, tax);
      forall t | t in ts ensures GroupLineFor(ts, d, tax)(t) == TaxedFor(d, tax)(t) {
        LineIsDirected(rates, lines, t);
        DirectedLineCounts(ts, t, d, tax);
      }
      SumExt(ts, GroupLineFor(ts, d, tax), TaxedFor(d, tax));
      AcceptedSum(rates, lines, d, tax);
    }
  }

  lemma DirectedLineCounts(ts: seq<Taxed>, t: Taxed, d: Direction, tax: bool)
    requires CodeOfLine(ts, t).direction == t.meta.direction
    ensures GroupLineFor(ts, d, tax)(t) == TaxedFor(d, tax)(t)
  {
    hide CodeOfLine, Amount;
  }

  function MetaOf(t: Taxed): Snapshot { t.meta }

  lemma SameReading(rates: Rates, l: VatLine, o: VatLine)
    requires o == l.(debit := o.debit, credit := o.credit)
    ensures Accepted(rates, o) == Accepted(rates, l)
    ensures Accepted(rates, l) ==> l.stored.Full? && o.stored == l.stored
                                   && KeyOf(Taxed(o, o.stored.meta)) == KeyOf(Taxed(l, l.stored.meta))
  {
  }

  lemma GroupStep(rates: Rates, before: seq<VatLine>, l: VatLine, others: seq<VatLine>, o: VatLine, k: Key)
    requires o == l.(debit := o.debit, credit := o.credit)
    requires Map(GroupOf(AcceptedLines(rates, others), k), MetaOf)
             == Map(GroupOf(AcceptedLines(rates, before), k), MetaOf)
    ensures Map(GroupOf(AcceptedLines(rates, others + [o]), k), MetaOf)
            == Map(GroupOf(AcceptedLines(rates, before + [l]), k), MetaOf)
  {
    hide Accepted, KeyOf, GroupOf, AcceptedLines, Map;
    ScanStep(rates, before, l);
    ScanStep(rates, others, o);
    SameReading(rates, l, o);
    var ts, us := AcceptedLines(rates, before), AcceptedLines(rates, others);
    if Accepted(rates, l) {
      var t, u := Taxed(l, l.stored.meta), Taxed(o, o.stored.meta);
      GroupExtends(ts, t, k);
      GroupExtends(us, u, k);
      MapSnoc(GroupOf(ts, k), t, MetaOf);
      MapSnoc(GroupOf(us, k), u, MetaOf);
    }
  }

  /** Groups do not depend on amounts. */
  lemma {:induction false} GroupsReamounted(rates: Rates, lines: seq<VatLine>, other: seq<VatLine>, k: Key)
    requires Reamounted(lines, other)
    ensures Map(GroupOf(AcceptedLines(rates, other), k), MetaOf) == Map(GroupOf(AcceptedLines(rates, lines), k), MetaOf)
  {
    hide GroupOf, AcceptedLines, Map;
    if |lines| > 0 {
      var n := |lines| - 1;
      GroupsReamounted(rates, lines[..n], other[..n], k);
      GroupStep(rates, lines[..n], lines[n], other[..n], other[n], k);
      assert lines == lines[..n] + [lines[n]] && other == other[..n] + [other[n]];
    } else {
      assert other == lines;
    }
  }

  lemma {:induction false} SingleTerm<T>(s: seq<T>, i: nat, f: T -> int)
    requires i < |s| && forall j :: 0 <= j < |s| && j != i ==> f(s[j]) == 0
    ensures SumOf(s, f) == f(s[i])
  {
    var n := |s| - 1;
    if i == n { SumZero(s[..n], f); } else { SingleTerm(s[..n], i, f); }
  }

  /** A weight on accepted lines as a weight on all lines. */
  function Lifted(rates: Rates, f: Taxed -> int): VatLine -> int {
    (l: VatLine) => if Accepted(rates, l) then f(Taxed(l, l.stored.meta)) else 0
  }

  lemma {:induction false} LiftedSum(rates: Rates, lines: seq<VatLine>, f: Taxed -> int)
    ensures SumOf(AcceptedLines(rates, lines), f) == SumOf(lines, Lifted(rates, f))
  {
    if |lines| > 0 {
      var before, l := lines[..|lines| - 1], lines[|lines| - 1];
      assert lines == before + [l];
      LiftedSum(rates, before, f);
      ScanStep(rates, before, l);
      if Accepted(rates, l) { SumSnoc(AcceptedLines(rates, before), Taxed(l, l.stored.meta), f); }
    }
  }

  /** One öre of debit on line i and nothing elsewhere. */
  function OneOre(lines: seq<VatLine>, i: nat): (other: seq<VatLine>)
    ensures |other| == |lines| && Reamounted(lines, other)
  {
    seq(|lines|, j requires 0 <= j < |lines| => lines[j].(debit := if j == i then 1 else 0, credit := 0))
  }

  lemma NoAmount(ts: seq<Taxed>, t: Taxed, d: Direction, tax: bool)
    requires t.line.debit == 0 && t.line.credit == 0
    ensures GroupLineFor(ts, d, tax)(t) == 0
  {
    AmountIsSigned(t, tax);
    hide CodeOfLine, Amount;
  }

  lemma NoAmountFor(rates: Rates, ts: seq<Taxed>, l: VatLine, d: Direction, tax: bool)
    requires l.debit == 0 && l.credit == 0
    ensures Lifted(rates, GroupLineFor(ts, d, tax))(l) == 0 && LineFor(rates, d, tax)(l) == 0
  {
    if Accepted(rates, l) {
      var t := Taxed(l, l.stored.meta);
      NoAmount(ts, t, d, tax);
      AmountIsSigned(t, tax);
      assert LineFor(rates, d, tax)(l) == if t.meta.direction == d then Amount(tax)(t) else 0;
    }
    hide Accepted, GroupLineFor, Amount;
  }

  lemma AmountIsSigned(t: Taxed, tax: bool)
    ensures Amount(tax)(t) == if tax == t.line.role.Base? then 0 else Signed(t)
  {
    if tax { assert Amount(tax)(t) == TaxAmount(t); } else { assert Amount(tax)(t) == BaseAmount(t); }
  }

  lemma OneOreTotals(rates: Rates, collate: (string, string) -> int, lines: seq<VatLine>, i: nat, d: Direction,
        tax: bool)
    requires i < |lines| && Accepted(rates, lines[i]) && (tax ==> !d.Exempt?)
    ensures Accepted(rates, OneOre(lines, i)[i])
    ensures var other := OneOre(lines, i);
            var t := Taxed(other[i], other[i].stored.meta);
            && TotalOf(VatReport(rates, collate, other).totals, d, tax)
               == GroupLineFor(AcceptedLines(rates, other), d, tax)(t)
            && SumOf(other, LineFor(rates, d, tax)) == TaxedFor(d, tax)(t)
  {
    var other := OneOre(lines, i);
    var ts := AcceptedLines(rates, other);
    var f := Lifted(rates, GroupLineFor(ts, d, tax));
    SameReading(rates, lines[i], other[i]);
    forall j | 0 <= j < |other| && j != i ensures f(other[j]) == 0 && LineFor(rates, d, tax)(other[j]) == 0 {
      NoAmountFor(rates, ts, other[j], d, tax);
    }
    hide OneOre, Accepted, VatReport, TotalOf, AcceptedLines, GroupLineFor, CodesOf, AllGroups;
    TotalIsBucketSum(rates, collate, other, d, tax);
    DirectionTotalIsLineSum(ts, d, tax);
    LiftedSum(rates, other, GroupLineFor(ts, d, tax));
    SingleTerm(other, i, f);
    SingleTerm(other, i, LineFor(rates, d, tax));
  }

  /** A line in a group of another direction is counted where it does not belong. */
  lemma MisdirectedLineShows(rates: Rates, collate: (string, string) -> int, lines: seq<VatLine>, i: nat)
    requires i < |lines| && Accepted(rates, lines[i])
    requires var t := Taxed(lines[i], lines[i].stored.meta);
             CodeOfLine(AcceptedLines(rates, lines), t).direction != t.meta.direction
    ensures !PlainTotals(rates, collate, OneOre(lines, i))
  {
    var other := OneOre(lines, i);
    var ts, us := AcceptedLines(rates, lines), AcceptedLines(rates, other);
    var t, u := Taxed(lines[i], lines[i].stored.meta), Taxed(other[i], other[i].stored.meta);
    GroupsReamounted(rates, lines, other, KeyOf(t));
    SameHead(ts, us, t, u);
    var own, of := u.meta.direction, CodeOfLine(us, u).direction;
    var tax := !u.line.role.Base?;
    var d := if tax && own.Exempt? then of else own;
    OneOreTotals(rates, collate, lines, i, d, tax);
    AmountIsSigned(u, tax);
    assert GroupLineFor(us, d, tax)(u) == if of == d then Amount(tax)(u) else 0;
    assert TaxedFor(d, tax)(u) == if own == d then Amount(tax)(u) else 0;
    hide VatReport, TotalOf, AcceptedLines, CodeOfLine, GroupLineFor, TaxedFor, LineFor, Amount;
  }

  lemma SameHead(ts: seq<Taxed>, us: seq<Taxed>, t: Taxed, u: Taxed)
    requires KeyOf(u) == KeyOf(t) && u.meta == t.meta
    requires Map(GroupOf(us, KeyOf(t)), MetaOf) == Map(GroupOf(ts, KeyOf(t)), MetaOf)
    ensures CodeOfLine(us, u) == CodeOfLine(ts, t)
  {
    var g, h := GroupOf(ts, KeyOf(t)), GroupOf(us, KeyOf(t));
    assert |g| == |h|;
    if g != [] { assert Map(g, MetaOf)[0] == Map(h, MetaOf)[0]; }
  }

  lemma SomeMisdirected(rates: Rates, lines: seq<VatLine>) returns (i: nat)
    requires !OneDirectionPerGroup(rates, lines)
    ensures i < |lines| && Accepted(rates, lines[i])
    ensures var t := Taxed(lines[i], lines[i].stored.meta);
            CodeOfLine(AcceptedLines(rates, lines), t).direction != t.meta.direction
  {
    var a, b :| a in lines && b in lines && Accepted(rates, a) && Accepted(rates, b)
                && KeyOf(Taxed(a, a.stored.meta)) == KeyOf(Taxed(b, b.stored.meta))
                && a.stored.meta.direction != b.stored.meta.direction;
    var ts := AcceptedLines(rates, lines);
    AcceptedMember(rates, lines, a);
    InOwnGroup(ts, Taxed(a, a.stored.meta));
    AcceptedMember(rates, lines, b);
    InOwnGroup(ts, Taxed(b, b.stored.meta));
    var l := if CodeOfLine(ts, Taxed(a, a.stored.meta)).direction != a.stored.meta.direction then a else b;
    i :| i < |lines| && lines[i] == l;
  }

  lemma {:induction false} AcceptedMember(rates: Rates, lines: seq<VatLine>, l: VatLine)
    requires l in lines && Accepted(rates, l)
    ensures Taxed(l, l.stored.meta) in AcceptedLines(rates, lines)
  {
    if l != lines[|lines| - 1] { AcceptedMember(rates, lines[..|lines| - 1], l); }
  }

  lemma DirectionsReamounted(rates: Rates, lines: seq<VatLine>, other: seq<VatLine>)
    requires Reamounted(lines, other) && OneDirectionPerGroup(rates, lines)
    ensures OneDirectionPerGroup(rates, other)
  {
    forall a, b | a in other && b in other && Accepted(rates, a) && Accepted(rates, b)
                  && KeyOf(Taxed(a, a.stored.meta)) == KeyOf(Taxed(b, b.stored.meta))
      ensures a.stored.meta.direction == b.stored.meta.direction
    {
      hide Accepted, KeyOf;
      var i :| 0 <= i < |other| && other[i] == a;
      var j :| 0 <= j < |other| && other[j] == b;
      SameReading(rates, lines[i], a);
      SameReading(rates, lines[j], b);
      assert lines[i] in lines && lines[j] in lines;
    }
  }

  /** The exact condition: the totals of these lines are plain sums for every choice of amounts if and only if no
      group holds accepted lines of two directions. */
  lemma TotalsArePlainIff(rates: Rates, collate: (string, string) -> int, lines: seq<VatLine>)
    ensures (forall other :: Reamounted(lines, other) ==> PlainTotals(rates, collate, other))
            <==> OneDirectionPerGroup(rates, lines)
  {
    hide PlainTotals, OneDirectionPerGroup;
    if OneDirectionPerGroup(rates, lines) {
      forall other | Reamounted(lines, other) ensures PlainTotals(rates, collate, other) {
        DirectionsReamounted(rates, lines, other);
        OneDirectionTotalsArePlain(rates, collate, other);
      }
    } else {
      var i := SomeMisdirected(rates, lines);
      MisdirectedLineShows(rates, collate, lines, i);
    }
  }

  /** A report without MIXED_VAT_CODES has no such group. */
  lemma UnmixedIsOneDirection(rates: Rates, collate: (string, string) -> int, lines: seq<VatLine>)
    requires MixedVatCodes !in AnomalyCodes(VatReport(rates, collate, lines).anomalies)
    ensures OneDirectionPerGroup(rates, lines)
  {
    LineAnomaliesComeFirst(rates, collate, lines, MixedVatCodes);
    hide VatReport, LineAnomalies, AnomalyCodes, GroupOf;
    forall a, b | a in lines && b in lines && Accepted(rates, a) && Accepted(rates, b)
                  && KeyOf(Taxed(a, a.stored.meta)) == KeyOf(Taxed(b, b.stored.meta))
      ensures a.stored.meta.direction == b.stored.meta.direction
    {
      AcceptedMember(rates, lines, a);
      AcceptedMember(rates, lines, b);
      UnmixedLines(rates, lines, Taxed(a, a.stored.meta));
      UnmixedLines(rates, lines, Taxed(b, b.stored.meta));
    }
  }

  /** In particular every total of a report without MIXED_VAT_CODES is the signed sum of the accepted lines of
      its direction. */
  lemma UnmixedTotalsArePlainSums(rates: Rates, collate: (string, string) -> int, lines: seq<VatLine>, d: Direction,
        tax: bool)
    requires MixedVatCodes !in AnomalyCodes(VatReport(rates, collate, lines).anomalies)
    requires tax ==> !d.Exempt?
    ensures TotalOf(VatReport(rates, collate, lines).totals, d, tax) == SumOf(lines, LineFor(rates, d, tax))
  {
    hide VatReport, AnomalyCodes, TotalOf, LineFor, OneDirectionPerGroup;
    UnmixedIsOneDirection(rates, collate, lines);
    OneDirectionTotalsArePlain(rates, collate, lines);
  }

  lemma LineAnomaliesComeFirst(rates: Rates, collate: (string, string) -> int, lines: seq<VatLine>, c: Code)
    ensures c in AnomalyCodes(LineAnomalies(rates, lines)) ==>
            c in AnomalyCodes(VatReport(rates, collate, lines).anomalies)
  {
    hide LineAnomalies, BalanceAnomalies, GroupAnomalies, AllGroups, Entries, CodesOf;
    var rest := BalanceAnomalies(lines, Entries(lines)) + GroupAnomalies(rates, AllGroups(AcceptedLines(rates, lines)));
    assert VatReport(rates, collate, lines).anomalies == LineAnomalies(rates, lines) + rest;
    MapAppend(LineAnomalies(rates, lines), rest, CodeOfAnomaly);
  }

  lemma DirectionsPermuted(rates: Rates, lines: seq<VatLine>, other: seq<VatLine>)
    requires multiset(lines) == multiset(other) && OneDirectionPerGroup(rates, lines)
    ensures OneDirectionPerGroup(rates, other)
  {
    hide Accepted, KeyOf;
    assert forall l :: l in other ==> l in multiset(lines);
  }

  /** Hence, without such a group, the totals do not depend on the order in which lines are read. */
  lemma TotalsIgnoreOrder(rates: Rates, collate: (string, string) -> int, lines: seq<VatLine>, other: seq<VatLine>)
    requires multiset(lines) == multiset(other) && OneDirectionPerGroup(rates, lines)
    ensures VatReport(rates, collate, lines).totals == VatReport(rates, collate, other).totals
  {
    hide VatReport, TotalOf, LineFor, OneDirectionPerGroup;
    DirectionsPermuted(rates, lines, other);
    OneDirectionTotalsArePlain(rates, collate, lines);
    OneDirectionTotalsArePlain(rates, collate, other);
    forall d: Direction, tax: bool | tax ==> !d.Exempt?
      ensures TotalOf(VatReport(rates, collate, lines).totals, d, tax)
              == TotalOf(VatReport(rates, collate, other).totals, d, tax)
    {
      SumPermuted(lines, other, LineFor(rates, d, tax));
    }
    TotalsDetermined(rates, collate, lines);
    TotalsDetermined(rates, collate, other);
  }

  lemma TotalsDetermined(rates: Rates, collate: (string, string) -> int, lines: seq<VatLine>)
    ensures var t := VatReport(rates, collate, lines).totals;
            t == Totals(TotalOf(t, Output, false), TotalOf(t, Input, false), TotalOf(t, Exempt, false),
                        TotalOf(t, Input, true), TotalOf(t, Output, true), TotalOf(t, Output, true)
                          - TotalOf(t, Input, true))
  {
  }

  /** A failing case: when an output base line follows an input line into the same group, the report shows no
      output base at all, whatever the amount. */
  lemma MixedGroupMovesAmounts(rates: Rates, collate: (string, string) -> int, a: VatLine, b: VatLine)
    requires Accepted(rates, a) && Accepted(rates, b) && a.entry == b.entry && a.group.Some? && b.group == a.group
    requires a.stored.meta.direction.Input? && b.stored.meta.direction.Output? && b.role.Base?
    ensures VatReport(rates, collate, [a, b]).totals.outputBase == 0
    ensures SumOf([a, b], LineFor(rates, Output, false)) == b.credit - b.debit
  {
    hide *;
    BothAccepted(rates, a, b);
    PlainOutput(rates, a, b);
    MixedTotal(Taxed(a, a.stored.meta), Taxed(b, b.stored.meta));
    OutputBaseTotal(VatReport(rates, collate, [a, b]).totals);
    TotalIsBucketSum(rates, collate, [a, b], Output, false);
  }

  lemma BothAccepted(rates: Rates, a: VatLine, b: VatLine)
    requires Accepted(rates, a) && Accepted(rates, b) && a.group.Some? && b.group == a.group && a.entry == b.entry
    ensures a.stored.Full? && b.stored.Full?
    ensures AcceptedLines(rates, [a, b]) == [Taxed(a, a.stored.meta), Taxed(b, b.stored.meta)]
    ensures KeyOf(Taxed(a, a.stored.meta)) == KeyOf(Taxed(b, b.stored.meta))
  {
    assert [] + [a] == [a] && [a] + [b] == [a, b];
    ScanStep(rates, [], a);
    ScanStep(rates, [a], b);
    assert AcceptedLines(rates, [a]) == [Taxed(a, a.stored.meta)];
  }

  lemma LineForRead(rates: Rates, l: VatLine, d: Direction, tax: bool)
    requires Accepted(rates, l)
    ensures l.stored.Full? && LineFor(rates, d, tax)(l) == TaxedFor(d, tax)(Taxed(l, l.stored.meta))
  {
  }

  lemma PlainOutput(rates: Rates, a: VatLine, b: VatLine)
    requires Accepted(rates, a) && Accepted(rates, b) && a.stored.meta.direction != Output
    requires b.stored.meta.direction.Output? && b.role.Base?
    ensures SumOf([a, b], LineFor(rates, Output, false)) == b.credit - b.debit
  {
    var f := LineFor(rates, Output, false);
    SumSnoc([a], b, f);
    SumOne(a, f);
    assert [a] + [b] == [a, b];
    LineForRead(rates, a, Output, false);
    LineForRead(rates, b, Output, false);
    AmountIsSigned(Taxed(b, b.stored.meta), false);
    hide LineFor, SumOf, Accepted;
  }

  lemma OutputBaseTotal(t: Totals)
    ensures TotalOf(t, Output, false) == t.outputBase
  {
  }

  lemma MixedTotal(a: Taxed, b: Taxed)
    requires KeyOf(a) == KeyOf(b) && a.meta.direction.Input?
    ensures SumOf(CodesOf(AllGroups([a, b])), BucketAmount(Output, false)) == 0
  {
    DirectionTotalIsLineSum([a, b], Output, false);
    var ts := [a, b];
    PairGroup(a, b);
    hide CodesOf, AllGroups, GroupOf;
    forall t | t in ts ensures GroupLineFor(ts, Output, false)(t) == 0 {
      assert CodeOfLine(ts, t) == CodeOf(a.meta);
    }
    SumZero(ts, GroupLineFor(ts, Output, false));
  }

  lemma PairGroup(a: Taxed, b: Taxed)
    requires KeyOf(a) == KeyOf(b)
    ensures GroupOf([a, b], KeyOf(a)) == [a, b]
  {
    GroupExtends([], a, KeyOf(a));
    GroupExtends([a], b, KeyOf(a));
    assert [] + [a] == [a] && [a] + [b] == [a, b];
  }
}
