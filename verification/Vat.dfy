/** The country-independent VAT engine: classification of posted lines, grouping, exact rounding,
    anomalies and per-code totals. Money is in öre, a rate in hundredths of a percent. */
module Vat {
  import opened Common

  datatype Direction = Input | Output | Exempt

  datatype Role = Base | Tax | Unclassified | NoRole

  datatype Snapshot = Snapshot(
    id: string, code: string, rate: string, direction: Direction, version: string, category: string,
    expected: Option<string>)

  /** The stored JSON: nothing usable, an object without a readable configuration (which may still carry
      the account expectation, possibly null), or a complete snapshot. */
  datatype Stored = Absent | Partial(expectation: Option<Option<string>>) | Full(meta: Snapshot)

  datatype VatLine = VatLine(
    entry: nat, account: string, accountExpected: Option<string>, debit: int, credit: int,
    vatCode: Option<string>, role: Role, group: Option<string>, stored: Stored, voucher: string)

  datatype Code =
    | MissingVatCode | AccountConflict | MissingSnapshot | UnclassifiedLine | InvalidRate | MixedVatCodes
    | UnbalancedEntry | OrphanTax | MissingTaxLine | UnexpectedVatAmount | UnexpectedVatSide | RateBaseMismatch

  datatype Anomaly = Anomaly(code: Code, account: string, voucher: string)

  /** Reading of a rate text: hundredths of a percent, None unless finite, within 0..100 and of two decimals. */
  type Rates = string -> Option<nat>

  // ---------------------------------------------------------------- single lines

  predicate Present(o: Option<string>) { o.Some? && o.value != "" }

  function Expected(l: VatLine): Option<string> {
    match l.stored
    case Full(m) => m.expected
    case Partial(Some(e)) => e
    case _ => l.accountExpected
  }

  predicate GoodRate(rates: Rates, m: Snapshot) {
    rates(m.rate).Some? && (m.direction.Exempt? ==> rates(m.rate) == Some(0))
  }

  /** A line taken into the arithmetic, with the configuration it is read under. */
  datatype Taxed = Taxed(line: VatLine, meta: Snapshot)

  predicate Accepted(rates: Rates, l: VatLine) {
    && Present(l.vatCode) && l.stored.Full? && l.stored.meta.id == l.vatCode.value
    && (l.role.Base? || l.role.Tax?) && GoodRate(rates, l.stored.meta)
  }

  function LineCodes(rates: Rates, l: VatLine): seq<Code> {
    var expected := Expected(l);
    (if (Present(expected) || l.role.Base? || l.role.Tax?) && !Present(l.vatCode) then [MissingVatCode] else [])
    + (if Present(expected) && Present(l.vatCode) && expected != l.vatCode then [AccountConflict] else [])
    + (if !Present(l.vatCode) then []
       else if !l.stored.Full? || l.stored.meta.id != l.vatCode.value then [MissingSnapshot]
       else if !l.role.Base? && !l.role.Tax? then [UnclassifiedLine]
       else if !GoodRate(rates, l.stored.meta) then [InvalidRate] else [])
  }

  /** Credit-positive for output VAT, debit-positive otherwise. */
  function Signed(t: Taxed): int {
    if t.meta.direction.Output? then t.line.credit - t.line.debit else t.line.debit - t.line.credit
  }

  function BaseAmount(t: Taxed): int { if t.line.role.Base? then Signed(t) else 0 }

  function TaxAmount(t: Taxed): int { if t.line.role.Base? then 0 else Signed(t) }

  function IsBase(t: Taxed): int { if t.line.role.Base? then 1 else 0 }

  function IsTax(t: Taxed): int { if t.line.role.Base? then 0 else 1 }

  // ---------------------------------------------------------------- groups and codes

  datatype Key = Key(entry: nat, group: string)

  function KeyOf(t: Taxed): Key {
    Key(t.line.entry, if t.line.group.Some? then t.line.group.value else t.meta.id)
  }

  function AcceptedLines(rates: Rates, lines: seq<VatLine>): (r: seq<Taxed>)
    ensures forall t :: t in r ==> Accepted(rates, t.line) && t.line in lines && t.meta == t.line.stored.meta
  {
    if |lines| == 0 then []
    else
      var r := AcceptedLines(rates, lines[..|lines| - 1]);
      var l := lines[|lines| - 1];
      if Accepted(rates, l) then r + [Taxed(l, l.stored.meta)] else r
  }

  function InGroup(k: Key): Taxed -> bool { (t: Taxed) => KeyOf(t) == k }

  function GroupOf(ts: seq<Taxed>, k: Key): seq<Taxed> { Filter(ts, InGroup(k)) }

  datatype Group = Group(meta: Snapshot, first: VatLine, base: int, tax: int, bases: int, taxes: int)

  function MakeGroup(ts: seq<Taxed>): Group
    requires ts != []
  {
    Group(ts[0].meta, ts[0].line, SumOf(ts, BaseAmount), SumOf(ts, TaxAmount), SumOf(ts, IsBase), SumOf(ts, IsTax))
  }

  function GroupKeys(ts: seq<Taxed>): seq<Key> { FirstSeen(Map(ts, KeyOf)) }

  lemma KeysHaveLines(ts: seq<Taxed>, k: Key)
    ensures k in GroupKeys(ts) <==> GroupOf(ts, k) != []
  {
    var ks := Map(ts, KeyOf);
    if k in ks { var i :| 0 <= i < |ks| && ks[i] == k; assert ts[i] in GroupOf(ts, k); }
    if GroupOf(ts, k) != [] {
      var t := GroupOf(ts, k)[0]; assert t in GroupOf(ts, k); assert t in ts && KeyOf(t) == k;
        var i :| 0 <= i < |ts| && ts[i] == t; assert ks[i] == k;
    }
  }

  /** The groups in the order in which their first line was met. */
  function Groups(ts: seq<Taxed>, ks: seq<Key>): (gs: seq<Group>)
    requires forall k :: k in ks ==> GroupOf(ts, k) != []
    ensures |gs| == |ks| && forall i :: 0 <= i < |ks| ==> gs[i] == MakeGroup(GroupOf(ts, ks[i]))
  {
    if |ks| == 0 then [] else Groups(ts, ks[..|ks| - 1]) + [MakeGroup(GroupOf(ts, ks[|ks| - 1]))]
  }

  function AllGroups(ts: seq<Taxed>): seq<Group> {
    assert forall k :: k in GroupKeys(ts) ==> GroupOf(ts, k) != [] by {
      forall k | k in GroupKeys(ts) ensures GroupOf(ts, k) != [] { KeysHaveLines(ts, k); }
    }
    Groups(ts, GroupKeys(ts))
  }

  datatype CodeKey = CodeKey(id: string, version: string, rate: string, direction: Direction, category: string)

  function CodeOf(m: Snapshot): CodeKey { CodeKey(m.id, m.version, m.rate, m.direction, m.category) }

  function GroupCode(g: Group): CodeKey { CodeOf(g.meta) }

  function BaseIn(c: CodeKey): Group -> int { (g: Group) => if GroupCode(g) == c then g.base else 0 }

  function TaxIn(c: CodeKey): Group -> int { (g: Group) => if GroupCode(g) == c then g.tax else 0 }

  datatype Bucket = Bucket(meta: Snapshot, base: int, tax: int)

  function FirstWith(gs: seq<Group>, c: CodeKey): (m: Option<Snapshot>)
    ensures m.Some? ==> CodeOf(m.value) == c
  {
    if |gs| == 0 then None
    else
      var before := FirstWith(gs[..|gs| - 1], c);
      if before.Some? then before else if GroupCode(gs[|gs| - 1]) == c then Some(gs[|gs| - 1].meta) else None
  }

  function CodeKeys(gs: seq<Group>): seq<CodeKey> { FirstSeen(Map(gs, GroupCode)) }

  lemma {:induction false} CodeKeysAreUsed(gs: seq<Group>, c: CodeKey)
    ensures c in CodeKeys(gs) <==> FirstWith(gs, c).Some?
  {
    if |gs| > 0 {
      var m := Map(gs, GroupCode);
      assert m[..|m| - 1] == Map(gs[..|gs| - 1], GroupCode);
      CodeKeysAreUsed(gs[..|gs| - 1], c);
    }
  }

  function BucketFor(gs: seq<Group>, c: CodeKey): Bucket
    requires FirstWith(gs, c).Some?
  {
    Bucket(FirstWith(gs, c).value, SumOf(gs, BaseIn(c)), SumOf(gs, TaxIn(c)))
  }

  function CodesOf(gs: seq<Group>): (bs: seq<Bucket>)
    ensures |bs| == |CodeKeys(gs)|
    ensures forall i :: 0 <= i < |bs| ==>
            FirstWith(gs, CodeKeys(gs)[i]).Some? && bs[i] == BucketFor(gs, CodeKeys(gs)[i])
  {
    var cs := CodeKeys(gs);
    assert forall i :: 0 <= i < |cs| ==> FirstWith(gs, cs[i]).Some? by {
      forall i | 0 <= i < |cs| ensures FirstWith(gs, cs[i]).Some? { CodeKeysAreUsed(gs, cs[i]); }
    }
    seq(|cs|, i requires 0 <= i < |cs| => BucketFor(gs, cs[i]))
  }

  // ---------------------------------------------------------------- rounding and anomalies

  /** Quotient rounded to the nearest integer, halves away from zero. */
  function RoundHalfUp(n: int, d: int): int
    requires d > 0
  {
    if n >= 0 then (2 * n + d) / (2 * d) else -((2 * -n + d) / (2 * d))
  }

  function ExpectedTax(base: int, rate: nat): int { RoundHalfUp(base * rate, 10000) }

  function RateOf(rates: Rates, m: Snapshot): nat { if rates(m.rate).Some? then rates(m.rate).value else 0 }

  function GroupCodes(rates: Rates, g: Group): seq<Code> {
    var rate := RateOf(rates, g.meta);
    (if g.bases == 0 && g.taxes > 0 then [OrphanTax] else [])
    + (if g.bases > 0 && g.taxes == 0 && rate != 0 then [MissingTaxLine] else [])
    + (if g.meta.direction.Exempt? && g.taxes > 0 then [UnexpectedVatAmount] else [])
    + (if g.bases > 0 && g.taxes > 0 && g.base * g.tax < 0 then [UnexpectedVatSide] else [])
    + (if ExpectedTax(g.base, rate) != g.tax then [RateBaseMismatch] else [])
  }

  function Warn(l: VatLine, codes: seq<Code>): seq<Anomaly> {
    Map(codes, (c: Code) => Anomaly(c, l.account, l.voucher))
  }

  predicate SameConfiguration(m: Snapshot, n: Snapshot) {
    m.id == n.id && m.version == n.version && m.rate == n.rate && m.direction == n.direction
  }

  /** Does adding `t` after `before` put two configurations into one group? */
  predicate Clashes(before: seq<Taxed>, t: Taxed) {
    var g := GroupOf(before, KeyOf(t));
    g != [] && !SameConfiguration(g[0].meta, t.meta)
  }

  predicate Mixes(rates: Rates, before: seq<Taxed>, l: VatLine) {
    Accepted(rates, l) && Clashes(before, Taxed(l, l.stored.meta))
  }

  function LineAnomalies(rates: Rates, lines: seq<VatLine>): seq<Anomaly> {
    if |lines| == 0 then []
    else
      var before := lines[..|lines| - 1];
      var l := lines[|lines| - 1];
      LineAnomalies(rates, before)
      + Warn(l, LineCodes(rates, l) + if Mixes(rates, AcceptedLines(rates, before), l) then [MixedVatCodes] else [])
  }

  function EntryOf(l: VatLine): nat { l.entry }

  function Entries(lines: seq<VatLine>): seq<nat> { FirstSeen(Map(lines, EntryOf)) }

  function DebitIn(e: nat): VatLine -> int { (l: VatLine) => if l.entry == e then l.debit else 0 }

  function CreditIn(e: nat): VatLine -> int { (l: VatLine) => if l.entry == e then l.credit else 0 }

  function FirstOf(lines: seq<VatLine>, e: nat): Option<VatLine> {
    if |lines| == 0 then None
    else
      var before := FirstOf(lines[..|lines| - 1], e);
      if before.Some? then before else if lines[|lines| - 1].entry == e then Some(lines[|lines| - 1]) else None
  }

  function BalanceAnomalies(lines: seq<VatLine>, es: seq<nat>): seq<Anomaly> {
    if |es| == 0 then []
    else
      var e := es[|es| - 1];
      var f := FirstOf(lines, e);
      BalanceAnomalies(lines, es[..|es| - 1])
      + if f.Some? && SumOf(lines, DebitIn(e)) != SumOf(lines, CreditIn(e)) then Warn(f.value, [UnbalancedEntry])
        else []
  }

  function GroupAnomalies(rates: Rates, gs: seq<Group>): seq<Anomaly> {
    if |gs| == 0 then []
    else GroupAnomalies(rates, gs[..|gs| - 1]) + Warn(gs[|gs| - 1].first, GroupCodes(rates, gs[|gs| - 1]))
  }

  // ---------------------------------------------------------------- the report

  datatype Totals = Totals(outputBase: int, inputBase: int, nonVatBase: int, inputVat: int, outputVat: int,
    vatPosition: int)

  datatype Report = Report(anomalies: seq<Anomaly>, codes: seq<Bucket>, totals: Totals)

  function BaseFor(d: Direction): Bucket -> int { (b: Bucket) => if b.meta.direction == d then b.base else 0 }

  function TaxFor(d: Direction): Bucket -> int { (b: Bucket) => if b.meta.direction == d then b.tax else 0 }

  function CodeTotals(codes: seq<Bucket>): Totals {
    var inputVat, outputVat := SumOf(codes, TaxFor(Input)), SumOf(codes, TaxFor(Output));
    Totals(SumOf(codes, BaseFor(Output)), SumOf(codes, BaseFor(Input)), SumOf(codes, BaseFor(Exempt)),
           inputVat, outputVat, outputVat - inputVat)
  }

  /** Report order of codes: code text, then configuration version, in the locale's collation. */
  function ByCode(collate: (string, string) -> int): (Bucket, Bucket) -> int {
    (a: Bucket, b: Bucket) =>
      if collate(a.meta.code, b.meta.code) != 0 then collate(a.meta.code, b.meta.code)
      else collate(a.meta.version, b.meta.version)
  }

  function VatReport(rates: Rates, collate: (string, string) -> int, lines: seq<VatLine>): Report {
    var gs := AllGroups(AcceptedLines(rates, lines));
    var codes := Sort(CodesOf(gs), ByCode(collate));
    Report(LineAnomalies(rates, lines) + BalanceAnomalies(lines, Entries(lines)) + GroupAnomalies(rates, gs),
           codes, CodeTotals(codes))
  }

  // ---------------------------------------------------------------- the engine

  datatype EntrySum = EntrySum(debit: int, credit: int, line: VatLine)

  lemma GroupExtends(ts: seq<Taxed>, t: Taxed, k: Key)
    ensures GroupOf(ts + [t], k) == if KeyOf(t) == k then GroupOf(ts, k) + [t] else GroupOf(ts, k)
  {
    assert (ts + [t])[..|ts|] == ts;
  }

  lemma KeysExtend(ts: seq<Taxed>, t: Taxed)
    ensures GroupKeys(ts + [t]) == if KeyOf(t) in GroupKeys(ts) then GroupKeys(ts) else GroupKeys(ts) + [KeyOf(t)]
  {
    var m := Map(ts + [t], KeyOf);
    assert m[..|m| - 1] == Map(ts, KeyOf);
  }

  /** A group with one more line. */
  function Plus(g: Group, t: Taxed): Group {
    if t.line.role.Base? then g.(base := g.base + Signed(t), bases := g.bases + 1)
    else g.(tax := g.tax + Signed(t), taxes := g.taxes + 1)
  }

  function Fresh(t: Taxed): Group { Group(t.meta, t.line, 0, 0, 0, 0) }

  lemma MakeGroupExtends(ts: seq<Taxed>, t: Taxed)
    ensures MakeGroup(ts + [t]) == Plus(if ts == [] then Fresh(t) else MakeGroup(ts), t)
  {
    SumSnoc(ts, t, BaseAmount);
    SumSnoc(ts, t, TaxAmount);
    SumSnoc(ts, t, IsBase);
    SumSnoc(ts, t, IsTax);
    assert ts == [] ==> ts + [t] == [t];
  }

  /** The group table of the first loop mirrors the grouping of the lines read so far. */
  ghost predicate GroupTable(ts: seq<Taxed>, groups: map<Key, Group>, order: seq<Key>) {
    && order == GroupKeys(ts)
    && (forall k :: k in groups <==> GroupOf(ts, k) != [])
    && (forall k :: k in groups ==> groups[k] == MakeGroup(GroupOf(ts, k)))
  }

  lemma GroupTableStep(ts: seq<Taxed>, groups: map<Key, Group>, order: seq<Key>, t: Taxed)
    requires GroupTable(ts, groups, order)
    ensures var k := KeyOf(t);
            GroupTable(ts + [t], groups[k := Plus(if k in groups then groups[k] else Fresh(t), t)],
                       if k in groups then order else order + [k])
  {
    hide GroupOf, MakeGroup, Plus, Fresh, KeyOf, GroupKeys;
    var k := KeyOf(t);
    var groups' := groups[k := Plus(if k in groups then groups[k] else Fresh(t), t)];
    KeysExtend(ts, t);
    KeysHaveLines(ts, k);
    forall k' | true
      ensures k' in groups' <==> GroupOf(ts + [t], k') != []
      ensures k' in groups' ==> groups'[k'] == MakeGroup(GroupOf(ts + [t], k'))
    {
      GroupExtends(ts, t, k');
      if k' == k { MakeGroupExtends(GroupOf(ts, k), t); }
    }
  }

  function EntryFor(lines: seq<VatLine>, e: nat): EntrySum
    requires FirstOf(lines, e).Some?
  {
    EntrySum(SumOf(lines, DebitIn(e)), SumOf(lines, CreditIn(e)), FirstOf(lines, e).value)
  }

  /** The entry table of the first loop. */
  ghost predicate EntryTable(lines: seq<VatLine>, entries: map<nat, EntrySum>, order: seq<nat>) {
    && order == Entries(lines)
    && (forall e :: e in entries <==> FirstOf(lines, e).Some?)
    && (forall e :: e in entries ==> entries[e] == EntryFor(lines, e))
  }

  lemma {:induction false} EntriesAreUsed(lines: seq<VatLine>, e: nat)
    ensures e in Entries(lines) <==> FirstOf(lines, e).Some?
    ensures e !in Entries(lines) ==> SumOf(lines, DebitIn(e)) == 0 && SumOf(lines, CreditIn(e)) == 0
  {
    if |lines| > 0 {
      var m := Map(lines, EntryOf);
      assert m[..|m| - 1] == Map(lines[..|lines| - 1], EntryOf);
      EntriesAreUsed(lines[..|lines| - 1], e);
    }
  }

  lemma EntryForExtends(lines: seq<VatLine>, l: VatLine, e: nat)
    ensures FirstOf(lines + [l], e).Some? <==> FirstOf(lines, e).Some? || l.entry == e
    ensures FirstOf(lines + [l], e).Some? ==>
      EntryFor(lines + [l], e) ==
      (var s := if FirstOf(lines, e).Some? then EntryFor(lines, e) else EntrySum(0, 0, l);
       if l.entry == e then EntrySum(s.debit + l.debit, s.credit + l.credit, s.line) else s)
  {
    assert (lines + [l])[..|lines|] == lines;
    EntriesAreUsed(lines, e);
    SumSnoc(lines, l, DebitIn(e));
    SumSnoc(lines, l, CreditIn(e));
  }

  lemma EntriesExtend(lines: seq<VatLine>, l: VatLine)
    ensures Entries(lines + [l]) == if l.entry in Entries(lines) then Entries(lines) else Entries(lines) + [l.entry]
  {
    var m := Map(lines + [l], EntryOf);
    assert m[..|m| - 1] == Map(lines, EntryOf);
  }

  lemma EntryTableStep(lines: seq<VatLine>, entries: map<nat, EntrySum>, order: seq<nat>, l: VatLine)
    requires EntryTable(lines, entries, order)
    ensures var s := if l.entry in entries then entries[l.entry] else EntrySum(0, 0, l);
            EntryTable(lines + [l], entries[l.entry := EntrySum(s.debit + l.debit, s.credit + l.credit, s.line)],
                       if l.entry in entries then order else order + [l.entry])
  {
    hide EntryFor, FirstOf;
    EntriesExtend(lines, l);
    EntriesAreUsed(lines, l.entry);
    var s := if l.entry in entries then entries[l.entry] else EntrySum(0, 0, l);
    var entries' := entries[l.entry := EntrySum(s.debit + l.debit, s.credit + l.credit, s.line)];
    forall e | true
      ensures e in entries' <==> FirstOf(lines + [l], e).Some?
      ensures e in entries' ==> entries'[e] == EntryFor(lines + [l], e)
    {
      EntryForExtends(lines, l, e);
    }
  }

  lemma ScanStep(rates: Rates, before: seq<VatLine>, l: VatLine)
    ensures AcceptedLines(rates, before + [l]) ==
      if Accepted(rates, l) then AcceptedLines(rates, before) + [Taxed(l, l.stored.meta)]
        else AcceptedLines(rates, before)
    ensures LineAnomalies(rates, before + [l]) ==
      LineAnomalies(rates, before)
      + Warn(l, LineCodes(rates, l) + if Mixes(rates, AcceptedLines(rates, before), l) then [MixedVatCodes] else [])
  {
    assert (before + [l])[..|before|] == before;
  }

  lemma NothingReadYet(rates: Rates, lines: seq<VatLine>)
    ensures AcceptedLines(rates, lines[..0]) == [] && LineAnomalies(rates, lines[..0]) == []
    ensures EntryTable(lines[..0], map[], []) && GroupTable([], map[], [])
  {
  }

  /** First pass: classify every line, fill the entry table and the group table. */
  method ReadLines(rates: Rates, lines: seq<VatLine>)
    returns (anomalies: seq<Anomaly>, entries: map<nat, EntrySum>, entryOrder: seq<nat>, groups: map<Key, Group>,
      groupOrder: seq<Key>)
    ensures anomalies == LineAnomalies(rates, lines)
    ensures EntryTable(lines, entries, entryOrder)
    ensures GroupTable(AcceptedLines(rates, lines), groups, groupOrder)
  {
    NothingReadYet(rates, lines);
    hide EntryTable, GroupTable, AcceptedLines, LineAnomalies, LineCodes, Warn, Clashes;
    anomalies, entries, entryOrder, groups, groupOrder := [], map[], [], map[], [];
    ghost var taken: seq<Taxed> := [];
    for i := 0 to |lines|
      invariant taken == AcceptedLines(rates, lines[..i])
      invariant anomalies == LineAnomalies(rates, lines[..i])
      invariant EntryTable(lines[..i], entries, entryOrder)
      invariant GroupTable(taken, groups, groupOrder)
    {
      var line := lines[i];
      assert lines[..i + 1] == lines[..i] + [line];
      ScanStep(rates, lines[..i], line);
      entries, entryOrder := AddToEntry(lines[..i], entries, entryOrder, line);
      var found := LineCodes(rates, line);
      if Accepted(rates, line) {
        var mixed;
        mixed, groups, groupOrder := AddToGroup(taken, groups, groupOrder, Taxed(line, line.stored.meta));
        if mixed { found := found + [MixedVatCodes]; } else { assert found == found + []; }
        taken := taken + [Taxed(line, line.stored.meta)];
      } else {
        assert found == found + [];
      }
      anomalies := anomalies + Warn(line, found);
    }
    assert lines[..|lines|] == lines;
  }

  method AddToEntry(ghost before: seq<VatLine>, entries: map<nat, EntrySum>, order: seq<nat>, line: VatLine)
    returns (entries': map<nat, EntrySum>, order': seq<nat>)
    requires EntryTable(before, entries, order)
    ensures EntryTable(before + [line], entries', order')
  {
    hide *;
    EntryTableStep(before, entries, order, line);
    var sums := if line.entry in entries then entries[line.entry] else EntrySum(0, 0, line);
    order' := if line.entry in entries then order else order + [line.entry];
    entries' := entries[line.entry := EntrySum(sums.debit + line.debit, sums.credit + line.credit, sums.line)];
  }

  lemma ClashMeans(taken: seq<Taxed>, groups: map<Key, Group>, order: seq<Key>, t: Taxed)
    requires GroupTable(taken, groups, order)
    ensures KeyOf(t) in order <==> KeyOf(t) in groups
    ensures Clashes(taken, t) <==> KeyOf(t) in groups && !SameConfiguration(groups[KeyOf(t)].meta, t.meta)
  {
    KeysHaveLines(taken, KeyOf(t));
  }

  method AddToGroup(ghost taken: seq<Taxed>, groups: map<Key, Group>, order: seq<Key>, t: Taxed)
    returns (mixed: bool, groups': map<Key, Group>, order': seq<Key>)
    requires GroupTable(taken, groups, order)
    ensures mixed <==> Clashes(taken, t)
    ensures GroupTable(taken + [t], groups', order')
  {
    hide *;
    ClashMeans(taken, groups, order, t);
    GroupTableStep(taken, groups, order, t);
    var key := KeyOf(t);
    var group := Fresh(t);
    mixed := false;
    if key in groups {
      group := groups[key];
      mixed := !SameConfiguration(group.meta, t.meta);
      order' := order;
    } else {
      order' := order + [key];
    }
    group := AddLine(group, t);
    groups' := groups[key := group];
  }

  method AddLine(group: Group, t: Taxed) returns (group': Group)
    ensures group' == Plus(group, t)
  {
    var signed := if t.meta.direction.Output? then t.line.credit - t.line.debit else t.line.debit - t.line.credit;
    if t.line.role.Base? {
      group' := group.(base := group.base + signed, bases := group.bases + 1);
    } else {
      group' := group.(tax := group.tax + signed, taxes := group.taxes + 1);
    }
  }

  /** Second pass: entries whose debit and credit differ. */
  method CheckEntries(lines: seq<VatLine>, entries: map<nat, EntrySum>, order: seq<nat>)
    returns (anomalies: seq<Anomaly>)
    requires EntryTable(lines, entries, order)
    ensures anomalies == BalanceAnomalies(lines, order)
  {
    anomalies := [];
    for i := 0 to |order|
      invariant anomalies == BalanceAnomalies(lines, order[..i])
    {
      assert order[..i + 1][..i] == order[..i];
      EntriesAreUsed(lines, order[i]);
      var sums := entries[order[i]];
      if sums.debit != sums.credit { anomalies := anomalies + Warn(sums.line, [UnbalancedEntry]); }
    }
    assert order[..|order|] == order;
  }

  lemma GroupScanStep(rates: Rates, gs: seq<Group>, i: nat)
    requires i < |gs|
    ensures gs[..i + 1] == gs[..i] + [gs[i]]
    ensures GroupAnomalies(rates, gs[..i + 1])
            == GroupAnomalies(rates, gs[..i]) + Warn(gs[i].first, GroupCodes(rates, gs[i]))
  {
    assert gs[..i + 1][..i] == gs[..i];
  }

  lemma NoCodesYet(rates: Rates, gs: seq<Group>)
    ensures GroupAnomalies(rates, gs[..0]) == [] && CodeTable(gs[..0], map[], [])
  {
  }

  lemma GroupTableReads(ts: seq<Taxed>, groups: map<Key, Group>, order: seq<Key>, i: nat)
    requires GroupTable(ts, groups, order) && i < |AllGroups(ts)|
    ensures i < |order| && order[i] in groups && groups[order[i]] == AllGroups(ts)[i]
  {
    KeysHaveLines(ts, order[i]);
  }

  lemma GroupTableSize(ts: seq<Taxed>, groups: map<Key, Group>, order: seq<Key>)
    requires GroupTable(ts, groups, order)
    ensures |order| == |AllGroups(ts)|
  {
  }

  /** Third pass: check every group and add it to its code. */
  method SumCodes(rates: Rates, ghost taken: seq<Taxed>, groups: map<Key, Group>, order: seq<Key>)
    returns (anomalies: seq<Anomaly>, codes: seq<Bucket>)
    requires GroupTable(taken, groups, order)
    ensures anomalies == GroupAnomalies(rates, AllGroups(taken))
    ensures codes == CodesOf(AllGroups(taken))
  {
    ghost var gs := AllGroups(taken);
    NoCodesYet(rates, gs);
    GroupTableSize(taken, groups, order);
    hide CodeTable, CodesOf, AllGroups, GroupAnomalies, GroupOf, MakeGroup, GroupTable, GroupKeys;
    var byCode: map<CodeKey, Bucket>, codeOrder: seq<CodeKey> := map[], [];
    anomalies := [];
    for i := 0 to |order|
      invariant anomalies == GroupAnomalies(rates, gs[..i])
      invariant CodeTable(gs[..i], byCode, codeOrder)
    {
      GroupTableReads(taken, groups, order, i);
      var group := groups[order[i]];
      GroupScanStep(rates, gs, i);
      anomalies := anomalies + Warn(group.first, GroupCodes(rates, group));
      byCode, codeOrder := AddToCode(gs[..i], byCode, codeOrder, group);
    }
    assert gs[..|gs|] == gs;
    codes := ReadCodes(gs, byCode, codeOrder);
  }

  method ReadCodes(ghost gs: seq<Group>, byCode: map<CodeKey, Bucket>, order: seq<CodeKey>) returns (codes: seq<Bucket>)
    requires CodeTable(gs, byCode, order)
    ensures codes == CodesOf(gs)
  {
    codes := [];
    for i := 0 to |order|
      invariant |codes| == i && forall j :: 0 <= j < i ==> codes[j] == CodesOf(gs)[j]
    {
      CodeKeysAreUsed(gs, order[i]);
      codes := codes + [byCode[order[i]]];
    }
  }

  method AddToCode(ghost gs: seq<Group>, byCode: map<CodeKey, Bucket>, order: seq<CodeKey>, group: Group)
    returns (byCode': map<CodeKey, Bucket>, order': seq<CodeKey>)
    requires CodeTable(gs, byCode, order)
    ensures CodeTable(gs + [group], byCode', order')
  {
    hide CodeTable;
    var key := CodeOf(group.meta);
    var bucket := if key in byCode then byCode[key] else Bucket(group.meta, 0, 0);
    order' := if key in byCode then order else order + [key];
    byCode' := byCode[key := Bucket(bucket.meta, bucket.base + group.base, bucket.tax + group.tax)];
    CodeTableStep(gs, byCode, order, group);
  }

  method CalculateVatReport(rates: Rates, collate: (string, string) -> int, lines: seq<VatLine>)
    returns (report: Report)
    ensures report == VatReport(rates, collate, lines)
  {
    var anomalies, entries, entryOrder, groups, groupOrder := ReadLines(rates, lines);
    var unbalanced := CheckEntries(lines, entries, entryOrder);
    var suspicious, codes := SumCodes(rates, AcceptedLines(rates, lines), groups, groupOrder);
    codes := Sort(codes, ByCode(collate));
    report := Report(anomalies + unbalanced + suspicious, codes, CodeTotals(codes));
  }

  ghost predicate CodeTable(gs: seq<Group>, byCode: map<CodeKey, Bucket>, order: seq<CodeKey>) {
    && order == CodeKeys(gs)
    && (forall c :: c in byCode <==> FirstWith(gs, c).Some?)
    && (forall c :: c in byCode ==> byCode[c] == BucketFor(gs, c))
  }

  lemma BucketForExtends(gs: seq<Group>, g: Group, c: CodeKey)
    ensures FirstWith(gs + [g], c).Some? <==> FirstWith(gs, c).Some? || GroupCode(g) == c
    ensures FirstWith(gs + [g], c).Some? ==>
      BucketFor(gs + [g], c) ==
      (var b := if FirstWith(gs, c).Some? then BucketFor(gs, c) else Bucket(g.meta, 0, 0);
       if GroupCode(g) == c then Bucket(b.meta, b.base + g.base, b.tax + g.tax) else b)
  {
    assert (gs + [g])[..|gs|] == gs;
    CodeSumsUnused(gs, c);
    SumSnoc(gs, g, BaseIn(c));
    SumSnoc(gs, g, TaxIn(c));
  }

  lemma CodeKeysExtend(gs: seq<Group>, g: Group)
    ensures CodeKeys(gs + [g]) == if GroupCode(g) in CodeKeys(gs) then CodeKeys(gs) else CodeKeys(gs) + [GroupCode(g)]
  {
    var m := Map(gs + [g], GroupCode);
    assert m[..|m| - 1] == Map(gs, GroupCode);
  }

  lemma CodeTableStep(gs: seq<Group>, byCode: map<CodeKey, Bucket>, order: seq<CodeKey>, g: Group)
    requires CodeTable(gs, byCode, order)
    ensures var c := GroupCode(g);
            var b := if c in byCode then byCode[c] else Bucket(g.meta, 0, 0);
            var order' := if c in byCode then order else order + [c];
            CodeTable(gs + [g], byCode[c := Bucket(b.meta, b.base + g.base, b.tax + g.tax)], order')
  {
    var c := GroupCode(g);
    CodeKeysExtend(gs, g);
    CodeKeysAreUsed(gs, c);
    hide FirstWith, BucketFor, CodeKeys;
    var b := if c in byCode then byCode[c] else Bucket(g.meta, 0, 0);
    var byCode' := byCode[c := Bucket(b.meta, b.base + g.base, b.tax + g.tax)];
    forall c' | true
      ensures c' in byCode' <==> FirstWith(gs + [g], c').Some?
      ensures c' in byCode' ==> byCode'[c'] == BucketFor(gs + [g], c')
    {
      BucketForExtends(gs, g, c');
    }
  }

  lemma {:induction false} CodeSumsUnused(gs: seq<Group>, c: CodeKey)
    ensures FirstWith(gs, c).None? ==> SumOf(gs, BaseIn(c)) == 0 && SumOf(gs, TaxIn(c)) == 0
  {
    if |gs| > 0 { CodeSumsUnused(gs[..|gs| - 1], c); }
  }
}
