/** Carry-forward: it always balances, it says what it carries, and chains of it lose nothing. */
module CarryChain {
  import opened Common
  import opened LedgerModel
  import opened LedgerMachine
  import opened AccountingData
  import opened OpeningBalances
  import LedgerSafety
  import OpeningSafety
  import ReportLaws
  import SieImport
  import SieParser

  // ---------------------------------------------------------------- carried rows

  function RowNet(): IbRow -> int { (r: IbRow) => r.debit - r.credit }

  lemma SumNetOfRows(rows: seq<IbRow>)
    ensures SumOf(rows, RowNet()) == SumOf(rows, IbDebit()) - SumOf(rows, IbCredit())
  {
    SumAdd(rows, RowNet(), IbCredit(), IbDebit());
  }

  function CarriedPart(l: Ledger, year: nat, result: nat): nat -> int
    requires year < |l.years|
  {
    (a: nat) => CarriedNet(l, year, result, a)
  }

  lemma {:induction false} CarriedSum(l: Ledger, year: nat, result: nat, n: nat)
    requires year < |l.years|
    ensures SumOf(CarriedRows(l, year, result, n), RowNet()) == SumOf(Upto(n), CarriedPart(l, year, result))
  {
    hide CarriedNet;
    if n > 0 {
      var last: nat := n - 1;
      CarriedSum(l, year, result, last);
      var net := CarriedNet(l, year, result, last);
      var front := CarriedRows(l, year, result, last);
      assert Upto(n) == Upto(last) + [last];
      SumSnoc(Upto(last), last, CarriedPart(l, year, result));
      hide Upto;
      if net != 0 { SumSnoc(front, RowOf(last, net), RowNet()); } else { assert front + [] == front; }
    }
  }

  lemma RowOpens(b: nat, net: int, a: nat)
    ensures IbOn(a)(RowOf(b, net)) == if a == b then net else 0
  {
  }

  /** The rows carried forward open every account with what it carries. */
  lemma {:induction false} CarriedOpens(l: Ledger, year: nat, result: nat, n: nat, a: nat)
    requires year < |l.years|
    ensures OpeningNet(CarriedRows(l, year, result, n), a) == if a < n then CarriedNet(l, year, result, a) else 0
  {
    hide CarriedNet;
    if n > 0 {
      CarriedOpens(l, year, result, n - 1, a);
      var net := CarriedNet(l, year, result, n - 1);
      var front := CarriedRows(l, year, result, n - 1);
      RowOpens(n - 1, net, a);
      hide SumOf, RowOf;
      if net != 0 { SumSnoc(front, RowOf(n - 1, net), IbOn(a)); } else { assert front + [] == front; }
    }
  }

  function OnlyResult(l: Ledger, year: nat, result: nat): nat -> int
    requires year < |l.years|
  {
    (a: nat) => if a == result then ResultNet(l, year) else 0
  }

  lemma {:induction false} OneTerm(n: nat, k: nat, f: nat -> int)
    requires k < n && forall a: nat :: a != k ==> f(a) == 0
    ensures SumOf(Upto(n), f) == f(k)
  {
    var last: nat := n - 1;
    assert Upto(n) == Upto(last) + [last];
    SumSnoc(Upto(last), last, f);
    if k == last { SumZero(Upto(last), f); } else { OneTerm(last, k, f); }
  }

  /** Balance accounts carry their closing balance, the others their movement into the result. */
  lemma CarriedIsClosing(l: Ledger, year: nat, result: nat, a: nat)
    requires Inv(l) && year < |l.years| && a < |l.accounts|
    ensures CarriedNet(l, year, result, a) + ResultPart(l, year)(a)
            == ClosingPart(l, year)(a) + OnlyResult(l, year, result)(a)
  {
    assert IbOk(l, l.years[year].ib);
    hide Inv, IbOk, NetMoved, OpeningNet, ResultNet;
    if !IsBalanceKind(l.accounts[a].kind) { ReportLaws.ResultAccountOpensAtZero(l, l.years[year].ib, a); }
  }

  /** In every ledger in order all closing balances add up to zero. */
  lemma FullNetIsZero(l: Ledger, year: nat)
    requires Inv(l) && year < |l.years|
    ensures FullNet(l, year) == 0
  {
    assert IbOk(l, l.years[year].ib);
    ReportLaws.OpeningsPair(l, l.years[year].ib);
    ReportLaws.MovementsPair(l, year, l.years[year].first, l.years[year].last);
    hide Inv, IbOk, NetMoved, OpeningNet, Upto;
    SumAdd(Upto(|l.accounts|), ReportLaws.OpeningOf(l.years[year].ib),
      ReportLaws.NetAt(l, year, l.years[year].first, l.years[year].last), ClosingPart(l, year));
  }

  /** The carried rows of a source whose full net is zero balance: debit equals credit. */
  lemma CarriedRowsBalance(l: Ledger, year: nat, result: nat)
    requires Inv(l) && year < |l.years| && result < |l.accounts| && FullNet(l, year) == 0
    ensures SumOf(CarriedRows(l, year, result, |l.accounts|), IbDebit())
            == SumOf(CarriedRows(l, year, result, |l.accounts|), IbCredit())
  {
    var n := |l.accounts|;
    forall a | a in Upto(n)
      ensures CarriedPart(l, year, result)(a) + ResultPart(l, year)(a)
              == ClosingPart(l, year)(a) + OnlyResult(l, year, result)(a)
    {
      CarriedIsClosing(l, year, result, a);
    }
    SumNetOfRows(CarriedRows(l, year, result, n));
    CarriedSum(l, year, result, n);
    OneTerm(n, result, OnlyResult(l, year, result));
    hide Inv, CarriedRows, CarriedPart, ResultPart, ClosingPart, Upto;
    FourSums(Upto(n), CarriedPart(l, year, result), ResultPart(l, year), ClosingPart(l, year),
      OnlyResult(l, year, result));
  }

  lemma {:induction false} FourSums(ks: seq<nat>, f: nat -> int, g: nat -> int, h: nat -> int, k: nat -> int)
    requires forall a :: a in ks ==> f(a) + g(a) == h(a) + k(a)
    ensures SumOf(ks, f) + SumOf(ks, g) == SumOf(ks, h) + SumOf(ks, k)
  {
    if |ks| > 0 { FourSums(ks[..|ks| - 1], f, g, h, k); }
  }

  /** Neither the check of the full net nor the balance check of the carried rows can ever fail. */
  lemma CarryAlwaysBalances(l: Ledger, env: Registers, s: nat, t: nat, r: nat)
    requires Inv(l)
    ensures CarryRefusal(l, env, s, t, r) != Some(SourceUnbalanced)
    ensures CarryRefusal(l, env, s, t, r) != Some(IbUnbalanced)
  {
    hide Inv, FullNet, CarriedRows, ContextError, HasConfirmed, RowsBookable, WriteRefusal, RowsRefusal, SumOf;
    if s < |l.years| && r < |l.accounts| {
      FullNetIsZero(l, s);
      CarriedRowsBalance(l, s, r);
    }
    WriteRefusalKinds(l, t);
    ContextKinds(l, s);
    if s < |l.years| { RefusalKinds(l, CarriedRows(l, s, r, |l.accounts|)); }
  }

  lemma WriteRefusalKinds(l: Ledger, year: nat)
    ensures WriteRefusal(l, year).Some? ==> WriteRefusal(l, year).value in {NotFound, IbLocked}
  {
  }

  lemma ContextKinds(l: Ledger, year: nat)
    ensures ContextError(l, year).Some? ==>
            ContextError(l, year).value in {NotFound, TooLarge, InvalidOpening, UnbalancedOpening}
  {
  }

  lemma {:induction false} RefusalKinds(l: Ledger, rows: seq<IbRow>)
    ensures RowsRefusal(l, rows).Some? ==> RowsRefusal(l, rows).value in {IbAccountInvalid, IbInactive, IbRowInvalid}
  {
    if |rows| > 0 { RefusalKinds(l, rows[..|rows| - 1]); }
  }

  // ---------------------------------------------------------------- closed years stand still

  lemma {:induction false} SameLines(a: seq<Entry>, b: seq<Entry>, year: nat, from: int, to: int)
    requires |a| == |b| && forall i :: 0 <= i < |a| && (a[i].year == year || b[i].year == year) ==> a[i] == b[i]
    ensures LinesIn(a, year, from, to) == LinesIn(b, year, from, to)
  {
    if |a| > 0 { SameLines(a[..|a| - 1], b[..|b| - 1], year, from, to); }
  }

  lemma {:induction false} MoreEntries(a: seq<Entry>, n: nat, year: nat, from: int, to: int)
    requires n <= |a| && forall i :: n <= i < |a| ==> a[i].year != year
    ensures LinesIn(a, year, from, to) == LinesIn(a[..n], year, from, to)
  {
    if n < |a| {
      MoreEntries(a[..|a| - 1], n, year, from, to);
      assert a[..|a| - 1][..n] == a[..n];
    } else {
      assert a[..n] == a;
    }
  }

  /** No step touches the vouchers of a closed year. */
  lemma {:induction false} ClosedEntriesSame(l: Ledger, s: Step, y: nat)
    requires Inv(l) && y < |l.years| && l.years[y].closed
    ensures var m := Next(l, s);
            && |l.entries| <= |m.entries|
            && (forall i :: 0 <= i < |l.entries| && (l.entries[i].year == y || m.entries[i].year == y) ==>
               l.entries[i] == m.entries[i])
            && (forall i :: |l.entries| <= i < |m.entries| ==> m.entries[i].year != y)
  {
    hide Next, LedgerSafety.SameInPeriod;
    LedgerSafety.NextKeeps(l, s);
    var m := Next(l, s);
    assert YearOk(l.years[y]) && YearGrows(l.years[y], m.years[y]);
    GrowsCount(l, m);
    forall i | 0 <= i < |l.entries| && (l.entries[i].year == y || m.entries[i].year == y)
      ensures l.entries[i] == m.entries[i]
    {
      assert EntryOk(l, l.entries[i]) && EntryOk(m, m.entries[i]);
      var p := if l.entries[i].year == y then l.entries[i].period else m.entries[i].period;
      PeriodLocked(l, y, p);
      LedgerSafety.LockedPeriodIsFrozen(l, s, y, p);
      SameAt(l, m, y, p, i);
    }
    forall i | |l.entries| <= i < |m.entries| ensures m.entries[i].year != y {
      assert EntryOk(m, m.entries[i]);
      if m.entries[i].year == y {
        PeriodLocked(l, y, m.entries[i].period);
        LedgerSafety.LockedPeriodIsFrozen(l, s, y, m.entries[i].period);
      }
      NoneNew(l, m, y, i);
    }
  }

  lemma GrowsCount(l: Ledger, m: Ledger)
    requires Grows(l, m)
    ensures |l.entries| <= |m.entries| && |l.years| <= |m.years| && |l.accounts| <= |m.accounts|
  {
  }

  lemma PeriodLocked(l: Ledger, y: nat, p: nat)
    requires y < |l.years| && p < |l.years[y].periods| && AllLocked(l.years[y])
    ensures LedgerSafety.IsLocked(l, y, p)
  {
    assert l.years[y].periods[p] in l.years[y].periods;
  }

  lemma SameAt(l: Ledger, m: Ledger, y: nat, p: nat, i: nat)
    requires LedgerSafety.SameInPeriod(l, m, y, p) && i < |l.entries| <= |m.entries|
    requires LedgerSafety.InPeriod(l.entries[i], y, p) || LedgerSafety.InPeriod(m.entries[i], y, p)
    ensures l.entries[i] == m.entries[i]
  {
  }

  lemma NoneNew(l: Ledger, m: Ledger, y: nat, i: nat)
    requires |l.entries| <= i < |m.entries|
             && (m.entries[i].year == y ==> LedgerSafety.SameInPeriod(l, m, y, m.entries[i].period))
    ensures m.entries[i].year != y
  {
  }

  lemma YearGrew(l: Ledger, m: Ledger, y: nat)
    requires Grows(l, m) && y < |l.years|
    ensures y < |m.years| && YearGrows(l.years[y], m.years[y])
  {
  }

  lemma {:induction false} ClosedNetsSame(l: Ledger, s: Step, y: nat, a: nat)
    requires Inv(l) && y < |l.years| && l.years[y].closed
    ensures y < |Next(l, s).years| && Next(l, s).years[y] == l.years[y]
    ensures NetMoved(Next(l, s), y, l.years[y].first, l.years[y].last, NO_DIMENSIONS, a)
            == NetMoved(l, y, l.years[y].first, l.years[y].last, NO_DIMENSIONS, a)
  {
    hide Inv, Next, Grows, LinesIn;
    var m, year := Next(l, s), l.years[y];
    ClosedEntriesSame(l, s, y);
    LedgerSafety.NextKeeps(l, s);
    YearGrew(l, m, y);
    SameLines(l.entries, m.entries[..|l.entries|], y, year.first, year.last);
    MoreEntries(m.entries, |l.entries|, y, year.first, year.last);
  }

  /** An account that moved or opened in some year is in use. */
  lemma UnusedIsZero(l: Ledger, y: nat, a: nat)
    requires Inv(l) && y < |l.years| && !AccountUsed(l, a)
    ensures NetMoved(l, y, l.years[y].first, l.years[y].last, NO_DIMENSIONS, a) == 0 && ClosingNet(l, y, a) == 0
  {
    var lines := LinesIn(l.entries, y, l.years[y].first, l.years[y].last);
    hide Inv;
    forall x | x in lines ensures x.account != a {
      var e := EntryOfLine(l.entries, y, l.years[y].first, l.years[y].last, x);
    }
    SumZero(lines, DebitOn(a, NO_DIMENSIONS));
    SumZero(lines, CreditOn(a, NO_DIMENSIONS));
    forall r | r in l.years[y].ib ensures r.account != a { assert l.years[y] in l.years; }
    SumZero(l.years[y].ib, IbOn(a));
  }

  lemma {:induction false} EntryOfLine(entries: seq<Entry>, year: nat, from: int, to: int, x: Line) returns (e: Entry)
    requires x in LinesIn(entries, year, from, to)
    ensures e in entries && e.posted && x in e.lines
  {
    var n := |entries| - 1;
    if PostedIn(entries[n], year, from, to) && x in entries[n].lines { e := entries[n]; }
    else { e := EntryOfLine(entries[..n], year, from, to, x); }
  }

  lemma BeyondIsUnused(l: Ledger, a: nat)
    requires Inv(l) && a >= |l.accounts|
    ensures !AccountUsed(l, a)
  {
    forall y, r | y in l.years && r in y.ib ensures r.account != a {
      var i :| 0 <= i < |l.years| && l.years[i] == y;
      assert IbOk(l, y.ib);
      OpeningSafety.SoundRows(l, y.ib);
    }
    forall e, x | e in l.entries && x in e.lines ensures x.account != a {
      var i :| 0 <= i < |l.entries| && l.entries[i] == e;
      assert EntryOk(l, e);
    }
  }

  lemma {:induction false} ClosedPartsSame(l: Ledger, s: Step, y: nat, a: nat)
    requires Inv(l) && y < |l.years| && l.years[y].closed
    ensures y < |Next(l, s).years| && |l.accounts| <= |Next(l, s).accounts|
    ensures ResultPart(Next(l, s), y)(a) == ResultPart(l, y)(a)
    ensures (if a < |Next(l, s).accounts| && IsBalanceKind(Next(l, s).accounts[a].kind)
            then ClosingNet(Next(l, s), y, a) else 0)
            == (if a < |l.accounts| && IsBalanceKind(l.accounts[a].kind) then ClosingNet(l, y, a) else 0)
  {
    hide Inv, Next, NetMoved, OpeningNet, AccountUsed, Grows;
    LedgerSafety.NextKeeps(l, s);
    GrowsCount(l, Next(l, s));
    ClosedNetsSame(l, s, y, a);
    if a >= |l.accounts| { BeyondIsUnused(l, a); }
    if !AccountUsed(l, a) { UnusedIsZero(l, y, a); } else { OpeningSafety.ClassificationIsFrozen(l, s, a); }
  }

  lemma {:induction false} ClosedCarrySame(l: Ledger, s: Step, y: nat, result: nat, a: nat)
    requires Inv(l) && y < |l.years| && l.years[y].closed
    ensures y < |Next(l, s).years| && CarriedNet(Next(l, s), y, result, a) == CarriedNet(l, y, result, a)
    ensures ResultNet(Next(l, s), y) == ResultNet(l, y)
  {
    hide Inv, Next, ResultPart, ClosingNet;
    var m := Next(l, s);
    ClosedPartsSame(l, s, y, a);
    forall b: nat ensures ResultPart(m, y)(b) == ResultPart(l, y)(b) { ClosedPartsSame(l, s, y, b); }
    forall b: nat | b >= |l.accounts| ensures ResultPart(l, y)(b) == 0 { BeyondHasNoResult(l, y, b); }
    SumBeyond(|l.accounts|, |m.accounts|, ResultPart(l, y));
    SumExt(Upto(|m.accounts|), ResultPart(m, y), ResultPart(l, y));
  }

  lemma BeyondHasNoResult(l: Ledger, y: nat, b: nat)
    requires y < |l.years| && b >= |l.accounts|
    ensures ResultPart(l, y)(b) == 0
  {
  }

  lemma {:induction false} SumBeyond(n: nat, k: nat, f: nat -> int)
    requires n <= k && forall a: nat :: a >= n ==> f(a) == 0
    ensures SumOf(Upto(k), f) == SumOf(Upto(n), f)
  {
    if n < k {
      var last: nat := k - 1;
      assert Upto(k) == Upto(last) + [last];
      SumSnoc(Upto(last), last, f);
      SumBeyond(n, last, f);
    }
  }

  // ---------------------------------------------------------------- confirmed carry-forwards over runs

  /** What a confirmed carry-forward says is still true of the closed source year. */
  ghost predicate CarryHolds(l: Ledger, c: Carry) {
    && c.source < |l.years| && c.target < |l.years| && l.years[c.source].closed
       && l.years[c.target].first == l.years[c.source].last + 1
    && forall a: nat :: OpeningNet(c.plan.rows, a) == CarriedNet(l, c.source, c.result, a)
  }

  ghost predicate CarriesHold(l: Ledger)
  {
    forall i :: 0 <= i < |l.carries| && l.carries[i].confirmed ==> CarryHolds(l, l.carries[i])
  }

  lemma {:induction false} HoldsStays(l: Ledger, s: Step, c: Carry)
    requires Inv(l) && CarryHolds(l, c)
    ensures CarryHolds(Next(l, s), c)
  {
    hide Next, CarriedNet, OpeningNet;
    LedgerSafety.NextKeeps(l, s);
    assert YearGrows(l.years[c.source], Next(l, s).years[c.source])
      && YearGrows(l.years[c.target], Next(l, s).years[c.target]);
    hide Inv, Grows;
    forall a: nat ensures OpeningNet(c.plan.rows, a) == CarriedNet(Next(l, s), c.source, c.result, a) {
      ClosedCarrySame(l, s, c.source, c.result, a);
    }
  }

  lemma CalculatedFacts(l: Ledger, env: Registers, s: nat, t: nat, r: nat)
    requires Calculate(l, env, s, t, r).Ok?
    ensures s < |l.years| && t < |l.years| && r < |l.accounts| && l.years[s].closed
    ensures l.years[t].first == l.years[s].last + 1
    ensures Calculate(l, env, s, t, r).value.rows == CarriedRows(l, s, r, |l.accounts|)
  {
    hide Validation, FullNet, CarriedRows, ContextError, HasConfirmed, WriteRefusal;
  }

  lemma ConfirmedHolds(l: Ledger, env: Registers, id: nat, actor: string, now: int)
    requires Inv(l) && Confirm(l, env, id, actor, now).Ok?
    ensures id < |l.carries| && CarryHolds(l, l.carries[id])
  {
    var c := l.carries[id];
    hide *;
    ConfirmedPlan(l, env, id, actor, now);
    CalculatedFacts(l, env, c.source, c.target, c.result);
    PlanOpens(l, c.source, c.result, c.plan.rows);
    HoldsBy(l, c);
  }

  lemma ConfirmedPlan(l: Ledger, env: Registers, id: nat, actor: string, now: int)
    requires Confirm(l, env, id, actor, now).Ok?
    ensures id < |l.carries|
    ensures Calculate(l, env, l.carries[id].source, l.carries[id].target, l.carries[id].result)
            == Ok(l.carries[id].plan)
  {
    hide Calculate, PlanOf;
  }

  lemma PlanOpens(l: Ledger, year: nat, result: nat, rows: seq<IbRow>)
    requires year < |l.years| && result < |l.accounts| && rows == CarriedRows(l, year, result, |l.accounts|)
    ensures forall a: nat :: OpeningNet(rows, a) == CarriedNet(l, year, result, a)
  {
    hide *;
    forall a: nat ensures OpeningNet(rows, a) == CarriedNet(l, year, result, a) {
      CarriedOpens(l, year, result, |l.accounts|, a);
      if a >= |l.accounts| { BeyondCarriesNothing(l, year, result, a); }
    }
  }

  lemma HoldsBy(l: Ledger, c: Carry)
    requires c.source < |l.years| && c.target < |l.years| && l.years[c.source].closed
    requires l.years[c.target].first == l.years[c.source].last + 1
    requires forall a: nat :: OpeningNet(c.plan.rows, a) == CarriedNet(l, c.source, c.result, a)
    ensures CarryHolds(l, c)
  {
    hide OpeningNet, CarriedNet;
  }

  lemma BeyondCarriesNothing(l: Ledger, year: nat, result: nat, a: nat)
    requires year < |l.years| && a >= |l.accounts| && result < |l.accounts|
    ensures CarriedNet(l, year, result, a) == 0
  {
  }

  lemma {:induction false} OtherCarries(l: Ledger, s: Step)
    requires !s.ConfirmCarry? && Do(l, s).Ok?
    ensures |l.carries| <= |Do(l, s).value.carries|
    ensures forall i :: 0 <= i < |Do(l, s).value.carries| && Do(l, s).value.carries[i].confirmed ==>
            i < |l.carries| && Do(l, s).value.carries[i] == l.carries[i]
  {
    hide *;
    LedgerSafety.DoIs(l, s);
    CarriesAre(l, s);
  }

  lemma {:induction false} CarriesAre(l: Ledger, s: Step)
    requires !s.ConfirmCarry? && Do(l, s).Ok?
    ensures s.PreviewCarry? || Do(l, s).value.carries == l.carries
    ensures s.PreviewCarry? ==>
            |Do(l, s).value.carries| == |l.carries| + 1 && Do(l, s).value.carries[..|l.carries|] == l.carries
                                && !Do(l, s).value.carries[|l.carries|].confirmed
  {
    hide Calculate, Validation, WriteRefusal, RequireOpen, AllLocked, HasDraft, SeriesPosted, SieImport.Import,
         SieParser.Parse;
    if s.ImportSie? { ImportKeepsCarries(l, s.review, s.year, SieParser.Parse(s.content)); }
  }

  lemma {:induction false} ImportKeepsCarries(l: Ledger, r: SieImport.Review, year: nat, doc: SieParser.Document)
    requires SieImport.Import(l, r, year, doc).Ok?
    ensures SieImport.Import(l, r, year, doc).value.carries == l.carries
  {
    hide SieImport.ImportRefusal, SieImport.ActivateAll, SieImport.AddAccounts, SieImport.OpeningRows,
         SieImport.WithVouchers, ContextError;
    LedgerSafety.ImportNeedsYear(l, r, year, doc);
  }

  lemma {:induction false} HoldStep(l: Ledger, s: Step)
    requires Inv(l) && CarriesHold(l)
    ensures CarriesHold(Next(l, s))
  {
    hide Inv, CarryHolds, Do, Confirm;
    var m := Next(l, s);
    forall i | 0 <= i < |m.carries| && m.carries[i].confirmed ensures CarryHolds(m, m.carries[i]) {
      if Do(l, s).Err? {
        assert m == l;
      } else if s.ConfirmCarry? {
        LedgerSafety.DoIs(l, s);
        ConfirmedHolds(l, s.env, s.id, s.actor, s.now);
        ConfirmChanges(l, s.env, s.id, s.actor, s.now, i);
        HoldsStays(l, s, if i == s.id then l.carries[s.id] else l.carries[i]);
        SameCarry(m, l.carries[i], m.carries[i]);
      } else {
        OtherCarries(l, s);
        HoldsStays(l, s, l.carries[i]);
      }
    }
  }

  lemma ConfirmChanges(l: Ledger, env: Registers, id: nat, actor: string, now: int, i: nat)
    requires Confirm(l, env, id, actor, now).Ok? && i < |Confirm(l, env, id, actor, now).value.carries|
    ensures id < |l.carries| && |Confirm(l, env, id, actor, now).value.carries| == |l.carries|
    ensures Confirm(l, env, id, actor, now).value.carries[i] == if i == id then l.carries[i].(confirmed := true)
            else l.carries[i]
  {
    hide Calculate, PlanOf;
  }

  /** The confirmation mark does not matter to what the carry-forward says. */
  lemma SameCarry(l: Ledger, c: Carry, d: Carry)
    requires d == c || d == c.(confirmed := true)
    ensures CarryHolds(l, c) ==> CarryHolds(l, d)
  {
    hide CarriedNet, OpeningNet;
  }

  lemma {:induction false} RunHolds(l: Ledger, steps: seq<Step>)
    requires Inv(l) && CarriesHold(l)
    ensures CarriesHold(Run(l, steps))
    decreases |steps|
  {
    hide Inv, CarriesHold, Next;
    if |steps| > 0 {
      RunHolds(l, steps[..|steps| - 1]);
      LedgerSafety.RunKeeps(l, steps[..|steps| - 1]);
      HoldStep(Run(l, steps[..|steps| - 1]), steps[|steps| - 1]);
    }
  }

  lemma NothingCarried()
    ensures CarriesHold(NOTHING)
  {
  }

  /** Confirmed carry-forwards whose target year still has the carried rows, each starting where the one
      before it ended. */
  ghost predicate Chain(l: Ledger, cs: seq<Carry>) {
    && (forall c :: c in cs ==>
       c in l.carries && c.confirmed && c.source < |l.years| && c.target < |l.years|
         && l.years[c.target].ib == c.plan.rows)
    && (forall k :: 0 <= k < |cs| - 1 ==> cs[k].target == cs[k + 1].source)
  }

  /** Everything an account moved in the source years of a chain, and the results it absorbed as result account. */
  function Gained(l: Ledger, cs: seq<Carry>, a: nat): int
    requires forall c :: c in cs ==> c.source < |l.years|
  {
    if |cs| == 0 then 0
    else
      var c := cs[|cs| - 1];
      assert c in cs;
      Gained(l, cs[..|cs| - 1], a)
        + NetMoved(l, c.source, l.years[c.source].first, l.years[c.source].last, NO_DIMENSIONS, a)
      + (if c.result == a then ResultNet(l, c.source) else 0)
  }

  lemma ChainLink(l: Ledger, c: Carry, a: nat)
    requires CarryHolds(l, c) && l.years[c.target].ib == c.plan.rows && a < |l.accounts|
    requires IsBalanceKind(l.accounts[a].kind)
    ensures OpeningNet(l.years[c.target].ib, a) == OpeningNet(l.years[c.source].ib, a)
            + NetMoved(l, c.source, l.years[c.source].first, l.years[c.source].last, NO_DIMENSIONS, a)
              + (if c.result == a then ResultNet(l, c.source) else 0)
  {
    assert OpeningNet(c.plan.rows, a) == CarriedNet(l, c.source, c.result, a);
    hide OpeningNet, NetMoved, ResultNet;
  }

  lemma ChainHolds(l: Ledger, cs: seq<Carry>, c: Carry)
    requires CarriesHold(l) && Chain(l, cs) && c in cs
    ensures CarryHolds(l, c) && l.years[c.target].ib == c.plan.rows
  {
    hide CarryHolds;
    var i :| 0 <= i < |l.carries| && l.carries[i] == c;
  }

  lemma {:induction false} ChainSum(l: Ledger, cs: seq<Carry>, a: nat)
    requires CarriesHold(l) && Chain(l, cs) && cs != [] && a < |l.accounts| && IsBalanceKind(l.accounts[a].kind)
    ensures OpeningNet(l.years[cs[|cs| - 1].target].ib, a) == OpeningNet(l.years[cs[0].source].ib, a) + Gained(l, cs, a)
  {
    hide CarriesHold, CarryHolds, OpeningNet, NetMoved, ResultNet;
    var n := |cs| - 1;
    ChainHolds(l, cs, cs[n]);
    ChainLink(l, cs[n], a);
    if n > 0 {
      ChainSum(l, cs[..n], a);
      assert cs[n - 1].target == cs[n].source;
    } else {
      assert cs[..0] == [];
    }
  }

  /** Along any chain of confirmed carry-forwards without later edits, a balance account opens the last year
      with its first opening plus everything posted on it in the source years, and the result accounts take
      up exactly the results of those years. */
  lemma {:induction false} CarryForwardLosesNothing(steps: seq<Step>, cs: seq<Carry>, a: nat)
    requires var l := Run(NOTHING, steps);
             Chain(l, cs) && cs != [] && a < |l.accounts| && IsBalanceKind(l.accounts[a].kind)
    ensures var l := Run(NOTHING, steps);
            OpeningNet(l.years[cs[|cs| - 1].target].ib, a) == OpeningNet(l.years[cs[0].source].ib, a) + Gained(l, cs, a)
  {
    hide Run, CarriesHold, Chain, Gained, OpeningNet;
    LedgerSafety.NothingIsInOrder();
    NothingCarried();
    RunHolds(NOTHING, steps);
    ChainSum(Run(NOTHING, steps), cs, a);
  }
}
