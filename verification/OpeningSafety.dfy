/** Opening balances, account classification and series codes over whole runs. */
module OpeningSafety {
  import opened Common
  import opened LedgerModel
  import opened LedgerMachine
  import opened LedgerSafety
  import AccountingData
  import Calendar
  import Catalog
  import Journal
  import ImportOutcome
  import OpeningBalances
  import Registry
  import SieImport
  import SieParser

  /** In every reachable state the opening balances of a year are unique, non-negative, single-sided rows on
      balance-sheet accounts with equal debit and credit, and at most one carry-forward into it is confirmed. */
  lemma {:induction false} OpeningsAreSound(steps: seq<Step>, y: nat)
    requires y < |Run(NOTHING, steps).years|
    ensures var l := Run(NOTHING, steps);
            && (forall r :: r in l.years[y].ib ==> r.account < |l.accounts| && IsBalanceKind(l.accounts[r.account].kind)
                                                   && r.debit >= 0 && r.credit >= 0 && !(r.debit > 0 && r.credit > 0))
            && (forall i, j :: 0 <= i < j < |l.years[y].ib| ==> l.years[y].ib[i].account != l.years[y].ib[j].account)
            && SumOf(l.years[y].ib, IbDebit()) == SumOf(l.years[y].ib, IbCredit())
            && (forall i, j :: 0 <= i < j < |l.carries| && l.carries[i].confirmed && l.carries[j].confirmed ==>
               l.carries[i].target != l.carries[j].target)
  {
    hide Run;
    ReachableInOrder(steps);
    var l := Run(NOTHING, steps);
    hide EntriesOk, EntriesApart, SeriesOk, AccountsOk, YearsApart, NoClosedDrafts, YearOk, SumOf;
    assert IbOk(l, l.years[y].ib);
    SoundRows(l, l.years[y].ib);
  }

  lemma SoundRows(l: Ledger, rows: seq<IbRow>)
    requires AccountingData.RowsSound(l, rows)
    ensures forall r :: r in rows ==> r.account < |l.accounts| && IsBalanceKind(l.accounts[r.account].kind)
                                      && r.debit >= 0 && r.credit >= 0 && !(r.debit > 0 && r.credit > 0)
    ensures forall i, j :: 0 <= i < j < |rows| ==> rows[i].account != rows[j].account
  {
    assert forall i :: 0 <= i < |rows| ==> AccountingData.RowSound(l, rows[..i], rows[i]);
    forall i, j | 0 <= i < j < |rows| ensures rows[i].account != rows[j].account {
      assert AccountingData.RowSound(l, rows[..j], rows[j]) && rows[..j][i] == rows[i];
      assert rows[i] in rows[..j];
    }
  }

  // ---------------------------------------------------------------- frozen after the first posting

  lemma {:induction false} ImportKeepsIb(l: Ledger, r: SieImport.Review, year: nat, doc: SieParser.Document, y: nat)
    requires SieImport.Import(l, r, year, doc).Ok? && y < |l.years| && (y == year ==> HasPosted(l, year))
    ensures y < |SieImport.Import(l, r, year, doc).value.years|
    ensures SieImport.Import(l, r, year, doc).value.years[y].ib == l.years[y].ib
  {
    hide SieImport.ImportRefusal, SieImport.ActivateAll, SieImport.AddAccounts, SieImport.WithVouchers,
         AccountingData.ContextError;
    ImportNeedsYear(l, r, year, doc);
  }

  predicate WritesIb(s: Step) { s.SaveIb? || s.ConfirmCarry? || s.ImportSie? }

  lemma OtherStepsKeepIb(l: Ledger, s: Step, y: nat)
    requires !WritesIb(s) && Do(l, s).Ok? && y < |l.years|
    ensures y < |Do(l, s).value.years| && Do(l, s).value.years[y].ib == l.years[y].ib
  {
    hide OpeningBalances.Calculate, Registry.AccountRefusal, Calendar.Tiles, AllLocked, HasDraft, Journal.PrepareDraft,
         Journal.ChangeRefusal, Journal.PostRefusal, Journal.ReverseRefusal, Journal.FrozenLines, SeriesPosted,
         Registry.HasSeries;
  }

  lemma WritableYear(l: Ledger, year: nat)
    requires OpeningBalances.WriteRefusal(l, year).None?
    ensures year < |l.years|
  {
  }

  lemma SaveKeepsIb(l: Ledger, env: Registers, year: nat, seen: OpeningBalances.Print, rows: seq<IbRow>, y: nat)
    requires OpeningBalances.Save(l, env, year, seen, rows).Ok? && y < |l.years|
    requires OpeningBalances.WriteRefusal(l, y).Some?
    ensures y < |OpeningBalances.Save(l, env, year, seen, rows).value.years|
    ensures OpeningBalances.Save(l, env, year, seen, rows).value.years[y].ib == l.years[y].ib
  {
    hide OpeningBalances.Validation, OpeningBalances.WriteRefusal;
    WritableYear(l, year);
  }

  lemma ConfirmKeepsIb(l: Ledger, env: Registers, id: nat, actor: string, now: int, y: nat)
    requires OpeningBalances.Confirm(l, env, id, actor, now).Ok? && y < |l.years|
    requires OpeningBalances.WriteRefusal(l, y).Some?
    ensures y < |OpeningBalances.Confirm(l, env, id, actor, now).value.years|
    ensures OpeningBalances.Confirm(l, env, id, actor, now).value.years[y].ib == l.years[y].ib
  {
    hide OpeningBalances.Validation, OpeningBalances.WriteRefusal, AccountingData.ContextError, OpeningBalances.FullNet,
         OpeningBalances.CarriedRows, OpeningBalances.HasConfirmed, OpeningBalances.ResultNet;
  }

  /** Whoever writes them, opening balances do not change once the year has a posted voucher. */
  lemma {:induction false} IbIsFrozen(l: Ledger, s: Step, y: nat)
    requires y < |l.years| && HasPosted(l, y)
    ensures y < |Next(l, s).years| && Next(l, s).years[y].ib == l.years[y].ib
  {
    hide Do, HasPosted, SieImport.Import, OpeningBalances.Save, OpeningBalances.Confirm, SieParser.Parse;
    DoIs(l, s);
    assert OpeningBalances.WriteRefusal(l, y).Some?;
    if Do(l, s).Ok? {
      if s.SaveIb? { SaveKeepsIb(l, s.env, s.year, s.seen, s.rows, y); }
      else if s.ConfirmCarry? { ConfirmKeepsIb(l, s.env, s.id, s.actor, s.now, y); }
      else if s.ImportSie? { ImportKeepsIb(l, s.review, s.year, SieParser.Parse(s.content), y); }
      else { OtherStepsKeepIb(l, s, y); }
    }
  }

  lemma PostedStays(l: Ledger, m: Ledger, y: nat)
    requires Grows(l, m) && HasPosted(l, y)
    ensures HasPosted(m, y)
  {
    var e :| e in l.entries && e.year == y && e.posted;
    var i :| 0 <= i < |l.entries| && l.entries[i] == e;
    assert EntryGrows(l.entries[i], m.entries[i]);
    assert m.entries[i] in m.entries;
  }

  lemma {:induction false} IbStaysFrozen(l: Ledger, steps: seq<Step>, y: nat)
    requires Inv(l) && y < |l.years| && HasPosted(l, y)
    ensures y < |Run(l, steps).years| && Run(l, steps).years[y].ib == l.years[y].ib
    decreases |steps|
  {
    hide Inv, Next, HasPosted, Grows;
    if |steps| > 0 {
      var front := steps[..|steps| - 1];
      IbStaysFrozen(l, front, y);
      RunKeeps(l, front);
      PostedStays(l, Run(l, front), y);
      IbIsFrozen(Run(l, front), steps[|front|], y);
    }
  }

  // ---------------------------------------------------------------- frozen classification

  predicate SameClass(l: Ledger, m: Ledger, a: nat) {
    a < |l.accounts| <= |m.accounts| && m.accounts[a].number == l.accounts[a].number
      && m.accounts[a].kind == l.accounts[a].kind
  }

  predicate AllSameClass(l: Ledger, m: Ledger) { forall a :: 0 <= a < |l.accounts| ==> SameClass(l, m, a) }

  lemma ActivateKeepsClass(accounts: seq<Account>, l: Ledger, r: SieImport.Review, doc: SieParser.Document,
        number: string)
    ensures var all := SieImport.Activate(l, r, doc, accounts, number);
            |all| == |accounts| && forall a :: 0 <= a < |accounts| ==>
              all[a].number == accounts[a].number && all[a].kind == accounts[a].kind
  {
    hide SieImport.NeedsActivation;
  }

  lemma {:induction false} ActivateAllKeepsClass(l: Ledger, r: SieImport.Review, doc: SieParser.Document,
        numbers: seq<string>)
    ensures var all := SieImport.ActivateAll(l, r, doc, numbers);
            |all| == |l.accounts| && forall a :: 0 <= a < |all| ==>
              all[a].number == l.accounts[a].number && all[a].kind == l.accounts[a].kind
  {
    if |numbers| > 0 {
      hide SieImport.Activate;
      ActivateAllKeepsClass(l, r, doc, numbers[..|numbers| - 1]);
      ActivateKeepsClass(SieImport.ActivateAll(l, r, doc, numbers[..|numbers| - 1]), l, r, doc, numbers[|numbers| - 1]);
    }
  }

  lemma {:induction false} AddedAfter(l: Ledger, r: SieImport.Review, doc: SieParser.Document, accounts: seq<Account>,
        added: seq<SieParser.Account>)
    ensures accounts <= SieImport.AddAccounts(l, r, doc, accounts, added)
  {
    if |added| > 0 {
      AddedAfter(l, r, doc, accounts, added[..|added| - 1]);
      OneAddedAfter(l, r, doc, SieImport.AddAccounts(l, r, doc, accounts, added[..|added| - 1]), added[|added| - 1]);
      hide SieImport.AddAccount;
    }
  }

  lemma OneAddedAfter(l: Ledger, r: SieImport.Review, doc: SieParser.Document, accounts: seq<Account>,
        a: SieParser.Account)
    ensures accounts <= SieImport.AddAccount(l, r, doc, accounts, a)
  {
    hide SieImport.NeedsActivation, SieImport.KindFor;
  }

  lemma {:induction false} ImportKeepsClass(l: Ledger, r: SieImport.Review, year: nat, doc: SieParser.Document)
    requires SieImport.Import(l, r, year, doc).Ok?
    ensures AllSameClass(l, SieImport.Import(l, r, year, doc).value)
  {
    hide SieImport.ImportRefusal, SieImport.ActivateAll, SieImport.AddAccounts, SieImport.WithVouchers,
         SieImport.OpeningRows, AccountingData.ContextError, SieImport.Numbers;
    ImportNeedsYear(l, r, year, doc);
    ActivateAllKeepsClass(l, r, doc, SieImport.Numbers(doc));
    AddedAfter(l, r, doc, SieImport.ActivateAll(l, r, doc, SieImport.Numbers(doc)), doc.accounts);
  }

  lemma UpdateKeepsClass(l: Ledger, env: Registers, id: nat, c: Registry.AccountChange, a: nat)
    requires Registry.UpdateAccount(l, env, id, c).Ok? && a < |l.accounts| && AccountUsed(l, a)
    ensures SameClass(l, Registry.UpdateAccount(l, env, id, c).value, a)
  {
    hide AccountUsed, Registry.HasAccount;
  }

  lemma OtherStepsKeepClass(l: Ledger, s: Step)
    requires !s.EditAccount? && !s.ImportSie? && !s.Provision? && !s.ActivateRows? && Do(l, s).Ok?
    ensures AllSameClass(l, Do(l, s).value)
  {
    hide OpeningBalances.Calculate, OpeningBalances.Validation, OpeningBalances.WriteRefusal,
         OpeningBalances.ConfirmRefusal, OpeningBalances.PlanOf, RequireOpen, Calendar.Tiles, AllLocked, HasDraft,
         Journal.PrepareDraft, Journal.ChangeRefusal, Journal.PostRefusal, Journal.ReverseRefusal, Journal.FrozenLines,
         SeriesPosted, Registry.HasSeries, Registry.HasAccount;
  }

  lemma CatalogKeepsClass(l: Ledger, c: Option<Catalog.Installed>, ids: set<nat>)
    ensures Catalog.Provision(l, c).Ok? ==> AllSameClass(l, Catalog.Provision(l, c).value)
    ensures Catalog.Activate(l, c, ids).Ok? ==> AllSameClass(l, Catalog.Activate(l, c, ids).value)
  {
    if c.Some? {
      hide Catalog.AddRows, Catalog.SwitchOnAll, Catalog.Allowed, Catalog.RestrictedInUse, Catalog.ActiveUnder;
      var rows := Catalog.Chosen(c.value.rows, ids, |c.value.rows|);
      Catalog.AddRowsExtends(l.accounts, Filter(c.value.rows, Catalog.Standard()));
      Catalog.SwitchOnAllDoes(l.accounts, rows);
      forall a | 0 <= a < |l.accounts| ensures SameClass(l, l.(accounts := Catalog.SwitchOnAll(l.accounts, rows)), a) {
        assert Catalog.OnlySwitched(l.accounts[a], Catalog.SwitchOnAll(l.accounts, rows)[a], rows);
      }
    }
  }

  /** An account with an opening balance or a posted line keeps its number and classification. */
  lemma {:induction false} ClassificationIsFrozen(l: Ledger, s: Step, a: nat)
    requires a < |l.accounts| && AccountUsed(l, a)
    ensures SameClass(l, Next(l, s), a)
  {
    hide Do, AccountUsed, Registry.UpdateAccount, Catalog.Provision, Catalog.Activate, SieImport.Import,
         SieParser.Parse;
    DoIs(l, s);
    if Do(l, s).Ok? {
      if s.EditAccount? { UpdateKeepsClass(l, s.env, s.id, s.accountChange, a); }
      else if s.ImportSie? { ImportKeepsClass(l, s.review, s.year, SieParser.Parse(s.content)); }
      else if s.Provision? { CatalogKeepsClass(l, s.installed, {}); }
      else if s.ActivateRows? { CatalogKeepsClass(l, s.installed, s.rowIds); }
      else { OtherStepsKeepClass(l, s); }
    }
  }

  // ---------------------------------------------------------------- opening balances in a locked year

  lemma {:induction false} RowsOfZeros(l: Ledger, openings: seq<SieParser.Opening>)
    requires SieImport.OpeningRows(l, openings).Ok?
    ensures SieImport.OpeningRows(l, openings).value == [] <==>
            forall b :: b in openings ==> SieParser.CentsOf(b.amount) == 0
  {
    if |openings| > 0 {
      hide SieParser.CentsOf;
      RowsOfZeros(l, openings[..|openings| - 1]);
    }
  }

  /** Saving and carrying forward are refused as soon as one period of the year is locked. */
  lemma LockedYearRefusesRows(l: Ledger, env: Registers, year: nat, seen: OpeningBalances.Print, rows: seq<IbRow>)
    requires year < |l.years| && HasLocked(l.years[year])
    ensures OpeningBalances.Save(l, env, year, seen, rows).Err?
    ensures forall id, actor, now :: 0 <= id < |l.carries| && l.carries[id].target == year ==>
            OpeningBalances.Confirm(l, env, id, actor, now).Err?
  {
    hide HasPosted, OpeningBalances.Validation, AccountingData.ContextError, OpeningBalances.FullNet,
         OpeningBalances.HasConfirmed, OpeningBalances.CarriedRows;
  }

  /** An import, though, writes opening balances whether or not periods are locked: a successful import
      changes those of its year exactly when the document has a non-zero opening balance. */
  lemma {:induction false} ImportWritesOpeningsIff(l: Ledger, r: SieImport.Review, year: nat, doc: SieParser.Document)
    requires SieImport.Import(l, r, year, doc).Ok?
    ensures year < |l.years| <= |SieImport.Import(l, r, year, doc).value.years|
    ensures SieImport.Import(l, r, year, doc).value.years[year].ib != l.years[year].ib <==>
            exists b :: b in doc.openings && SieParser.CentsOf(b.amount) != 0
  {
    hide SieImport.ImportRefusal, SieImport.WithVouchers, SieImport.ActivateAll, SieImport.AddAccounts,
         SieImport.OpeningRows, AccountingData.ContextError, SieParser.CentsOf, HasPosted;
    ImportNeedsYear(l, r, year, doc);
    var m := SieImport.WithAccounts(l, r, doc);
    RowsOfZeros(m, doc.openings);
  }

  lemma {:induction false} ImportedYear(l: Ledger, r: SieImport.Review, year: nat, doc: SieParser.Document, y: nat)
    requires SieImport.Import(l, r, year, doc).Ok? && y < |l.years|
    ensures y < |SieImport.Import(l, r, year, doc).value.years|
    ensures SieImport.Import(l, r, year, doc).value.years[y].ib != l.years[y].ib <==>
            y == year && exists b :: b in doc.openings && SieParser.CentsOf(b.amount) != 0
  {
    hide SieImport.Import, SieParser.CentsOf, HasPosted;
    if y == year { ImportWritesOpeningsIff(l, r, year, doc); } else { ImportKeepsIb(l, r, year, doc, y); }
  }

  lemma LockedIbChanges(l: Ledger, s: Step, y: nat)
    requires y < |l.years| && HasLocked(l.years[y])
    ensures y < |Next(l, s).years|
    ensures Next(l, s).years[y].ib != l.years[y].ib <==>
            s.ImportSie? && s.year == y && Do(l, s).Ok? && HasWeight(SieParser.Parse(s.content).openings)
  {
    hide Do, HasLocked, SieImport.Import, OpeningBalances.Save, OpeningBalances.Confirm, SieParser.Parse,
         SieParser.CentsOf;
    DoIs(l, s);
    assert OpeningBalances.WriteRefusal(l, y).Some?;
    if Do(l, s).Ok? {
      if s.SaveIb? { SaveKeepsIb(l, s.env, s.year, s.seen, s.rows, y); }
      else if s.ConfirmCarry? { ConfirmKeepsIb(l, s.env, s.id, s.actor, s.now, y); }
      else if s.ImportSie? { ImportedYear(l, s.review, s.year, SieParser.Parse(s.content), y); }
      else { OtherStepsKeepIb(l, s, y); }
    }
  }

  predicate HasWeight(openings: seq<SieParser.Opening>) {
    exists b :: b in openings && SieParser.CentsOf(b.amount) != 0
  }

  /** Hence the exact condition, checkable before the step: while a period of a year is locked, a step changes the
      opening balances of the year if and only if it imports into it a document that passes the guards of the
      import and has a non-zero opening balance. No guard looks at a locked period unless a voucher falls into it. */
  lemma LockedIbChangesIff(l: Ledger, s: Step, y: nat)
    requires y < |l.years| && HasLocked(l.years[y])
    ensures y < |Next(l, s).years|
    ensures Next(l, s).years[y].ib != l.years[y].ib <==>
            s.ImportSie? && s.year == y && HasWeight(SieParser.Parse(s.content).openings)
            && ImportOutcome.ImportGuards(l, s.review, y, SieParser.Parse(s.content))
  {
    hide Do, Next, HasLocked, HasWeight, SieImport.Import, ImportOutcome.ImportGuards, SieParser.Parse;
    LockedIbChanges(l, s, y);
    DoIs(l, s);
    if s.ImportSie? { ImportOutcome.ImportSucceedsIff(l, s.review, s.year, s.content); }
  }
}
