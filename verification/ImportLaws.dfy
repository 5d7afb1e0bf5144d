/** What an SIE import lets pass, and what it makes of the accounts and vouchers of a document; under which type letter
    accounts are exported again. */
module ImportLaws {
  import opened Common
  import opened LedgerModel
  import opened LedgerMachine
  import opened SieImport
  import ImportSteps
  import LedgerSafety
  import LedgerSteps
  import OpeningSafety
  import SieExport
  import SieLedger
  import SieParser
  import SieRoundTrip
  import SieSound
  import SieText
  import SieTokens
  import SieWholeTrip
  import SieYearExport
  import Vat

  // ---------------------------------------------------------------- kinds and types

  /** The kinds an account of a type may have. */
  predicate Fits(t: SieParser.AccountType, k: Kind) {
    match t
    case Asset => k == Asset
    case Debt => k == Equity || k == Liability
    case Income => k == Revenue
    case Cost => k == Expense
  }

  /** The kind of a new account outside the catalogue: that of its type, and for type S, or without a type, that of its
      number class. */
  function NewKind(number: string, t: Option<SieParser.AccountType>): Kind {
    if t == Some(SieParser.Asset) then Asset
    else if t == Some(SieParser.Income) then Revenue
    else if t == Some(SieParser.Cost) then Expense
    else if number != "" && number[0] == '1' then Asset
    else if |number| > 1 && (number[..2] == "20" || number[..2] == "21") then Equity
    else if number != "" && number[0] == '2' then Liability
    else if number != "" && number[0] == '3' then Revenue
    else Expense
  }

  lemma NewKindIs(number: string, t: Option<SieParser.AccountType>)
    ensures KindFor(number, t) == NewKind(number, t)
  {
    if |number| > 1 { assert number[..2] == [number[0], number[1]]; }
  }

  lemma FitsIs(t: SieParser.AccountType, k: Kind)
    ensures KindMatches(t, k) == Fits(t, k)
  {
  }

  /** The one exception: an account of type S outside class 2 that neither ledger nor catalogue has. */
  predicate Excepted(l: Ledger, r: Review, a: SieParser.Account) {
    && a.kind == Some(SieParser.Debt) && FindAccount(l.accounts, a.number).None? && a.number !in r.catalog
    && (a.number == "" || a.number[0] != '2')
  }

  lemma NewKindFits(number: string, t: SieParser.AccountType)
    ensures Fits(t, NewKind(number, Some(t))) <==> !(t == SieParser.Debt && (number == "" || number[0] != '2'))
  {
    if |number| > 1 { assert number[..2] == [number[0], number[1]]; }
  }

  // ---------------------------------------------------------------- accounts that are created

  /** The account made of a document account: named, active, from the catalogue if that has the number. */
  function Created(r: Review, a: SieParser.Account): Account {
    if a.number in r.catalog then
      Account(a.number, r.catalog[a.number].name, r.catalog[a.number].kind, true, true, None)
    else Account(a.number, a.name, NewKind(a.number, a.kind), true, false, None)
  }

  /** Neither an account of the ledger nor one the catalogue merely offers. */
  predicate Creates(l: Ledger, r: Review, doc: SieParser.Document, accounts: seq<Account>, a: SieParser.Account) {
    FindAccount(accounts, a.number).None? && (a.number in r.catalog ==> NeedsActivation(l, r, doc, a.number))
  }

  lemma AddedOne(l: Ledger, r: Review, doc: SieParser.Document, accounts: seq<Account>, a: SieParser.Account)
    ensures AddAccount(l, r, doc, accounts, a)
            == if Creates(l, r, doc, accounts, a) then accounts + [Created(r, a)] else accounts
  {
    NewKindIs(a.number, a.kind);
    hide KindFor, NewKind, NeedsActivation;
  }

  /** The account stands for one of the document that had none before. */
  predicate MadeOf(accounts: seq<Account>, r: Review, added: seq<SieParser.Account>, x: Account) {
    exists a :: a in added && x == Created(r, a) && FindAccount(accounts, a.number).None?
  }

  lemma MadeStays(accounts: seq<Account>, r: Review, front: seq<SieParser.Account>, a: SieParser.Account, x: Account)
    requires MadeOf(accounts, r, front, x)
    ensures MadeOf(accounts, r, front + [a], x)
  {
    hide Created;
    var b :| b in front && x == Created(r, b) && FindAccount(accounts, b.number).None?;
    assert b in front + [a];
  }

  lemma MadeLast(accounts: seq<Account>, grown: seq<Account>, r: Review, front: seq<SieParser.Account>,
        a: SieParser.Account)
    requires accounts <= grown && FindAccount(grown, a.number).None?
    ensures MadeOf(accounts, r, front + [a], Created(r, a))
  {
    hide Created;
    assert a in front + [a];
    if FindAccount(accounts, a.number).Some? { StillFound(accounts, grown, a.number); }
  }

  lemma {:induction false} AllAdded(l: Ledger, r: Review, doc: SieParser.Document, accounts: seq<Account>,
        added: seq<SieParser.Account>)
    ensures accounts <= AddAccounts(l, r, doc, accounts, added)
    ensures forall i :: |accounts| <= i < |AddAccounts(l, r, doc, accounts, added)| ==>
              MadeOf(accounts, r, added, AddAccounts(l, r, doc, accounts, added)[i])
  {
    if |added| > 0 {
      hide MadeOf, AddAccount, Creates, Created, FindAccount;
      var front, a := added[..|added| - 1], added[|added| - 1];
      AllAdded(l, r, doc, accounts, front);
      var before := AddAccounts(l, r, doc, accounts, front);
      AddedOne(l, r, doc, before, a);
      assert added == front + [a];
      forall i | |accounts| <= i < |before| ensures MadeOf(accounts, r, added, before[i]) {
        MadeStays(accounts, r, front, a, before[i]);
      }
      if Creates(l, r, doc, before, a) {
        CreatesMissing(l, r, doc, before, a);
        MadeLast(accounts, before, r, front, a);
      }
    }
  }

  lemma CreatesMissing(l: Ledger, r: Review, doc: SieParser.Document, accounts: seq<Account>, a: SieParser.Account)
    requires Creates(l, r, doc, accounts, a)
    ensures FindAccount(accounts, a.number).None?
  {
  }

  lemma StillFound(accounts: seq<Account>, grown: seq<Account>, number: string)
    requires accounts <= grown && FindAccount(accounts, number).Some?
    ensures FindAccount(grown, number).Some?
  {
    var i := FindAccount(accounts, number).value;
    assert grown[i] == accounts[i] && grown[i] in grown;
  }

  /** Every account of the document has one afterwards, but for those the catalogue merely offers. */
  lemma {:induction false} AllProvided(l: Ledger, r: Review, doc: SieParser.Document, accounts: seq<Account>,
        added: seq<SieParser.Account>, a: SieParser.Account)
    requires a in added && (a.number in r.catalog ==> NeedsActivation(l, r, doc, a.number))
    ensures FindAccount(AddAccounts(l, r, doc, accounts, added), a.number).Some?
  {
    hide AddAccount, NeedsActivation, FindAccount, Created;
    var front, last := added[..|added| - 1], added[|added| - 1];
    var before := AddAccounts(l, r, doc, accounts, front);
    assert added == front + [last];
    AddedOne(l, r, doc, before, last);
    if a in front {
      AllProvided(l, r, doc, accounts, front, a);
      StillFound(before, AddAccounts(l, r, doc, accounts, added), a.number);
    } else if FindAccount(before, a.number).Some? {
      StillFound(before, AddAccounts(l, r, doc, accounts, added), a.number);
    } else {
      FoundLast(before, Created(r, a));
      CreatedNumber(r, a);
    }
  }

  lemma CreatedNumber(r: Review, a: SieParser.Account)
    ensures Created(r, a).number == a.number && Created(r, a).active && Created(r, a).vat.None?
  {
    hide NewKind;
  }

  lemma FoundLast(accounts: seq<Account>, x: Account)
    ensures FindAccount(accounts + [x], x.number) == Some(|accounts|)
  {
  }

  // ---------------------------------------------------------------- accounts that are switched on

  /** A line of a voucher or an opening balance other than zero is on the account number. */
  predicate Carries(doc: SieParser.Document, number: string) {
    || (exists v, x :: v in doc.vouchers && x in v.transactions && x.account == number)
    || exists b :: b in doc.openings && b.account == number && SieParser.CentsOf(b.amount) != 0
  }

  lemma CarriesIs(doc: SieParser.Document, number: string)
    ensures Uses(doc, number) <==> Carries(doc, number)
  {
    hide SieParser.CentsOf;
    if Uses(doc, number) {
      if VoucherUses(doc, number) {
        var v :| v in doc.vouchers && exists x :: x in v.transactions && x.account == number;
      }
    }
  }

  /** Account `a` is an inactive one that the catalogue knows and the document carries amounts on. */
  predicate SwitchedOn(l: Ledger, r: Review, doc: SieParser.Document, a: nat)
    requires a < |l.accounts|
  {
    !l.accounts[a].active && l.accounts[a].number in r.catalog && Carries(doc, l.accounts[a].number)
  }

  /** The first accounts are those of the ledger, but for being switched on. */
  ghost predicate Switched(l: Ledger, r: Review, doc: SieParser.Document, accounts: seq<Account>,
        numbers: seq<string>) {
    && |accounts| == |l.accounts|
    && forall a :: 0 <= a < |accounts| ==>
       accounts[a] == if SwitchedOn(l, r, doc, a) && l.accounts[a].number in numbers
                      then l.accounts[a].(active := true) else l.accounts[a]
  }

  lemma SwitchedSame(l: Ledger, r: Review, doc: SieParser.Document, accounts: seq<Account>, numbers: seq<string>,
        number: string)
    requires AccountsOk(l.accounts) && Switched(l, r, doc, accounts, numbers)
    ensures FindAccount(accounts, number) == FindAccount(l.accounts, number)
  {
    hide SwitchedOn;
    SameFound(l.accounts, accounts, number);
    if FindAccount(accounts, number).Some? {
      SameNumber(l, FindAccount(accounts, number).value, FindAccount(l.accounts, number).value);
    }
  }

  lemma SwitchedOne(l: Ledger, r: Review, doc: SieParser.Document, accounts: seq<Account>, front: seq<string>,
        number: string)
    requires AccountsOk(l.accounts) && Switched(l, r, doc, accounts, front)
    ensures Switched(l, r, doc, Activate(l, r, doc, accounts, number), front + [number])
  {
    SwitchedSame(l, r, doc, accounts, front, number);
    CarriesIs(doc, number);
    hide Uses, Carries;
    var f := FindAccount(l.accounts, number);
    var all := Activate(l, r, doc, accounts, number);
    forall a | 0 <= a < |l.accounts|
      ensures all[a] == if SwitchedOn(l, r, doc, a) && l.accounts[a].number in front + [number]
                        then l.accounts[a].(active := true) else l.accounts[a]
    {
      if l.accounts[a].number == number {
        assert l.accounts[a] in l.accounts;
        SameNumber(l, a, f.value);
      }
    }
    hide FindAccount;
  }

  lemma {:induction false} AllSwitched(l: Ledger, r: Review, doc: SieParser.Document, numbers: seq<string>)
    requires AccountsOk(l.accounts)
    ensures Switched(l, r, doc, ActivateAll(l, r, doc, numbers), numbers)
  {
    hide Activate, AccountsOk, SwitchedOn;
    if |numbers| > 0 {
      var front, number := numbers[..|numbers| - 1], numbers[|numbers| - 1];
      AllSwitched(l, r, doc, front);
      hide Switched;
      SwitchedOne(l, r, doc, ActivateAll(l, r, doc, front), front, number);
      assert numbers == front + [number];
    }
  }

  lemma CarriedIsListed(doc: SieParser.Document, number: string)
    requires Carries(doc, number)
    ensures number in Numbers(doc)
  {
    var lines := SieParser.AllLines(doc.vouchers);
    if v, x :| v in doc.vouchers && x in v.transactions && x.account == number {
      LineListed(doc.vouchers, v, x);
      var i :| 0 <= i < |lines| && lines[i] == x;
      assert Map(lines, AccountOfTransaction())[i] == number;
    } else {
      var b :| b in doc.openings && b.account == number;
      var i :| 0 <= i < |doc.openings| && doc.openings[i] == b;
      assert Map(doc.openings, AccountOfOpening())[i] == number;
    }
  }

  lemma {:induction false} LineListed(vs: seq<SieParser.Voucher>, v: SieParser.Voucher, x: SieParser.Transaction)
    requires v in vs && x in v.transactions
    ensures x in SieParser.AllLines(vs)
  {
    if vs[|vs| - 1] != v { LineListed(vs[..|vs| - 1], v, x); }
  }

  /** An import leaves every account of the ledger as it is, but switches on the inactive ones that the catalogue knows
      and the document carries amounts on; every account it adds is made of an account of the document. */
  lemma ImportedAccountsAre(l: Ledger, r: Review, year: nat, doc: SieParser.Document)
    requires Inv(l) && Import(l, r, year, doc).Ok?
    ensures var m := Import(l, r, year, doc).value;
            && |l.accounts| <= |m.accounts|
            && (forall a :: 0 <= a < |l.accounts| ==>
               m.accounts[a] == if SwitchedOn(l, r, doc, a) then l.accounts[a].(active := true) else l.accounts[a])
            && forall a :: |l.accounts| <= a < |m.accounts| ==> MadeOf(l.accounts, r, doc.accounts, m.accounts[a])
  {
    hide *;
    var k, m := ActivateAll(l, r, doc, Numbers(doc)), Import(l, r, year, doc).value;
    AccountsDistinct(l);
    ImportAccounts(l, r, year, doc);
    AllSwitched(l, r, doc, Numbers(doc));
    AllAdded(l, r, doc, k, doc.accounts);
    SwitchedSize(l, r, doc, k, Numbers(doc));
    forall a | 0 <= a < |l.accounts|
      ensures m.accounts[a] == if SwitchedOn(l, r, doc, a) then l.accounts[a].(active := true) else l.accounts[a]
    {
      assert m.accounts[a] == k[a];
      SwitchedAt(l, r, doc, k, a);
    }
    forall a | |l.accounts| <= a < |m.accounts| ensures MadeOf(l.accounts, r, doc.accounts, m.accounts[a]) {
      MadeFromReviewed(l, r, doc, k, m.accounts[a]);
    }
  }

  lemma SwitchedSize(l: Ledger, r: Review, doc: SieParser.Document, accounts: seq<Account>, numbers: seq<string>)
    requires Switched(l, r, doc, accounts, numbers)
    ensures |accounts| == |l.accounts|
  {
  }

  lemma SwitchedAt(l: Ledger, r: Review, doc: SieParser.Document, k: seq<Account>, a: nat)
    requires Switched(l, r, doc, k, Numbers(doc)) && a < |l.accounts|
    ensures a < |k|
    ensures k[a] == if SwitchedOn(l, r, doc, a) then l.accounts[a].(active := true) else l.accounts[a]
  {
    if SwitchedOn(l, r, doc, a) { CarriedIsListed(doc, l.accounts[a].number); }
    hide Numbers, Carries;
  }

  lemma MadeFromReviewed(l: Ledger, r: Review, doc: SieParser.Document, k: seq<Account>, x: Account)
    requires AccountsOk(l.accounts) && Switched(l, r, doc, k, Numbers(doc)) && MadeOf(k, r, doc.accounts, x)
    ensures MadeOf(l.accounts, r, doc.accounts, x)
  {
    hide Switched, Created, FindAccount, Numbers, AccountsOk;
    var a :| a in doc.accounts && x == Created(r, a) && FindAccount(k, a.number).None?;
    SwitchedSame(l, r, doc, k, Numbers(doc), a.number);
  }

  // ---------------------------------------------------------------- what the review has made sure of

  lemma ImportAccounts(l: Ledger, r: Review, year: nat, doc: SieParser.Document)
    requires Import(l, r, year, doc).Ok?
    ensures ImportRefusal(l, r, year, doc).None? && year < |l.years|
    ensures Import(l, r, year, doc).value.accounts
            == AddAccounts(l, r, doc, ActivateAll(l, r, doc, Numbers(doc)), doc.accounts)
  {
    hide ImportRefusal, ActivateAll, AddAccounts, OpeningRows, WithVouchers, Numbers;
    LedgerSafety.ImportNeedsYear(l, r, year, doc);
  }

  lemma NumberListed(doc: SieParser.Document, a: SieParser.Account)
    requires a in doc.accounts
    ensures a.number in Numbers(doc) && Mentioned(doc, a.number)
  {
    var m := Map(doc.accounts, NumberOfAccount());
    var i :| 0 <= i < |doc.accounts| && doc.accounts[i] == a;
    assert m[i] == a.number && a.number in m;
    ListedAccount(doc.accounts, a);
    hide Uses;
  }

  lemma {:induction false} ListedAccount(accounts: seq<SieParser.Account>, a: SieParser.Account)
    requires a in accounts
    ensures DocumentAccount(accounts, a.number).Some?
  {
    if accounts[|accounts| - 1].number != a.number { ListedAccount(accounts[..|accounts| - 1], a); }
  }

  lemma {:induction false} OwnAccount(accounts: seq<SieParser.Account>, a: SieParser.Account)
    requires a in accounts
    requires forall i, j :: 0 <= i < j < |accounts| ==> accounts[i].number != accounts[j].number
    ensures DocumentAccount(accounts, a.number) == Some(a)
  {
    var n := |accounts| - 1;
    var i :| 0 <= i < |accounts| && accounts[i] == a;
    if i < n { OwnAccount(accounts[..n], a); }
  }

  /** The review lets no account pass whose type contradicts the ledger or, when it is missing there, the catalogue. */
  lemma ReviewedTypes(l: Ledger, r: Review, year: nat, doc: SieParser.Document, a: SieParser.Account)
    requires ImportRefusal(l, r, year, doc).None? && year < |l.years| && a in doc.accounts && a.kind.Some?
    requires forall i, j :: 0 <= i < j < |doc.accounts| ==> doc.accounts[i].number != doc.accounts[j].number
    ensures FindAccount(l.accounts, a.number).Some? ==>
              Fits(a.kind.value, l.accounts[FindAccount(l.accounts, a.number).value].kind)
    ensures FindAccount(l.accounts, a.number).None? && a.number in r.catalog ==>
              Fits(a.kind.value, r.catalog[a.number].kind)
  {
    NumberListed(doc, a);
    OwnAccount(doc.accounts, a);
    NoConflict(l, r, year, doc);
    hide Numbers, Mentioned, Uses, FindAccount, DocumentAccount, KindMatches, ImportRefusal, HasConflict;
    assert !RowConflict(l, r, doc, a.number);
    if FindAccount(l.accounts, a.number).Some? {
      FitsIs(a.kind.value, l.accounts[FindAccount(l.accounts, a.number).value].kind);
    } else if a.number in r.catalog {
      FitsIs(a.kind.value, r.catalog[a.number].kind);
    }
  }

  lemma NoConflict(l: Ledger, r: Review, year: nat, doc: SieParser.Document)
    requires ImportRefusal(l, r, year, doc).None? && year < |l.years|
    ensures forall n :: n in Numbers(doc) && Mentioned(doc, n) ==> !RowConflict(l, r, doc, n)
    ensures forall a :: a in doc.accounts && a.kind.Some? && FindAccount(l.accounts, a.number).Some? ==>
              KindMatches(a.kind.value, l.accounts[FindAccount(l.accounts, a.number).value].kind)
    ensures forall n :: n in Numbers(doc) && VoucherUses(doc, n) && FindAccount(l.accounts, n).Some? ==>
              l.accounts[FindAccount(l.accounts, n).value].active || NeedsActivation(l, r, doc, n)
  {
    hide RowConflict, Mentioned, Numbers, KindMatches, FindAccount, VoucherUses, NeedsActivation, HasPosted, Occupied;
  }

  // ---------------------------------------------------------------- the kinds after an import

  lemma SameNumber(l: Ledger, i: nat, j: nat)
    requires AccountsOk(l.accounts) && i < |l.accounts| && j < |l.accounts|
    requires l.accounts[i].number == l.accounts[j].number
    ensures i == j
  {
    assert i < j || i == j || j < i;
  }

  lemma AccountsDistinct(l: Ledger)
    requires Inv(l)
    ensures AccountsOk(l.accounts)
  {
  }

  lemma DocumentDistinct(content: string)
    requires SieParser.Parse(content).errors == []
    ensures var accounts := SieParser.Parse(content).accounts;
            forall i, j :: 0 <= i < j < |accounts| ==> accounts[i].number != accounts[j].number
  {
    SieSound.Soundness(content);
    hide SieParser.Parse;
  }

  /** After an import, an account of the document with a type has a kind that fits the type, with the one exception; an
      excepted account has the kind of its number class instead. */
  lemma ImportedKindFitsIff(l: Ledger, r: Review, year: nat, content: string, a: SieParser.Account, x: nat)
    requires Inv(l) && Import(l, r, year, SieParser.Parse(content)).Ok? && a in SieParser.Parse(content).accounts
    requires a.kind.Some? && x < |Import(l, r, year, SieParser.Parse(content)).value.accounts|
    requires Import(l, r, year, SieParser.Parse(content)).value.accounts[x].number == a.number
    ensures var k := Import(l, r, year, SieParser.Parse(content)).value.accounts[x].kind;
            && (Fits(a.kind.value, k) <==> !Excepted(l, r, a))
            && (Excepted(l, r, a) ==> k == if a.number != "" && a.number[0] == '1' then Asset
                                           else if a.number != "" && a.number[0] == '3' then Revenue else Expense)
  {
    hide *;
    var doc := SieParser.Parse(content);
    var m := Import(l, r, year, doc).value;
    AccountsDistinct(l);
    ErrorFree(l, r, year, doc);
    DocumentDistinct(content);
    ImportAccounts(l, r, year, doc);
    ReviewedTypes(l, r, year, doc, a);
    OpeningSafety.ImportKeepsClass(l, r, year, doc);
    if x < |l.accounts| {
      MatchedKind(l, m, x, a.number);
      FoundIsNotExcepted(l, r, a);
    } else {
      var k := ActivateAll(l, r, doc, Numbers(doc));
      OpeningSafety.ActivateAllKeepsClass(l, r, doc, Numbers(doc));
      AllAdded(l, r, doc, k, doc.accounts);
      NewIsOwn(k, r, doc.accounts, a, m.accounts[x]);
      SameFound(l.accounts, k, a.number);
      CreatedKind(l, r, a);
    }
  }

  lemma ErrorFree(l: Ledger, r: Review, year: nat, doc: SieParser.Document)
    requires Import(l, r, year, doc).Ok?
    ensures doc.errors == []
  {
    hide HasConflict, MatchesYear, NeedsActivation, WithAccounts, WithOpenings, WithVouchers;
  }

  lemma MatchedKind(l: Ledger, m: Ledger, x: nat, number: string)
    requires AccountsOk(l.accounts) && OpeningSafety.AllSameClass(l, m) && x < |l.accounts|
    requires x < |m.accounts| && m.accounts[x].number == number
    ensures FindAccount(l.accounts, number) == Some(x) && m.accounts[x].kind == l.accounts[x].kind
  {
    assert OpeningSafety.SameClass(l, m, x);
    assert l.accounts[x] in l.accounts;
    SameNumber(l, x, FindAccount(l.accounts, number).value);
  }

  lemma FoundIsNotExcepted(l: Ledger, r: Review, a: SieParser.Account)
    requires FindAccount(l.accounts, a.number).Some?
    ensures !Excepted(l, r, a)
  {
  }

  lemma NewIsOwn(accounts: seq<Account>, r: Review, added: seq<SieParser.Account>, a: SieParser.Account, x: Account)
    requires MadeOf(accounts, r, added, x) && a in added && x.number == a.number
    requires forall i, j :: 0 <= i < j < |added| ==> added[i].number != added[j].number
    ensures x == Created(r, a) && FindAccount(accounts, a.number).None?
  {
    hide Created, FindAccount;
    var b :| b in added && x == Created(r, b) && FindAccount(accounts, b.number).None?;
    CreatedNumber(r, b);
    var i :| 0 <= i < |added| && added[i] == a;
    var j :| 0 <= j < |added| && added[j] == b;
    assert i < j || i == j || j < i;
  }

  lemma SameFound(accounts: seq<Account>, other: seq<Account>, number: string)
    requires |other| == |accounts| && forall i :: 0 <= i < |accounts| ==> other[i].number == accounts[i].number
    ensures FindAccount(accounts, number).None? <==> FindAccount(other, number).None?
  {
    if FindAccount(accounts, number).Some? {
      assert other[FindAccount(accounts, number).value] in other;
    }
    if FindAccount(other, number).Some? {
      assert accounts[FindAccount(other, number).value] in accounts;
    }
  }

  lemma CreatedKind(l: Ledger, r: Review, a: SieParser.Account)
    requires a.kind.Some? && FindAccount(l.accounts, a.number).None?
    requires a.number in r.catalog ==> Fits(a.kind.value, r.catalog[a.number].kind)
    ensures Fits(a.kind.value, Created(r, a).kind) <==> !Excepted(l, r, a)
    ensures Excepted(l, r, a) ==>
            Created(r, a).kind == if a.number != "" && a.number[0] == '1' then Asset
                                  else if a.number != "" && a.number[0] == '3' then Revenue else Expense
  {
    NewKindFits(a.number, a.kind.value);
    hide FindAccount, Fits;
    if |a.number| > 1 { assert a.number[..2] == [a.number[0], a.number[1]]; }
  }

  // ---------------------------------------------------------------- type letters

  /** The letters of #KTYP. */
  function LetterFor(t: SieParser.AccountType): string {
    match t case Asset => "T" case Debt => "S" case Income => "I" case Cost => "K"
  }

  /** The letter a kind is exported under. */
  function KindLetter(k: Kind): string {
    match k case Asset => "T" case Equity => "S" case Liability => "S" case Revenue => "I" case Expense => "K"
  }

  /** Reading #KTYP: T is an asset, S a debt, I an income and K a cost account. */
  lemma LetterIsRead(rd: SieParser.Reader, number: string, t: SieParser.AccountType)
    requires SieParser.IsAccountNumber(number)
    ensures SieParser.Apply(rd, ["#KTYP", number, LetterFor(t)]) == Ok(rd.(types := rd.types[number := t]))
  {
    assert SieParser.KindOf("#KTYP") == SieParser.AccountKind;
    hide SieParser.KindOf, SieParser.IsAccountNumber;
  }

  /** An account is exported by its number and name and by the letter of its kind. */
  lemma AccountIsPrinted(x: Account)
    requires SieExport.AccountRecords()(SieLedger.ExportedAccount()(x)).Ok?
    ensures SieExport.AccountRecords()(SieLedger.ExportedAccount()(x)).value
            == [SieExport.Record("#KONTO", [SieTokens.Word(x.number), SieTokens.Quoted(x.name)]),
                SieExport.Record("#KTYP", [SieTokens.Word(x.number), SieTokens.Word(KindLetter(x.kind))])]
  {
    hide SieTokens.Quotable, SieParser.IsAccountNumber, SieExport.One;
    var a := SieLedger.ExportedAccount()(x);
    KindIsPrinted(x.kind);
    KontoIsPrinted(x.number, x.name);
    var konto := SieExport.One("#KONTO", [Ok(SieTokens.Word(x.number)), SieExport.TextField(x.name)]);
    var ktyp := SieExport.Record("#KTYP", [SieTokens.Word(x.number), SieTokens.Word(KindLetter(x.kind))]);
    assert SieExport.AccountRecords()(a) == SieExport.Chain(konto, Ok([ktyp]));
  }

  lemma KindIsPrinted(k: Kind)
    ensures SieExport.Letter(SieLedger.TypeOfKind(k)) == KindLetter(k)
  {
  }

  lemma KontoIsPrinted(number: string, name: string)
    ensures var r := SieExport.One("#KONTO", [Ok(SieTokens.Word(number)), SieExport.TextField(name)]);
            r.Ok? ==> r.value == [SieExport.Record("#KONTO", [SieTokens.Word(number), SieTokens.Quoted(name)])]
  {
    hide SieTokens.Quotable;
    var fs := [Ok(SieTokens.Word(number)), SieExport.TextField(name)];
    assert fs[1..] == [SieExport.TextField(name)] && fs[1..][1..] == [];
    assert SieExport.Gather(fs[1..][1..]) == Ok([]);
    if SieExport.TextField(name).Ok? {
      var word, text := SieTokens.Word(number), SieTokens.Quoted(name);
      assert [text] + [] == [text] && SieExport.Gather(fs[1..]) == Ok([text]);
      assert [word] + [text] == [word, text] && SieExport.Gather(fs) == Ok([word, text]);
    } else {
      assert SieExport.Gather(fs[1..]).Err? && SieExport.Gather(fs).Err?;
    }
  }

  /** A kind is exported under the letter of a type exactly when it fits the type. */
  lemma LettersAgree(t: SieParser.AccountType, k: Kind)
    ensures KindLetter(k) == LetterFor(t) <==> Fits(t, k)
    ensures SieLedger.TypeOfKind(k) == t <==> Fits(t, k)
  {
    assert "T"[0] != "S"[0] && "T"[0] != "I"[0] && "T"[0] != "K"[0] && "S"[0] != "I"[0] && "S"[0] != "K"[0]
      && "I"[0] != "K"[0];
  }

  // ---------------------------------------------------------------- from file to file

  /** The exported file lists each account of the ledger, with the type its kind fits. */
  lemma {:induction false} AccountsAreExported(l: Ledger, year: nat, names: SieLedger.Names,
        collate: SieExport.Collation, x: nat)
    requires Inv(l) && SieWholeTrip.ExportYear(l, year, names, collate).Ok? && x < |l.accounts|
    requires forall o :: o in names.objects ==> SieParser.IsDimension(o.dimension)
    ensures var again := SieParser.Parse(SieText.Decode(SieWholeTrip.ExportYear(l, year, names, collate).value));
            && again.errors == []
            && exists b :: b in again.accounts && b.number == l.accounts[x].number && b.name == l.accounts[x].name
                           && b.kind.Some? && forall t :: b.kind == Some(t) <==> Fits(t, l.accounts[x].kind)
  {
    hide *;
    SieWholeTrip.ExportParts(l, year, names, collate);
    var data := SieLedger.ExportDataOf(l, year, names);
    SieYearExport.ExportNeedsNumbers(data, collate);
    SieYearExport.NumbersOf(l, year, names);
    SieYearExport.DataWell(l, year, names);
    SieRoundTrip.BytesRoundTrip(data, collate);
    AccountInData(l, year, names, collate, x);
    ExportedFits(l.accounts[x]);
    SieWholeTrip.CanonicalVouchersAre(data, collate);
  }

  lemma AccountInData(l: Ledger, year: nat, names: SieLedger.Names, collate: SieExport.Collation, x: nat)
    requires year < |l.years| && x < |l.accounts|
    ensures SieLedger.ExportedAccount()(l.accounts[x])
            in SieRoundTrip.Canonical(SieLedger.ExportDataOf(l, year, names), collate).accounts
  {
    var accounts := Map(l.accounts, SieLedger.ExportedAccount());
    assert accounts[x] == SieLedger.ExportedAccount()(l.accounts[x]) && accounts[x] in accounts;
    SortMembers(accounts, SieExport.ByNumber(collate), accounts[x]);
    CanonicalAccounts(SieLedger.ExportDataOf(l, year, names), collate);
    hide Sort, SieLedger.ExportedVouchers, SieRoundTrip.Canonical;
  }

  lemma CanonicalAccounts(data: SieExport.ExportData, collate: SieExport.Collation)
    ensures SieRoundTrip.Canonical(data, collate).accounts == Sort(data.accounts, SieExport.ByNumber(collate))
  {
    hide Sort, SieRoundTrip.CanonicalVoucher, SieRoundTrip.CanonicalOpenings;
  }

  lemma ExportedFits(x: Account)
    ensures SieLedger.ExportedAccount()(x).number == x.number && SieLedger.ExportedAccount()(x).name == x.name
    ensures SieLedger.ExportedAccount()(x).kind.Some?
    ensures forall t :: SieLedger.ExportedAccount()(x).kind == Some(t) <==> Fits(t, x.kind)
  {
    forall t ensures SieLedger.TypeOfKind(x.kind) == t <==> Fits(t, x.kind) { LettersAgree(t, x.kind); }
  }

  lemma KeptInOrder(l: Ledger, o: Outcome)
    requires LedgerSteps.Kept(l, o) && o.Ok?
    ensures Inv(o.value)
  {
  }

  /** From file to file: an account that a document gives a type and the ledger has after the import is exported again
      with that type, unless it is excepted. */
  lemma {:induction false} TypeSurvivesIff(l: Ledger, r: Review, year: nat, bytes: seq<SieText.Byte>,
        names: SieLedger.Names, collate: SieExport.Collation, a: SieParser.Account, x: nat)
    requires Inv(l) && Import(l, r, year, SieParser.Parse(SieText.Decode(bytes))).Ok?
    requires a in SieParser.Parse(SieText.Decode(bytes)).accounts && a.kind.Some?
    requires var m := Import(l, r, year, SieParser.Parse(SieText.Decode(bytes))).value;
             && x < |m.accounts| && m.accounts[x].number == a.number
             && SieWholeTrip.ExportYear(m, year, names, collate).Ok?
    requires forall o :: o in names.objects ==> SieParser.IsDimension(o.dimension)
    ensures var m := Import(l, r, year, SieParser.Parse(SieText.Decode(bytes))).value;
            var again := SieParser.Parse(SieText.Decode(SieWholeTrip.ExportYear(m, year, names, collate).value));
            && again.errors == []
            && exists b :: b in again.accounts && b.number == a.number && (b.kind == a.kind <==> !Excepted(l, r, a))
  {
    hide *;
    var content := SieText.Decode(bytes);
    var m := Import(l, r, year, SieParser.Parse(content)).value;
    ImportSteps.ImportKeeps(l, r, year, content);
    KeptInOrder(l, Import(l, r, year, SieParser.Parse(content)));
    ImportedKindFitsIff(l, r, year, content, a, x);
    AccountsAreExported(m, year, names, collate, x);
  }

  // ---------------------------------------------------------------- imported vouchers

  /** The object of a dimension that a line names, if it names one. */
  predicate NamesObject(x: SieParser.Transaction, dimension: string, id: Option<string>) {
    if id.Some? then SieTokens.ObjectRef(dimension, id.value) in x.objects
    else forall o :: o in x.objects ==> o.dimension != dimension
  }

  /** The stored line has the account, the amount on its side, date and text of the transaction; dimension 6 is its
      project and dimension 1 its cost centre, and its VAT role is left open. */
  predicate BooksLine(l: Ledger, x: SieParser.Transaction, y: Line) {
    && y.account < |l.accounts| && l.accounts[y.account].number == x.account
    && y.debit - y.credit == SieParser.CentsOf(x.amount)
    && ((y.debit == 0 && y.credit >= 0) || (y.debit > 0 && y.credit == 0))
    && y.text == x.text && (x.date.None? ==> y.date.None?) && (x.date.Some? ==> y.date == IsoDay(x.date.value))
    && NamesObject(x, "6", y.project) && NamesObject(x, "1", y.centre)
    && y.vatCode.None? && y.role == Vat.Unclassified && y.group.None? && y.stored == Vat.Absent
  }

  lemma {:induction false} ObjectIsNamed(objects: seq<SieTokens.ObjectRef>, dimension: string)
    ensures ObjectIn(objects, dimension).Some? ==>
              SieTokens.ObjectRef(dimension, ObjectIn(objects, dimension).value) in objects
    ensures ObjectIn(objects, dimension).None? ==> forall o :: o in objects ==> o.dimension != dimension
    decreases |objects|
  {
    if |objects| > 0 {
      ObjectIsNamed(objects[1..], dimension);
      assert objects == [objects[0]] + objects[1..];
    }
  }

  lemma LineIsBooked(l: Ledger, a: nat, x: SieParser.Transaction)
    requires a < |l.accounts| && l.accounts[a].number == x.account
    ensures BooksLine(l, x, LineOf(a, x))
  {
    hide SieParser.CentsOf, IsoDay, ObjectIn;
    ObjectIsNamed(x.objects, "6");
    ObjectIsNamed(x.objects, "1");
  }

  lemma {:induction false} LinesAreBooked(l: Ledger, xs: seq<SieParser.Transaction>)
    requires LinesOf(l, xs).Ok?
    ensures |LinesOf(l, xs).value| == |xs|
    ensures forall i :: 0 <= i < |xs| ==> BooksLine(l, xs[i], LinesOf(l, xs).value[i])
  {
    hide LineOf, BooksLine;
    if |xs| > 0 {
      var n := |xs| - 1;
      LinesAreBooked(l, xs[..n]);
      LineIsBooked(l, FindAccount(l.accounts, xs[n].account).value, xs[n]);
    }
  }

  /** An import appends the vouchers of the document in their order, each posted in the year under its series code,
      number and date, with its text or a standing one, and line by line. */
  lemma VoucherIsBooked(l: Ledger, r: Review, year: nat, doc: SieParser.Document, k: nat)
    requires Import(l, r, year, doc).Ok? && year < |l.years| && k < |doc.vouchers|
    ensures var m, v := Import(l, r, year, doc).value, doc.vouchers[k];
            && |m.entries| == |l.entries| + |doc.vouchers| && m.entries[..|l.entries|] == l.entries
            && var e := m.entries[|l.entries| + k];
               && e.posted && e.year == year && e.number == Some(SieText.Value(v.number))
               && IsoDay(v.date) == Some(e.date) && e.series < |m.series| && m.series[e.series].code == v.series
               && e.text == (if v.text == "" then "SIE-import" else v.text)
               && e.source == Imported && e.version == 2 && e.reverses.None?
               && |e.lines| == |v.transactions|
               && forall i :: 0 <= i < |e.lines| ==> BooksLine(m, v.transactions[i], e.lines[i])
  {
    hide Import, WithVouchers, WithOpenings, WithAccounts, ImportRefusal, LinesOf, IsoDay, BooksLine, SieText.Value;
    SieLedger.ImportParts(l, r, year, doc);
    var n := WithOpenings(WithAccounts(l, r, doc), year, doc).value;
    SieLedger.VouchersAppend(n, year, doc.vouchers);
    var m := Import(l, r, year, doc).value;
    assert SieLedger.MadeFrom(m, year, m.entries[|l.entries| + k], doc.vouchers[k]);
    LinesAreBooked(m, doc.vouchers[k].transactions);
  }

  lemma {:induction false} LargestNumber(entries: seq<Entry>, s: nat)
    ensures MaxNumber(entries, s) >= 0
    ensures forall e :: e in entries && e.series == s && e.number.Some? ==> e.number.value <= MaxNumber(entries, s)
    ensures MaxNumber(entries, s) > 0 ==>
            exists e :: e in entries && e.series == s && e.number == Some(MaxNumber(entries, s))
  {
    if |entries| > 0 {
      var n := |entries| - 1;
      LargestNumber(entries[..n], s);
      assert entries == entries[..n] + [entries[n]];
    }
  }

  /** The series of a voucher: the one of the year with its code, or a new active one. Its counter goes past the number
      of the voucher and every number used in the series, no further than needed and never back; no other series
      changes. */
  lemma SeriesIsRaised(l: Ledger, year: nat, code: string, number: nat)
    ensures var (m, s) := WithSeriesFor(l, year, code, number);
            && m == l.(series := m.series) && s < |m.series| && m.series[s].year == year && m.series[s].code == code
            && (forall i :: 0 <= i < |l.series| && i != s ==> i < |m.series| && m.series[i] == l.series[i])
            && (s < |l.series| ==>
               |m.series| == |l.series| && m.series[s] == l.series[s].(next := m.series[s].next))
            && (s >= |l.series| ==>
               && s == |l.series| && |m.series| == |l.series| + 1 && m.series[s].active
               && forall i :: 0 <= i < |l.series| ==> l.series[i].year != year || l.series[i].code != code)
            && m.series[s].next > number && (s < |l.series| ==> m.series[s].next >= l.series[s].next)
            && (forall e :: e in l.entries && e.series == s && e.number.Some? ==> e.number.value < m.series[s].next)
            && (m.series[s].next == number + 1 || (s < |l.series| && m.series[s].next == l.series[s].next)
                || exists e :: e in l.entries && e.series == s && e.number == Some(m.series[s].next - 1))
  {
    var (m, s) := WithSeriesFor(l, year, code, number);
    LargestNumber(l.entries, s);
    hide MaxNumber, FindSeries;
    var found := FindSeries(l.series, year, code);
    if found.None? {
      forall i | 0 <= i < |l.series| ensures l.series[i].year != year || l.series[i].code != code {
        assert l.series[i] in l.series;
      }
    }
  }

  // ---------------------------------------------------------------- what the review lets pass

  predicate Typed(doc: SieParser.Document, number: string) {
    exists a :: a in doc.accounts && a.number == number && a.kind.Some?
  }

  predicate Listed(doc: SieParser.Document, number: string) {
    Carries(doc, number) || exists a :: a in doc.accounts && a.number == number
  }

  /** The catalogue does not object to the number: what carries amounts can be booked on, restricted rows need the K3
      framework, an account to be switched on has the kind of its row, and a missing account fits it by type. A number
      the catalogue does not know may be missing in the ledger, in class 8 only with a type. */
  predicate CatalogueAgrees(l: Ledger, r: Review, doc: SieParser.Document, number: string) {
    var f := FindAccount(l.accounts, number);
    if number in r.catalog then
      var row := r.catalog[number];
      && (Carries(doc, number) ==> row.bookable && (row.restricted ==> r.k3))
      && (Carries(doc, number) && f.Some? && !l.accounts[f.value].active ==> l.accounts[f.value].kind == row.kind)
      && (f.None? ==> forall a :: a in doc.accounts && a.number == number && a.kind.Some? ==>
            Fits(a.kind.value, row.kind))
    else f.Some? || number == "" || number[0] != '8' || Typed(doc, number)
  }

  lemma CatalogueAgreesIff(l: Ledger, r: Review, doc: SieParser.Document, number: string)
    requires forall i, j :: 0 <= i < j < |doc.accounts| ==> doc.accounts[i].number != doc.accounts[j].number
    ensures RowConflict(l, r, doc, number) <==> !CatalogueAgrees(l, r, doc, number)
  {
    CarriesIs(doc, number);
    TypeInIs(doc, number);
    forall t, k ensures KindMatches(t, k) == Fits(t, k) { FitsIs(t, k); }
    hide Uses, Carries, FindAccount, KindMatches, Fits, TypeIn;
  }

  lemma TypeInIs(doc: SieParser.Document, number: string)
    requires forall i, j :: 0 <= i < j < |doc.accounts| ==> doc.accounts[i].number != doc.accounts[j].number
    ensures TypeIn(doc, number).Some? <==> Typed(doc, number)
    ensures forall a :: a in doc.accounts && a.number == number ==> TypeIn(doc, number) == a.kind
  {
    hide DocumentAccount;
    forall a | a in doc.accounts && a.number == number ensures TypeIn(doc, number) == a.kind {
      OwnAccount(doc.accounts, a);
    }
    FoundInDocument(doc.accounts, number);
  }

  lemma {:induction false} FoundInDocument(accounts: seq<SieParser.Account>, number: string)
    ensures DocumentAccount(accounts, number).Some? ==>
              DocumentAccount(accounts, number).value in accounts
              && DocumentAccount(accounts, number).value.number == number
  {
    if |accounts| > 0 { FoundInDocument(accounts[..|accounts| - 1], number); }
  }

  lemma ListedIs(doc: SieParser.Document, number: string)
    ensures Listed(doc, number) <==> number in Numbers(doc) && Mentioned(doc, number)
  {
    CarriesIs(doc, number);
    FoundInDocument(doc.accounts, number);
    if Carries(doc, number) { CarriedIsListed(doc, number); }
    if a :| a in doc.accounts && a.number == number { NumberListed(doc, a); }
    hide Numbers, Uses, Carries, DocumentAccount;
  }

  /** Some line of a voucher is on the account number. */
  predicate Booked(doc: SieParser.Document, number: string) {
    exists v, x :: v in doc.vouchers && x in v.transactions && x.account == number
  }

  lemma BookedIs(doc: SieParser.Document, number: string)
    ensures VoucherUses(doc, number) <==> Booked(doc, number)
    ensures Booked(doc, number) ==> number in Numbers(doc) && Carries(doc, number)
  {
    if VoucherUses(doc, number) {
      var v :| v in doc.vouchers && exists x :: x in v.transactions && x.account == number;
    }
    if Booked(doc, number) { CarriedIsListed(doc, number); }
    hide Numbers;
  }

  /** What the review asks of ledger and document besides errors and the year. */
  ghost predicate Agrees(l: Ledger, r: Review, year: nat, doc: SieParser.Document)
    requires year < |l.years|
  {
    && !r.objectConflict
    && (forall n :: Listed(doc, n) ==> CatalogueAgrees(l, r, doc, n))
    && (forall a :: a in doc.accounts && a.kind.Some? && FindAccount(l.accounts, a.number).Some? ==>
       Fits(a.kind.value, l.accounts[FindAccount(l.accounts, a.number).value].kind))
    && (forall n :: Booked(doc, n) && FindAccount(l.accounts, n).Some? ==>
       l.accounts[FindAccount(l.accounts, n).value].active || n in r.catalog)
    && (doc.openings != [] ==>
       l.years[year].ib == [] && forall e :: e in l.entries && e.posted ==> e.year != year)
    && (forall v, e :: v in doc.vouchers && e in l.entries && e.year == year && e.series < |l.series| ==>
       l.series[e.series].code != v.series || e.number != Some(SieText.Value(v.number)))
  }

  lemma NoConflictIff(l: Ledger, r: Review, year: nat, doc: SieParser.Document)
    requires year < |l.years|
    requires forall i, j :: 0 <= i < j < |doc.accounts| ==> doc.accounts[i].number != doc.accounts[j].number
    ensures !HasConflict(l, r, year, doc) <==> Agrees(l, r, year, doc)
  {
    forall n: string
      ensures Listed(doc, n) <==> n in Numbers(doc) && Mentioned(doc, n)
      ensures RowConflict(l, r, doc, n) <==> !CatalogueAgrees(l, r, doc, n)
      ensures VoucherUses(doc, n) <==> Booked(doc, n)
      ensures Booked(doc, n) ==> n in Numbers(doc) && Uses(doc, n)
    {
      ListedIs(doc, n);
      CatalogueAgreesIff(l, r, doc, n);
      BookedIs(doc, n);
      CarriesIs(doc, n);
    }
    forall t, k ensures KindMatches(t, k) == Fits(t, k) { FitsIs(t, k); }
    hide Numbers, Mentioned, RowConflict, CatalogueAgrees, Listed, Booked, VoucherUses, Uses, KindMatches, Fits,
         FindAccount, SieText.Value;
  }

  /** An account of that number is to be switched on or created from the catalogue. */
  predicate ToActivate(l: Ledger, r: Review, doc: SieParser.Document, number: string) {
    number in r.catalog && Carries(doc, number)
    && (FindAccount(l.accounts, number).Some? ==> !l.accounts[FindAccount(l.accounts, number).value].active)
  }

  lemma ToActivateIs(l: Ledger, r: Review, doc: SieParser.Document, number: string)
    ensures NeedsActivation(l, r, doc, number) <==> ToActivate(l, r, doc, number)
    ensures ToActivate(l, r, doc, number) ==> number in Numbers(doc)
  {
    CarriesIs(doc, number);
    if Carries(doc, number) { CarriedIsListed(doc, number); }
    hide Numbers, Uses, Carries, FindAccount;
  }

  /** The review of a text passes if and only if it is free of errors, its year is the open year chosen, it agrees with
      ledger and catalogue, and activations, if there are any, were confirmed. */
  lemma ReviewPassesIff(l: Ledger, r: Review, year: nat, content: string)
    ensures var doc := SieParser.Parse(content);
            ImportRefusal(l, r, year, doc).None? <==>
            && doc.errors == [] && doc.fiscalYear.Some? && year < |l.years| && !l.years[year].closed
            && IsoDay(doc.fiscalYear.value.start) == Some(l.years[year].first)
            && IsoDay(doc.fiscalYear.value.end) == Some(l.years[year].last)
            && Agrees(l, r, year, doc) && (r.acknowledged || forall n :: !ToActivate(l, r, doc, n))
  {
    hide *;
    var doc := SieParser.Parse(content);
    ReviewPartsIff(l, r, year, doc);
    if doc.errors == [] {
      DocumentDistinct(content);
      if year < |l.years| { NoConflictIff(l, r, year, doc); }
    }
    ConfirmedIff(l, r, doc);
  }

  lemma ReviewPartsIff(l: Ledger, r: Review, year: nat, doc: SieParser.Document)
    ensures ImportRefusal(l, r, year, doc).None? <==>
            && doc.errors == [] && doc.fiscalYear.Some? && year < |l.years| && !l.years[year].closed
            && IsoDay(doc.fiscalYear.value.start) == Some(l.years[year].first)
            && IsoDay(doc.fiscalYear.value.end) == Some(l.years[year].last)
            && !HasConflict(l, r, year, doc)
            && (r.acknowledged || forall n :: n in Numbers(doc) ==> !NeedsActivation(l, r, doc, n))
  {
    hide IsoDay, HasConflict, NeedsActivation, Numbers;
  }

  lemma ConfirmedIff(l: Ledger, r: Review, doc: SieParser.Document)
    ensures (forall n :: n in Numbers(doc) ==> !NeedsActivation(l, r, doc, n)) <==>
            forall n :: !ToActivate(l, r, doc, n)
  {
    forall n: string
      ensures NeedsActivation(l, r, doc, n) <==> ToActivate(l, r, doc, n)
      ensures ToActivate(l, r, doc, n) ==> n in Numbers(doc)
    {
      ToActivateIs(l, r, doc, n);
    }
    hide NeedsActivation, ToActivate, Numbers;
  }

  /** Every account an imported voucher books on is active afterwards. */
  lemma BookedIsActive(l: Ledger, r: Review, year: nat, doc: SieParser.Document, x: nat)
    requires Inv(l) && Import(l, r, year, doc).Ok? && x < |Import(l, r, year, doc).value.accounts|
    requires Booked(doc, Import(l, r, year, doc).value.accounts[x].number)
    ensures Import(l, r, year, doc).value.accounts[x].active
  {
    hide *;
    var m := Import(l, r, year, doc).value;
    ImportedAccountsAre(l, r, year, doc);
    ImportAccounts(l, r, year, doc);
    if x < |l.accounts| {
      AccountsDistinct(l);
      SwitchedNumber(l, r, doc, m, x);
      NoConflict(l, r, year, doc);
      BookedIs(doc, l.accounts[x].number);
      OwnNumber(l, x);
      ToActivateIs(l, r, doc, l.accounts[x].number);
      SwitchedOnIs(l, r, doc, x);
    } else {
      MadeIsActive(l.accounts, r, doc.accounts, m.accounts[x]);
    }
  }

  lemma SwitchedNumber(l: Ledger, r: Review, doc: SieParser.Document, m: Ledger, x: nat)
    requires x < |l.accounts| <= |m.accounts|
    requires m.accounts[x] == if SwitchedOn(l, r, doc, x) then l.accounts[x].(active := true) else l.accounts[x]
    ensures m.accounts[x].number == l.accounts[x].number
    ensures SwitchedOn(l, r, doc, x) || l.accounts[x].active ==> m.accounts[x].active
  {
    hide SwitchedOn;
  }

  lemma SwitchedOnIs(l: Ledger, r: Review, doc: SieParser.Document, x: nat)
    requires x < |l.accounts| && FindAccount(l.accounts, l.accounts[x].number) == Some(x)
    ensures SwitchedOn(l, r, doc, x) <==> ToActivate(l, r, doc, l.accounts[x].number)
  {
    hide FindAccount, Carries;
  }

  lemma OwnNumber(l: Ledger, x: nat)
    requires AccountsOk(l.accounts) && x < |l.accounts|
    ensures FindAccount(l.accounts, l.accounts[x].number) == Some(x)
  {
    assert l.accounts[x] in l.accounts;
    SameNumber(l, x, FindAccount(l.accounts, l.accounts[x].number).value);
  }

  lemma MadeIsActive(accounts: seq<Account>, r: Review, added: seq<SieParser.Account>, x: Account)
    requires MadeOf(accounts, r, added, x)
    ensures x.active && x.vat.None?
  {
    hide Created, FindAccount;
    var a :| a in added && x == Created(r, a);
    CreatedNumber(r, a);
  }
}
