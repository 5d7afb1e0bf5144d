/** The SIE 4 printer: the records of a ledger export, in a fixed order, checked by reading them back. */
module SieExport {
  import opened Common
  import opened SieText
  import opened SieTokens
  import opened SieLines
  import opened SieParser

  datatype ExportBalance = ExportBalance(account: string, opening: string, closing: string)

  /** `generated` is the date of the export; the comparison of texts is supplied as `collate`. */
  datatype ExportData = ExportData(
    generated: string, accounts: seq<Account>, balances: seq<ExportBalance>, year: Span,
    name: string, number: Option<string>, vouchers: seq<Voucher>, objects: seq<SieObject>)

  datatype ExportError =
    | BadField | BadDate | BadAmount | BadAccount | BadBalanceAccount | OpeningOnResultAccount
    | ReadBackFailed(errors: seq<Error>) | NotEncodable

  datatype Record = Record(tag: string, fields: seq<Field>)

  type Fields = Result<seq<Field>, ExportError>
  type Records = Result<seq<Record>, ExportError>
  type Lines = Result<seq<string>, ExportError>
  type Collation = (string, string) -> int

  // ---------------------------------------------------------------- sort orders

  function ByNumber(collate: Collation): (Account, Account) -> int
  {
    (a: Account, b: Account) => collate(a.number, b.number)
  }

  function ByAccount(collate: Collation): (ExportBalance, ExportBalance) -> int {
    (a: ExportBalance, b: ExportBalance) => collate(a.account, b.account)
  }

  function ByIdentity(collate: Collation): (SieObject, SieObject) -> int {
    (a: SieObject, b: SieObject) => collate(a.dimension + "/" + a.id, b.dimension + "/" + b.id)
  }

  function ByDimension(collate: Collation): (ObjectRef, ObjectRef) -> int
  {
    (a: ObjectRef, b: ObjectRef) => collate(a.dimension, b.dimension)
  }

  function ByDate(collate: Collation): (Voucher, Voucher) -> int {
    (a: Voucher, b: Voucher) =>
      if collate(a.date, b.date) != 0 then collate(a.date, b.date)
      else if collate(a.series, b.series) != 0 then collate(a.series, b.series)
      else if Value(a.number) < Value(b.number) then -1 else 1
  }

  // ---------------------------------------------------------------- fields and records

  function TextField(s: string): Result<Field, ExportError> { if Quotable(s) then Ok(Quoted(s)) else Err(BadField) }

  function DateField(s: string): Result<Field, ExportError>
  {
    if SieDate(s).Some? then Ok(Word(SieDate(s).value)) else Err(BadDate)
  }

  function MoneyField(s: string): Result<Field, ExportError> {
    if MoneyCents(s).Some? then Ok(Word(CentsMoney(MoneyCents(s).value))) else Err(BadAmount)
  }

  function ObjectsField(refs: seq<ObjectRef>): Result<Field, ExportError> {
    if forall r :: r in refs ==> Quotable(r.id) then Ok(Objects(refs)) else Err(BadField)
  }

  /** The first failing field decides. */
  function Gather(fs: seq<Result<Field, ExportError>>): Fields {
    if |fs| == 0 then Ok([])
    else if fs[0].Err? then Err(fs[0].error)
    else
      var rest := Gather(fs[1..]);
      if rest.Err? then rest else Ok([fs[0].value] + rest.value)
  }

  function One(tag: string, fs: seq<Result<Field, ExportError>>): Records {
    var fields := Gather(fs);
    if fields.Ok? then Ok([Record(tag, fields.value)]) else Err(fields.error)
  }

  function Chain(a: Records, b: Records): Records {
    if a.Err? then a else if b.Err? then b else Ok(a.value + b.value)
  }

  function Each<T>(s: seq<T>, f: T -> Records): Records {
    if |s| == 0 then Ok([]) else Chain(Each(s[..|s| - 1], f), f(s[|s| - 1]))
  }

  function Letter(k: AccountType): string {
    match k case Asset => "T" case Debt => "S" case Income => "I" case Cost => "K"
  }

  function AccountRecords(): Account -> Records {
    (a: Account) =>
      if !IsAccountNumber(a.number) then Err(BadAccount)
      else Chain(One("#KONTO", [Ok(Word(a.number)), TextField(a.name)]),
                 if a.kind.Some? then Ok([Record("#KTYP", [Word(a.number), Word(Letter(a.kind.value))])]) else Ok([]))
  }

  /** The type of an account: the last one given. */
  function KindIn(accounts: seq<Account>, number: string): Option<AccountType> {
    if |accounts| == 0 then None
    else if accounts[|accounts| - 1].number == number then accounts[|accounts| - 1].kind
    else KindIn(accounts[..|accounts| - 1], number)
  }

  predicate IsResultKind(k: Option<AccountType>) { k == Some(Income) || k == Some(Cost) }

  function BalanceRecords(accounts: seq<Account>): ExportBalance -> Records {
    (b: ExportBalance) =>
      if !IsAccountNumber(b.account) then Err(BadBalanceAccount)
      else if IsResultKind(KindIn(accounts, b.account)) then
        (if MoneyCents(b.opening).None? then Err(BadAmount)
         else if MoneyCents(b.opening).value != 0 then Err(OpeningOnResultAccount)
         else One("#RES", [Ok(Word("0")), Ok(Word(b.account)), MoneyField(b.closing)]))
      else Chain(One("#IB", [Ok(Word("0")), Ok(Word(b.account)), MoneyField(b.opening)]),
                 One("#UB", [Ok(Word("0")), Ok(Word(b.account)), MoneyField(b.closing)]))
  }

  function ObjectRecords(): SieObject -> Records {
    (o: SieObject) => One("#OBJEKT", [Ok(Word(o.dimension)), TextField(o.id), TextField(o.name)])
  }

  function LineRecords(collate: Collation): Transaction -> Records {
    (x: Transaction) =>
      One("#TRANS", [Ok(Word(x.account)), ObjectsField(Sort(x.objects, ByDimension(collate))), MoneyField(x.amount),
                     if x.date.Some? && x.date.value != "" then DateField(x.date.value) else Ok(Quoted("")),
                     TextField(if x.text.Some? then x.text.value else "")])
  }

  function VoucherRecords(collate: Collation): Voucher -> Records {
    (v: Voucher) =>
      Chain(Chain(Chain(One("#VER", [TextField(v.series), Ok(Word(v.number)), DateField(v.date), TextField(v.text)]),
                        Ok([Record("{", [])])),
                  Each(v.transactions, LineRecords(collate))),
            Ok([Record("}", [])]))
  }

  function HeaderRecords(data: ExportData): Records {
    Chain(Chain(Chain(
      Ok([Record("#FLAGGA", [Word("0")]), Record("#PROGRAM", [Quoted("LedgerApp"), Quoted("0.1")]),
          Record("#FORMAT", [Word("PC8")]), Record("#SIETYP", [Word("4")])]),
      One("#GEN", [DateField(data.generated), Ok(Quoted("LedgerApp"))])),
      Chain(if data.number.Some? && data.number.value != "" then One("#ORGNR", [TextField(data.number.value)])
        else Ok([]),
            One("#FNAMN", [TextField(data.name)]))),
      One("#RAR", [Ok(Word("0")), DateField(data.year.start), DateField(data.year.end)]))
  }

  const DIMENSIONS :=
    [Record("#DIM", [Word("1"), Quoted("Kostnadsställe")]), Record("#DIM", [Word("6"), Quoted("Projekt")])]

  function AllRecords(data: ExportData, collate: Collation): Records {
    Chain(Chain(Chain(Chain(Chain(
      HeaderRecords(data),
      Each(Sort(data.accounts, ByNumber(collate)), AccountRecords())),
      Each(Sort(data.balances, ByAccount(collate)), BalanceRecords(data.accounts))),
      Ok(DIMENSIONS)),
      Each(Sort(data.objects, ByIdentity(collate)), ObjectRecords())),
      Each(Sort(data.vouchers, ByDate(collate)), VoucherRecords(collate)))
  }

  function RecordText(): Record -> string { (r: Record) => Line(r.tag, r.fields) }

  function Texts(r: Records): Lines { if r.Ok? then Ok(Map(r.value, RecordText())) else Err(r.error) }

  /** The exported text: only a text that reads back without errors and fits the code page is returned. */
  function Export(data: ExportData, collate: Collation): Result<string, ExportError> {
    var lines := Texts(AllRecords(data, collate));
    if lines.Err? then Err(lines.error)
    else
      var output := Joined(lines.value);
      if Parse(output).errors != [] then Err(ReadBackFailed(Parse(output).errors))
      else if Encode(output).None? then Err(NotEncodable)
      else Ok(output)
  }

  // ---------------------------------------------------------------- the printing loops

  lemma TextsOfChain(a: Records, b: Records)
    ensures a.Err? ==> Texts(Chain(a, b)) == Err(a.error)
    ensures a.Ok? && b.Err? ==> Texts(Chain(a, b)) == Err(b.error)
    ensures a.Ok? && b.Ok? ==> Texts(Chain(a, b)) == Ok(Texts(a).value + Texts(b).value)
  {
    if a.Ok? && b.Ok? { MapAppend(a.value, b.value, RecordText()); }
  }

  lemma ChainFails(a: Records, b: Records, c: Records)
    ensures Chain(Chain(a, b), c) == Chain(a, Chain(b, c))
    ensures Chain(a, b).Err? ==> Chain(Chain(a, b), c) == Chain(a, b)
    ensures a.Ok? ==> Chain(a, Ok([])) == a
  {
    if a.Ok? && b.Ok? && c.Ok? { assert a.value + b.value + c.value == a.value + (b.value + c.value); }
    if a.Ok? { assert a.value + [] == a.value; }
  }

  lemma EachStep<T>(s: seq<T>, i: nat, f: T -> Records)
    requires i < |s|
    ensures Each(s[..i + 1], f) == Chain(Each(s[..i], f), f(s[i]))
  {
    assert s[..i + 1][..i] == s[..i];
  }

  lemma {:induction false} EachFails<T>(s: seq<T>, i: nat, f: T -> Records)
    requires i <= |s| && Each(s[..i], f).Err?
    ensures Each(s, f) == Each(s[..i], f)
    decreases |s| - i
  {
    if i < |s| {
      EachStep(s, i, f);
      EachFails(s, i + 1, f);
    } else {
      assert s[..i] == s;
    }
  }

  /** One printing loop: the records of each element are appended; the first failure ends the export. */
  method PushEach<T>(lines: seq<string>, s: seq<T>, f: T -> Records, ghost before: Records) returns (r: Lines)
    requires Texts(before) == Ok(lines)
    ensures r == Texts(Chain(before, Each(s, f)))
  {
    var pushed := lines;
    assert s[..0] == [];
    ChainFails(before, Ok([]), Ok([]));
    hide Texts, Each, Chain;
    for i := 0 to |s|
      invariant Each(s[..i], f).Ok? && Texts(Chain(before, Each(s[..i], f))) == Ok(pushed)
    {
      var records := f(s[i]);
      EachStep(s, i, f);
      ChainFails(before, Each(s[..i], f), records);
      TextsOfChain(Chain(before, Each(s[..i], f)), records);
      EachIsOk(Each(s[..i], f), records);
      if records.Err? {
        EachFails(s, i + 1, f);
        return Err(records.error);
      }
      var texts := RecordTexts(records.value);
      pushed := pushed + texts;
    }
    assert s[..|s|] == s;
    r := Ok(pushed);
  }

  lemma EachIsOk(a: Records, b: Records)
    requires a.Ok?
    ensures Chain(a, b).Ok? <==> b.Ok?
    ensures b.Err? ==> Chain(a, b) == Err(b.error)
  {
  }

  method RecordTexts(records: seq<Record>) returns (texts: seq<string>)
    ensures Texts(Ok(records)) == Ok(texts)
  {
    texts := [];
    for i := 0 to |records|
      invariant |texts| == i && forall j :: 0 <= j < i ==> texts[j] == Line(records[j].tag, records[j].fields)
    {
      texts := texts + [Line(records[i].tag, records[i].fields)];
    }
    assert texts == Map(records, RecordText());
  }

  method ExportSie4(data: ExportData, collate: Collation) returns (r: Result<string, ExportError>)
    ensures r == Export(data, collate)
  {
    hide Parse, Joined, Encode, AllRecords, Texts;
    var lines := PrintRecords(data, collate);
    if lines.Err? { return Err(lines.error); }
    var output := Joined(lines.value);
    var validation := ParseSie4(output);
    if validation.errors != [] { return Err(ReadBackFailed(validation.errors)); }
    if Encode(output).None? { return Err(NotEncodable); }
    r := Ok(output);
  }

  method PrintRecords(data: ExportData, collate: Collation) returns (lines: Lines)
    ensures lines == Texts(AllRecords(data, collate))
  {
    ghost var done := HeaderRecords(data);
    hide Texts, Each, Chain, HeaderRecords, AccountRecords, BalanceRecords, ObjectRecords, VoucherRecords, Sort;
    lines := PrintHeader(data);
    lines, done := PushSection(lines, Sort(data.accounts, ByNumber(collate)), AccountRecords(), done);
    lines, done := PushSection(lines, Sort(data.balances, ByAccount(collate)), BalanceRecords(data.accounts), done);
    lines, done := PushFixed(lines, DIMENSIONS, done);
    lines, done := PushSection(lines, Sort(data.objects, ByIdentity(collate)), ObjectRecords(), done);
    lines, done := PushSection(lines, Sort(data.vouchers, ByDate(collate)), VoucherRecords(collate), done);
  }

  method PrintHeader(data: ExportData) returns (lines: Lines)
    ensures lines == Texts(HeaderRecords(data))
  {
    hide HeaderRecords;
    var header := HeaderRecords(data);
    if header.Err? { return Err(header.error); }
    var texts := RecordTexts(header.value);
    lines := Ok(texts);
  }

  method PushFixed(lines: Lines, records: seq<Record>, ghost before: Records) returns (r: Lines, ghost done: Records)
    requires lines == Texts(before)
    ensures done == Chain(before, Ok(records)) && r == Texts(done)
  {
    done := Chain(before, Ok(records));
    TextsOfChain(before, Ok(records));
    if lines.Err? { return lines, done; }
    var texts := RecordTexts(records);
    r := Ok(lines.value + texts);
  }

  method PushSection<T>(lines: Lines, s: seq<T>, f: T -> Records, ghost before: Records)
    returns (r: Lines, ghost done: Records)
    requires lines == Texts(before)
    ensures done == Chain(before, Each(s, f)) && r == Texts(done)
  {
    done := Chain(before, Each(s, f));
    if lines.Err? { return lines, done; }
    r := PushEach(lines.value, s, f, before);
  }
}
