/** The SIE 4 reader: records, the open voucher block, and the checks across records. */
module SieParser {
  import opened Common
  import opened SieText
  import opened SieTokens
  import opened SieLines

  /** Account types T, S, I and K of #KTYP. */
  datatype AccountType = Asset | Debt | Income | Cost

  datatype Account = Account(number: string, name: string, kind: Option<AccountType>)

  datatype Transaction = Transaction(account: string, amount: string, date: Option<string>, text: Option<string>,
    objects: seq<ObjectRef>)

  datatype Voucher = Voucher(date: string, number: string, series: string, text: string, transactions: seq<Transaction>)

  datatype Span = Span(start: string, end: string)

  datatype FiscalYear = FiscalYear(index: string, span: Span)

  datatype Opening = Opening(account: string, amount: string, yearIndex: string)

  datatype Balance = Balance(tag: string, account: string, amount: string, yearIndex: string)

  datatype SieObject = SieObject(dimension: string, id: string, name: string)

  datatype Organization = Organization(name: Option<string>, number: Option<string>)

  datatype Warning =
    | PreviousYear(index: string) | UnusedDimension(dimension: Option<string>) | NotPersisted(tag: string)

  datatype Problem =
    | ForbiddenControl | MalformedField | UnexpectedBlock | UnexpectedEnd | WrongType | WrongFormat | InvalidYear
    | DuplicateYear | InvalidAccount | InvalidType | InvalidBalance | InvalidAmount | QuantityBalance
    | PreviousYearBalance | InvalidObject | DuplicateObject | InvalidVoucher | RegistrationField | DuplicateVoucher
    | OutsideBlock | InvalidTransaction | InvalidDimension | InvalidLineDate | QuantityField | LongText
    | Unsupported(tag: string)

  datatype Error =
    | AtLine(line: nat, problem: Problem) | MissingType | UnclosedBlock | Unbalanced(series: string, number: string)
    | VoucherOutsideYear | LineOutsideYear | UndeclaredObject | DuplicateOpening | OpeningUnbalanced | DuplicateBalance
    | ClosingDisagrees(account: string)

  datatype Document = Document(
    accounts: seq<Account>, fiscalYear: Option<Span>, fiscalYears: seq<FiscalYear>, openings: seq<Opening>,
    balances: seq<Balance>, objects: seq<SieObject>, organization: Option<Organization>, vouchers: seq<Voucher>,
    warnings: seq<Warning>, errors: seq<Error>)

  const EMPTY := Document([], None, [], [], [], [], None, [], [], [])

  /** The document so far, whether its last voucher is open (the current voucher is the last one), whether its block
      is, and the account types seen. */
  datatype Reader = Reader(doc: Document, open: bool, block: bool, typeSeen: bool, types: map<string, AccountType>)

  const START := Reader(EMPTY, false, false, false, map[])

  // ---------------------------------------------------------------- fields

  /** Length in UTF-16 units. */
  function Units(s: string): nat {
    if |s| == 0 then 0 else Units(s[..|s| - 1]) + if s[|s| - 1] as int > 0xFFFF then 2 else 1
  }

  predicate IsIdentifierChar(c: char) {
    'a' <= c <= 'z' || 'A' <= c <= 'Z' || IsDigit(c) || c in "ÅÄÖåäö_.-"
  }

  predicate IsIdentifier(s: string) { 1 <= |s| <= 20 && forall c :: c in s ==> IsIdentifierChar(c) }

  predicate IsAccountNumber(s: string) { 4 <= |s| <= 10 && IsDigits(s) }

  /** A positive number without leading zeros, below 2147483647. */
  predicate IsVoucherNumber(s: string) { 1 <= |s| <= 10 && IsDigits(s) && s[0] != '0' && Value(s) < 2147483647 }

  /** Zero, or minus a positive number without leading zeros. */
  predicate IsYearIndex(s: string) { s == "0" || (|s| >= 2 && s[0] == '-' && IsDigits(s[1..]) && s[1] != '0') }

  predicate IsDimension(s: string) { s == "1" || s == "6" }

  function TypeOfLetter(s: string): Option<AccountType> {
    if s == "T" then Some(Asset)
    else if s == "S" then Some(Debt)
    else if s == "I" then Some(Income)
    else if s == "K" then Some(Cost)
    else None
  }

  function At(t: seq<string>, i: nat): string { if i < |t| then t[i] else "" }

  function Maybe(t: seq<string>, i: nat): Option<string> { if i < |t| then Some(t[i]) else None }

  predicate AllEmptyFrom(t: seq<string>, i: nat) { forall k :: i <= k < |t| ==> t[k] == "" }

  // ---------------------------------------------------------------- one record

  type Step = Result<Reader, Problem>

  function WithDoc(r: Reader, d: Document): Reader { r.(doc := d) }

  function YearRecord(r: Reader, t: seq<string>): Step {
    var d := r.doc;
    var start, end := ParseDate(At(t, 2)), ParseDate(At(t, 3));
    if start.None? || end.None? || Less(end.value, start.value) || !IsYearIndex(At(t, 1)) then Err(InvalidYear)
    else if exists y :: y in d.fiscalYears && y.index == t[1] then Err(DuplicateYear)
    else
      var span := Span(start.value, end.value);
      var d' := d.(fiscalYears := d.fiscalYears + [FiscalYear(t[1], span)]);
      Ok(WithDoc(r, if t[1] == "0" then d'.(fiscalYear := Some(span))
        else d'.(warnings := d.warnings + [PreviousYear(t[1])])))
  }

  function AccountRecord(r: Reader, t: seq<string>): Step {
    var d := r.doc;
    if !IsAccountNumber(At(t, 1)) || At(t, 2) == "" || Units(At(t, 2)) > 160
      || (exists a :: a in d.accounts && a.number == t[1]) then Err(InvalidAccount)
    else Ok(WithDoc(r, d.(accounts := d.accounts + [Account(t[1], t[2], None)])))
  }

  function TypeRecord(r: Reader, t: seq<string>): Step {
    if !IsAccountNumber(At(t, 1)) || TypeOfLetter(At(t, 2)).None? then Err(InvalidType)
    else Ok(r.(types := r.types[t[1] := TypeOfLetter(t[2]).value]))
  }

  function BalanceRecord(r: Reader, t: seq<string>): Step
    requires |t| > 0
  {
    var d := r.doc;
    var cents := MoneyCents(At(t, 3));
    if !IsAccountNumber(At(t, 2)) || !IsYearIndex(At(t, 1)) then Err(InvalidBalance)
    else if cents.None? then Err(InvalidAmount)
    else if |t| > 4 then Err(QuantityBalance)
    else if t[1] != "0" then Err(PreviousYearBalance)
    else
      var amount := CentsMoney(cents.value);
      Ok(WithDoc(r, if t[0] == "#IB" then d.(openings := d.openings + [Opening(t[2], amount, t[1])])
                    else d.(balances := d.balances + [Balance(t[0], t[2], amount, t[1])])))
  }

  function DimensionRecord(r: Reader, t: seq<string>): Step {
    if IsDimension(At(t, 1)) then Ok(r)
      else Ok(WithDoc(r, r.doc.(warnings := r.doc.warnings + [UnusedDimension(Maybe(t, 1))])))
  }

  function ObjectRecord(r: Reader, t: seq<string>): Step {
    var d := r.doc;
    if !IsDimension(At(t, 1)) || !IsIdentifier(At(t, 2)) || At(t, 3) == "" || Units(At(t, 3)) > 160
      then Err(InvalidObject)
    else if exists o :: o in d.objects && o.dimension == t[1] && o.id == t[2] then Err(DuplicateObject)
    else Ok(WithDoc(r, d.(objects := d.objects + [SieObject(t[1], t[2], t[3])])))
  }

  function VoucherRecord(r: Reader, t: seq<string>): Step {
    var d := r.doc;
    var date := ParseDate(At(t, 3));
    if r.open || r.block || !IsIdentifier(At(t, 1)) || !IsVoucherNumber(At(t, 2)) || date.None? || Units(At(t, 4)) > 500
      then Err(InvalidVoucher)
    else if !AllEmptyFrom(t, 5) then Err(RegistrationField)
    else if exists v :: v in d.vouchers && v.series == t[1] && v.number == t[2] then Err(DuplicateVoucher)
    else Ok(WithDoc(r, d.(vouchers := d.vouchers + [Voucher(date.value, t[2], t[1], At(t, 4), [])])).(open := true))
  }

  /** The pairs at positions 3, 5, ... below `end` of a #TRANS record; None when one is refused. */
  function ObjectsUpTo(t: seq<string>, end: nat): Option<seq<ObjectRef>>
    requires end <= |t|
  {
    if end < 5 then Some([])
    else
      var front := ObjectsUpTo(t, end - 2);
      if front.None? || !IsDimension(t[end - 2]) || !IsIdentifier(t[end - 1])
         || (exists o :: o in front.value && o.dimension == t[end - 2]) then None
      else Some(front.value + [ObjectRef(t[end - 2], t[end - 1])])
  }

  function AddTransaction(d: Document, x: Transaction): Document
    requires d.vouchers != []
  {
    var n := |d.vouchers| - 1;
    d.(vouchers := d.vouchers[n := d.vouchers[n].(transactions := d.vouchers[n].transactions + [x])])
  }

  /** Position of the closing brace; 0 stands for none. */
  function Closing(t: seq<string>): (k: nat)
    ensures k > 0 ==> k < |t| && t[k] == "}"
  {
    var i := FirstIndex(t, "}");
    if i.Some? then i.value else 0
  }

  function FirstIndex(t: seq<string>, x: string): (r: Option<nat>)
    ensures r.Some? ==> r.value < |t| && t[r.value] == x && x !in t[..r.value]
    ensures r.None? ==> x !in t
  {
    if |t| == 0 then None
    else if t[0] == x then Some(0)
    else
      var r := FirstIndex(t[1..], x);
      if r.Some? then Some(r.value + 1) else None
  }

  /** What follows the object list: amount, line date, text. */
  function TransactionRest(t: seq<string>, close: nat, objects: seq<ObjectRef>): Result<Transaction, Problem> {
    var cents := MoneyCents(At(t, close + 1));
    var dateToken := At(t, close + 2);
    var date := if dateToken == "" then None else ParseDate(dateToken);
    if cents.None? then Err(InvalidAmount)
    else if dateToken != "" && date.None? then Err(InvalidLineDate)
    else if !AllEmptyFrom(t, close + 4) then Err(QuantityField)
    else if Units(At(t, close + 3)) > 500 then Err(LongText)
    else Ok(Transaction(At(t, 1), CentsMoney(cents.value), date, Maybe(t, close + 3), objects))
  }

  function TransactionRecord(r: Reader, t: seq<string>): Step {
    var close := Closing(t);
    if !r.open || !r.block || r.doc.vouchers == [] then Err(OutsideBlock)
    else if !IsAccountNumber(At(t, 1)) || At(t, 2) != "{" || close < 3 || (close - 3) % 2 != 0
      then Err(InvalidTransaction)
    else
      var objects := ObjectsUpTo(t, close);
      if objects.None? then Err(InvalidDimension)
      else
        var x := TransactionRest(t, close, objects.value);
        if x.Err? then Err(x.error) else Ok(WithDoc(r, AddTransaction(r.doc, x.value)))
  }

  /** The records the reader tells apart. */
  datatype Kind =
    | OpenBrace | CloseBrace | TypeOfFile | Format | OrgNumber | OrgName | Year | AccountName | AccountKind
    | BalanceAmount | Dimension | ObjectName | VoucherHead | VoucherLine | Silent | Descriptive | Currency | Unknown

  function KindOf(tag: string): Kind {
    if tag == "{" then OpenBrace
    else if tag == "}" then CloseBrace
    else if tag == "#SIETYP" then TypeOfFile
    else if tag == "#FORMAT" then Format
    else if tag == "#ORGNR" then OrgNumber
    else if tag == "#FNAMN" then OrgName
    else if tag == "#RAR" then Year
    else if tag == "#KONTO" then AccountName
    else if tag == "#KTYP" then AccountKind
    else if tag == "#IB" || tag == "#UB" || tag == "#RES" then BalanceAmount
    else if tag == "#DIM" then Dimension
    else if tag == "#OBJEKT" then ObjectName
    else if tag == "#VER" then VoucherHead
    else if tag == "#TRANS" then VoucherLine
    else if tag == "#FLAGGA" || tag == "#PROGRAM" || tag == "#GEN" then Silent
    else if tag in ["#PROSA", "#ADRESS", "#FNR", "#BKOD", "#FTYP", "#KPTYP", "#TAXAR", "#SRU"] then Descriptive
    else if tag == "#VALUTA" then Currency
    else Unknown
  }

  function OrganizationOf(d: Document): Organization
  {
    if d.organization.Some? then d.organization.value else Organization(None, None)
  }

  function Apply(r: Reader, t: seq<string>): Step
    requires |t| > 0
  {
    var d := r.doc;
    match KindOf(t[0])
    case OpenBrace => if !r.open || r.block || |t| != 1 then Err(UnexpectedBlock) else Ok(r.(block := true))
    case CloseBrace =>
      if !r.open || !r.block || |t| != 1 then Err(UnexpectedEnd) else Ok(r.(open := false, block := false))
    case TypeOfFile => if Maybe(t, 1) != Some("4") then Err(WrongType) else Ok(r)
    case Format => if Maybe(t, 1) != Some("PC8") then Err(WrongFormat) else Ok(r)
    case OrgNumber => Ok(WithDoc(r, d.(organization := Some(OrganizationOf(d).(number := Maybe(t, 1))))))
    case OrgName => Ok(WithDoc(r, d.(organization := Some(OrganizationOf(d).(name := Maybe(t, 1))))))
    case Year => YearRecord(r, t)
    case AccountName => AccountRecord(r, t)
    case AccountKind => TypeRecord(r, t)
    case BalanceAmount => BalanceRecord(r, t)
    case Dimension => DimensionRecord(r, t)
    case ObjectName => ObjectRecord(r, t)
    case VoucherHead => VoucherRecord(r, t)
    case VoucherLine => TransactionRecord(r, t)
    case Silent => Ok(r)
    case Descriptive => Ok(WithDoc(r, d.(warnings := d.warnings + [NotPersisted(t[0])])))
    case Currency => if Maybe(t, 1) == Some("SEK") then Ok(r) else Err(Unsupported(t[0]))
    case Unknown => Err(Unsupported(t[0]))
  }

  /** #SIETYP is noted even when its value is refused. */
  function Noted(r: Reader, t: seq<string>): Reader
    requires |t| > 0
  {
    if KindOf(t[0]).TypeOfFile? then r.(typeSeen := true) else r
  }

  function Failed(r: Reader, line: nat, p: Problem): Reader
  {
    WithDoc(r, r.doc.(errors := r.doc.errors + [AtLine(line, p)]))
  }

  // ---------------------------------------------------------------- one line, all lines

  /** The fields of a raw line; an error for a forbidden character or a malformed field. */
  function LineTokens(raw: string): Result<seq<string>, Problem> {
    if HasForbidden(raw) then Err(ForbiddenControl)
    else
      var t := Tokenize(Trim(raw));
      if t.Ok? then Ok(t.value) else Err(MalformedField)
  }

  /** A line without fields, or whose first field is empty, is skipped. */
  predicate Skipped(t: seq<string>) { |t| == 0 || t[0] == "" }

  function ReadLine(r: Reader, line: nat, raw: string): Reader {
    var t := LineTokens(raw);
    if t.Err? then Failed(r, line, t.error)
    else if Skipped(t.value) then r
    else
      var noted := Noted(r, t.value);
      var step := Apply(noted, t.value);
      if step.Ok? then step.value else Failed(noted, line, step.error)
  }

  function ReadLines(lines: seq<string>): Reader {
    if |lines| == 0 then START else ReadLine(ReadLines(lines[..|lines| - 1]), |lines|, lines[|lines| - 1])
  }

  // ---------------------------------------------------------------- checks across records

  function CentsOf(amount: string): int { if MoneyCents(amount).Some? then MoneyCents(amount).value else 0 }

  function LineCents(): Transaction -> int { (x: Transaction) => CentsOf(x.amount) }

  function NonZero(): Transaction -> bool { (x: Transaction) => CentsOf(x.amount) != 0 }

  function OpeningCents(): Opening -> int { (b: Opening) => CentsOf(b.amount) }

  function OnAccount(account: string): Transaction -> int
  {
    (x: Transaction) => if x.account == account then CentsOf(x.amount) else 0
  }

  predicate Balanced(v: Voucher) { SumOf(v.transactions, LineCents()) == 0 && |Filter(v.transactions, NonZero())| >= 2 }

  predicate Outside(date: string, year: Option<Span>)
  {
    year.Some? && (Less(date, year.value.start) || Less(year.value.end, date))
  }

  predicate Declared(d: Document, o: ObjectRef)
  {
    exists c :: c in d.objects && c.dimension == o.dimension && c.id == o.id
  }

  function ObjectErrors(d: Document, refs: seq<ObjectRef>): seq<Error> {
    if |refs| == 0 then []
    else ObjectErrors(d, refs[..|refs| - 1]) + if Declared(d, refs[|refs| - 1]) then [] else [UndeclaredObject]
  }

  function LineErrors(d: Document, x: Transaction): seq<Error> {
    (if x.date.Some? && Outside(x.date.value, d.fiscalYear) then [LineOutsideYear] else []) + ObjectErrors(d, x.objects)
  }

  function LinesErrors(d: Document, xs: seq<Transaction>): seq<Error> {
    if |xs| == 0 then [] else LinesErrors(d, xs[..|xs| - 1]) + LineErrors(d, xs[|xs| - 1])
  }

  function VoucherErrors(d: Document, v: Voucher): seq<Error> {
    (if Balanced(v) then [] else [Unbalanced(v.series, v.number)])
    + (if Outside(v.date, d.fiscalYear) then [VoucherOutsideYear] else [])
    + LinesErrors(d, v.transactions)
  }

  function VouchersErrors(d: Document, vs: seq<Voucher>): seq<Error> {
    if |vs| == 0 then [] else VouchersErrors(d, vs[..|vs| - 1]) + VoucherErrors(d, vs[|vs| - 1])
  }

  predicate OpensAccount(openings: seq<Opening>, account: string) { exists b :: b in openings && b.account == account }

  function OpeningErrors(openings: seq<Opening>): seq<Error> {
    if |openings| == 0 then []
    else
      var n := |openings| - 1;
      OpeningErrors(openings[..n]) + if OpensAccount(openings[..n], openings[n].account) then [DuplicateOpening] else []
  }

  /** The opening amount of an account: the last one given, zero when there is none. */
  function OpeningOf(openings: seq<Opening>, account: string): int {
    if |openings| == 0 then 0
    else
      var b := openings[|openings| - 1];
      if b.account == account then CentsOf(b.amount) else OpeningOf(openings[..|openings| - 1], account)
  }

  function AllLines(vs: seq<Voucher>): seq<Transaction> {
    if |vs| == 0 then [] else AllLines(vs[..|vs| - 1]) + vs[|vs| - 1].transactions
  }

  /** Opening amount plus the transactions of the account. */
  function ClosingOf(d: Document, account: string): int {
    OpeningOf(d.openings, account) + SumOf(AllLines(d.vouchers), OnAccount(account))
  }

  predicate Reported(balances: seq<Balance>, account: string) { exists c :: c in balances && c.account == account }

  function BalanceErrorsOf(d: Document, before: seq<Balance>, b: Balance): seq<Error> {
    (if Reported(before, b.account) then [DuplicateBalance] else [])
    + (if ClosingOf(d, b.account) != CentsOf(b.amount) then [ClosingDisagrees(b.account)] else [])
  }

  function BalanceErrors(d: Document, balances: seq<Balance>): seq<Error> {
    if |balances| == 0 then []
    else
      var n := |balances| - 1;
      BalanceErrors(d, balances[..n]) + BalanceErrorsOf(d, balances[..n], balances[n])
  }

  function Typed(accounts: seq<Account>, types: map<string, AccountType>): seq<Account> {
    Map(accounts, (a: Account) => a.(kind := if a.number in types then Some(types[a.number]) else None))
  }

  function Finish(r: Reader): Document {
    var d := r.doc.(accounts := Typed(r.doc.accounts, r.types));
    d.(errors := d.errors
       + (if r.typeSeen then [] else [MissingType])
       + (if r.open || r.block then [UnclosedBlock] else [])
       + VouchersErrors(d, d.vouchers)
       + OpeningErrors(d.openings)
       + (if SumOf(d.openings, OpeningCents()) != 0 then [OpeningUnbalanced] else [])
       + BalanceErrors(d, d.balances))
  }

  function Parse(text: string): Document { Finish(ReadLines(SplitLines(WithoutMark(text)))) }

  // ---------------------------------------------------------------- the reading loops

  method ReadTransaction(r: Reader, t: seq<string>) returns (step: Step)
    requires |t| > 0
    ensures step == TransactionRecord(r, t)
  {
    if !r.open || !r.block || r.doc.vouchers == [] { return Err(OutsideBlock); }
    var close := Closing(t);
    if !IsAccountNumber(At(t, 1)) || At(t, 2) != "{" || close < 3 || (close - 3) % 2 != 0 {
      return Err(InvalidTransaction);
    }
    var objects: seq<ObjectRef> := [];
    var i := 3;
    while i < close
      invariant 3 <= i <= close && (close - i) % 2 == 0
      invariant ObjectsUpTo(t, i) == Some(objects)
    {
      if !IsDimension(t[i]) || !IsIdentifier(t[i + 1]) || exists o :: o in objects && o.dimension == t[i] {
        ObjectsFail(t, i + 2, close);
        return Err(InvalidDimension);
      }
      objects := objects + [ObjectRef(t[i], t[i + 1])];
      i := i + 2;
    }
    var x := TransactionRest(t, close, objects);
    if x.Err? { return Err(x.error); }
    step := Ok(WithDoc(r, AddTransaction(r.doc, x.value)));
  }

  lemma {:induction false} ObjectsFail(t: seq<string>, i: nat, end: nat)
    requires 5 <= i <= end <= |t| && (end - i) % 2 == 0 && ObjectsUpTo(t, i).None?
    ensures ObjectsUpTo(t, end).None?
    decreases end
  {
    if i < end { ObjectsFail(t, i, end - 2); }
  }

  method ReadRecord(r: Reader, line: nat, raw: string) returns (r': Reader)
    ensures r' == ReadLine(r, line, raw)
  {
    if HasForbidden(raw) { return Failed(r, line, ForbiddenControl); }
    var scanned := Scan(Trim(raw));
    if scanned.Err? { return Failed(r, line, MalformedField); }
    var t := scanned.value;
    if |t| == 0 || t[0] == "" { return r; }
    r' := r;
    var kind := KindOf(t[0]);
    if kind.TypeOfFile? { r' := r'.(typeSeen := true); }
    var step;
    if kind.VoucherLine? { step := ReadTransaction(r', t); } else { step := Apply(r', t); }
    match step {
      case Ok(next) => r' := next;
      case Err(p) => r' := Failed(r', line, p);
    }
  }

  method CheckLines(d: Document, xs: seq<Transaction>) returns (errors: seq<Error>)
    ensures errors == LinesErrors(d, xs)
  {
    errors := [];
    for i := 0 to |xs|
      invariant errors == LinesErrors(d, xs[..i])
    {
      assert xs[..i + 1][..i] == xs[..i];
      var x, before := xs[i], errors;
      if x.date.Some? && Outside(x.date.value, d.fiscalYear) { errors := errors + [LineOutsideYear]; }
      var head := errors;
      for j := 0 to |x.objects|
        invariant errors == head + ObjectErrors(d, x.objects[..j])
      {
        assert x.objects[..j + 1][..j] == x.objects[..j];
        if !Declared(d, x.objects[j]) { errors := errors + [UndeclaredObject]; }
      }
      assert x.objects[..|x.objects|] == x.objects;
      assert errors == before + LineErrors(d, x);
    }
    assert xs[..|xs|] == xs;
  }

  method CheckVoucher(d: Document, v: Voucher) returns (errors: seq<Error>)
    ensures errors == VoucherErrors(d, v)
  {
    hide Balanced, Outside, LinesErrors;
    errors := [];
    if !Balanced(v) { errors := errors + [Unbalanced(v.series, v.number)]; }
    if Outside(v.date, d.fiscalYear) { errors := errors + [VoucherOutsideYear]; }
    var found := CheckLines(d, v.transactions);
    errors := errors + found;
  }

  method CheckVouchers(d: Document) returns (errors: seq<Error>)
    ensures errors == VouchersErrors(d, d.vouchers)
  {
    hide VoucherErrors;
    errors := [];
    for i := 0 to |d.vouchers|
      invariant errors == VouchersErrors(d, d.vouchers[..i])
    {
      assert d.vouchers[..i + 1][..i] == d.vouchers[..i];
      var found := CheckVoucher(d, d.vouchers[i]);
      errors := errors + found;
    }
    assert d.vouchers[..|d.vouchers|] == d.vouchers;
  }

  method CheckOpenings(openings: seq<Opening>) returns (errors: seq<Error>)
    ensures errors == OpeningErrors(openings)
  {
    errors := [];
    var seen: set<string> := {};
    for i := 0 to |openings|
      invariant errors == OpeningErrors(openings[..i])
      invariant forall a :: a in seen <==> OpensAccount(openings[..i], a)
    {
      assert openings[..i + 1][..i] == openings[..i];
      var b := openings[i];
      if b.account in seen { errors := errors + [DuplicateOpening]; }
      seen := seen + {b.account};
      assert openings[..i + 1] == openings[..i] + [b];
    }
    assert openings[..|openings|] == openings;
  }

  /** The table of closing amounts. */
  ghost predicate Closes(closing: map<string, int>, openings: seq<Opening>, xs: seq<Transaction>) {
    forall a :: (if a in closing then closing[a] else 0) == OpeningOf(openings, a) + SumOf(xs, OnAccount(a))
  }

  method ClosingTable(d: Document) returns (closing: map<string, int>)
    ensures Closes(closing, d.openings, AllLines(d.vouchers))
  {
    closing := map[];
    for i := 0 to |d.openings|
      invariant Closes(closing, d.openings[..i], [])
    {
      assert d.openings[..i + 1][..i] == d.openings[..i];
      closing := closing[d.openings[i].account := CentsOf(d.openings[i].amount)];
    }
    assert d.openings[..|d.openings|] == d.openings;
    for i := 0 to |d.vouchers|
      invariant Closes(closing, d.openings, AllLines(d.vouchers[..i]))
    {
      assert d.vouchers[..i + 1][..i] == d.vouchers[..i];
      closing := AddLines(closing, d.openings, AllLines(d.vouchers[..i]), d.vouchers[i].transactions);
    }
    assert d.vouchers[..|d.vouchers|] == d.vouchers;
  }

  method AddLines(closing: map<string, int>, ghost openings: seq<Opening>, ghost before: seq<Transaction>,
        xs: seq<Transaction>)
    returns (closing': map<string, int>)
    requires Closes(closing, openings, before)
    ensures Closes(closing', openings, before + xs)
  {
    closing' := closing;
    assert before + [] == before;
    for i := 0 to |xs|
      invariant Closes(closing', openings, before + xs[..i])
    {
      var x := xs[i];
      ghost var last := before + xs[..i];
      assert before + xs[..i + 1] == last + [x];
      forall a ensures SumOf(last + [x], OnAccount(a)) == SumOf(last, OnAccount(a)) + OnAccount(a)(x) {
        SumSnoc(last, x, OnAccount(a));
      }
      closing' := closing'[x.account := (if x.account in closing' then closing'[x.account] else 0) + CentsOf(x.amount)];
    }
    assert xs[..|xs|] == xs;
  }

  lemma ClosingRead(closing: map<string, int>, d: Document, account: string)
    requires Closes(closing, d.openings, AllLines(d.vouchers))
    ensures (if account in closing then closing[account] else 0) == ClosingOf(d, account)
  {
  }

  lemma DeclaredStep(declared: set<string>, balances: seq<Balance>, i: nat)
    requires i < |balances| && forall a :: a in declared <==> Reported(balances[..i], a)
    ensures forall a :: a in declared + {balances[i].account} <==> Reported(balances[..i + 1], a)
  {
    assert balances[..i + 1] == balances[..i] + [balances[i]];
    assert balances[i] in balances[..i + 1];
  }

  method CheckBalance(d: Document, closing: map<string, int>, declared: set<string>, b: Balance,
        ghost before: seq<Balance>)
    returns (errors: seq<Error>)
    requires Closes(closing, d.openings, AllLines(d.vouchers))
    requires b.account in declared <==> Reported(before, b.account)
    ensures errors == BalanceErrorsOf(d, before, b)
  {
    ClosingRead(closing, d, b.account);
    hide ClosingOf, CentsOf, Reported, Closes;
    errors := [];
    if b.account in declared { errors := errors + [DuplicateBalance]; }
    var net := if b.account in closing then closing[b.account] else 0;
    if net != CentsOf(b.amount) { errors := errors + [ClosingDisagrees(b.account)]; }
  }

  lemma BalanceErrorsStep(d: Document, balances: seq<Balance>, i: nat)
    requires i < |balances|
    ensures BalanceErrors(d, balances[..i + 1])
            == BalanceErrors(d, balances[..i]) + BalanceErrorsOf(d, balances[..i], balances[i])
  {
    assert balances[..i + 1][..i] == balances[..i];
    hide BalanceErrorsOf;
  }

  method CheckBalances(d: Document, closing: map<string, int>) returns (errors: seq<Error>)
    requires Closes(closing, d.openings, AllLines(d.vouchers))
    ensures errors == BalanceErrors(d, d.balances)
  {
    var balances := d.balances;
    assert balances[..0] == [] && forall a :: !Reported(balances[..0], a);
    assert BalanceErrors(d, []) == [];
    hide BalanceErrorsOf, BalanceErrors, Reported, Closes, AllLines;
    errors := [];
    var declared: set<string> := {};
    for i := 0 to |balances|
      invariant errors == BalanceErrors(d, balances[..i])
      invariant forall a :: a in declared <==> Reported(balances[..i], a)
    {
      BalanceErrorsStep(d, balances, i);
      var found := CheckBalance(d, closing, declared, balances[i], balances[..i]);
      errors := errors + found;
      DeclaredStep(declared, balances, i);
      declared := declared + {balances[i].account};
    }
    assert balances[..|balances|] == balances;
  }

  method ReadAll(lines: seq<string>) returns (r: Reader)
    ensures r == ReadLines(lines)
  {
    hide ReadLine;
    r := START;
    for i := 0 to |lines|
      invariant r == ReadLines(lines[..i])
    {
      assert lines[..i + 1][..i] == lines[..i];
      r := ReadRecord(r, i + 1, lines[i]);
    }
    assert lines[..|lines|] == lines;
  }

  method ParseSie4(text: string) returns (d: Document)
    ensures d == Parse(text)
  {
    hide ReadLines, SplitLines, WithoutMark, Typed, VouchersErrors, OpeningErrors, BalanceErrors, SumOf, AllLines,
         Closes;
    var r := ReadAll(SplitLines(WithoutMark(text)));
    d := r.doc.(accounts := Typed(r.doc.accounts, r.types));
    var errors := d.errors;
    if !r.typeSeen { errors := errors + [MissingType]; }
    if r.open || r.block { errors := errors + [UnclosedBlock]; }
    var found := CheckVouchers(d);
    errors := errors + found;
    found := CheckOpenings(d.openings);
    errors := errors + found;
    if SumOf(d.openings, OpeningCents()) != 0 { errors := errors + [OpeningUnbalanced]; }
    var closing := ClosingTable(d);
    found := CheckBalances(d, closing);
    d := d.(errors := errors + found);
  }
}
