/** When the SIE reader takes a record, whatever its fields are, and what it adds to the document. */
module RecordLaws {
  import opened Common
  import opened SieParser
  import opened SieText
  import opened SieTokens
  import ImportSteps
  import SieLines

  /** Field `i` of a record, empty when it is missing. */
  function FieldOf(t: seq<string>, i: nat): string { if i < |t| then t[i] else "" }

  predicate NothingFrom(t: seq<string>, i: nat) { forall k :: i <= k < |t| ==> t[k] == "" }

  // ---------------------------------------------------------------- numbers and names

  /** Four to ten digits. */
  predicate AccountDigits(s: string) { 4 <= |s| <= 10 && forall c :: c in s ==> '0' <= c <= '9' }

  /** One to twenty letters, digits and three signs. */
  predicate Identifier(s: string) {
    1 <= |s| <= 20
    && forall c :: c in s ==>
         'a' <= c <= 'z' || 'A' <= c <= 'Z' || '0' <= c <= '9' || c in "åäöÅÄÖ" || c in "_.-"
  }

  /** The decimal text of a number from 1 to 2147483646. */
  ghost predicate VoucherDigits(s: string) { exists n: nat :: 1 <= n < 2147483647 && s == Digits(n) }

  /** Zero, or minus the decimal text of a positive number. */
  ghost predicate YearDigits(s: string) { s == "0" || exists n: nat :: n >= 1 && s == "-" + Digits(n) }

  lemma {:induction false} NoLeadingZero(n: nat)
    requires n >= 1
    ensures Digits(n)[0] != '0'
  {
    if n >= 10 {
      NoLeadingZero(n / 10);
      assert Digits(n)[0] == Digits(n / 10)[0];
    }
  }

  lemma CanonicalDigits(n: nat)
    requires n >= 1
    ensures var s := Digits(n); s != "" && IsDigits(s) && s[0] != '0' && Value(s) == n
    ensures n < 2147483647 ==> |Digits(n)| <= 10
  {
    NoLeadingZero(n);
    ValueOfDigits(n);
    DigitCount(n, 10);
    TenDigits();
    hide Digits, Value, Pow10, IsDigits;
  }

  lemma TenDigits()
    ensures Pow10(10) >= 2147483647
  {
    assert Pow10(2) == 10 * Pow10(1) && Pow10(4) == 10 * Pow10(3) && Pow10(6) == 10 * Pow10(5);
    assert Pow10(8) == 10 * Pow10(7) && Pow10(10) == 10 * Pow10(9);
  }

  lemma VoucherNumberIff(s: string)
    ensures IsVoucherNumber(s) <==> VoucherDigits(s)
  {
    if IsVoucherNumber(s) {
      ImportSteps.NumberIsItsDigits(s);
      ImportSteps.FirstDigitCounts(s);
      hide Value, Digits;
      assert s == Digits(Value(s));
    }
    if n: nat :| 1 <= n < 2147483647 && s == Digits(n) { CanonicalDigits(n); }
  }

  lemma YearIndexIff(s: string)
    ensures IsYearIndex(s) <==> YearDigits(s)
  {
    if IsYearIndex(s) && s != "0" {
      var digits := s[1..];
      ImportSteps.NumberIsItsDigits(digits);
      ImportSteps.FirstDigitCounts(digits);
      hide Value, Digits;
      assert s == "-" + Digits(Value(digits));
    }
    if n: nat :| n >= 1 && s == "-" + Digits(n) {
      CanonicalDigits(n);
      assert s[1..] == Digits(n);
    }
  }

  lemma NamesIff(s: string)
    ensures (IsAccountNumber(s) <==> AccountDigits(s)) && (IsIdentifier(s) <==> Identifier(s))
  {
  }

  // ---------------------------------------------------------------- records

  /** #RAR: index, first and last day in order; each index once. Index 0 is the year of the file, others are noted. */
  lemma YearIsRead(r: Reader, t: seq<string>)
    requires t != [] && t[0] == "#RAR"
    ensures Apply(r, t).Ok? <==>
            && ParseDate(FieldOf(t, 2)).Some? && ParseDate(FieldOf(t, 3)).Some?
            && !Less(ParseDate(FieldOf(t, 3)).value, ParseDate(FieldOf(t, 2)).value) && YearDigits(FieldOf(t, 1))
            && forall y :: y in r.doc.fiscalYears ==> y.index != FieldOf(t, 1)
    ensures Apply(r, t).Ok? ==>
            var span := Span(ParseDate(FieldOf(t, 2)).value, ParseDate(FieldOf(t, 3)).value);
            var d := Apply(r, t).value.doc;
            && Apply(r, t).value == r.(doc := d)
            && d.fiscalYears == r.doc.fiscalYears + [FiscalYear(FieldOf(t, 1), span)]
            && (FieldOf(t, 1) == "0" ==> d == r.doc.(fiscalYears := d.fiscalYears, fiscalYear := Some(span)))
            && (FieldOf(t, 1) != "0" ==>
               d == r.doc.(fiscalYears := d.fiscalYears, warnings := r.doc.warnings + [PreviousYear(FieldOf(t, 1))]))
  {
    assert KindOf("#RAR") == Year;
    YearIndexIff(FieldOf(t, 1));
    hide KindOf, ParseDate, Less, IsYearIndex, YearDigits;
  }

  /** #KONTO: number and name, each number once. */
  lemma AccountIsRead(r: Reader, t: seq<string>)
    requires t != [] && t[0] == "#KONTO"
    ensures Apply(r, t).Ok? <==>
            && AccountDigits(FieldOf(t, 1)) && FieldOf(t, 2) != "" && Units(FieldOf(t, 2)) <= 160
            && forall a :: a in r.doc.accounts ==> a.number != FieldOf(t, 1)
    ensures Apply(r, t).Ok? ==>
            Apply(r, t).value
            == r.(doc := r.doc.(accounts := r.doc.accounts + [Account(FieldOf(t, 1), FieldOf(t, 2), None)]))
  {
    assert KindOf("#KONTO") == AccountName;
    NamesIff(FieldOf(t, 1));
    hide KindOf, IsAccountNumber, AccountDigits, Identifier, IsIdentifier, Units;
  }

  /** #IB, #UB and #RES: an amount of the year of the file, without a quantity. #IB opens, the others are compared. */
  lemma BalanceIsRead(r: Reader, t: seq<string>)
    requires t != [] && (t[0] == "#IB" || t[0] == "#UB" || t[0] == "#RES")
    ensures Apply(r, t).Ok? <==>
            FieldOf(t, 1) == "0" && AccountDigits(FieldOf(t, 2)) && MoneyCents(FieldOf(t, 3)).Some? && |t| <= 4
    ensures Apply(r, t).Ok? ==>
            var amount := CentsMoney(MoneyCents(FieldOf(t, 3)).value);
            Apply(r, t).value
            == if t[0] == "#IB"
               then r.(doc := r.doc.(openings := r.doc.openings + [Opening(FieldOf(t, 2), amount, "0")]))
               else r.(doc := r.doc.(balances := r.doc.balances + [Balance(t[0], FieldOf(t, 2), amount, "0")]))
  {
    assert KindOf("#IB") == BalanceAmount && KindOf("#UB") == BalanceAmount && KindOf("#RES") == BalanceAmount;
    assert IsYearIndex("0");
    NamesIff(FieldOf(t, 2));
    hide KindOf, IsAccountNumber, AccountDigits, Identifier, IsIdentifier, MoneyCents, CentsMoney, IsYearIndex;
  }

  /** #OBJEKT: dimension 1 or 6, identifier and name, each object once. */
  lemma ObjectIsRead(r: Reader, t: seq<string>)
    requires t != [] && t[0] == "#OBJEKT"
    ensures Apply(r, t).Ok? <==>
            && (FieldOf(t, 1) == "1" || FieldOf(t, 1) == "6") && Identifier(FieldOf(t, 2)) && FieldOf(t, 3) != ""
            && Units(FieldOf(t, 3)) <= 160
            && forall o :: o in r.doc.objects ==> o.dimension != FieldOf(t, 1) || o.id != FieldOf(t, 2)
    ensures Apply(r, t).Ok? ==>
            Apply(r, t).value
            == r.(doc := r.doc.(objects := r.doc.objects + [SieObject(FieldOf(t, 1), FieldOf(t, 2), FieldOf(t, 3))]))
  {
    assert KindOf("#OBJEKT") == ObjectName;
    NamesIff(FieldOf(t, 2));
    hide KindOf, IsAccountNumber, AccountDigits, Identifier, IsIdentifier, Units;
  }

  /** #VER: between two vouchers, series, number and date, a text of 500 at most and nothing more; each series and
      number once. It opens a voucher without lines. */
  lemma HeadIsRead(r: Reader, t: seq<string>)
    requires t != [] && t[0] == "#VER"
    ensures Apply(r, t).Ok? <==>
            && !r.open && !r.block && Identifier(FieldOf(t, 1)) && VoucherDigits(FieldOf(t, 2))
            && ParseDate(FieldOf(t, 3)).Some? && Units(FieldOf(t, 4)) <= 500 && NothingFrom(t, 5)
            && forall v :: v in r.doc.vouchers ==> v.series != FieldOf(t, 1) || v.number != FieldOf(t, 2)
    ensures Apply(r, t).Ok? ==>
            Apply(r, t).value
            == r.(open := true,
                  doc := r.doc.(vouchers := r.doc.vouchers + [Voucher(ParseDate(FieldOf(t, 3)).value, FieldOf(t, 2),
                                                                      FieldOf(t, 1), FieldOf(t, 4), [])]))
  {
    assert KindOf("#VER") == VoucherHead;
    NamesIff(FieldOf(t, 1));
    VoucherNumberIff(FieldOf(t, 2));
    hide KindOf, IsAccountNumber, AccountDigits, Identifier, IsIdentifier, IsVoucherNumber, VoucherDigits, ParseDate,
         Units;
  }

  /** #KTYP: one of four letters; the last one given for an account counts. */
  lemma TypeIsRead(r: Reader, t: seq<string>)
    requires t != [] && t[0] == "#KTYP"
    ensures Apply(r, t).Ok? <==>
            && AccountDigits(FieldOf(t, 1))
            && (FieldOf(t, 2) == "T" || FieldOf(t, 2) == "S" || FieldOf(t, 2) == "I" || FieldOf(t, 2) == "K")
    ensures Apply(r, t).Ok? ==>
            Apply(r, t).value.doc == r.doc && FieldOf(t, 1) in Apply(r, t).value.types
            && Apply(r, t).value.types - {FieldOf(t, 1)} == r.types - {FieldOf(t, 1)}
            && (FieldOf(t, 2) == "T" ==> Apply(r, t).value.types[FieldOf(t, 1)] == Asset)
            && (FieldOf(t, 2) == "S" ==> Apply(r, t).value.types[FieldOf(t, 1)] == Debt)
            && (FieldOf(t, 2) == "I" ==> Apply(r, t).value.types[FieldOf(t, 1)] == Income)
            && (FieldOf(t, 2) == "K" ==> Apply(r, t).value.types[FieldOf(t, 1)] == Cost)
  {
    assert KindOf("#KTYP") == AccountKind;
    NamesIff(FieldOf(t, 1));
    hide KindOf, IsAccountNumber, AccountDigits, Identifier, IsIdentifier;
  }

  /** File type, character set and currency are fixed, and braces stand alone around the lines of a voucher. */
  lemma FixedAreRead(r: Reader, t: seq<string>)
    requires t != []
    ensures t[0] == "#SIETYP" ==> Apply(r, t) == if |t| > 1 && t[1] == "4" then Ok(r) else Err(WrongType)
    ensures t[0] == "#FORMAT" ==> Apply(r, t) == if |t| > 1 && t[1] == "PC8" then Ok(r) else Err(WrongFormat)
    ensures t[0] == "#VALUTA" ==> Apply(r, t) == if |t| > 1 && t[1] == "SEK" then Ok(r) else Err(Unsupported("#VALUTA"))
    ensures t[0] == "{" ==>
            Apply(r, t) == if r.open && !r.block && |t| == 1 then Ok(r.(block := true)) else Err(UnexpectedBlock)
    ensures t[0] == "}" ==>
            Apply(r, t)
            == if r.open && r.block && |t| == 1 then Ok(r.(open := false, block := false)) else Err(UnexpectedEnd)
  {
    assert KindOf("#SIETYP") == TypeOfFile && KindOf("#FORMAT") == Format && KindOf("#VALUTA") == Currency;
    assert KindOf("{") == OpenBrace && KindOf("}") == CloseBrace;
    hide KindOf;
  }

  /** What an organization record leaves of the organization. */
  function OrganizationWith(r: Reader, name: Option<string>, number: Option<string>): Reader {
    r.(doc := r.doc.(organization := Some(Organization(name, number))))
  }

  function Warned(r: Reader, w: Warning): Reader { r.(doc := r.doc.(warnings := r.doc.warnings + [w])) }

  /** Number and name of the organization are noted apart, the last of each counts; dimensions other than 1 and 6 are
      taken with a warning. */
  lemma InfoIsRead(r: Reader, t: seq<string>)
    requires t != []
    ensures var field := if 1 < |t| then Some(t[1]) else None;
            var had := r.doc.organization;
            && (t[0] == "#ORGNR" ==>
               Apply(r, t) == Ok(OrganizationWith(r, if had.Some? then had.value.name else None, field)))
            && (t[0] == "#FNAMN" ==>
               Apply(r, t) == Ok(OrganizationWith(r, field, if had.Some? then had.value.number else None)))
            && (t[0] == "#DIM" ==>
               Apply(r, t) == if field == Some("1") || field == Some("6") then Ok(r)
                              else Ok(Warned(r, UnusedDimension(field))))
  {
    assert KindOf("#ORGNR") == OrgNumber && KindOf("#FNAMN") == OrgName && KindOf("#DIM") == Dimension;
    hide KindOf;
  }

  /** Records that describe are taken with a warning, but for three, taken in silence. */
  lemma DescriptionIsRead(r: Reader, t: seq<string>)
    requires t != []
    ensures t[0] == "#FLAGGA" || t[0] == "#PROGRAM" || t[0] == "#GEN" ==> Apply(r, t) == Ok(r)
    ensures t[0] in ["#PROSA", "#ADRESS", "#FNR", "#BKOD", "#FTYP", "#KPTYP", "#TAXAR", "#SRU"] ==>
            Apply(r, t) == Ok(Warned(r, NotPersisted(t[0])))
  {
    assert KindOf("#FLAGGA") == Silent && KindOf("#PROGRAM") == Silent && KindOf("#GEN") == Silent;
    if t[0] in ["#PROSA", "#ADRESS", "#FNR", "#BKOD", "#FTYP", "#KPTYP", "#TAXAR", "#SRU"] { Describes(t[0]); }
    hide KindOf;
  }

  lemma Describes(tag: string)
    requires tag in ["#PROSA", "#ADRESS", "#FNR", "#BKOD", "#FTYP", "#KPTYP", "#TAXAR", "#SRU"]
    ensures KindOf(tag) == Descriptive
  {
    hide KindOf;
    if tag in ["#PROSA", "#ADRESS", "#FNR", "#BKOD"] { DescribesText(tag); } else { DescribesForm(tag); }
  }

  lemma DescribesText(tag: string)
    requires tag in ["#PROSA", "#ADRESS", "#FNR", "#BKOD"]
    ensures KindOf(tag) == Descriptive
  {
    assert tag == "#PROSA" || tag == "#ADRESS" || tag == "#FNR" || tag == "#BKOD";
  }

  lemma DescribesForm(tag: string)
    requires tag in ["#FTYP", "#KPTYP", "#TAXAR", "#SRU"]
    ensures KindOf(tag) == Descriptive
  {
    assert tag == "#FTYP" || tag == "#KPTYP" || tag == "#TAXAR" || tag == "#SRU";
  }

  // ---------------------------------------------------------------- voucher lines

  /** The tokens of an object list between its braces. */
  function Pairs(refs: seq<ObjectRef>): seq<string> {
    if |refs| == 0 then [] else Pairs(refs[..|refs| - 1]) + [refs[|refs| - 1].dimension, refs[|refs| - 1].id]
  }

  /** A #TRANS record: account, object list, and what follows the closing brace. */
  function LineTokens(account: string, refs: seq<ObjectRef>, rest: seq<string>): seq<string> {
    ["#TRANS", account, "{"] + Pairs(refs) + ["}"] + rest
  }

  predicate GoodRefs(refs: seq<ObjectRef>) {
    && (forall o :: o in refs ==> (o.dimension == "1" || o.dimension == "6") && Identifier(o.id))
    && forall i, j :: 0 <= i < j < |refs| ==> refs[i].dimension != refs[j].dimension
  }

  lemma {:induction false} PairsAre(refs: seq<ObjectRef>)
    ensures |Pairs(refs)| == 2 * |refs|
    ensures forall k :: 0 <= k < |refs| ==>
              Pairs(refs)[2 * k] == refs[k].dimension && Pairs(refs)[2 * k + 1] == refs[k].id
  {
    if |refs| > 0 {
      var n := |refs| - 1;
      PairsAre(refs[..n]);
      forall k | 0 <= k < |refs|
        ensures Pairs(refs)[2 * k] == refs[k].dimension && Pairs(refs)[2 * k + 1] == refs[k].id
      {
        if k < n { assert refs[..n][k] == refs[k]; }
      }
    }
  }

  /** No token before the closing brace of the list closes it. */
  predicate Plain(refs: seq<ObjectRef>) { forall o :: o in refs ==> o.dimension != "}" && o.id != "}" }

  lemma {:induction false} FirstAt(t: seq<string>, x: string, k: nat)
    requires k < |t| && t[k] == x && forall i :: 0 <= i < k ==> t[i] != x
    ensures FirstIndex(t, x) == Some(k)
    decreases k
  {
    if k > 0 { FirstAt(t[1..], x, k - 1); }
  }

  lemma ClosesAt(account: string, refs: seq<ObjectRef>, rest: seq<string>)
    requires account != "}" && Plain(refs)
    ensures Closing(LineTokens(account, refs, rest)) == 3 + 2 * |refs|
  {
    PairsAre(refs);
    var t, n := LineTokens(account, refs, rest), |refs|;
    forall i | 0 <= i < 3 + 2 * n ensures t[i] != "}" {
      if i >= 3 {
        var k := (i - 3) / 2;
        assert refs[k] in refs && t[i] == Pairs(refs)[i - 3];
        assert i - 3 == 2 * k || i - 3 == 2 * k + 1;
      }
    }
    FirstAt(t, "}", 3 + 2 * n);
  }

  lemma GoodSnoc(front: seq<ObjectRef>, o: ObjectRef)
    ensures GoodRefs(front + [o]) <==>
            && GoodRefs(front) && (o.dimension == "1" || o.dimension == "6") && Identifier(o.id)
            && forall p :: p in front ==> p.dimension != o.dimension
  {
    hide Identifier;
    var all := front + [o];
    if GoodRefs(all) {
      assert all[|front|] == o && o in all;
      forall p | p in front ensures p in all && p.dimension != o.dimension {
        var i :| 0 <= i < |front| && front[i] == p;
        assert all[i] == p;
      }
      forall i, j | 0 <= i < j < |front| ensures front[i].dimension != front[j].dimension {
        assert all[i] == front[i] && all[j] == front[j];
      }
    } else if GoodRefs(front) && (o.dimension == "1" || o.dimension == "6") && Identifier(o.id)
              && forall p :: p in front ==> p.dimension != o.dimension {
      forall i, j | 0 <= i < j < |all| ensures all[i].dimension != all[j].dimension {
        if j == |front| { assert all[i] in front; }
      }
      assert forall p :: p in all ==> p in front || p == o;
    }
  }

  lemma {:induction false} ListIsRead(t: seq<string>, refs: seq<ObjectRef>)
    requires 3 + 2 * |refs| <= |t|
    requires forall k :: 0 <= k < |refs| ==> t[3 + 2 * k] == refs[k].dimension && t[4 + 2 * k] == refs[k].id
    ensures ObjectsUpTo(t, 3 + 2 * |refs|) == if GoodRefs(refs) then Some(refs) else None
    decreases |refs|
  {
    hide IsAccountNumber, AccountDigits, Identifier, IsIdentifier, GoodRefs;
    if |refs| > 0 {
      var n := |refs| - 1;
      var front, o := refs[..n], refs[n];
      ListIsRead(t, front);
      GoodSnoc(front, o);
      NamesIff(o.id);
      assert refs == front + [o];
    } else {
      NoRefsGood();
      assert refs == [];
    }
  }

  lemma NoRefsGood()
    ensures GoodRefs([])
  {
  }

  /** #TRANS: in an open voucher, an account, a list of objects of different dimensions, then amount, day, if given, and
      a text of 500 at most, and nothing more. It adds a line to the voucher. */
  lemma LineIsRead(r: Reader, account: string, refs: seq<ObjectRef>, rest: seq<string>)
    requires account != "}" && Plain(refs)
    ensures var t := LineTokens(account, refs, rest);
            Apply(r, t).Ok? <==>
            && r.open && r.block && r.doc.vouchers != [] && AccountDigits(account) && GoodRefs(refs)
            && MoneyCents(FieldOf(rest, 0)).Some?
            && (FieldOf(rest, 1) != "" ==> ParseDate(FieldOf(rest, 1)).Some?)
            && Units(FieldOf(rest, 2)) <= 500 && NothingFrom(rest, 3)
    ensures var t := LineTokens(account, refs, rest);
            Apply(r, t).Ok? ==>
            && r.doc.vouchers != []
            && var n := |r.doc.vouchers| - 1;
               var x := Transaction(account, CentsMoney(MoneyCents(FieldOf(rest, 0)).value),
                          if FieldOf(rest, 1) == "" then None else ParseDate(FieldOf(rest, 1)),
                          if 2 < |rest| then Some(rest[2]) else None, refs);
               Apply(r, t).value
               == r.(doc := r.doc.(vouchers := r.doc.vouchers[n := r.doc.vouchers[n].(transactions :=
                    r.doc.vouchers[n].transactions + [x])]))
  {
    var t, close := LineTokens(account, refs, rest), 3 + 2 * |refs|;
    hide *;
    NamesIff(account);
    LineParts(account, refs, rest);
    ClosesAt(account, refs, rest);
    ListIsRead(t, refs);
    RestIsRead(t, close, refs, rest);
    TakenLine(r, t, close, refs);
  }

  lemma LineParts(account: string, refs: seq<ObjectRef>, rest: seq<string>)
    ensures var t := LineTokens(account, refs, rest);
            && |t| == 4 + 2 * |refs| + |rest| && t[0] == "#TRANS" && t[1] == account && t[2] == "{"
            && (forall k :: 0 <= k < |refs| ==> t[3 + 2 * k] == refs[k].dimension && t[4 + 2 * k] == refs[k].id)
            && forall k :: 0 <= k < |rest| ==> t[4 + 2 * |refs| + k] == rest[k]
  {
    PairsAre(refs);
    var t := LineTokens(account, refs, rest);
    forall k | 0 <= k < |refs| ensures t[3 + 2 * k] == refs[k].dimension && t[4 + 2 * k] == refs[k].id {
      assert t[3 + 2 * k] == Pairs(refs)[2 * k] && t[4 + 2 * k] == Pairs(refs)[2 * k + 1];
    }
    hide Pairs;
  }

  lemma RestIsRead(t: seq<string>, close: nat, refs: seq<ObjectRef>, rest: seq<string>)
    requires |t| == close + 1 + |rest| && close >= 1 && forall k :: 0 <= k < |rest| ==> t[close + 1 + k] == rest[k]
    ensures TransactionRest(t, close, refs).Ok? <==>
            && MoneyCents(FieldOf(rest, 0)).Some?
            && (FieldOf(rest, 1) != "" ==> ParseDate(FieldOf(rest, 1)).Some?)
            && Units(FieldOf(rest, 2)) <= 500 && NothingFrom(rest, 3)
    ensures TransactionRest(t, close, refs).Ok? ==>
            MoneyCents(FieldOf(rest, 0)).Some?
            && TransactionRest(t, close, refs).value
               == Transaction(t[1], CentsMoney(MoneyCents(FieldOf(rest, 0)).value),
                    if FieldOf(rest, 1) == "" then None else ParseDate(FieldOf(rest, 1)),
                    if 2 < |rest| then Some(rest[2]) else None, refs)
  {
    RestOf(t, close, rest);
    hide MoneyCents, CentsMoney, ParseDate, Units, AllEmptyFrom, NothingFrom;
  }

  lemma LineRecord(r: Reader, t: seq<string>)
    requires t != [] && t[0] == "#TRANS"
    ensures Apply(r, t) == TransactionRecord(r, t)
  {
    assert KindOf("#TRANS") == VoucherLine;
    hide KindOf, TransactionRecord;
  }

  /** The list of a #TRANS record, read between its braces. */
  lemma ListOfLine(r: Reader, t: seq<string>, close: nat, refs: seq<ObjectRef>)
    requires |t| > close && close == 3 + 2 * |refs| && t[2] == "{" && Closing(t) == close
    requires ObjectsUpTo(t, close) == if GoodRefs(refs) then Some(refs) else None
    ensures TransactionRecord(r, t).Ok? <==>
            r.open && r.block && r.doc.vouchers != [] && IsAccountNumber(t[1]) && GoodRefs(refs)
            && TransactionRest(t, close, refs).Ok?
    ensures TransactionRecord(r, t).Ok? ==>
            r.doc.vouchers != [] && TransactionRest(t, close, refs).Ok?
            && TransactionRecord(r, t).value == WithDoc(r, AddTransaction(r.doc, TransactionRest(t, close, refs).value))
  {
    hide IsAccountNumber, Closing, ObjectsUpTo, GoodRefs, TransactionRest, WithDoc, AddTransaction;
  }

  lemma TakenLine(r: Reader, t: seq<string>, close: nat, refs: seq<ObjectRef>)
    requires |t| > close && close == 3 + 2 * |refs| && t[0] == "#TRANS" && t[2] == "{" && Closing(t) == close
    requires ObjectsUpTo(t, close) == if GoodRefs(refs) then Some(refs) else None
    ensures Apply(r, t).Ok? <==>
            r.open && r.block && r.doc.vouchers != [] && IsAccountNumber(t[1]) && GoodRefs(refs)
            && TransactionRest(t, close, refs).Ok?
    ensures Apply(r, t).Ok? ==>
            && r.doc.vouchers != [] && TransactionRest(t, close, refs).Ok?
            && var n := |r.doc.vouchers| - 1;
               Apply(r, t).value
               == r.(doc := r.doc.(vouchers := r.doc.vouchers[n := r.doc.vouchers[n].(transactions :=
                    r.doc.vouchers[n].transactions + [TransactionRest(t, close, refs).value])]))
  {
    LineRecord(r, t);
    ListOfLine(r, t, close, refs);
    hide Apply, TransactionRecord, IsAccountNumber, Closing, ObjectsUpTo, GoodRefs, TransactionRest;
  }

  lemma RestOf(t: seq<string>, close: nat, rest: seq<string>)
    requires |t| == close + 1 + |rest| && forall k :: 0 <= k < |rest| ==> t[close + 1 + k] == rest[k]
    ensures At(t, close + 1) == FieldOf(rest, 0) && At(t, close + 2) == FieldOf(rest, 1)
    ensures At(t, close + 3) == FieldOf(rest, 2) && Maybe(t, close + 3) == (if 2 < |rest| then Some(rest[2]) else None)
    ensures AllEmptyFrom(t, close + 4) <==> NothingFrom(rest, 3)
  {
    if NothingFrom(rest, 3) {
      forall k | close + 4 <= k < |t| ensures t[k] == "" { assert t[k] == rest[k - close - 1]; }
    }
    if AllEmptyFrom(t, close + 4) {
      forall k | 3 <= k < |rest| ensures rest[k] == "" { assert t[close + 1 + k] == rest[k]; }
    }
  }

  // ---------------------------------------------------------------- line ends and mark

  /** Every line followed by a line feed alone. */
  function FedLines(lines: seq<string>): string { if |lines| == 0 then "" else lines[0] + "\n" + FedLines(lines[1..]) }

  lemma NoBreakIn(line: string)
    requires SieLines.Clean(line)
    ensures '\n' !in line && SieLines.WithoutReturn(line) == line
  {
    if line != "" { assert line[|line| - 1] in line; }
  }

  lemma FirstFed(line: string, rest: string)
    requires SieLines.Clean(line)
    ensures SieLines.SplitLines(line + "\n" + rest) == [line] + SieLines.SplitLines(rest)
  {
    var text := line + "\n" + rest;
    NoBreakIn(line);
    SieLines.FirstFeed(line, rest);
    hide SieLines.Clean, IndexOf;
    assert text[..|line|] == line && text[|line| + 1..] == rest;
  }

  lemma {:induction false} SplitFed(lines: seq<string>)
    requires forall l :: l in lines ==> SieLines.Clean(l)
    ensures SieLines.SplitLines(FedLines(lines)) == lines + [""]
  {
    hide SieLines.Clean, IndexOf;
    if |lines| > 0 {
      SplitFed(lines[1..]);
      FirstFed(lines[0], FedLines(lines[1..]));
      hide SieLines.SplitLines;
      assert lines + [""] == [lines[0]] + (lines[1..] + [""]);
    }
  }

  /** A byte order mark before the text and the choice of line ends do not matter. */
  lemma MarkAndReturnsIgnored(lines: seq<string>)
    requires forall l :: l in lines ==> SieLines.Clean(l)
    requires lines != [] && (lines[0] == "" || lines[0][0] as int != 0xFEFF)
    ensures Parse(FedLines(lines)) == Parse(SieLines.Joined(lines))
    ensures Parse([0xFEFF as char] + SieLines.Joined(lines)) == Parse(SieLines.Joined(lines))
  {
    hide Finish, ReadLines, SieLines.SplitLines, SieLines.Clean;
    SplitFed(lines);
    SieLines.SplitJoined(lines);
    assert FedLines(lines) == lines[0] + "\n" + FedLines(lines[1..]);
    assert SieLines.Joined(lines) == lines[0] + "\r\n" + SieLines.Joined(lines[1..]);
    assert ([0xFEFF as char] + SieLines.Joined(lines))[1..] == SieLines.Joined(lines);
  }
}
