/** Characters, amounts and dates of the SIE text format: code page 437, decimal amounts, ISO and compact dates. */
module SieText {
  import opened Common
  import Calendar

  // ---------------------------------------------------------------- code page 437

  type Byte = b: int | 0 <= b < 256

  const ROW_128 := "ÇüéâäàåçêëèïîìÄÅÉæÆôöòûùÿÖÜ¢£¥₧ƒ"
  const ROW_160 := "áíóúñÑªº¿⌐¬½¼¡«»░▒▓│┤╡╢╖╕╣║╗╝╜╛┐"
  const ROW_192 := "└┴┬├─┼╞╟╚╔╩╦╠═╬╧╨╤╥╙╘╒╓╫╪┘┌█▄▌▐▀"
  const ROW_224 := "αßΓπΣσµτΦΘΩδ∞φε∩≡±≥≤⌠⌡÷≈°∙·√ⁿ²■\U{00A0}"

  /** Characters of the bytes 128 to 255; the last one is the no-break space. */
  function High(): (s: string)
    ensures |s| == 128
  {
    ROW_128 + ROW_160 + ROW_192 + ROW_224
  }

  function DecodeByte(b: Byte): char { if b < 128 then b as char else High()[b - 128] }

  function Decode(bytes: seq<Byte>): (text: string)
    ensures |text| == |bytes|
  {
    if |bytes| == 0 then "" else Decode(bytes[..|bytes| - 1]) + [DecodeByte(bytes[|bytes| - 1])]
  }

  /** First position of a character, or None. */
  function IndexOf(s: string, c: char): (r: Option<nat>)
    ensures r.Some? ==> r.value < |s| && s[r.value] == c && c !in s[..r.value]
    ensures r.None? ==> c !in s
  {
    if |s| == 0 then None
    else if s[0] == c then Some(0)
    else
      var r := IndexOf(s[1..], c);
      if r.Some? then Some(r.value + 1) else None
  }

  function EncodeChar(c: char): (r: Option<Byte>)
    ensures r.Some? ==> DecodeByte(r.value) == c
  {
    if c as int < 128 then Some(c as int)
    else
      var i := IndexOf(High(), c);
      if i.Some? then Some(i.value + 128) else None
  }

  /** None stands for the error raised on a character outside the code page. */
  function Encode(text: string): Option<seq<Byte>> {
    if |text| == 0 then Some([])
    else
      var front := Encode(text[..|text| - 1]);
      var last := EncodeChar(text[|text| - 1]);
      if front.Some? && last.Some? then Some(front.value + [last.value]) else None
  }

  /** Whatever could be encoded is decoded to the same text. */
  lemma {:induction false} DecodeUndoesEncode(text: string)
    requires Encode(text).Some?
    ensures Decode(Encode(text).value) == text
  {
    if |text| > 0 {
      DecodeUndoesEncode(text[..|text| - 1]);
      var bytes := Encode(text).value;
      assert bytes[..|bytes| - 1] == Encode(text[..|text| - 1]).value;
    }
  }

  // ---------------------------------------------------------------- decimal numbers

  predicate IsDigit(c: char) { '0' <= c <= '9' }

  predicate IsDigits(s: string) { forall c :: c in s ==> IsDigit(c) }

  function DigitChar(d: nat): (c: char)
    requires d < 10
    ensures IsDigit(c)
  {
    ('0' as int + d) as char
  }

  function DigitValue(c: char): nat { if IsDigit(c) then c as int - '0' as int else 0 }

  /** Decimal digits without leading zeros. */
  function Digits(n: nat): (s: string)
    ensures s != "" && IsDigits(s)
  {
    if n < 10 then [DigitChar(n)] else Digits(n / 10) + [DigitChar(n % 10)]
  }

  function Value(s: string): nat {
    if |s| == 0 then 0 else 10 * Value(s[..|s| - 1]) + DigitValue(s[|s| - 1])
  }

  function Pow10(k: nat): (p: nat)
    ensures p >= 1
  {
    if k == 0 then 1 else 10 * Pow10(k - 1)
  }

  lemma {:induction false} ValueOfDigits(n: nat)
    ensures Value(Digits(n)) == n
  {
    if n >= 10 {
      ValueOfDigits(n / 10);
      assert Digits(n)[..|Digits(n)| - 1] == Digits(n / 10);
    } else {
      assert Digits(n)[..0] == "";
    }
  }

  /** A number has at most k digits when it is below ten to the k, and only then. */
  lemma {:induction false} DigitCount(n: nat, k: nat)
    requires k > 0
    ensures |Digits(n)| <= k <==> n < Pow10(k)
  {
    if k == 1 {
      assert Pow10(1) == 10 * Pow10(0);
    } else if n >= 10 {
      DigitCount(n / 10, k - 1);
    } else {
      assert Pow10(k) == 10 * Pow10(k - 1);
    }
  }

  lemma {:induction false} ValueBound(s: string)
    ensures Value(s) < Pow10(|s|)
  {
    if |s| > 0 { ValueBound(s[..|s| - 1]); }
  }

  // ---------------------------------------------------------------- amounts

  function Unsigned(s: string): string { if s != "" && (s[0] == '+' || s[0] == '-') then s[1..] else s }

  function Padded(fraction: string): string
  {
    if |fraction| == 0 then "00" else if |fraction| == 1 then fraction + "0" else fraction
  }

  /** The text before the first dot, and the text after it. */
  function Parts(u: string): (string, Option<string>) {
    var dot := IndexOf(u, '.');
    if dot.Some? then (u[..dot.value], Some(u[dot.value + 1..])) else (u, None)
  }

  predicate GoodParts(parts: (string, Option<string>)) {
    && 1 <= |parts.0| <= 16 && IsDigits(parts.0)
    && (parts.1.Some? ==> 1 <= |parts.1.value| <= 2 && IsDigits(parts.1.value))
  }

  function Cents(parts: (string, Option<string>)): nat {
    Value(parts.0) * 100 + Value(Padded(if parts.1.Some? then parts.1.value else ""))
  }

  /** An amount with at most 16 whole digits and two decimals, in öre; None stands for the format error. */
  function MoneyCents(s: string): Option<int> {
    var parts := Parts(Unsigned(s));
    var n: int := Cents(parts);
    if !GoodParts(parts) then None else Some(if s != "" && s[0] == '-' then -n else n)
  }

  function Whole(n: nat): (s: string)
    ensures s != "" && IsDigits(s)
  {
    Digits(n / 100)
  }

  function Fraction(n: nat): (s: string)
    ensures |s| == 2 && IsDigits(s)
  {
    [DigitChar(n % 100 / 10), DigitChar(n % 100 % 10)]
  }

  function CentsMoney(v: int): string { (if v < 0 then "-" else "") + Whole(Abs(v)) + "." + Fraction(Abs(v)) }

  lemma {:induction false} FirstDot(whole: string, rest: string)
    requires '.' !in whole
    ensures IndexOf(whole + "." + rest, '.') == Some(|whole|)
  {
    var s := whole + "." + rest;
    if |whole| > 0 {
      assert s[1..] == whole[1..] + "." + rest;
      FirstDot(whole[1..], rest);
    }
  }

  lemma DigitValueOfChar(d: nat)
    requires d < 10
    ensures DigitValue(DigitChar(d)) == d
  {
  }

  lemma TwoDigits(n: nat)
    requires n < 100
    ensures Value([DigitChar(n / 10), DigitChar(n % 10)]) == n
  {
    var s := [DigitChar(n / 10), DigitChar(n % 10)];
    DigitValueOfChar(n / 10);
    DigitValueOfChar(n % 10);
    hide DigitValue, DigitChar;
    assert s[..1] == [s[0]] && [s[0]][..0] == "";
    assert Value([s[0]]) == DigitValue(s[0]);
    assert Value(s) == 10 * Value(s[..1]) + DigitValue(s[1]);
  }

  lemma PartsOf(whole: string, fraction: string)
    requires whole != "" && IsDigits(whole)
    ensures Parts(whole + "." + fraction) == (whole, Some(fraction))
  {
    var u := whole + "." + fraction;
    FirstDot(whole, fraction);
    assert u[..|whole|] == whole && u[|whole| + 1..] == fraction;
  }

  lemma SignOf(minus: bool, u: string)
    requires u != "" && IsDigit(u[0])
    ensures var s := (if minus then "-" else "") + u;
            s != "" && Unsigned(s) == u && (s[0] == '-' <==> minus)
  {
  }

  lemma MoneyOfParts(s: string, whole: string, fraction: string)
    requires s != "" && Parts(Unsigned(s)) == (whole, Some(fraction))
    requires whole != "" && IsDigits(whole) && |fraction| == 2 && IsDigits(fraction)
    ensures var n: int := Value(whole) * 100 + Value(fraction);
            MoneyCents(s) == if |whole| <= 16 then Some(if s[0] == '-' then -n else n) else None
  {
    hide Parts, Unsigned, Value, IsDigits;
    GoodPartsOf(whole, fraction);
    hide GoodParts, Cents;
  }

  lemma GoodPartsOf(whole: string, fraction: string)
    requires whole != "" && IsDigits(whole) && |fraction| == 2 && IsDigits(fraction)
    ensures GoodParts((whole, Some(fraction))) <==> |whole| <= 16
    ensures Cents((whole, Some(fraction))) == Value(whole) * 100 + Value(fraction)
  {
    hide Value;
  }

  /** The parts a printed amount is made of. */
  lemma PartsOfCents(v: int)
    ensures CentsMoney(v) != "" && (CentsMoney(v)[0] == '-' <==> v < 0)
    ensures Parts(Unsigned(CentsMoney(v))) == (Whole(Abs(v)), Some(Fraction(Abs(v))))
  {
    hide Whole, Fraction, Unsigned, Parts;
    var whole, fraction := Whole(Abs(v)), Fraction(Abs(v));
    SignOf(v < 0, whole + "." + fraction);
    PartsOf(whole, fraction);
    assert CentsMoney(v) == (if v < 0 then "-" else "") + (whole + "." + fraction);
  }

  /** Reading a printed amount gives it back exactly when it fits: otherwise it is refused, never changed. */
  lemma MoneyRoundTrip(v: int)
    ensures MoneyCents(CentsMoney(v)) == if Abs(v) < Pow10(18) then Some(v) else None
  {
    hide Whole, Fraction, Parts, Unsigned, Value, Pow10, CentsMoney, MoneyCents, IsDigits;
    var n: nat := Abs(v);
    PartsOfCents(v);
    PartsValue(n);
    MoneyOfParts(CentsMoney(v), Whole(n), Fraction(n));
  }

  lemma PartsValue(n: nat)
    ensures Value(Whole(n)) * 100 + Value(Fraction(n)) == n
    ensures |Whole(n)| <= 16 <==> n < Pow10(18)
  {
    ValueOfDigits(n / 100);
    TwoDigits(n % 100);
    DigitCount(n / 100, 16);
    CentsBound(n);
    hide Digits, DigitChar, Value;
  }

  lemma CentsBound(n: nat)
    ensures n / 100 < Pow10(16) <==> n < Pow10(18)
  {
    assert Pow10(18) == 100 * Pow10(16) by { assert Pow10(18) == 10 * Pow10(17); }
    hide Pow10;
  }

  /** Every amount that can be read is below ten to the 18 öre, so printing it is the canonical form of the text. */
  lemma {:induction false} MoneyIsBounded(s: string)
    requires MoneyCents(s).Some?
    ensures Abs(MoneyCents(s).value) < Pow10(18)
    ensures MoneyCents(CentsMoney(MoneyCents(s).value)) == MoneyCents(s)
  {
    var parts := Parts(Unsigned(s));
    MoneyRoundTrip(MoneyCents(s).value);
    ReadBound(parts.0, Padded(if parts.1.Some? then parts.1.value else ""));
    hide Parts, Unsigned, Value, Pow10, CentsMoney, Padded;
  }

  lemma ReadBound(whole: string, fraction: string)
    requires |whole| <= 16 && |fraction| == 2
    ensures Value(whole) * 100 + Value(fraction) < Pow10(18)
  {
    ValueBound(whole);
    ValueBound(fraction);
    PowGrows(|whole|, 16);
    assert Pow10(2) == 100 by { assert Pow10(2) == 10 * Pow10(1) && Pow10(1) == 10 * Pow10(0); }
    assert Pow10(18) == 100 * Pow10(16) by { assert Pow10(18) == 10 * Pow10(17); }
    hide Pow10, Value;
  }

  lemma {:induction false} PowGrows(j: nat, k: nat)
    requires j <= k
    ensures Pow10(j) <= Pow10(k)
  {
    if j < k { PowGrows(j, k - 1); }
  }

  // ---------------------------------------------------------------- dates

  function DateOf(digits: string): Calendar.Date
    requires |digits| == 8
  {
    Calendar.Date(Value(digits[..4]), Value(digits[4..6]), Value(digits[6..]))
  }

  function Iso(digits: string): string
    requires |digits| == 8
  {
    digits[..4] + "-" + digits[4..6] + "-" + digits[6..]
  }

  /** Eight digits naming a real day become an ISO date. */
  function ParseDate(s: string): Option<string> {
    if |s| == 8 && IsDigits(s) && Calendar.Valid(DateOf(s)) then Some(Iso(s)) else None
  }

  function WithoutDashes(s: string): (r: string)
    ensures forall c :: c in r <==> c in s && c != '-'
  {
    if |s| == 0 then ""
    else
      var r := WithoutDashes(s[..|s| - 1]);
      if s[|s| - 1] == '-' then r else r + [s[|s| - 1]]
  }

  /** The compact form of a date; None stands for the error. */
  function SieDate(s: string): Option<string> {
    if ParseDate(WithoutDashes(s)).Some? then Some(WithoutDashes(s)) else None
  }

  /** The date a printed date is read back as. */
  function CanonicalDate(s: string): string
    requires SieDate(s).Some?
  {
    Iso(WithoutDashes(s))
  }

  lemma {:induction false} DashesAppend(a: string, b: string)
    ensures WithoutDashes(a + b) == WithoutDashes(a) + WithoutDashes(b)
  {
    if |b| == 0 { assert a + b == a; }
    else {
      assert (a + b)[..|a + b| - 1] == a + b[..|b| - 1];
      DashesAppend(a, b[..|b| - 1]);
    }
  }

  lemma {:induction false} NoDashes(s: string)
    requires '-' !in s
    ensures WithoutDashes(s) == s
  {
    if |s| > 0 { NoDashes(s[..|s| - 1]); }
  }

  /** An ISO date survives the trip through its compact form. */
  lemma IsoRoundTrip(digits: string)
    requires ParseDate(digits).Some?
    ensures SieDate(Iso(digits)) == Some(digits)
    ensures CanonicalDate(Iso(digits)) == Iso(digits)
  {
    var y, m, d := digits[..4], digits[4..6], digits[6..];
    assert Iso(digits) == y + "-" + m + "-" + d;
    DashesAppend(y + "-" + m + "-", d);
    DashesAppend(y + "-" + m, "-");
    DashesAppend(y + "-", m);
    DashesAppend(y, "-");
    assert WithoutDashes("-") == "" by { assert "-"[..0] == ""; }
    assert '-' !in digits;
    NoDashes(y); NoDashes(m); NoDashes(d);
    assert y + m + d == digits;
  }

  /** UTF-16 order of texts. */
  predicate Less(a: string, b: string) {
    if |b| == 0 then false
    else if |a| == 0 then true
    else if a[0] != b[0] then a[0] < b[0] else Less(a[1..], b[1..])
  }

  lemma {:induction false} LessAppend(a: string, b: string, c: string, d: string)
    requires |a| == |b|
    ensures Less(a + c, b + d) <==> Less(a, b) || (a == b && Less(c, d))
  {
    if |a| == 0 {
      assert a + c == c && b + d == d;
    } else {
      assert (a + c)[1..] == a[1..] + c && (b + d)[1..] == b[1..] + d;
      LessAppend(a[1..], b[1..], c, d);
      assert a == b <==> a[0] == b[0] && a[1..] == b[1..] by { assert a == [a[0]] + a[1..] && b == [b[0]] + b[1..]; }
    }
  }

  lemma LessOne(c: char, d: char)
    ensures Less([c], [d]) <==> c < d
  {
    assert [c][1..] == "" && [d][1..] == "";
  }

  /** On digit texts of equal length the text order is the numeric order. */
  lemma {:induction false} LessIsSmaller(a: string, b: string)
    requires |a| == |b| && IsDigits(a) && IsDigits(b)
    ensures Less(a, b) <==> Value(a) < Value(b)
    ensures Value(a) == Value(b) ==> a == b
  {
    if |a| > 0 {
      var n := |a| - 1;
      LessIsSmaller(a[..n], b[..n]);
      LessAppend(a[..n], b[..n], [a[n]], [b[n]]);
      LessOne(a[n], b[n]);
      assert a == a[..n] + [a[n]] && b == b[..n] + [b[n]];
      assert IsDigit(a[n]) && IsDigit(b[n]);
    }
  }

  lemma LessStep(a: string, b: string, c: string, d: string)
    requires |a| == |b| && IsDigits(a) && IsDigits(b)
    ensures Less(a + "-" + c, b + "-" + d) <==> Value(a) < Value(b) || (Value(a) == Value(b) && Less(c, d))
  {
    LessIsSmaller(a, b);
    LessAppend(a + "-", b + "-", c, d);
    LessAppend(a, b, "-", "-");
    LessOne('-', '-');
    assert a + "-" == b + "-" <==> a == b by { assert (a + "-")[..|a|] == a && (b + "-")[..|b|] == b; }
  }

  /** Comparing ISO date texts is comparing the days they name. */
  lemma IsoOrder(a: string, b: string)
    requires ParseDate(a).Some? && ParseDate(b).Some?
    ensures Less(Iso(a), Iso(b)) <==> Calendar.DayNumber(DateOf(a)) < Calendar.DayNumber(DateOf(b))
  {
    Calendar.BeforeIsDayOrder(DateOf(a), DateOf(b));
    assert Iso(a) == a[..4] + "-" + (a[4..6] + "-" + a[6..]) && Iso(b) == b[..4] + "-" + (b[4..6] + "-" + b[6..]);
    assert IsDigits(a[..4]) && IsDigits(b[..4]) && IsDigits(a[4..6]) && IsDigits(b[4..6]) && IsDigits(a[6..])
      && IsDigits(b[6..]);
    hide IsDigits, Less, Value, Calendar.DayNumber, Calendar.Valid;
    LessStep(a[..4], b[..4], a[4..6] + "-" + a[6..], b[4..6] + "-" + b[6..]);
    LessStep(a[4..6], b[4..6], a[6..], b[6..]);
    LessIsSmaller(a[6..], b[6..]);
  }
}
