/** JavaScript values as the web client handles them: truthiness, the
    text String(v) gives, and parseInt. */
module Js {
  import opened Text

  /** A JavaScript value.  The numbers the client handles (amounts, ids,
      months, years) carry at most two decimals, so a number is held in
      hundredths: 12.5 is Num(1250) and the month 3 is Num(300). */
  datatype JsValue = Undefined | Null | Str(s: string) | Num(hundredths: int)

  /** An integer as a JavaScript number. */
  function Int(n: int): JsValue {
    Num(100 * n)
  }

  predicate Truthy(v: JsValue) {
    match v
    case Undefined => false
    case Null => false
    case Str(s) => s != ""
    case Num(h) => h != 0
  }

  /** The decimals of a number of hundredths below 100, without trailing
      zeros: "", ".5" or ".25". */
  function Decimals(frac: nat): (s: string)
    requires frac < 100
    ensures frac == 0 <==> s == ""
  {
    if frac == 0 then "" else "." + FractionDigits(frac)
  }

  /** The digits after the point of a non-zero fraction: one digit when
      the second would be a trailing zero, two otherwise. */
  function FractionDigits(frac: nat): (ds: string)
    requires 0 < frac < 100
    ensures Fraction(ds) && FractionValue(ds) == frac && '.' !in ds
  {
    if frac % 10 == 0 then
      var d := DigitChar(frac / 10);
      assert [d][..0] == [];
      assert DigitsValue([d]) * 10 == frac;
      assert [d][0] == d && d != '.';
      [d]
    else
      var ds := TwoDigits(frac);
      assert IsDigit(ds[0]) && IsDigit(ds[1]);
      ds
  }

  /** String(x) for a number x given in hundredths: the shortest decimal
      text, with a leading '-' below zero. */
  function NumberText(h: int): (s: string)
    ensures |s| > 0
    ensures forall i :: 0 <= i < |s| ==> IsDigit(s[i]) || s[i] == '-' || s[i] == '.'
  {
    var m: nat := if h < 0 then -h else h;
    (if h < 0 then "-" else "") + NatToString(m / 100) + Decimals(m % 100)
  }

  /** String(v) */
  function JsString(v: JsValue): string {
    match v
    case Undefined => "undefined"
    case Null => "null"
    case Str(s) => s
    case Num(h) => NumberText(h)
  }

  /** Reading a number's text back: an optional '-', whole digits, then
      optionally '.' and one or two digits; the value in hundredths. */
  function ReadNumber(s: string): (r: Option<int>) {
    if |s| > 0 && s[0] == '-' then
      match ReadUnsigned(s[1..])
      case Some(m) => if m == 0 then None else Some(0 - m)
      case None => None
    else ReadUnsigned(s)
  }

  predicate Numeral(w: string) {
    |w| > 0 && AllDigits(w)
  }

  predicate Fraction(ds: string) {
    1 <= |ds| <= 2 && AllDigits(ds)
  }

  /** The hundredths a fraction's digits stand for: ".5" is 50. */
  function FractionValue(ds: string): nat
    requires Fraction(ds)
  {
    if |ds| == 1 then DigitsValue(ds) * 10 else DigitsValue(ds)
  }

  function ReadUnsigned(s: string): (r: Option<nat>) {
    ReadPieces(Split(s, '.'))
  }

  /** The text split at its dots: one whole numeral, or a whole numeral
      and a fraction. */
  function ReadPieces(parts: seq<string>): Option<nat> {
    if |parts| == 1 && Numeral(parts[0]) then Some(DigitsValue(parts[0]) * 100)
    else if |parts| == 2 && Numeral(parts[0]) && Fraction(parts[1]) then
      Some(DigitsValue(parts[0]) * 100 + FractionValue(parts[1]))
    else None
  }

  lemma NumeralDotFree(w: string)
    requires Numeral(w)
    ensures '.' !in w
  {
    forall i | 0 <= i < |w| ensures w[i] != '.' {
      assert IsDigit(w[i]);
    }
  }

  lemma ReadWhole(w: string)
    requires Numeral(w)
    ensures ReadUnsigned(w) == Some(DigitsValue(w) * 100)
  {
    NumeralDotFree(w);
    SplitNoSeparator(w, '.');
  }

  /** Whole digits, a dot and a fraction's digits. */
  lemma ReadFraction(w: string, ds: string)
    requires Numeral(w) && Fraction(ds) && '.' !in ds
    ensures ReadUnsigned(w + ("." + ds)) == Some(DigitsValue(w) * 100 + FractionValue(ds))
  {
    NumeralDotFree(w);
    SplitAfterPiece(w, '.', ds);
    SplitNoSeparator(ds, '.');
    assert w + ("." + ds) == w + ['.'] + ds;
    assert Split(w + ("." + ds), '.') == [w, ds];
  }

  /** Whole digits followed by the decimals of a fraction read back as
      the whole number and the fraction, in hundredths. */
  lemma ReadUnsignedParts(w: string, frac: nat)
    requires Numeral(w) && frac < 100
    ensures ReadUnsigned(w + Decimals(frac)) == Some(DigitsValue(w) * 100 + frac)
  {
    if frac == 0 {
      assert w + Decimals(frac) == w;
      ReadWhole(w);
    } else {
      ReadDecimals(w, frac);
    }
  }

  lemma ReadDecimals(w: string, frac: nat)
    requires Numeral(w) && 0 < frac < 100
    ensures ReadUnsigned(w + Decimals(frac)) == Some(DigitsValue(w) * 100 + frac)
  {
    var ds := FractionDigits(frac);
    assert Decimals(frac) == "." + ds;
    ReadFraction(w, ds);
  }

  lemma ReadUnsignedText(m: nat)
    ensures ReadUnsigned(NatToString(m / 100) + Decimals(m % 100)) == Some(m)
  {
    var q, frac := m / 100, m % 100;
    var w := NatToString(q);
    DigitsValueOfNatToString(q);
    ReadUnsignedParts(w, frac);
    assert DigitsValue(w) * 100 + frac == q * 100 + frac == m;
  }

  /** Every number's text reads back as that number. */
  lemma ReadNumberText(h: int)
    ensures ReadNumber(NumberText(h)) == Some(h)
  {
    var m: nat := if h < 0 then -h else h;
    var u := NatToString(m / 100) + Decimals(m % 100);
    ReadUnsignedText(m);
    if h < 0 {
      assert NumberText(h)[1..] == u;
    } else {
      assert NumberText(h) == u;
      assert u[0] != '-' by { assert IsDigit(u[0]); }
    }
  }

  /** A whole number prints as the integer does. */
  lemma WholeNumberText(n: int)
    ensures NumberText(100 * n) == IntToString(n)
  {
    var m: nat := if n < 0 then -n else n;
    assert (if 100 * n < 0 then -(100 * n) else 100 * n) == 100 * m;
    assert (100 * m) / 100 == m && (100 * m) % 100 == 0;
  }

  /** The ASCII white space parseInt skips: space, tab, line feed,
      vertical tab, form feed and carriage return. */
  predicate IsSpace(c: char) {
    c == ' ' || c == '\t' || c == '\n' || c == '\U{000B}' || c == '\U{000C}' || c == '\r'
  }

  /** The digits at the start of s. */
  function LeadingDigits(s: string): (d: string)
    ensures AllDigits(d) && |d| <= |s| && d == s[..|d|]
    ensures |d| < |s| ==> !IsDigit(s[|d|])
  {
    if s == [] || !IsDigit(s[0]) then []
    else
      var rest := LeadingDigits(s[1..]);
      assert s[1..][..|rest|] == s[1..|rest| + 1];
      [s[0]] + rest
  }

  /** parseInt(s) with no radix, for decimal text: leading white space is
      skipped, a sign is read, then as many digits as follow; None is
      NaN, when no digit follows. */
  function ParseIntPrefix(s: string): (r: Option<int>)
    decreases |s|
  {
    if |s| > 0 && IsSpace(s[0]) then ParseIntPrefix(s[1..])
    else
      var negative := |s| > 0 && s[0] == '-';
      var body := if |s| > 0 && (s[0] == '-' || s[0] == '+') then s[1..] else s;
      var digits := LeadingDigits(body);
      if digits == [] then None
      else if negative then Some(0 - DigitsValue(digits) as int)
      else Some(DigitsValue(digits))
  }

  /** parseInt reads back every integer's decimal text. */
  lemma ParseIntPrefixOfInt(n: int)
    ensures ParseIntPrefix(IntToString(n)) == Some(n)
  {
    var m: nat := if n < 0 then -n else n;
    var digits := NatToString(m);
    DigitsValueOfNatToString(m);
    if n < 0 {
      var s := IntToString(n);
      assert s == "-" + digits && s[1..] == digits;
      ParseNegativeDigits(s);
    } else {
      ParseDigits(digits);
    }
  }

  lemma ParseDigits(digits: string)
    requires |digits| > 0 && AllDigits(digits)
    ensures ParseIntPrefix(digits) == Some(DigitsValue(digits))
  {
    assert IsDigit(digits[0]);
    assert !IsSpace(digits[0]) && digits[0] != '-' && digits[0] != '+';
    AllDigitsLead(digits);
  }

  lemma ParseNegativeDigits(s: string)
    requires |s| > 1 && s[0] == '-' && AllDigits(s[1..])
    ensures ParseIntPrefix(s) == Some(0 - DigitsValue(s[1..]) as int)
  {
    assert !IsSpace(s[0]);
    AllDigitsLead(s[1..]);
  }

  lemma {:induction false} AllDigitsLead(s: string)
    requires AllDigits(s)
    ensures LeadingDigits(s) == s
  {
    if s != [] {
      AllDigitsLead(s[1..]);
    }
  }
}
