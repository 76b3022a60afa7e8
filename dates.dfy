/** Calendar dates as the server stores them (a date column with no time
    part) and their canonical "YYYY-MM-DD" text form, which the server
    accepts with strptime and produces with strftime. */
module Dates {
  import opened Text

  datatype Date = Date(year: int, month: int, day: int)

  predicate IsLeapYear(y: int) {
    y % 4 == 0 && (y % 100 != 0 || y % 400 == 0)
  }

  function DaysInMonth(y: int, m: int): (n: int)
    requires 1 <= m <= 12
    ensures 28 <= n <= 31
    ensures m == 2 ==> (n == 29 <==> IsLeapYear(y))
  {
    if m == 2 then (if IsLeapYear(y) then 29 else 28)
    else if m == 4 || m == 6 || m == 9 || m == 11 then 30
    else 31
  }

  /** The dates Python's datetime can hold (years 1 to 9999). */
  predicate IsValid(d: Date) {
    1 <= d.year <= 9999 && 1 <= d.month <= 12 && 1 <= d.day <= DaysInMonth(d.year, d.month)
  }

  /** a is on or before b in calendar order. */
  predicate NotAfter(a: Date, b: Date) {
    a.year < b.year
    || (a.year == b.year && a.month < b.month)
    || (a.year == b.year && a.month == b.month && a.day <= b.day)
  }

  lemma NotAfterTotal(a: Date, b: Date)
    ensures NotAfter(a, b) || NotAfter(b, a)
    ensures NotAfter(a, b) && NotAfter(b, a) ==> a == b
  {
  }

  lemma NotAfterTransitive(a: Date, b: Date, c: Date)
    requires NotAfter(a, b) && NotAfter(b, c)
    ensures NotAfter(a, c)
  {
  }

  lemma FourDigitYear(y: nat)
    requires 1000 <= y <= 9999
    ensures |NatToString(y)| == 4
  {
    var a, b, c := y / 10, y / 10 / 10, y / 10 / 10 / 10;
    assert |NatToString(c)| == 1;
    assert |NatToString(b)| == |NatToString(c)| + 1;
    assert |NatToString(a)| == |NatToString(b)| + 1;
    assert |NatToString(y)| == |NatToString(a)| + 1;
  }

  /** strftime("%Y-%m-%d") for a year of four digits. */
  function Format(d: Date): (s: string)
    requires IsValid(d)
    ensures ',' !in s && '\n' !in s
  {
    NatToString(d.year) + "-" + TwoDigits(d.month) + "-" + TwoDigits(d.day)
  }

  /** strptime(s, "%Y-%m-%d") on canonical text: four digits, two digits,
      two digits, separated by '-', naming a real calendar date.  None
      stands for the ValueError raised otherwise. */
  function Parse(s: string): (r: Option<Date>)
    ensures r.Some? ==> IsValid(r.value) && |s| == 10
  {
    if |s| == 10 && s[4] == '-' && s[7] == '-'
       && AllDigits(s[..4]) && AllDigits(s[5..7]) && AllDigits(s[8..])
    then
      var d := Date(DigitsValue(s[..4]), DigitsValue(s[5..7]), DigitsValue(s[8..]));
      if IsValid(d) then Some(d) else None
    else None
  }

  /** What the server writes out it reads back unchanged. */
  lemma ParseFormat(d: Date)
    requires IsValid(d) && d.year >= 1000
    ensures Parse(Format(d)) == Some(d)
  {
    var y, m, dd := NatToString(d.year), TwoDigits(d.month), TwoDigits(d.day);
    FourDigitYear(d.year);
    DigitsValueOfNatToString(d.year);
    var s := Format(d);
    assert s[..4] == y;
    assert s[5..7] == m;
    assert s[8..] == dd;
  }
}
