// Calendar dates and their YYYY-MM-DD text, as the log files carry them.

module Dates {
  import opened Optional

  // Years that take four digits.
  datatype Date = Date(year: nat, month: nat, day: nat)

  predicate Leap(y: nat) {
    y % 4 == 0 && (y % 100 != 0 || y % 400 == 0)
  }

  function MonthDays(y: nat, m: nat): nat {
    if m == 2 then (if Leap(y) then 29 else 28)
    else if m == 4 || m == 6 || m == 9 || m == 11 then 30 else 31
  }

  predicate IsDate(d: Date) {
    d.year <= 9999 && 1 <= d.month <= 12 && 1 <= d.day <= MonthDays(d.year, d.month)
  }

  function DaysBeforeYear(y: nat): nat {
    if y == 0 then 0 else DaysBeforeYear(y - 1) + if Leap(y - 1) then 366 else 365
  }

  function DaysBeforeMonth(y: nat, m: nat): nat {
    if m <= 1 then 0 else DaysBeforeMonth(y, m - 1) + MonthDays(y, m - 1)
  }

  // Days since 0000-01-01.
  function DayNumber(d: Date): int {
    DaysBeforeYear(d.year) + DaysBeforeMonth(d.year, d.month) + d.day - 1
  }

  function Tomorrow(d: Date): Date {
    if d.day < MonthDays(d.year, d.month) then d.(day := d.day + 1)
    else if d.month < 12 then Date(d.year, d.month + 1, 1)
    else Date(d.year + 1, 1, 1)
  }

  lemma {:induction false} MonthsAdd(y: nat, m: nat)
    requires m >= 1
    ensures DaysBeforeMonth(y, m + 3)
         == DaysBeforeMonth(y, m) + MonthDays(y, m) + MonthDays(y, m + 1) + MonthDays(y, m + 2)
  {
    assert DaysBeforeMonth(y, m + 1) == DaysBeforeMonth(y, m) + MonthDays(y, m);
    assert DaysBeforeMonth(y, m + 2) == DaysBeforeMonth(y, m + 1) + MonthDays(y, m + 1);
    assert DaysBeforeMonth(y, m + 3) == DaysBeforeMonth(y, m + 2) + MonthDays(y, m + 2);
  }

  lemma {:induction false} WholeYear(y: nat)
    ensures DaysBeforeMonth(y, 12) + 31 == if Leap(y) then 366 else 365
  {
    MonthsAdd(y, 1);
    MonthsAdd(y, 4);
    MonthsAdd(y, 7);
    assert DaysBeforeMonth(y, 12) == DaysBeforeMonth(y, 11) + MonthDays(y, 11);
    assert DaysBeforeMonth(y, 11) == DaysBeforeMonth(y, 10) + MonthDays(y, 10);
  }

  // Each day's number is one more than the day before's.
  lemma {:induction false} TomorrowCounts(d: Date)
    requires IsDate(d)
    ensures DayNumber(Tomorrow(d)) == DayNumber(d) + 1
  {
    if d.month == 12 {
      WholeYear(d.year);
    }
  }

  // The Gregorian calendar in closed form: a leap year every four years, but not
  // every hundred, but every four hundred.
  lemma {:induction false} YearsInClosedForm(y: nat)
    ensures DaysBeforeYear(y) == 365 * y + (y + 3) / 4 - (y + 99) / 100 + (y + 399) / 400
  {
    if y > 0 {
      YearsInClosedForm(y - 1);
      FourthYear(y - 1);
      HundredthYear(y - 1);
      FourHundredthYear(y - 1);
    }
  }

  lemma {:induction false} FourthYear(y: nat)
    ensures (y + 1 + 3) / 4 == (y + 3) / 4 + if y % 4 == 0 then 1 else 0
  {
    var q, r := y / 4, y % 4;
    assert y == 4 * q + r;
    assert y + 4 == 4 * (q + 1) + r;
    if r == 0 { assert y + 3 == 4 * q + 3; } else { assert y + 3 == 4 * (q + 1) + (r - 1); }
  }

  lemma {:induction false} HundredthYear(y: nat)
    ensures (y + 1 + 99) / 100 == (y + 99) / 100 + if y % 100 == 0 then 1 else 0
    ensures y % 100 == 0 ==> y % 4 == 0
  {
    var q, r := y / 100, y % 100;
    assert y == 100 * q + r;
    assert y + 100 == 100 * (q + 1) + r;
    if r == 0 { assert y + 99 == 100 * q + 99; } else { assert y + 99 == 100 * (q + 1) + (r - 1); }
    if r == 0 { assert y == 4 * (25 * q); }
  }

  lemma {:induction false} FourHundredthYear(y: nat)
    ensures (y + 1 + 399) / 400 == (y + 399) / 400 + if y % 400 == 0 then 1 else 0
    ensures y % 400 == 0 ==> y % 100 == 0
  {
    var q, r := y / 400, y % 400;
    assert y == 400 * q + r;
    assert y + 400 == 400 * (q + 1) + r;
    if r == 0 { assert y + 399 == 400 * q + 399; } else { assert y + 399 == 400 * (q + 1) + (r - 1); }
    if r == 0 { assert y == 100 * (4 * q); }
  }

  // Months of 31 and 30 days alternate in fives from March on.
  lemma {:induction false} MonthsInClosedForm(y: nat, m: nat)
    requires 1 <= m <= 12
    ensures DaysBeforeMonth(y, m) ==
      if m <= 2 then 31 * (m - 1)
      else 59 + (if y % 4 == 0 && (y % 100 != 0 || y % 400 == 0) then 1 else 0) + (153 * (m - 3) + 2) / 5
  {
    if m > 1 { MonthsInClosedForm(y, m - 1); }
  }

  // The days of a month are those up to the next one.
  lemma {:induction false} MonthEnds(y: nat, m: nat)
    requires 1 <= m <= 12
    ensures DaysBeforeMonth(y, m) + MonthDays(y, m)
         == if m < 12 then DaysBeforeMonth(y, m + 1) else DaysBeforeYear(y + 1) - DaysBeforeYear(y)
  {
    if m == 12 { WholeYear(y); }
  }

  // ---- Text ----

  function Digit(n: nat): char
    requires n < 10
  {
    '0' + n as char
  }

  predicate IsDigit(c: char) {
    '0' <= c <= '9'
  }

  function Digits(n: nat, width: nat): string {
    if width == 0 then "" else Digits(n / 10, width - 1) + [Digit(n % 10)]
  }

  function Number(s: string): Option<nat> {
    if s == "" then Some(0) else
    var n := |s| - 1;
    if !IsDigit(s[n]) then None else
    match Number(s[..n])
    case None => None
    case Some(v) => Some(10 * v + (s[n] - '0') as nat)
  }

  function Pow10(n: nat): nat {
    if n == 0 then 1 else 10 * Pow10(n - 1)
  }

  function Format(d: Date): string {
    Digits(d.year, 4) + "-" + Digits(d.month, 2) + "-" + Digits(d.day, 2)
  }

  // Exactly ten characters, a month of the year and a day of that month.
  function Parse(s: string): Option<Date> {
    if |s| != 10 || s[4] != '-' || s[7] != '-' then None else
    match (Number(s[..4]), Number(s[5..7]), Number(s[8..]))
    case (Some(y), Some(m), Some(d)) => if IsDate(Date(y, m, d)) then Some(Date(y, m, d)) else None
    case _ => None
  }

  lemma {:induction false} NumberOfDigits(n: nat, width: nat)
    requires n < Pow10(width)
    ensures |Digits(n, width)| == width && Number(Digits(n, width)) == Some(n)
  {
    if width > 0 {
      NumberOfDigits(n / 10, width - 1);
      var s := Digits(n, width);
      assert s[..width - 1] == Digits(n / 10, width - 1);
    }
  }

  lemma {:induction false} LastDigit(v: nat, c: char)
    requires IsDigit(c)
    ensures var n := 10 * v + (c - '0') as nat; n / 10 == v && Digit(n % 10) == c
  {
  }

  lemma {:induction false} DigitsOfNumber(s: string)
    requires Number(s).Some?
    ensures Number(s).value < Pow10(|s|) && Digits(Number(s).value, |s|) == s
  {
    if s != "" {
      var n := |s| - 1;
      DigitsOfNumber(s[..n]);
      LastDigit(Number(s[..n]).value, s[n]);
      assert s == s[..n] + [s[n]];
    }
  }

  lemma {:induction false} Powers()
    ensures Pow10(2) == 100 && Pow10(4) == 10000
  {
    assert Pow10(1) == 10 * Pow10(0);
    assert Pow10(3) == 10 * Pow10(2);
  }

  // Four digits of the year, two of the month and two of the day.
  lemma {:induction false} FormatOf(a: nat, b: nat, c: nat, d: nat, e: nat, f: nat, g: nat, h: nat)
    requires a < 10 && b < 10 && c < 10 && d < 10 && e < 10 && f < 10 && g < 10 && h < 10
    ensures Format(Date(1000 * a + 100 * b + 10 * c + d, 10 * e + f, 10 * g + h))
         == [Digit(a), Digit(b), Digit(c), Digit(d), '-', Digit(e), Digit(f), '-', Digit(g), Digit(h)]
  {
    LastDigitOff(100 * a + 10 * b + c, d, 3);
    LastDigitOff(10 * a + b, c, 2);
    LastDigitOff(a, b, 1);
    LastDigitOff(0, a, 0);
    LastDigitOff(e, f, 1);
    LastDigitOff(0, e, 0);
    LastDigitOff(g, h, 1);
    LastDigitOff(0, g, 0);
  }

  lemma {:induction false} LastDigitOff(n: nat, d: nat, width: nat)
    requires d < 10
    ensures Digits(10 * n + d, width + 1) == Digits(n, width) + [Digit(d)]
  {
  }

  // Reading back what was written.
  lemma {:induction false} ParseFormat(d: Date)
    requires IsDate(d)
    ensures |Format(d)| == 10 && Parse(Format(d)) == Some(d)
  {
    Powers();
    NumberOfDigits(d.year, 4);
    NumberOfDigits(d.month, 2);
    NumberOfDigits(d.day, 2);
    var s := Format(d);
    assert s[..4] == Digits(d.year, 4);
    assert s[5..7] == Digits(d.month, 2);
    assert s[8..] == Digits(d.day, 2);
  }

  // Only one text is read as a given date.
  lemma {:induction false} FormatParse(s: string)
    requires Parse(s).Some?
    ensures IsDate(Parse(s).value) && Format(Parse(s).value) == s
  {
    DigitsOfNumber(s[..4]);
    DigitsOfNumber(s[5..7]);
    DigitsOfNumber(s[8..]);
    assert s == s[..4] + [s[4]] + s[5..7] + [s[7]] + s[8..];
  }
}
