/**
 * Month-day dates as the season lookup sees them: a `DateFormatter` with
 * format "MM-dd" turns a month-day into a zero-padded five-character string
 * and back, and the lookup compares such strings with Swift's `<=`.
 */
module MonthDays {
  import opened Options
  import opened Decimal

  datatype MonthDay = MonthDay(month: int, day: int)

  /** A date parsed from "MM-dd" alone falls in the formatter's default year
      2000, a leap year, so February has 29 days. */
  function DaysInMonth(month: int): int
    requires 1 <= month <= 12
  {
    if month == 2 then 29
    else if month == 4 || month == 6 || month == 9 || month == 11 then 30
    else 31
  }

  predicate Valid(md: MonthDay) {
    1 <= md.month <= 12 && 1 <= md.day <= DaysInMonth(md.month)
  }

  /** Chronological order of month-days within one year. */
  predicate OnOrBefore(a: MonthDay, b: MonthDay) {
    a.month < b.month || (a.month == b.month && a.day <= b.day)
  }

  /** Zero-padded decimal rendering of a number below 100. */
  function TwoDigits(n: int): (s: string)
    requires 0 <= n <= 99
  {
    [DigitChar(n / 10), DigitChar(n % 10)]
  }

  /** The "MM-dd" rendering of a valid month-day. */
  function Format(md: MonthDay): (s: string)
    requires Valid(md)
    ensures |s| == 5 && s[2] == '-'
    ensures forall i :: 0 <= i < 5 && i != 2 ==> IsDigit(s[i])
  {
    TwoDigits(md.month) + "-" + TwoDigits(md.day)
  }

  /** Reading an "MM-dd" string: `None` stands for the formatter returning nil. */
  function Parse(s: string): (r: Option<MonthDay>)
    ensures r.Some? ==> Valid(r.value)
    ensures r.Some? ==> |s| == 5 && s[2] == '-'
  {
    if |s| == 5 && s[2] == '-' && IsDigit(s[0]) && IsDigit(s[1]) && IsDigit(s[3]) && IsDigit(s[4]) then
      var md := MonthDay(DigitValue(s[0]) * 10 + DigitValue(s[1]), DigitValue(s[3]) * 10 + DigitValue(s[4]));
      if Valid(md) then Some(md) else None
    else
      None
  }

  /** Formatting then parsing gives the month-day back. */
  lemma ParseFormat(md: MonthDay)
    requires Valid(md)
    ensures Parse(Format(md)) == Some(md)
  {
    var s := Format(md);
    assert DigitValue(s[0]) * 10 + DigitValue(s[1]) == md.month;
    assert DigitValue(s[3]) * 10 + DigitValue(s[4]) == md.day;
  }

  /** Parsing then formatting gives the string back: every string that parses
      is already the canonical rendering of its month-day. */
  lemma FormatParse(s: string)
    requires Parse(s).Some?
    ensures Format(Parse(s).value) == s
  {
    var md := Parse(s).value;
    var f := Format(md);
    assert f[0] == s[0] && f[1] == s[1] && f[3] == s[3] && f[4] == s[4];
  }

  /** Lexicographic order on strings by character code, as Swift compares
      strings made of ASCII characters. */
  predicate StrLe(a: string, b: string)
    decreases |a|
  {
    |a| == 0 || (|b| > 0 && (a[0] < b[0] || (a[0] == b[0] && StrLe(a[1..], b[1..]))))
  }

  lemma StrLeCons(c: char, a: string, d: char, b: string)
    ensures StrLe([c] + a, [d] + b) <==> c < d || (c == d && StrLe(a, b))
  {
    assert ([c] + a)[1..] == a;
    assert ([d] + b)[1..] == b;
  }

  /** Two zero-padded numbers followed by any tails compare lexicographically
      exactly as the numbers compare, the tails breaking a tie. */
  lemma TwoDigitsOrder(x: int, a: string, y: int, b: string)
    requires 0 <= x <= 99 && 0 <= y <= 99
    ensures StrLe(TwoDigits(x) + a, TwoDigits(y) + b) <==> x < y || (x == y && StrLe(a, b))
  {
    var ta, tb := [DigitChar(x % 10)] + a, [DigitChar(y % 10)] + b;
    assert TwoDigits(x) + a == [DigitChar(x / 10)] + ta;
    assert TwoDigits(y) + b == [DigitChar(y / 10)] + tb;
    StrLeCons(DigitChar(x / 10), ta, DigitChar(y / 10), tb);
    StrLeCons(DigitChar(x % 10), a, DigitChar(y % 10), b);
  }

  /** Comparing zero-padded "MM-dd" strings is the same as comparing the
      month-days chronologically. */
  lemma FormatOrder(a: MonthDay, b: MonthDay)
    requires Valid(a) && Valid(b)
    ensures StrLe(Format(a), Format(b)) <==> OnOrBefore(a, b)
  {
    var ra, rb := "-" + TwoDigits(a.day), "-" + TwoDigits(b.day);
    assert Format(a) == TwoDigits(a.month) + ra;
    assert Format(b) == TwoDigits(b.month) + rb;
    TwoDigitsOrder(a.month, ra, b.month, rb);
    assert ra == ['-'] + TwoDigits(a.day) && rb == ['-'] + TwoDigits(b.day);
    StrLeCons('-', TwoDigits(a.day), '-', TwoDigits(b.day));
    assert TwoDigits(a.day) == TwoDigits(a.day) + [];
    assert TwoDigits(b.day) == TwoDigits(b.day) + [];
    TwoDigitsOrder(a.day, [], b.day, []);
  }
}
