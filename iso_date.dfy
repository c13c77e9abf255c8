/**
 * ISO 8601 calendar-date strings as the screens exchange them: `YYYY-MM-DD` dates and
 * `YYYY-MM` months (the values of `<input type="date">` and `<input type="month">`).
 */
module IsoDate {
  import JsNumbers

  predicate IsDigitAt(s: string, i: nat) {
    i < |s| && JsNumbers.IsDigit(s[i])
  }

  function DigitAt(s: string, i: nat): (d: nat)
    requires IsDigitAt(s, i)
    ensures d < 10
  {
    JsNumbers.DigitValue(s[i])
  }

  /** `YYYY-MM` or `YYYY-MM-DD` layout, digits and dashes in place (values not checked). */
  predicate HasMonthLayout(s: string) {
    |s| >= 7 && IsDigitAt(s, 0) && IsDigitAt(s, 1) && IsDigitAt(s, 2) && IsDigitAt(s, 3)
    && s[4] == '-' && IsDigitAt(s, 5) && IsDigitAt(s, 6)
  }

  predicate HasDateLayout(s: string) {
    |s| == 10 && HasMonthLayout(s) && s[7] == '-' && IsDigitAt(s, 8) && IsDigitAt(s, 9)
  }

  function Year(s: string): nat
    requires HasMonthLayout(s)
  {
    DigitAt(s, 0) * 1000 + DigitAt(s, 1) * 100 + DigitAt(s, 2) * 10 + DigitAt(s, 3)
  }

  function Month(s: string): nat
    requires HasMonthLayout(s)
  {
    DigitAt(s, 5) * 10 + DigitAt(s, 6)
  }

  function Day(s: string): nat
    requires HasDateLayout(s)
  {
    DigitAt(s, 8) * 10 + DigitAt(s, 9)
  }

  predicate IsLeapYear(y: nat) {
    (y % 4 == 0 && y % 100 != 0) || y % 400 == 0
  }

  function DaysInMonth(y: nat, m: nat): nat
    requires 1 <= m <= 12
  {
    if m == 2 then (if IsLeapYear(y) then 29 else 28)
    else if m == 4 || m == 6 || m == 9 || m == 11 then 30
    else 31
  }

  /** A `YYYY-MM` month. */
  predicate IsIsoMonth(s: string) {
    |s| == 7 && HasMonthLayout(s) && 1 <= Month(s) <= 12
  }

  /** A `YYYY-MM-DD` string naming a day of the calendar. */
  predicate IsIsoDate(s: string) {
    HasDateLayout(s) && 1 <= Month(s) <= 12 && 1 <= Day(s) <= DaysInMonth(Year(s), Month(s))
  }

  /** A date's position on the calendar: later dates have larger keys. */
  function DateKey(s: string): nat
    requires HasDateLayout(s)
  {
    Year(s) * 10000 + Month(s) * 100 + Day(s)
  }

  /**
   * `new Date(a) > new Date(b)` for date-only strings: both parse to midnight UTC of their
   * day, so the later day compares greater. Only well-formed calendar dates are compared;
   * any other string is taken as `NaN`, with which every comparison is false.
   */
  predicate After(a: string, b: string) {
    IsIsoDate(a) && IsIsoDate(b) && DateKey(a) > DateKey(b)
  }

  /** Two dates with equal keys are the same string. */
  lemma DateKeyInjective(a: string, b: string)
    requires IsIsoDate(a) && IsIsoDate(b) && DateKey(a) == DateKey(b)
    ensures a == b
  {
    Place100(Year(a) * 100 + Month(a), Day(a), Year(b) * 100 + Month(b), Day(b));
    Place100(Year(a), Month(a), Year(b), Month(b));
    Place10(DigitAt(a, 8), DigitAt(a, 9), DigitAt(b, 8), DigitAt(b, 9));
    Place10(DigitAt(a, 5), DigitAt(a, 6), DigitAt(b, 5), DigitAt(b, 6));
    var ha, hb := DigitAt(a, 0) * 100 + DigitAt(a, 1) * 10 + DigitAt(a, 2), DigitAt(b, 0) * 100 + DigitAt(b, 1) * 10 + DigitAt(b, 2);
    Place10(ha, DigitAt(a, 3), hb, DigitAt(b, 3));
    Place10(DigitAt(a, 0) * 10 + DigitAt(a, 1), DigitAt(a, 2), DigitAt(b, 0) * 10 + DigitAt(b, 1), DigitAt(b, 2));
    Place10(DigitAt(a, 0), DigitAt(a, 1), DigitAt(b, 0), DigitAt(b, 1));
    forall i | 0 <= i < 10 ensures a[i] == b[i] {
      SameDigit(a, b, i);
    }
  }

  /** Equal values with last places below 10 have equal places. */
  lemma Place10(h1: nat, l1: nat, h2: nat, l2: nat)
    requires l1 < 10 && l2 < 10 && h1 * 10 + l1 == h2 * 10 + l2
    ensures h1 == h2 && l1 == l2
  {
  }

  /** Equal values with last places below 100 have equal places. */
  lemma Place100(h1: nat, l1: nat, h2: nat, l2: nat)
    requires l1 < 100 && l2 < 100 && h1 * 100 + l1 == h2 * 100 + l2
    ensures h1 == h2 && l1 == l2
  {
  }

  /** Equal digit values at a digit position of two dates mean equal characters. */
  lemma SameDigit(a: string, b: string, i: nat)
    requires HasDateLayout(a) && HasDateLayout(b) && i < 10
    requires i != 4 && i != 7 ==> DigitAt(a, i) == DigitAt(b, i)
    ensures a[i] == b[i]
  {
  }

  /** `After` is a strict order on calendar dates: irreflexive, asymmetric, total on distinct dates. */
  lemma AfterIsStrictTotalOrder(a: string, b: string)
    requires IsIsoDate(a) && IsIsoDate(b)
    ensures !After(a, a)
    ensures After(a, b) ==> !After(b, a)
    ensures a != b ==> After(a, b) || After(b, a)
  {
    if a != b && DateKey(a) == DateKey(b) {
      DateKeyInjective(a, b);
    }
  }

  /** The first day of a `YYYY-MM` month. */
  function FirstOfMonth(m: string): string {
    m + "-01"
  }

  /** Appending `-01` to a month always gives a calendar date. */
  lemma FirstOfMonthIsDate(m: string)
    requires IsIsoMonth(m)
    ensures IsIsoDate(FirstOfMonth(m))
    ensures FirstOfMonth(m)[..7] == m
  {
    var d := FirstOfMonth(m);
    assert d[..7] == m;
    assert DigitAt(d, 8) == 0 && DigitAt(d, 9) == 1;
  }
}
