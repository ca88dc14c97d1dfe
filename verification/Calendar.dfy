/** The proleptic Gregorian calendar on integer day numbers: day 1 is 1 January of year 1. */
module Calendar {

  predicate IsLeap(y: int) {
    y % 4 == 0 && (y % 100 != 0 || y % 400 == 0)
  }

  function YearStart(y: int): int {
    365 * (y - 1) + (y - 1) / 4 - (y - 1) / 100 + (y - 1) / 400 + 1
  }

  /** A quotient grows by one exactly at the multiples. */
  lemma QuotientStep(y: int, n: int)
    requires n > 1
    ensures y / n - (y - 1) / n == if y % n == 0 then 1 else 0
  {
    var q, r := y / n, y % n;
    assert y == q * n + r;
    if r == 0 {
      QuotientIs(y - 1, n, q - 1, n - 1);
    } else {
      QuotientIs(y - 1, n, q, r - 1);
    }
  }

  lemma QuotientIs(x: int, n: int, q: int, r: int)
    requires n > 0 && x == q * n + r && 0 <= r < n
    ensures x / n == q
  {
    var d := x / n - q;
    assert d * n == r - x % n by {
      assert x == (x / n) * n + x % n;
      assert (x / n) * n - q * n == d * n;
    }
    MultipleGrows(d, n);
  }

  lemma MultipleGrows(d: int, n: int)
    requires n > 0
    ensures d >= 1 ==> d * n >= n
    ensures d <= -1 ==> d * n <= -n
  {
  }

  lemma YearLength(y: int)
    ensures YearStart(y + 1) - YearStart(y) == if y % 4 == 0 && (y % 100 != 0 || y % 400 == 0) then 366 else 365
  {
    QuotientStep(y, 4);
    QuotientStep(y, 100);
    QuotientStep(y, 400);
  }

  /** Days before the month within its year; `m` counts from 1. */
  function DaysBefore(m: int, leap: bool): int
    requires 1 <= m <= 13
  {
    (match m
     case 1 => 0 case 2 => 31 case 3 => 59 case 4 => 90 case 5 => 120 case 6 => 151 case 7 => 181
     case 8 => 212 case 9 => 243 case 10 => 273 case 11 => 304 case 12 => 334 case _ => 365) +
    (if leap && m > 2 then 1 else 0)
  }

  /** A calendar month as one number, so that the month after `k` is `k + 1`. */
  type Month = int

  function MonthIn(y: int, m: int): Month {
    12 * y + m - 1
  }

  function YearOf(k: Month): int {
    k / 12
  }

  function MonthNumber(k: Month): int {
    k % 12 + 1
  }

  lemma MonthParts(k: Month)
    ensures MonthIn(YearOf(k), MonthNumber(k)) == k && 1 <= MonthNumber(k) <= 12
  {
  }

  lemma NextMonthIn(y: int, m: int)
    ensures MonthIn(y, m + 1) == MonthIn(y, m) + 1
    ensures m == 12 ==> MonthIn(y + 1, 1) == MonthIn(y, m) + 1
  {
  }

  /** The first day of month `k`. */
  function MonthStart(k: Month): int {
    YearStart(k / 12) + DaysBefore(k % 12 + 1, IsLeap(k / 12))
  }

  lemma MonthLength(k: Month)
    ensures 28 <= MonthStart(k + 1) - MonthStart(k) <= 31
    ensures var y, m := k / 12, k % 12 + 1;
            MonthStart(k + 1) - MonthStart(k) ==
            if m == 2 then (if y % 4 == 0 && (y % 100 != 0 || y % 400 == 0) then 29 else 28)
            else if m == 4 || m == 6 || m == 9 || m == 11 then 30 else 31
  {
    YearLength(k / 12);
    if k % 12 == 11 {
      assert (k + 1) / 12 == k / 12 + 1 && (k + 1) % 12 == 0;
    } else {
      assert (k + 1) / 12 == k / 12 && (k + 1) % 12 == k % 12 + 1;
    }
  }

  lemma {:induction false} MonthsIncrease(j: Month, k: Month)
    requires j <= k
    ensures MonthStart(j) + 28 * (k - j) <= MonthStart(k)
    decreases k - j
  {
    hide MonthStart;
    if j < k {
      MonthLength(j);
      MonthsIncrease(j + 1, k);
    }
  }

  /** The month a day falls in. */
  function MonthOf(day: int): (k: Month)
    ensures MonthStart(k) <= day < MonthStart(k + 1)
  {
    SearchMonth(day, 0)
  }

  function SearchMonth(day: int, k: Month): (found: Month)
    ensures MonthStart(found) <= day < MonthStart(found + 1)
    decreases if day < MonthStart(k) then MonthStart(k) - day else 0,
              if day >= MonthStart(k + 1) then day - MonthStart(k + 1) + 1 else 0
  {
    hide MonthStart;
    MonthLength(k - 1);
    MonthLength(k);
    MonthLength(k + 1);
    if day < MonthStart(k) then SearchMonth(day, k - 1)
    else if day >= MonthStart(k + 1) then SearchMonth(day, k + 1)
    else k
  }
}
