/** UTC calendar months over nanosecond instants counted from 1 January 1970. */
module Calendar {

  const SECOND := 1_000_000_000
  const MINUTE := 60 * SECOND
  const DAY := 1440 * MINUTE

  predicate LeapYear(y: int) {
    y % 4 == 0 && (y % 100 != 0 || y % 400 == 0)
  }

  /** The length in days of the `m`-th month (January is 0) of year `y`. */
  function MonthDays(y: int, m: int): (d: int)
    ensures 28 <= d <= 31
  {
    if m == 1 then (if LeapYear(y) then 29 else 28)
    else if m == 3 || m == 5 || m == 8 || m == 10 then 30
    else 31
  }

  /** The first day of month `k`, months being counted from January 1970. */
  function FirstDay(k: nat): (d: nat)
    ensures d >= 28 * k
  {
    if k == 0 then 0 else FirstDay(k - 1) + MonthDays(1970 + (k - 1) / 12, (k - 1) % 12)
  }

  function MonthStart(k: nat): nat {
    FirstDay(k) * DAY
  }

  lemma NextFirstDay(k: nat)
    ensures FirstDay(k + 1) == FirstDay(k) + MonthDays(1970 + k / 12, k % 12)
  {
  }

  lemma NextStart(k: nat)
    ensures MonthStart(k) < MonthStart(k + 1)
  {
    NextFirstDay(k);
    Later(FirstDay(k), FirstDay(k + 1));
  }

  lemma Later(d: nat, e: nat)
    requires d < e
    ensures d * DAY < e * DAY
  {
  }

  /** The month an instant lies in. */
  function MonthOf(t: nat): (k: nat)
    ensures MonthStart(k) <= t < MonthStart(k + 1)
  {
    MonthFrom(t, 0)
  }

  function MonthFrom(t: nat, k: nat): (r: nat)
    requires MonthStart(k) <= t
    ensures MonthStart(r) <= t < MonthStart(r + 1)
    decreases t - MonthStart(k)
  {
    NextStart(k);
    if t < MonthStart(k + 1) then k else MonthFrom(t, k + 1)
  }

  lemma {:induction false} StartsIncrease(j: nat, k: nat)
    requires j < k
    ensures MonthStart(j) < MonthStart(k)
    decreases k
  {
    NextStart(k - 1);
    if j < k - 1 {
      StartsIncrease(j, k - 1);
    }
  }

  lemma NoEarlierMonth(t: nat, k: nat)
    requires k < MonthOf(t)
    ensures MonthStart(k + 1) <= t
  {
    if k + 1 < MonthOf(t) {
      StartsIncrease(k + 1, MonthOf(t));
    }
  }

  lemma NoLaterMonth(t: nat, k: nat)
    requires k > MonthOf(t)
    ensures t < MonthStart(k)
  {
    if MonthOf(t) + 1 < k {
      StartsIncrease(MonthOf(t) + 1, k);
    }
  }

  /** Each instant lies in exactly one month. */
  lemma OneMonth(t: nat, k: nat)
    ensures MonthStart(k) <= t < MonthStart(k + 1) <==> k == MonthOf(t)
  {
    if k < MonthOf(t) {
      NoEarlierMonth(t, k);
    } else if k > MonthOf(t) {
      NoLaterMonth(t, k);
    }
  }

  // ---------------------------------------------------------------- against the Gregorian calendar

  /** Days from 1 January 1970 to 1 January of the `n`-th year after: 365 a year and the leap days in
      between, one every 4 years but for three in 400. */
  function NewYear(n: nat): int {
    365 * n + (n + 1) / 4 - (n + 69) / 100 + (n + 369) / 400
  }

  /** Days of a common year before each month. */
  const DAYS_BEFORE := [0, 31, 59, 90, 120, 151, 181, 212, 243, 273, 304, 334]

  lemma LeapDay(n: nat)
    ensures NewYear(n + 1) - NewYear(n) == if LeapYear(1970 + n) then 366 else 365
  {
    EveryFourth(n);
    EveryHundredth(n);
    EveryFourHundredth(n);
    assert (1970 + n) % 400 == 0 ==> (1970 + n) % 100 == 0;
    assert (1970 + n) % 100 == 0 ==> (1970 + n) % 4 == 0;
  }

  lemma EveryFourth(n: nat)
    ensures (n + 2) / 4 == (n + 1) / 4 + if (1970 + n) % 4 == 0 then 1 else 0
  {
  }

  lemma EveryHundredth(n: nat)
    ensures (n + 70) / 100 == (n + 69) / 100 + if (1970 + n) % 100 == 0 then 1 else 0
  {
  }

  lemma EveryFourHundredth(n: nat)
    ensures (n + 370) / 400 == (n + 369) / 400 + if (1970 + n) % 400 == 0 then 1 else 0
  {
  }

  lemma TwelveTo(n: nat, m: nat)
    requires m < 12
    ensures (12 * n + m) / 12 == n && (12 * n + m) % 12 == m
  {
  }

  /** Days of a year before month `m`, where month 12 is the next year. */
  function Before(m: nat, leap: bool): int
    requires m <= 12
  {
    (if m == 12 then 365 else DAYS_BEFORE[m]) + if m >= 2 && leap then 1 else 0
  }

  lemma NextMonth(m: nat, y: int)
    requires m < 12
    ensures Before(m + 1, LeapYear(y)) == Before(m, LeapYear(y)) + MonthDays(y, m)
  {
  }

  /** The days of the first `m` months of year `y`, and of the first `n` years. */
  function DaysOf(y: int, m: nat): int {
    if m == 0 then 0 else DaysOf(y, m - 1) + MonthDays(y, m - 1)
  }

  function YearsOf(n: nat): int {
    if n == 0 then 0 else YearsOf(n - 1) + DaysOf(1970 + n - 1, 12)
  }

  lemma {:induction false} DaysAre(y: int, m: nat)
    requires m <= 12
    ensures DaysOf(y, m) == Before(m, LeapYear(y))
    decreases m
  {
    if m > 0 {
      DaysAre(y, m - 1);
      NextMonth(m - 1, y);
    }
  }

  lemma {:induction false} YearsAre(n: nat)
    ensures YearsOf(n) == NewYear(n)
    decreases n
  {
    if n > 0 {
      YearsAre(n - 1);
      DaysAre(1970 + n - 1, 12);
      LeapDay(n - 1);
    }
  }

  lemma MonthStep(n: nat, m: nat)
    requires m < 12
    ensures FirstDay(12 * n + m + 1) == FirstDay(12 * n + m) + MonthDays(1970 + n, m)
  {
    NextFirstDay(12 * n + m);
    TwelveTo(n, m);
  }

  lemma {:induction false} FirstDayIs(n: nat, m: nat)
    requires m <= 12
    ensures FirstDay(12 * n + m) == YearsOf(n) + DaysOf(1970 + n, m)
    decreases n, m
  {
    if m > 0 {
      FirstDayIs(n, m - 1);
      MonthStep(n, m - 1);
    } else if n > 0 {
      FirstDayIs(n - 1, 12);
    }
  }

  /** MAIN RESULT. Month `m` (January is 0) of the `n`-th year after 1970 begins where the Gregorian
      calendar has it: after the days of the years before, those of the months before in a common year,
      and one more after February of a year of 366 days. */
  lemma MonthsAreGregorian(n: nat, m: nat)
    requires m < 12
    ensures MonthStart(12 * n + m) == 86_400_000_000_000 *
      (NewYear(n) + DAYS_BEFORE[m] + if m >= 2 && NewYear(n + 1) - NewYear(n) == 366 then 1 else 0)
  {
    FirstDayIs(n, m);
    YearsAre(n);
    DaysAre(1970 + n, m);
    LeapDay(n);
    NanosecondsOf(FirstDay(12 * n + m));
  }

  lemma NanosecondsOf(days: nat)
    ensures days * DAY == 86_400_000_000_000 * days
  {
  }
}
