/** Calendar arithmetic of the proleptic Gregorian calendar (ISO 8601), as
    java.time.LocalDate computes it: leap years, month lengths, the epoch-day
    line, adding days and months, and the monthly dates that carry a given
    day-of-month. */
module Calendrier {

  datatype Date = Date(year: int, month: int, day: int)

  predicate IsLeapYear(y: int) {
    y % 4 == 0 && (y % 100 != 0 || y % 400 == 0)
  }

  function DaysInMonth(y: int, m: int): (n: int)
    requires 1 <= m <= 12
    ensures 28 <= n <= 31
  {
    if m == 2 then (if IsLeapYear(y) then 29 else 28)
    else if m == 4 || m == 6 || m == 9 || m == 11 then 30
    else 31
  }

  predicate IsValid(d: Date) {
    1 <= d.month <= 12 && 1 <= d.day <= DaysInMonth(d.year, d.month)
  }

  /** The dates a LocalDate can hold. */
  type LocalDate = d: Date | IsValid(d) witness Date(1970, 1, 1)

  /** Strict chronological order (LocalDate.isBefore). */
  predicate Before(a: Date, b: Date) {
    a.year < b.year || (a.year == b.year && (a.month < b.month || (a.month == b.month && a.day < b.day)))
  }

  /** a <= b in chronological order. */
  predicate NotAfter(a: Date, b: Date) {
    !Before(b, a)
  }

  function Earlier(a: LocalDate, b: LocalDate): (r: LocalDate)
    ensures NotAfter(r, a) && NotAfter(r, b) && (r == a || r == b)
  {
    if Before(b, a) then b else a
  }

  function Later(a: LocalDate, b: LocalDate): (r: LocalDate)
    ensures NotAfter(a, r) && NotAfter(b, r) && (r == a || r == b)
  {
    if Before(a, b) then b else a
  }

  // ---------------------------------------------------------------------
  // The epoch-day line (LocalDate.toEpochDay: 1970-01-01 is day 0)
  // ---------------------------------------------------------------------

  const DaysFromYearZeroTo1970: int := 719528

  /** Days from 0000-01-01 to January 1st of year y (floor division, so it
      also holds for years before 0). */
  function DaysBeforeYear(y: int): int {
    365 * y + (y + 3) / 4 - (y + 99) / 100 + (y + 399) / 400
  }

  /** Days from January 1st to the first day of month m of year y. */
  function DaysBeforeMonth(y: int, m: int): int
    requires 1 <= m <= 12
  {
    (match m
     case 1 => 0 case 2 => 31 case 3 => 59 case 4 => 90 case 5 => 120 case 6 => 151
     case 7 => 181 case 8 => 212 case 9 => 243 case 10 => 273 case 11 => 304 case _ => 334)
    + (if m > 2 && IsLeapYear(y) then 1 else 0)
  }

  function EpochDay(d: LocalDate): int {
    DaysBeforeYear(d.year) + DaysBeforeMonth(d.year, d.month) + d.day - 1 - DaysFromYearZeroTo1970
  }

  /** The count of days before a year is the length of the year before it:
      366 for a leap year, 365 otherwise. */
  lemma DaysBeforeNextYear(y: int)
    ensures DaysBeforeYear(y + 1) == DaysBeforeYear(y) + (if IsLeapYear(y) then 366 else 365)
  {
    assert (y + 4) / 4 == (y + 3) / 4 + (if y % 4 == 0 then 1 else 0);
    assert (y + 100) / 100 == (y + 99) / 100 + (if y % 100 == 0 then 1 else 0);
    assert (y + 400) / 400 == (y + 399) / 400 + (if y % 400 == 0 then 1 else 0);
  }

  lemma {:induction false} DaysBeforeYearGrows(y1: int, y2: int)
    requires y1 < y2
    ensures DaysBeforeYear(y1 + 1) <= DaysBeforeYear(y2)
    decreases y2 - y1
  {
    if y1 + 1 < y2 {
      DaysBeforeYearGrows(y1 + 1, y2);
      DaysBeforeNextYear(y1 + 1);
    }
  }

  /** Every date of year y lies between January 1st of y and January 1st of y + 1. */
  lemma WithinYear(d: LocalDate)
    ensures DaysBeforeYear(d.year) <= EpochDay(d) + DaysFromYearZeroTo1970 < DaysBeforeYear(d.year + 1)
  {
    DaysBeforeNextYear(d.year);
  }

  /** The epoch-day line is in the same order as the calendar. */
  lemma EpochDayOrder(a: LocalDate, b: LocalDate)
    ensures Before(a, b) <==> EpochDay(a) < EpochDay(b)
  {
    WithinYear(a);
    WithinYear(b);
    if a.year < b.year {
      DaysBeforeYearGrows(a.year, b.year);
    } else if b.year < a.year {
      DaysBeforeYearGrows(b.year, a.year);
    }
  }

  lemma EpochDayInjective(a: LocalDate, b: LocalDate)
    requires EpochDay(a) == EpochDay(b)
    ensures a == b
  {
    EpochDayOrder(a, b);
    EpochDayOrder(b, a);
  }

  // ---------------------------------------------------------------------
  // Adding days
  // ---------------------------------------------------------------------

  function LastDayOf(y: int, m: int): LocalDate
    requires 1 <= m <= 12
  {
    Date(y, m, DaysInMonth(y, m))
  }

  /** The first day of the month after month m of year y. */
  function NextMonthStart(y: int, m: int): (r: LocalDate)
    requires 1 <= m <= 12
    ensures EpochDay(r) == EpochDay(LastDayOf(y, m)) + 1
  {
    if m == 12 then DaysBeforeNextYear(y); Date(y + 1, 1, 1)
    else Date(y, m + 1, 1)
  }

  /** The last day of the month before month m of year y. */
  function PreviousMonthEnd(y: int, m: int): (r: LocalDate)
    requires 1 <= m <= 12
    ensures EpochDay(r) + 1 == EpochDay(Date(y, m, 1))
  {
    if m == 1 then DaysBeforeNextYear(y - 1); Date(y - 1, 12, 31)
    else LastDayOf(y, m - 1)
  }

  /** LocalDate.plusDays: the date n days later (earlier for a negative n),
      walked one month at a time. */
  function PlusDays(d: LocalDate, n: int): (r: LocalDate)
    ensures EpochDay(r) == EpochDay(d) + n
    decreases if n < 0 then -n else n
  {
    var left := DaysInMonth(d.year, d.month) - d.day;
    if 0 <= n <= left then Date(d.year, d.month, d.day + n)
    else if n > 0 then PlusDays(NextMonthStart(d.year, d.month), n - left - 1)
    else if 1 <= d.day + n then Date(d.year, d.month, d.day + n)
    else PlusDays(PreviousMonthEnd(d.year, d.month), n + d.day)
  }

  /** LocalDate.plusDays(1): the next day. */
  function NextDay(d: LocalDate): (r: LocalDate)
    ensures EpochDay(r) == EpochDay(d) + 1
  {
    if d.day < DaysInMonth(d.year, d.month) then Date(d.year, d.month, d.day + 1)
    else NextMonthStart(d.year, d.month)
  }

  /** LocalDate.minusDays. */
  function MinusDays(d: LocalDate, n: int): (r: LocalDate)
    ensures EpochDay(r) == EpochDay(d) - n
  {
    PlusDays(d, -n)
  }

  /** ChronoUnit.DAYS.between(a, b): signed number of days from a to b. */
  function DaysBetween(a: LocalDate, b: LocalDate): (n: int)
    ensures n < 0 <==> Before(b, a)
    ensures n == 0 <==> a == b
  {
    EpochDayOrder(b, a);
    EpochDayOrder(a, b);
    EpochDay(b) - EpochDay(a)
  }

  /** Adding the days between two dates to the first gives the second. */
  lemma PlusDaysBetween(a: LocalDate, b: LocalDate)
    ensures PlusDays(a, DaysBetween(a, b)) == b
  {
    EpochDayInjective(PlusDays(a, DaysBetween(a, b)), b);
  }

  /** Adding and then subtracting the same number of days is the identity. */
  lemma MinusDaysUndoesPlusDays(d: LocalDate, n: int)
    ensures MinusDays(PlusDays(d, n), n) == d
  {
    EpochDayInjective(MinusDays(PlusDays(d, n), n), d);
  }

  /** Adding days moves forward in the calendar, and only then. */
  lemma PlusDaysOrder(d: LocalDate, n: int)
    ensures Before(d, PlusDays(d, n)) <==> n > 0
  {
    EpochDayOrder(d, PlusDays(d, n));
  }

  // ---------------------------------------------------------------------
  // Adding months
  // ---------------------------------------------------------------------

  /** LocalDate.getProlepticMonth: months since January of year 0. */
  function ProlepticMonth(d: Date): int {
    12 * d.year + d.month - 1
  }

  /** Dates in an earlier month come first. */
  lemma ProlepticMonthOrder(a: LocalDate, b: LocalDate)
    requires ProlepticMonth(a) < ProlepticMonth(b)
    ensures Before(a, b)
  {
  }

  /** LocalDate.plusMonths: the same day-of-month n months later, or the
      last day of that month when it is too short. */
  function PlusMonths(d: LocalDate, n: int): (r: LocalDate)
    ensures ProlepticMonth(r) == ProlepticMonth(d) + n
    ensures r.day <= d.day
    ensures r.day < d.day ==> r.day == DaysInMonth(r.year, r.month)
  {
    var k := ProlepticMonth(d) + n;
    var y, m := k / 12, k % 12 + 1;
    Date(y, m, if d.day <= DaysInMonth(y, m) then d.day else DaysInMonth(y, m))
  }

  /** LocalDate.minusMonths. */
  function MinusMonths(d: LocalDate, n: int): (r: LocalDate)
    ensures ProlepticMonth(r) == ProlepticMonth(d) - n
    ensures r.day <= d.day
    ensures r.day < d.day ==> r.day == DaysInMonth(r.year, r.month)
  {
    PlusMonths(d, -n)
  }

  /** Going n months forward and back returns to a date whose day exists in
      every month. */
  lemma {:induction false} PlusMonthsRoundTrip(d: LocalDate, n: int)
    requires d.day <= 28
    ensures MinusMonths(PlusMonths(d, n), n) == d
  {
    var r := PlusMonths(d, n);
    assert r.day == d.day;
    var s := MinusMonths(r, n);
    assert s.day == d.day;
    assert ProlepticMonth(s) == ProlepticMonth(d);
  }

  // ---------------------------------------------------------------------
  // Monthly dates carrying a given day-of-month
  // ---------------------------------------------------------------------

  predicate StrictlyIncreasing(s: seq<Date>) {
    forall i, j :: 0 <= i < j < |s| ==> Before(s[i], s[j])
  }

  /** The date of proleptic month k whose day-of-month is a, when the month
      has such a day and the date lies in [lo, hi]; computed once per month. */
  function CandidateIn(a: int, k: int, lo: LocalDate, hi: LocalDate): (r: seq<LocalDate>)
    ensures |r| <= 1
    ensures forall o: LocalDate :: o in r <==>
      o.day == a && ProlepticMonth(o) == k && NotAfter(lo, o) && NotAfter(o, hi)
  {
    var y, m := k / 12, k % 12 + 1;
    if 1 <= a <= DaysInMonth(y, m) && NotAfter(lo, Date(y, m, a)) && NotAfter(Date(y, m, a), hi)
    then [Date(y, m, a)] else []
  }

  /** The dates in [lo, hi] with day-of-month a, from proleptic month k on,
      in calendar order. */
  function OccurrencesFrom(a: int, k: int, lo: LocalDate, hi: LocalDate): (r: seq<LocalDate>)
    ensures forall o: LocalDate :: o in r <==>
      o.day == a && k <= ProlepticMonth(o) && NotAfter(lo, o) && NotAfter(o, hi)
    ensures forall i :: 0 <= i < |r| ==> k <= ProlepticMonth(r[i])
    ensures StrictlyIncreasing(r)
    decreases ProlepticMonth(hi) - k
  {
    if k > ProlepticMonth(hi) then []
    else
      var here, rest := CandidateIn(a, k, lo, hi), OccurrencesFrom(a, k + 1, lo, hi);
      assert forall i, j :: 0 <= i < |here| && 0 <= j < |rest| ==> Before(here[i], rest[j]) by {
        forall i, j | 0 <= i < |here| && 0 <= j < |rest| ensures Before(here[i], rest[j]) {
          assert here[i] in here;
          ProlepticMonthOrder(here[i], rest[j]);
        }
      }
      here + rest
  }

  /** The dates o with lo <= o <= hi whose day-of-month is a, each once, in
      calendar order (a day-of-month the month lacks gives no date). */
  function Occurrences(a: int, lo: LocalDate, hi: LocalDate): (r: seq<LocalDate>)
    ensures forall o: LocalDate :: o in r <==> o.day == a && NotAfter(lo, o) && NotAfter(o, hi)
    ensures StrictlyIncreasing(r)
    ensures Before(hi, lo) ==> r == []
  {
    if Before(hi, lo) then [] else OccurrencesFrom(a, ProlepticMonth(lo), lo, hi)
  }

  /** A strictly increasing sequence repeats no date. */
  lemma IncreasingOnOneDate(r: seq<Date>, x: Date)
    requires StrictlyIncreasing(r)
    requires forall i :: 0 <= i < |r| ==> r[i] == x
    ensures |r| <= 1
  {
    assert |r| > 1 ==> Before(r[0], r[1]);
  }

  /** A one-day window holds its day exactly when the day-of-month matches. */
  lemma OccurrencesOneDay(a: int, x: LocalDate)
    ensures Occurrences(a, x, x) == if x.day == a then [x] else []
  {
    var r := Occurrences(a, x, x);
    forall i | 0 <= i < |r| ensures r[i] == x && x.day == a {
      assert r[i] in r;
    }
    IncreasingOnOneDate(r, x);
    assert |r| > 0 ==> r[0] == x;
    if x.day == a {
      assert x in r;
    }
  }
}
