/**
 * Calendar dates as Python's `datetime(year, month, day)` accepts them:
 * proleptic Gregorian, years 1..9999.  Construction of an invalid date is
 * the `ValueError` the source catches; here it is `None`.
 * Comparison is the lexicographic (year, month, day) order that both
 * `datetime` comparison and the source's ISO `YYYY-MM-DD` strings use.
 */
module Dates {
  import opened Wrappers

  datatype Date = Date(year: int, month: int, day: int)

  const MinYear: int := 1
  const MaxYear: int := 9999

  predicate IsLeapYear(y: int) {
    y % 4 == 0 && (y % 100 != 0 || y % 400 == 0)
  }

  function DaysInMonth(y: int, m: int): int
    requires 1 <= m <= 12
  {
    if m == 2 then (if IsLeapYear(y) then 29 else 28)
    else if m == 4 || m == 6 || m == 9 || m == 11 then 30
    else 31
  }

  predicate IsValid(d: Date) {
    MinYear <= d.year <= MaxYear && 1 <= d.month <= 12 && 1 <= d.day <= DaysInMonth(d.year, d.month)
  }

  /** `datetime(y, m, d)`: a date exactly when the triple names a real day. */
  function MakeDate(y: int, m: int, d: int): (r: Option<Date>)
    ensures r.Some? <==> IsValid(Date(y, m, d))
    ensures r.Some? ==> r.value.year == y && r.value.month == m && r.value.day == d
  {
    if IsValid(Date(y, m, d)) then Some(Date(y, m, d)) else None
  }

  predicate Before(a: Date, b: Date) {
    a.year < b.year
    || (a.year == b.year && a.month < b.month)
    || (a.year == b.year && a.month == b.month && a.day < b.day)
  }

  predicate AtOrBefore(a: Date, b: Date) {
    a == b || Before(a, b)
  }

  /** `start <= d <= end`, the containment test of every week lookup. */
  predicate InRange(d: Date, start: Date, end: Date) {
    AtOrBefore(start, d) && AtOrBefore(d, end)
  }

  /** The calendar day after `d` (`d + timedelta(days=1)`). */
  function NextDay(d: Date): (r: Date)
    requires IsValid(d)
    ensures Before(d, r)
    ensures r.year <= MaxYear ==> IsValid(r)
  {
    if d.day < DaysInMonth(d.year, d.month) then Date(d.year, d.month, d.day + 1)
    else if d.month < 12 then Date(d.year, d.month + 1, 1)
    else Date(d.year + 1, 1, 1)
  }

  lemma BeforeIsStrictTotal(a: Date, b: Date)
    ensures !(Before(a, b) && Before(b, a))
    ensures a == b || Before(a, b) || Before(b, a)
  {
  }

  lemma AtOrBeforeTransitive(a: Date, b: Date, c: Date)
    requires AtOrBefore(a, b) && AtOrBefore(b, c)
    ensures AtOrBefore(a, c)
  {
  }

  /** No valid date lies strictly between a day and the next one. */
  lemma NothingBetweenDays(d: Date, x: Date)
    requires IsValid(d) && IsValid(x)
    ensures Before(d, x) <==> AtOrBefore(NextDay(d), x)
  {
  }
}
