/**
  Calendar days in the proleptic Gregorian calendar, at day granularity.

  This module stands for the few date operations the rate fetcher uses:
  comparing two days (`isBefore`, `isSame` with unit 'day') and stepping to
  the next day (`add(1, 'day')`).
 */
module Calendar {

  datatype Date = Date(year: nat, month: nat, day: nat)

  predicate IsLeapYear(y: nat) {
    y % 4 == 0 && (y % 100 != 0 || y % 400 == 0)
  }

  function DaysInMonth(y: nat, m: nat): (n: nat)
    requires 1 <= m <= 12
    ensures 28 <= n <= 31
    ensures n == 29 <==> m == 2 && IsLeapYear(y)
  {
    if m == 2 then (if IsLeapYear(y) then 29 else 28)
    else if m == 4 || m == 6 || m == 9 || m == 11 then 30
    else 31
  }

  predicate ValidDate(d: Date) {
    1 <= d.month <= 12 && 1 <= d.day <= DaysInMonth(d.year, d.month)
  }

  /** A calendar day: a date that exists. */
  type Day = d: Date | ValidDate(d) witness Date(1970, 1, 1)

  /** Strict chronological order: `a` is an earlier day than `b`. */
  predicate Before(a: Date, b: Date) {
    a.year < b.year
    || (a.year == b.year && a.month < b.month)
    || (a.year == b.year && a.month == b.month && a.day < b.day)
  }

  /** The day after `d`. */
  function NextDay(d: Day): (n: Day)
    ensures Before(d, n)
  {
    if d.day < DaysInMonth(d.year, d.month) then Date(d.year, d.month, d.day + 1)
    else if d.month < 12 then Date(d.year, d.month + 1, 1)
    else Date(d.year + 1, 1, 1)
  }

  /** No day lies strictly between a day and the next one. */
  lemma NextDayAdjacent(d: Day, e: Day)
    requires Before(d, e)
    ensures !Before(e, NextDay(d))
  {
  }

  /**
    An integer that grows with chronological order; used only as a
    termination measure for walks over a range of days.
   */
  function Rank(d: Day): int {
    d.year * 416 + d.month * 32 + d.day
  }

  lemma RankMonotonic(a: Day, b: Day)
    requires Before(a, b)
    ensures Rank(a) < Rank(b)
  {
  }
}
