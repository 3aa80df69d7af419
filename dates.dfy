/** Calendar dates as the ledger stores them: `YYYY-MM-DD` strings, taken
    here already split into year, month and day. */
module Dates {

  datatype Date = Date(year: int, month: int, day: int)

  predicate IsLeapYear(y: int) {
    y % 4 == 0 && (y % 100 != 0 || y % 400 == 0)
  }

  function DaysInMonth(y: int, m: int): (r: int)
    requires 1 <= m <= 12
    ensures 28 <= r <= 31
  {
    if m == 2 then (if IsLeapYear(y) then 29 else 28)
    else if m == 4 || m == 6 || m == 9 || m == 11 then 30
    else 31
  }

  /** A date a `type="date"` form field can submit: a four-digit year and a
      day that exists in its month. */
  predicate IsWellFormed(d: Date) {
    1 <= d.year <= 9999 && 1 <= d.month <= 12 && 1 <= d.day <= DaysInMonth(d.year, d.month)
  }

  type WellFormedDate = d: Date | IsWellFormed(d) witness Date(1970, 1, 1)

  /** `a` is the same day as `b` or a later one (chronological order). */
  predicate NotBefore(a: Date, b: Date) {
    a.year > b.year
    || (a.year == b.year && (a.month > b.month || (a.month == b.month && a.day >= b.day)))
  }

  /** A day number that grows with the date. It stands in for `strtotime`:
      the ledger's date comparator only uses the sign of the difference of
      two timestamps, and on well-formed dates this number orders them the
      same way. */
  function DayOrdinal(d: Date): int {
    d.year * 372 + d.month * 31 + d.day
  }

  lemma DayOrdinalOrder(a: WellFormedDate, b: WellFormedDate)
    ensures NotBefore(a, b) <==> DayOrdinal(a) >= DayOrdinal(b)
  {
  }
}
