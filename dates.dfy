/**
 * Calendar dates as the pipeline sees them once `pd.to_datetime` has parsed
 * them, and the calendar months that `to_period("M")` buckets them into.
 */
module Dates {
  import opened Text

  datatype Date = Date(year: nat, month: nat, day: nat)

  /** Chronological order: year, then month, then day. */
  predicate DateLe(a: Date, b: Date) {
    a.year < b.year || (a.year == b.year && (a.month < b.month || (a.month == b.month && a.day <= b.day)))
  }

  /** A monthly period, `Period(..., "M")`. */
  datatype Month = Month(year: nat, month: nat)

  function MonthOf(d: Date): Month {
    Month(d.year, d.month)
  }

  predicate MonthLe(a: Month, b: Month) {
    a.year < b.year || (a.year == b.year && a.month <= b.month)
  }

  /** `str()` of a midnight `Timestamp`: `YYYY-MM-DD 00:00:00`. */
  function TimestampText(d: Date): string {
    Padded(d.year, 4) + "-" + Padded(d.month, 2) + "-" + Padded(d.day, 2) + " 00:00:00"
  }
}
