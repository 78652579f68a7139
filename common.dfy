/** Values shared by every part of the dashboard: optional values, calendar
    stamps, and the month selector's domain. */
module Common {

  /** An absent JavaScript value (`null` / `undefined`) or a present one. */
  datatype Option<+T> = None | Some(value: T) {
    /** `x ?? d` for a value that may be absent. */
    function GetOr(default: T): T {
      if Some? then value else default
    }
  }

  /** A zero-based calendar month, as `Date.getMonth()` returns it. */
  type Month = m: int | 0 <= m < 12

  /** The period selector's month: 0-11 for a month, 12 for "Full Year". */
  type SelectedMonth = m: int | 0 <= m <= 12

  const FullYear: SelectedMonth := 12

  /** What the aggregation reads of a JavaScript `Date`: its calendar year and
      month, or `Invalid` for an invalid date (whose `getFullYear()` is NaN, so
      it equals no year). */
  datatype Stamp = At(year: int, month: Month) | Invalid

  /** The year and month of `new Date(year, month, 1)`: a year in 0..99 is
      read as 1900 + year, and an out-of-range month rolls over into the
      neighbouring years (floor division, as Dafny's `/` and `%` on a positive
      divisor). */
  function DateFromParts(year: int, month: int): (d: Stamp)
    ensures d.At?
    ensures 0 <= month < 12 && !(0 <= year <= 99) ==> d == At(year, month)
  {
    var y := if 0 <= year <= 99 then 1900 + year else year;
    At(y + month / 12, month % 12)
  }

  /** Months counted from year 0, so that consecutive months differ by one. */
  function MonthIndex(year: int, month: Month): int {
    year * 12 + month
  }
}
