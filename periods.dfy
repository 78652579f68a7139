/** Calendar periods and the per-period sums behind the dashboard's cards and
    charts (`filterByDate` and the `reduce` sums of DashboardStats). */
module Periods {
  import opened Common
  import Lists

  /** `(month, year)` with `month == None` standing for the whole year (the
      `null` month of `calculateTotals`). */
  datatype Period = Period(month: Option<Month>, year: int)

  /** A date falls in a period: same year, and the period is a whole year or
      the months agree. An invalid date falls in no period. */
  predicate InPeriod(d: Stamp, p: Period) {
    d.At? && d.year == p.year && (p.month.None? || d.month == p.month.value)
  }

  /** The filter the pages and the pie chart write inline:
      `isSameYear && (selectedMonth === 12 || getMonth() === selectedMonth)`. */
  predicate InSelection(d: Stamp, selectedMonth: SelectedMonth, year: int) {
    d.At? && d.year == year && (selectedMonth == FullYear || d.month == selectedMonth)
  }

  function DatedIn<T>(date: T -> Stamp, p: Period): T -> bool {
    x => InPeriod(date(x), p)
  }

  /** `filterByDate(items, dateKey)`: the records of `s` whose date, as read by
      `date`, falls in the period, in their original order. */
  function InPeriodRecords<T(!new)>(s: seq<T>, date: T -> Stamp, p: Period): (r: seq<T>)
    ensures forall x :: x in r <==> x in s && InPeriod(date(x), p)
  {
    Lists.Filter(s, DatedIn(date, p))
  }

  /** The `reduce((sum, x) => sum + amount(x), 0)` over the records of the
      period. */
  function PeriodSum<T(!new)>(s: seq<T>, date: T -> Stamp, amount: T -> real, p: Period): real {
    Lists.Sum(InPeriodRecords(s, date, p), amount)
  }

  /** Appending one record adds its amount to a period's sum exactly when the
      record is dated in that period. */
  lemma PeriodSumSnoc<T(!new)>(s: seq<T>, x: T, date: T -> Stamp, amount: T -> real, p: Period)
    ensures PeriodSum(s + [x], date, amount, p)
         == PeriodSum(s, date, amount, p) + (if InPeriod(date(x), p) then amount(x) else 0.0)
  {
    Lists.FilterAppend(s, [x], DatedIn(date, p));
    Lists.SumAppend(InPeriodRecords(s, date, p), InPeriodRecords([x], date, p), amount);
    assert Lists.Filter([x], DatedIn(date, p)) == (if InPeriod(date(x), p) then [x] else []);
    assert Lists.Sum([x], amount) == amount(x) by {
      assert [x][..0] == [];
    }
  }

  /** The sum of the single-month sums of `year` over the months before `k`. */
  function MonthsSum<T(!new)>(s: seq<T>, date: T -> Stamp, amount: T -> real, year: int, k: nat): real
    requires k <= 12
  {
    if k == 0 then 0.0
    else MonthsSum(s, date, amount, year, k - 1) + PeriodSum(s, date, amount, Period(Some(k - 1), year))
  }

  lemma {:induction false} MonthsSumEmpty<T(!new)>(date: T -> Stamp, amount: T -> real, year: int, k: nat)
    requires k <= 12
    ensures MonthsSum([], date, amount, year, k) == 0.0
  {
    if k > 0 {
      MonthsSumEmpty(date, amount, year, k - 1);
    }
  }

  lemma {:induction false} MonthsSumSnoc<T(!new)>(s: seq<T>, x: T, date: T -> Stamp, amount: T -> real, year: int, k: nat)
    requires k <= 12
    ensures MonthsSum(s + [x], date, amount, year, k)
         == MonthsSum(s, date, amount, year, k)
            + (if date(x).At? && date(x).year == year && date(x).month < k then amount(x) else 0.0)
  {
    if k > 0 {
      MonthsSumSnoc(s, x, date, amount, year, k - 1);
      PeriodSumSnoc(s, x, date, amount, Period(Some(k - 1), year));
    }
  }

  /** A year's total is the sum of its twelve monthly totals: each record dated
      in the year falls in exactly one of its months. */
  lemma {:induction false} YearIsSumOfMonths<T(!new)>(s: seq<T>, date: T -> Stamp, amount: T -> real, year: int)
    ensures PeriodSum(s, date, amount, Period(None, year)) == MonthsSum(s, date, amount, year, 12)
  {
    if s == [] {
      MonthsSumEmpty(date, amount, year, 12);
    } else {
      var init, x := s[..|s| - 1], s[|s| - 1];
      assert s == init + [x];
      YearIsSumOfMonths(init, date, amount, year);
      PeriodSumSnoc(init, x, date, amount, Period(None, year));
      MonthsSumSnoc(init, x, date, amount, year, 12);
    }
  }
}
