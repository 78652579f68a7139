/** The dashboard's three summary cards (DashboardStats): totals of the
    current period, the comparison period, the percent change between them,
    and the colour and arrow each card shows. */
module DashboardStats {
  import opened Common
  import opened Periods
  import opened Records
  import Lists

  /** How the aggregation reads a record: its date, its weight and its amount
      (the `item[dateKey]`, `s.weight_kg` and `s.total_amount` reads). */
  datatype View<!T> = View(date: T -> Stamp, weight: T -> real, amount: T -> real)

  /** The collections the cards read. */
  datatype Books = Books(silage: seq<SilageSale>, maize: seq<MaizePurchase>, expenses: seq<OtherExpense>)

  datatype Views = Views(silage: View<SilageSale>, maize: View<MaizePurchase>, expenses: View<OtherExpense>)

  /** The reads as the component writes them: lower-case keys
      (`'date_of_perchase'`, `weight_kg`, `total_amount`, ...) that the records
      do not have. `new Date(undefined)` is an invalid date, so no record
      passes the date filter and the amount reads are never reached. */
  function LowerCaseKeys<T>(): View<T> {
    View(_ => Invalid, _ => 0.0, _ => 0.0)
  }

  function AsWrittenViews(): Views {
    Views(LowerCaseKeys(), LowerCaseKeys(), LowerCaseKeys())
  }

  /** The reads the record types call for: the upper-case fields. */
  function RecordViews(): Views {
    Views(
      View((s: SilageSale) => s.dateOfPerchase, (s: SilageSale) => s.weightKg, (s: SilageSale) => s.totalAmount),
      View((p: MaizePurchase) => p.dateOfPurchase, (p: MaizePurchase) => p.weightKg,
        (p: MaizePurchase) => p.totalAmount),
      View((e: OtherExpense) => e.dateOfExpenses, _ => 0.0, (e: OtherExpense) => e.amount))
  }

  datatype Totals = Totals(
    silageWeight: real, silageAmount: real, maizeWeight: real, maizeAmount: real, expensesAmount: real)

  /** `calculateTotals(month, year)`: the five sums over the records dated in
      the period. Only other expenses make up the expenses total. */
  function CalculateTotals(b: Books, v: Views, p: Period): Totals {
    Totals(
      PeriodSum(b.silage, v.silage.date, v.silage.weight, p),
      PeriodSum(b.silage, v.silage.date, v.silage.amount, p),
      PeriodSum(b.maize, v.maize.date, v.maize.weight, p),
      PeriodSum(b.maize, v.maize.date, v.maize.amount, p),
      PeriodSum(b.expenses, v.expenses.date, v.expenses.amount, p))
  }

  /** Each of the five sums, added up over the twelve months of `year`. */
  function TwelveMonthTotals(b: Books, v: Views, year: int): Totals {
    Totals(
      MonthsSum(b.silage, v.silage.date, v.silage.weight, year, 12),
      MonthsSum(b.silage, v.silage.date, v.silage.amount, year, 12),
      MonthsSum(b.maize, v.maize.date, v.maize.weight, year, 12),
      MonthsSum(b.maize, v.maize.date, v.maize.amount, year, 12),
      MonthsSum(b.expenses, v.expenses.date, v.expenses.amount, year, 12))
  }

  /** Each of the five full-year totals is the sum of the twelve single-month
      totals of that year. */
  lemma FullYearIsTwelveMonths(b: Books, v: Views, year: int)
    ensures CalculateTotals(b, v, Period(None, year)) == TwelveMonthTotals(b, v, year)
  {
    YearIsSumOfMonths(b.silage, v.silage.date, v.silage.weight, year);
    YearIsSumOfMonths(b.silage, v.silage.date, v.silage.amount, year);
    YearIsSumOfMonths(b.maize, v.maize.date, v.maize.weight, year);
    YearIsSumOfMonths(b.maize, v.maize.date, v.maize.amount, year);
    YearIsSumOfMonths(b.expenses, v.expenses.date, v.expenses.amount, year);
  }

  /** The period the cards show: the whole year in "Full Year" mode, the
      selected month otherwise. */
  function CurrentPeriod(selectedMonth: SelectedMonth, year: int): (p: Period)
    ensures forall d :: InPeriod(d, p) <==> InSelection(d, selectedMonth, year)
  {
    if selectedMonth == FullYear then Period(None, year) else Period(Some(selectedMonth), year)
  }

  /** The comparison period: the year before in "Full Year" mode; otherwise
      the month of `new Date(year, selectedMonth - 1, 1)`, the calendar month
      before the selected one. */
  function PreviousPeriod(selectedMonth: SelectedMonth, year: int): (p: Period)
    ensures selectedMonth == FullYear ==> p == Period(None, year - 1)
    ensures selectedMonth != FullYear ==> p.month.Some?
    ensures selectedMonth != FullYear && !(0 <= year <= 99) ==>
      MonthIndex(p.year, p.month.value) == MonthIndex(year, selectedMonth) - 1
    ensures selectedMonth == 0 && !(0 <= year <= 99) ==> p == Period(Some(11), year - 1)
    ensures 0 < selectedMonth < 12 && !(0 <= year <= 99) ==> p == Period(Some(selectedMonth - 1), year)
  {
    if selectedMonth == FullYear then
      Period(None, year - 1)
    else
      var d := DateFromParts(year, selectedMonth - 1);
      Period(Some(d.month), d.year)
  }

  /** `new Date(y, m, 1)` reads a year from 0 to 99 as 1900 + y, so a month
      view of such a year compares against a month of the twentieth century
      (December 1899 + y for January). Other years, negative ones included,
      are taken as given. */
  lemma TwoDigitYearComparison(selectedMonth: SelectedMonth, year: int)
    requires selectedMonth != FullYear
    ensures 0 <= year <= 99 && selectedMonth > 0 ==>
      PreviousPeriod(selectedMonth, year) == Period(Some(selectedMonth - 1), 1900 + year)
    ensures 0 <= year <= 99 && selectedMonth == 0 ==>
      PreviousPeriod(selectedMonth, year) == Period(Some(11), 1899 + year)
    ensures !(0 <= year <= 99) ==>
      MonthIndex(PreviousPeriod(selectedMonth, year).year, PreviousPeriod(selectedMonth, year).month.value)
      == MonthIndex(year, selectedMonth) - 1
  {
  }

  /** `getChange(current, previous)`: the percent change, with 100 for growth
      from zero and 0 for zero against zero. */
  function Change(current: real, previous: real): (r: real)
    ensures previous == 0.0 ==> r == (if current > 0.0 then 100.0 else 0.0)
    ensures previous != 0.0 ==> r * previous == (current - previous) * 100.0
  {
    if previous == 0.0 then (if current > 0.0 then 100.0 else 0.0)
    else if current == 0.0 && previous > 0.0 then -100.0
    else (current - previous) / previous * 100.0
  }

  /** Away from a zero comparison value the change is the plain relative
      change: the `current == 0` case only names its value, -100. */
  lemma ChangeIsRelative(current: real, previous: real)
    requires previous != 0.0
    ensures Change(current, previous) == (current - previous) / previous * 100.0
  {
  }

  /** Against a positive comparison value, the change is positive, zero or
      negative exactly as the current value is above, equal to or below it. */
  lemma ChangeSign(current: real, previous: real)
    requires previous > 0.0
    ensures Change(current, previous) > 0.0 <==> current > previous
    ensures Change(current, previous) == 0.0 <==> current == previous
    ensures Change(current, previous) < 0.0 <==> current < previous
    ensures current == 0.0 ==> Change(current, previous) == -100.0
  {
  }

  datatype Stat = Stat(title: string, amount: real, weight: Option<real>, change: real)

  /** `stats`: the three cards in order, each with the current total, the
      current weight where there is one, and the change against the
      comparison period. */
  function Stats(b: Books, v: Views, selectedMonth: SelectedMonth, year: int): (r: seq<Stat>)
    ensures |r| == 3
    ensures r[0].title == "Silage Sales" && r[1].title == "Maize Purchase" && r[2].title == "Other Expenses"
    ensures r[2].weight == None
    ensures var cur, prev := CurrentPeriod(selectedMonth, year), PreviousPeriod(selectedMonth, year);
      && r[0].amount == PeriodSum(b.silage, v.silage.date, v.silage.amount, cur)
      && r[0].weight == Some(PeriodSum(b.silage, v.silage.date, v.silage.weight, cur))
      && r[0].change == Change(r[0].amount, PeriodSum(b.silage, v.silage.date, v.silage.amount, prev))
    ensures var cur, prev := CurrentPeriod(selectedMonth, year), PreviousPeriod(selectedMonth, year);
      && r[1].amount == PeriodSum(b.maize, v.maize.date, v.maize.amount, cur)
      && r[1].weight == Some(PeriodSum(b.maize, v.maize.date, v.maize.weight, cur))
      && r[1].change == Change(r[1].amount, PeriodSum(b.maize, v.maize.date, v.maize.amount, prev))
    ensures var cur, prev := CurrentPeriod(selectedMonth, year), PreviousPeriod(selectedMonth, year);
      && r[2].amount == PeriodSum(b.expenses, v.expenses.date, v.expenses.amount, cur)
      && r[2].change == Change(r[2].amount, PeriodSum(b.expenses, v.expenses.date, v.expenses.amount, prev))
  {
    var cur := CalculateTotals(b, v, CurrentPeriod(selectedMonth, year));
    var prev := CalculateTotals(b, v, PreviousPeriod(selectedMonth, year));
    [ Stat("Silage Sales", cur.silageAmount, Some(cur.silageWeight), Change(cur.silageAmount, prev.silageAmount)),
      Stat("Maize Purchase", cur.maizeAmount, Some(cur.maizeWeight), Change(cur.maizeAmount, prev.maizeAmount)),
      Stat("Other Expenses", cur.expensesAmount, None, Change(cur.expensesAmount, prev.expensesAmount)) ]
  }

  /** `'increase'` or `'decrease'`. */
  datatype Trend = Increase | Decrease

  /** The arrow: up for a change of 0 or more. */
  function Arrow(change: real): Trend {
    if change >= 0.0 then Increase else Decrease
  }

  predicate IsCost(title: string) {
    title in ["Maize Purchase", "Other Expenses"]
  }

  /** `finalChangeType`: green for `Increase`, red for `Decrease`; for the cost
      cards the arrow's trend is inverted. */
  function Tone(title: string, change: real): (t: Trend)
    ensures IsCost(title) <==> t != Arrow(change)
  {
    var arrow := Arrow(change);
    if IsCost(title) then (if arrow == Increase then Decrease else Increase) else arrow
  }

  /** A sales card is green when its total did not fall; a cost card is green
      only when its total fell. */
  lemma ToneMeaning(change: real)
    ensures Tone("Silage Sales", change) == Increase <==> change >= 0.0
    ensures Tone("Maize Purchase", change) == Increase <==> change < 0.0
    ensures Tone("Other Expenses", change) == Increase <==> change < 0.0
  {
  }

  /** Each card's colour against a positive comparison total: the sales card
      is green iff its total did not fall, a cost card iff its total fell. */
  lemma CardTone(b: Books, v: Views, selectedMonth: SelectedMonth, year: int, i: nat)
    requires i < 3
    requires CalculateTotals(b, v, PreviousPeriod(selectedMonth, year)).silageAmount > 0.0
    requires CalculateTotals(b, v, PreviousPeriod(selectedMonth, year)).maizeAmount > 0.0
    requires CalculateTotals(b, v, PreviousPeriod(selectedMonth, year)).expensesAmount > 0.0
    ensures var r := Stats(b, v, selectedMonth, year);
      var prev := CalculateTotals(b, v, PreviousPeriod(selectedMonth, year));
      var before := [prev.silageAmount, prev.maizeAmount, prev.expensesAmount][i];
      (Tone(r[i].title, r[i].change) == Increase) <==> (if i == 0 then r[i].amount >= before else r[i].amount < before)
  {
    var r := Stats(b, v, selectedMonth, year);
    var prev := CalculateTotals(b, v, PreviousPeriod(selectedMonth, year));
    var before := [prev.silageAmount, prev.maizeAmount, prev.expensesAmount][i];
    ChangeSign(r[i].amount, before);
    ToneMeaning(r[i].change);
  }

  /** A silage sale of 10,000 dated March 2024 against one of 8,000 dated
      February 2024: the March card shows 10,000, a change of +25% and green. */
  lemma MarchAgainstFebruary()
    ensures var r := Stats(ExampleBooks(), RecordViews(), 2, 2024);
      r[0].amount == 10000.0 && r[0].change == 25.0 && Tone(r[0].title, r[0].change) == Increase
  {
    ExampleSilageSums();
    assert CurrentPeriod(2, 2024) == Period(Some(2), 2024);
    assert PreviousPeriod(2, 2024) == Period(Some(1), 2024);
    assert Change(10000.0, 8000.0) == 25.0;
  }

  lemma ExampleSilageSums()
    ensures PeriodSum(ExampleBooks().silage, RecordViews().silage.date, RecordViews().silage.amount, Period(Some(2), 2024))
         == 10000.0
    ensures PeriodSum(ExampleBooks().silage, RecordViews().silage.date, RecordViews().silage.amount, Period(Some(1), 2024))
         == 8000.0
  {
    var v := RecordViews().silage;
    assert v.date(ExampleSale(2, 10000.0)) == At(2024, 2) && v.date(ExampleSale(1, 8000.0)) == At(2024, 1);
    assert v.amount(ExampleSale(2, 10000.0)) == 10000.0 && v.amount(ExampleSale(1, 8000.0)) == 8000.0;
    PeriodSumOfTwo(ExampleSale(2, 10000.0), ExampleSale(1, 8000.0), v.date, v.amount, Period(Some(2), 2024));
    PeriodSumOfTwo(ExampleSale(2, 10000.0), ExampleSale(1, 8000.0), v.date, v.amount, Period(Some(1), 2024));
  }

  function ExampleSale(month: Month, amount: real): SilageSale {
    SilageSale(1, "", "", At(2024, month), 0.0, 0.0, amount, Cash, amount, 1, "")
  }

  function ExampleBooks(): Books {
    Books([ExampleSale(2, 10000.0), ExampleSale(1, 8000.0)], [], [])
  }

  lemma PeriodSumOfTwo<T(!new)>(x: T, y: T, date: T -> Stamp, amount: T -> real, p: Period)
    ensures PeriodSum([x, y], date, amount, p)
         == (if InPeriod(date(x), p) then amount(x) else 0.0) + (if InPeriod(date(y), p) then amount(y) else 0.0)
  {
    assert [x, y] == [] + [x] + [y];
    PeriodSumSnoc([], x, date, amount, p);
    PeriodSumSnoc([x], y, date, amount, p);
    assert [] + [x] == [x];
  }

  /** The as-written reads see no record in any period: every total is zero,
      whatever the store holds. */
  lemma {:induction false} AsWrittenTotalsAreZero(b: Books, p: Period)
    ensures CalculateTotals(b, AsWrittenViews(), p) == Totals(0.0, 0.0, 0.0, 0.0, 0.0)
  {
    NoValidDateSumsToZero(b.silage, LowerCaseKeys<SilageSale>().weight, p);
    NoValidDateSumsToZero(b.silage, LowerCaseKeys<SilageSale>().amount, p);
    NoValidDateSumsToZero(b.maize, LowerCaseKeys<MaizePurchase>().weight, p);
    NoValidDateSumsToZero(b.maize, LowerCaseKeys<MaizePurchase>().amount, p);
    NoValidDateSumsToZero(b.expenses, LowerCaseKeys<OtherExpense>().amount, p);
  }

  lemma NoValidDateSumsToZero<T(!new)>(s: seq<T>, amount: T -> real, p: Period)
    ensures PeriodSum(s, LowerCaseKeys<T>().date, amount, p) == 0.0
  {
    var r := InPeriodRecords(s, LowerCaseKeys<T>().date, p);
    assert forall x :: x !in r;
  }

  /** With the record fields, a silage sale dated in the current period adds
      its amount and weight to the silage card. */
  lemma RecordViewsCountSale(b: Books, x: SilageSale, selectedMonth: SelectedMonth, year: int)
    requires InSelection(x.dateOfPerchase, selectedMonth, year)
    ensures var p := CurrentPeriod(selectedMonth, year);
      CalculateTotals(Books(b.silage + [x], b.maize, b.expenses), RecordViews(), p)
      == CalculateTotals(b, RecordViews(), p).(
           silageAmount := CalculateTotals(b, RecordViews(), p).silageAmount + x.totalAmount,
           silageWeight := CalculateTotals(b, RecordViews(), p).silageWeight + x.weightKg)
  {
    var p := CurrentPeriod(selectedMonth, year);
    PeriodSumSnoc(b.silage, x, RecordViews().silage.date, RecordViews().silage.amount, p);
    PeriodSumSnoc(b.silage, x, RecordViews().silage.date, RecordViews().silage.weight, p);
  }
}
