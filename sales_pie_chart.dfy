/** The "Sales by Product" pie (SalesPieChart): silage and soybean sales
    totals of the selected month or year, each slice shown only when its
    total is positive. */
module SalesPieChart {
  import opened Common
  import opened Periods
  import opened Records
  import Lists
  import DashboardStats

  /** How the pie reads a silage sale and a soybean sale: their date and
      their amount. */
  datatype PieViews = PieViews(silage: DashboardStats.View<SilageSale>, soybean: DashboardStats.View<SoybeanSale>)

  /** The reads as written: `'date_of_perchase'`, `total_amount`,
      `'date_of_sale'`, `total_price`, keys the records do not have. */
  function AsWrittenPieViews(): PieViews {
    PieViews(DashboardStats.LowerCaseKeys(), DashboardStats.LowerCaseKeys())
  }

  /** The reads the record types call for. */
  function RecordPieViews(): PieViews {
    PieViews(
      DashboardStats.RecordViews().silage,
      DashboardStats.View((s: SoybeanSale) => s.dateOfSale, (s: SoybeanSale) => s.quantity,
        (s: SoybeanSale) => s.totalPrice))
  }

  function Selected<T>(date: T -> Stamp, selectedMonth: SelectedMonth, year: int): T -> bool {
    x => InSelection(date(x), selectedMonth, year)
  }

  /** `filterSales(sales, dateKey).reduce((sum, s) => sum + amount(s), 0)`. */
  function SelectionSum<T(!new)>(s: seq<T>, date: T -> Stamp, amount: T -> real, selectedMonth: SelectedMonth, year: int): real {
    Lists.Sum(Lists.Filter(s, Selected(date, selectedMonth, year)), amount)
  }

  /** The pie's selection is the cards' current period: the same records are
      summed. */
  lemma {:induction false} SelectionSumIsPeriodSum<T(!new)>(
    s: seq<T>, date: T -> Stamp, amount: T -> real, selectedMonth: SelectedMonth, year: int)
    ensures SelectionSum(s, date, amount, selectedMonth, year)
         == PeriodSum(s, date, amount, DashboardStats.CurrentPeriod(selectedMonth, year))
  {
    Lists.FilterSameTest(s, Selected(date, selectedMonth, year),
      DatedIn(date, DashboardStats.CurrentPeriod(selectedMonth, year)));
  }

  datatype Slice = Slice(name: string, value: real)

  function Positive(x: Slice): bool { x.value > 0.0 }

  /** The two slices, with a slice dropped when its total is not positive. */
  function Slices(silageTotal: real, soybeanTotal: real): (r: seq<Slice>)
    ensures |r| == (if silageTotal > 0.0 then 1 else 0) + (if soybeanTotal > 0.0 then 1 else 0)
    ensures forall x :: x in r ==> x.value > 0.0
    ensures Slice("Silage Sales", silageTotal) in r <==> silageTotal > 0.0
    ensures Slice("Soybean Sales", soybeanTotal) in r <==> soybeanTotal > 0.0
    ensures forall x :: x in r ==> x == Slice("Silage Sales", silageTotal) || x == Slice("Soybean Sales", soybeanTotal)
    ensures r == [] <==> silageTotal <= 0.0 && soybeanTotal <= 0.0
    ensures silageTotal > 0.0 ==> r[0] == Slice("Silage Sales", silageTotal)
  {
    var all := [Slice("Silage Sales", silageTotal), Slice("Soybean Sales", soybeanTotal)];
    assert all[0] in all && all[1] in all;
    var r := Lists.Filter(all, Positive);
    assert all[1..] == [all[1]] && all[1..][1..] == [];
    assert Lists.Filter(all[1..], Positive) == (if Positive(all[1]) then [all[1]] else []);
    assert r == (if Positive(all[0]) then [all[0]] else []) + Lists.Filter(all[1..], Positive);
    assert r != [] ==> r[0] in r;
    r
  }

  /** `pieData`. */
  function PieData(silageSales: seq<SilageSale>, soybeanSales: seq<SoybeanSale>, v: PieViews,
                   selectedMonth: SelectedMonth, year: int): seq<Slice> {
    Slices(SelectionSum(silageSales, v.silage.date, v.silage.amount, selectedMonth, year),
           SelectionSum(soybeanSales, v.soybean.date, v.soybean.amount, selectedMonth, year))
  }

  /** With the record fields, the silage slice, when shown, has the amount of
      the dashboard's silage card for the same selection. */
  lemma SilageSliceIsSilageCard(b: DashboardStats.Books, soybeanSales: seq<SoybeanSale>,
                                selectedMonth: SelectedMonth, year: int)
    ensures var pie := PieData(b.silage, soybeanSales, RecordPieViews(), selectedMonth, year);
      var card := DashboardStats.Stats(b, DashboardStats.RecordViews(), selectedMonth, year)[0];
      (card.amount > 0.0 <==> Slice("Silage Sales", card.amount) in pie)
      && (card.amount > 0.0 ==> pie[0] == Slice("Silage Sales", card.amount))
  {
    SelectionSumIsPeriodSum(b.silage, RecordPieViews().silage.date, RecordPieViews().silage.amount, selectedMonth, year);
  }

  /** As written, no sale passes the date filter, so the pie has no slice and
      the chart shows its "no data" message. */
  lemma {:induction false} AsWrittenPieIsEmpty(silageSales: seq<SilageSale>, soybeanSales: seq<SoybeanSale>,
                                               selectedMonth: SelectedMonth, year: int)
    ensures PieData(silageSales, soybeanSales, AsWrittenPieViews(), selectedMonth, year) == []
  {
    SelectionSumIsPeriodSum(silageSales, AsWrittenPieViews().silage.date, AsWrittenPieViews().silage.amount, selectedMonth, year);
    SelectionSumIsPeriodSum(soybeanSales, AsWrittenPieViews().soybean.date, AsWrittenPieViews().soybean.amount, selectedMonth, year);
    var p := DashboardStats.CurrentPeriod(selectedMonth, year);
    DashboardStats.NoValidDateSumsToZero(silageSales, AsWrittenPieViews().silage.amount, p);
    DashboardStats.NoValidDateSumsToZero(soybeanSales, AsWrittenPieViews().soybean.amount, p);
  }
}
