/** The silage bar chart (SilageWeightChart): the selected year's silage
    weight, in tonnes, bucketed by month. */
module SilageWeightChart {
  import opened Common
  import opened Periods
  import opened Records
  import Lists

  function SaleDate(s: SilageSale): Stamp { s.dateOfPerchase }

  /** `sale.WEIGHT_KG / 1000`. */
  function WeightInTons(s: SilageSale): real { s.weightKg / 1000.0 }

  function InYear(year: int): SilageSale -> bool {
    s => SaleDate(s).At? && SaleDate(s).year == year
  }

  function Id(x: real): real { x }

  /** The twelve monthly tonnages of `year` over the sales `s`. */
  function Buckets(s: seq<SilageSale>, year: int): (b: seq<real>)
    ensures |b| == 12
    ensures forall m: Month :: b[m] == PeriodSum(s, SaleDate, WeightInTons, Period(Some(m), year))
  {
    seq(12, m requires 0 <= m < 12 => PeriodSum(s, SaleDate, WeightInTons, Period(Some(m), year)))
  }

  /** With no sales every bucket is empty. */
  lemma BucketsEmpty(year: int)
    ensures Buckets([], year) == seq(12, _ => 0.0)
  {
  }

  /** A sale of `year` adds its tonnage to the bucket of its month and to no
      other. */
  lemma BucketsSnoc(s: seq<SilageSale>, x: SilageSale, year: int)
    requires SaleDate(x).At? && SaleDate(x).year == year
    ensures Buckets(s + [x], year)
         == Buckets(s, year)[SaleDate(x).month := Buckets(s, year)[SaleDate(x).month] + WeightInTons(x)]
  {
    forall m: Month
      ensures Buckets(s + [x], year)[m]
           == Buckets(s, year)[SaleDate(x).month := Buckets(s, year)[SaleDate(x).month] + WeightInTons(x)][m]
    {
      PeriodSumSnoc(s, x, SaleDate, WeightInTons, Period(Some(m), year));
    }
  }

  /** Narrowing the sales to the year first leaves every month's tonnage as
      it was. */
  lemma BucketsOfYear(s: seq<SilageSale>, year: int)
    ensures Buckets(Lists.Filter(s, InYear(year)), year) == Buckets(s, year)
  {
    forall m: Month
      ensures Buckets(Lists.Filter(s, InYear(year)), year)[m] == Buckets(s, year)[m]
    {
      Lists.FilterNarrow(s, InYear(year), DatedIn(SaleDate, Period(Some(m), year)));
    }
  }

  /** Every sale the year filter keeps is dated in that year. */
  lemma YearSaleIsInYear(sales: seq<SilageSale>, year: int, i: int)
    requires 0 <= i < |Lists.Filter(sales, InYear(year))|
    ensures SaleDate(Lists.Filter(sales, InYear(year))[i]).At?
    ensures SaleDate(Lists.Filter(sales, InYear(year))[i]).year == year
  {
    assert Lists.Filter(sales, InYear(year))[i] in Lists.Filter(sales, InYear(year));
  }

  /** One pass of the loop: adding sale `i`'s tonnage to its month's bucket
      turns the buckets of the first `i` sales into those of the first
      `i + 1`. */
  lemma BucketsStep(s: seq<SilageSale>, i: int, year: int, before: seq<real>, after: seq<real>)
    requires 0 <= i < |s|
    requires SaleDate(s[i]).At? && SaleDate(s[i]).year == year
    requires before == Buckets(s[..i], year)
    requires after == before[SaleDate(s[i]).month := before[SaleDate(s[i]).month] + WeightInTons(s[i])]
    ensures after == Buckets(s[..i + 1], year)
  {
    assert s[..i + 1] == s[..i] + [s[i]];
    BucketsSnoc(s[..i], s[i], year);
  }

  /** `chartData` before its two-decimal rounding: twelve buckets start at 0,
      and each sale of `year` adds its weight in tonnes to the bucket of its
      month. Bucket `m` is the tonnage of the sales dated in month `m` of
      `year`, and the buckets add up to the year's tonnage. The selected month
      plays no part. */
  method MonthlyWeights(sales: seq<SilageSale>, year: int) returns (tons: seq<real>)
    ensures tons == Buckets(sales, year)
    ensures |tons| == 12
    ensures forall m: Month :: tons[m] == PeriodSum(sales, SaleDate, WeightInTons, Period(Some(m), year))
    ensures Lists.Sum(tons, Id) == PeriodSum(sales, SaleDate, WeightInTons, Period(None, year))
  {
    var yearData := new real[12](_ => 0.0);
    var yearSales := Lists.Filter(sales, InYear(year));
    var i := 0;
    BucketsEmpty(year);
    assert yearData[..] == seq(12, _ => 0.0);
    assert yearSales[..0] == [];
    while i < |yearSales|
      invariant 0 <= i <= |yearSales|
      invariant yearData[..] == Buckets(yearSales[..i], year)
    {
      var sale := yearSales[i];
      YearSaleIsInYear(sales, year, i);
      var month := SaleDate(sale).month;
      ghost var before := yearData[..];
      yearData[month] := yearData[month] + WeightInTons(sale);
      assert yearData[..] == before[month := before[month] + WeightInTons(sale)];
      BucketsStep(yearSales, i, year, before, yearData[..]);
      i := i + 1;
    }
    assert yearSales[..i] == yearSales;
    tons := yearData[..];
    YearSalesChart(sales, year, tons);
  }

  /** Buckets built from the sales of `year` alone are the chart of all the
      sales: per month and in total. */
  lemma YearSalesChart(sales: seq<SilageSale>, year: int, tons: seq<real>)
    requires tons == Buckets(Lists.Filter(sales, InYear(year)), year)
    ensures tons == Buckets(sales, year)
    ensures |tons| == 12
    ensures forall m: Month :: tons[m] == PeriodSum(sales, SaleDate, WeightInTons, Period(Some(m), year))
    ensures Lists.Sum(tons, Id) == PeriodSum(sales, SaleDate, WeightInTons, Period(None, year))
  {
    BucketsOfYear(sales, year);
    BucketsAddUpToYear(sales, year);
  }

  /** The twelve buckets add up to the year's tonnage. */
  lemma BucketsAddUpToYear(sales: seq<SilageSale>, year: int)
    ensures Lists.Sum(Buckets(sales, year), Id) == PeriodSum(sales, SaleDate, WeightInTons, Period(None, year))
  {
    BucketsAddUp(Buckets(sales, year), sales, year, 12);
    assert Buckets(sales, year)[..12] == Buckets(sales, year);
    YearIsSumOfMonths(sales, SaleDate, WeightInTons, year);
  }

  /** The first `k` buckets add up to the tonnage of the first `k` months. */
  lemma {:induction false} BucketsAddUp(tons: seq<real>, sales: seq<SilageSale>, year: int, k: nat)
    requires k <= |tons| == 12
    requires forall m: Month :: tons[m] == PeriodSum(sales, SaleDate, WeightInTons, Period(Some(m), year))
    ensures Lists.Sum(tons[..k], Id) == MonthsSum(sales, SaleDate, WeightInTons, year, k)
  {
    if k > 0 {
      BucketsAddUp(tons, sales, year, k - 1);
      assert tons[..k][..k - 1] == tons[..k - 1];
      assert Lists.Sum(tons[..k], Id) == Lists.Sum(tons[..k - 1], Id) + tons[k - 1];
      var m: Month := k - 1;
      assert tons[m] == PeriodSum(sales, SaleDate, WeightInTons, Period(Some(m), year));
    }
  }
}
