/**
 * The `salesData` query: a `$facet` pipeline of eight group-and-sum views
 * over all stored sale records, followed by the renaming of each view's
 * group key into its public field name.
 */
module SalesQueries {
  import opened Wrappers
  import opened Calendar
  import opened Aggregation
  import opened Sorting
  import opened SalesTypes

  const DefaultTopSellingLimit: int := 10
  const DefaultPeriod: string := "daily"
  const QueryFailedMessage: string := "Failed to fetch sales data"

  /** The quarter of a month, by the pipeline's nested `$cond` on `$month`. */
  function Quarter(month: int): (q: nat)
    ensures 1 <= q <= 4
    ensures 1 <= month <= 12 ==> q == (month + 2) / 3
  {
    if month <= 3 then 1 else if month <= 6 then 2 else if month <= 9 then 3 else 4
  }

  /** The bucket label of a record's date under `period`; any unrecognised period buckets daily. */
  function GetGroupByPeriod(period: string, date: Timestamp): (bucket: string)
    ensures period == "monthly" ==> |bucket| == 7 && bucket[4] == '-'
    ensures period == "quarterly" ==> |bucket| == 7 && bucket[4..6] == "-Q"
    ensures period == "annually" ==> |bucket| == 4
    ensures period != "monthly" && period != "quarterly" && period != "annually" ==>
      |bucket| == 10 && bucket[4] == '-' && bucket[7] == '-'
    ensures forall i | 0 <= i < |bucket| :: IsDigit(bucket[i]) || bucket[i] == '-' || bucket[i] == 'Q'
  {
    if period == "monthly" then FormatYm(date)
    else if period == "quarterly" then FormatY(date) + "-Q" + [DigitChar(Quarter(date.month))]
    else if period == "annually" then FormatY(date)
    else FormatYmd(date)
  }

  // Group keys and summed fields of a record, as the pipeline names them.
  function PeriodKey(period: string): SaleRecord -> string { (r: SaleRecord) => GetGroupByPeriod(period, r.date) }
  function Region(r: SaleRecord): string { r.region }
  function Category(r: SaleRecord): string { r.category }
  function Product(r: SaleRecord): string { r.product }
  function Date(r: SaleRecord): Timestamp { r.date }
  datatype Demographic = Demographic(ageGroup: string, gender: string, occupation: string)
  function DemographicOf(r: SaleRecord): Demographic { Demographic(r.ageGroup, r.gender, r.occupation) }
  function Revenue(r: SaleRecord): int { r.salesRevenue }
  function Cost(r: SaleRecord): int { r.cost }
  function Profit(r: SaleRecord): int { r.profit }
  function Nothing(r: SaleRecord): int { 0 }

  /** `{ $sort: { totalSales: -1 } }` ranks by descending total. */
  function ByTotalDescending(b: Bucket<string>): int { -b.first }
  /** `{ $sort: { _id: 1 } }` on dates ranks by ascending instant. */
  function ByDate(b: Bucket<Timestamp>): int { Ordinal(b.key) }

  function Min(a: int, b: int): int { if a <= b then a else b }

  /** The eight `$facet` branches, before their keys are renamed. */
  datatype Facets = Facets(
    salesConversionRate: seq<Bucket<string>>,
    salesByRegion: seq<Bucket<string>>,
    salesByCategory: seq<Bucket<string>>,
    topSellingProducts: seq<Bucket<string>>,
    salesVsTarget: seq<Bucket<string>>,
    revenueAndProfit: seq<Bucket<Timestamp>>,
    customerDemographics: seq<Bucket<Demographic>>,
    salesTrendOverTime: seq<Bucket<string>>)

  /** Group by product, `$sort` by descending total, then `$limit`. */
  function TopSellingFacet(records: seq<SaleRecord>, limit: nat): (s: seq<Bucket<string>>)
    ensures |s| == Min(limit, |Group(records, Product, Revenue, Nothing)|)
  {
    var sorted := SortBy(Group(records, Product, Revenue, Nothing), ByTotalDescending);
    sorted[..Min(limit, |sorted|)]
  }

  /** Group by exact date, then `$sort` ascending by date. */
  function RevenueAndProfitFacet(records: seq<SaleRecord>): (s: seq<Bucket<Timestamp>>)
    ensures |s| == |Group(records, Date, Revenue, Profit)|
  {
    SortBy(Group(records, Date, Revenue, Profit), ByDate)
  }

  /** The `$facet` stage over all records. */
  function RunFacets(records: seq<SaleRecord>, limit: nat, period: string): (f: Facets)
    ensures |f.topSellingProducts| <= limit
    ensures |f.salesConversionRate| == |f.salesTrendOverTime|
    ensures KeySet(f.salesConversionRate, KeyOf) == KeySet(f.salesTrendOverTime, KeyOf)
  {
    Facets(
      Group(records, PeriodKey(period), Revenue, Nothing),
      Group(records, Region, Revenue, Nothing),
      Group(records, Category, Revenue, Nothing),
      TopSellingFacet(records, limit),
      Group(records, Product, Revenue, Cost),
      RevenueAndProfitFacet(records),
      Group(records, DemographicOf, Revenue, Nothing),
      Group(records, PeriodKey(period), Revenue, Nothing))
  }

  /** The conversion-rate `$project`: `totalSales / totalRecords` when there are records, else 0. */
  function ConversionRate(totalSales: int, totalRecords: int): (rate: real)
    ensures totalRecords > 0 ==> rate * totalRecords as real == totalSales as real
    ensures totalRecords <= 0 ==> rate == 0.0
  {
    if totalRecords > 0 then totalSales as real / totalRecords as real else 0.0
  }

  // The `$project` stages and `transformData` renames: each group key gets its public name.

  function RateRows(bs: seq<Bucket<string>>): (r: seq<SalesConversionRateResult>)
    ensures |r| == |bs|
    ensures forall i | 0 <= i < |r| :: r[i].period == bs[i].key && r[i].totalSales == bs[i].first && r[i].totalRecords == bs[i].count
  {
    seq(|bs|, i requires 0 <= i < |bs| =>
      SalesConversionRateResult(bs[i].key, bs[i].first, bs[i].count, ConversionRate(bs[i].first, bs[i].count)))
  }

  function RegionRows(bs: seq<Bucket<string>>): (r: seq<SalesByRegionResult>)
    ensures |r| == |bs|
    ensures forall i | 0 <= i < |r| :: r[i].region == bs[i].key && r[i].totalSales == bs[i].first
  {
    seq(|bs|, i requires 0 <= i < |bs| => SalesByRegionResult(bs[i].key, bs[i].first))
  }

  function CategoryRows(bs: seq<Bucket<string>>): (r: seq<SalesByCategoryResult>)
    ensures |r| == |bs|
    ensures forall i | 0 <= i < |r| :: r[i].category == bs[i].key && r[i].totalSales == bs[i].first
  {
    seq(|bs|, i requires 0 <= i < |bs| => SalesByCategoryResult(bs[i].key, bs[i].first))
  }

  function TopSellingRows(bs: seq<Bucket<string>>): (r: seq<TopSellingProductsResult>)
    ensures |r| == |bs|
    ensures forall i | 0 <= i < |r| :: r[i].product == bs[i].key && r[i].totalSales == bs[i].first
  {
    seq(|bs|, i requires 0 <= i < |bs| => TopSellingProductsResult(bs[i].key, bs[i].first))
  }

  function VsTargetRows(bs: seq<Bucket<string>>): (r: seq<SalesVsTargetResult>)
    ensures |r| == |bs|
    ensures forall i | 0 <= i < |r| :: r[i].product == bs[i].key && r[i].actualSales == bs[i].first && r[i].targetSales == bs[i].second
  {
    seq(|bs|, i requires 0 <= i < |bs| => SalesVsTargetResult(bs[i].key, bs[i].first, bs[i].second))
  }

  function RevenueAndProfitRows(bs: seq<Bucket<Timestamp>>): (r: seq<RevenueAndProfitResult>)
    ensures |r| == |bs|
    ensures forall i | 0 <= i < |r| :: r[i].date == IsoString(bs[i].key) && r[i].totalRevenue == bs[i].first && r[i].totalProfit == bs[i].second
  {
    seq(|bs|, i requires 0 <= i < |bs| => RevenueAndProfitResult(IsoString(bs[i].key), bs[i].first, bs[i].second))
  }

  function DemographicRows(bs: seq<Bucket<Demographic>>): (r: seq<CustomerDemographicsResult>)
    ensures |r| == |bs|
    ensures forall i | 0 <= i < |r| :: DemographicKey(r[i]) == bs[i].key && r[i].totalSales == bs[i].first
  {
    seq(|bs|, i requires 0 <= i < |bs| =>
      CustomerDemographicsResult(bs[i].key.ageGroup, bs[i].key.gender, bs[i].key.occupation, bs[i].first))
  }

  function TrendRows(bs: seq<Bucket<string>>): (r: seq<SalesTrend>)
    ensures |r| == |bs|
    ensures forall i | 0 <= i < |r| :: r[i].period == bs[i].key && r[i].totalSales == bs[i].first
  {
    seq(|bs|, i requires 0 <= i < |bs| => SalesTrend(bs[i].key, bs[i].first))
  }

  function TransformData(f: Facets): (r: SalesReport)
    ensures |r.salesConversionRate| == |f.salesConversionRate| && |r.salesByRegion| == |f.salesByRegion|
    ensures |r.salesByCategory| == |f.salesByCategory| && |r.topSellingProducts| == |f.topSellingProducts|
    ensures |r.salesVsTarget| == |f.salesVsTarget| && |r.revenueAndProfit| == |f.revenueAndProfit|
    ensures |r.customerDemographics| == |f.customerDemographics| && |r.salesTrendOverTime| == |f.salesTrendOverTime|
  {
    SalesReport(
      RateRows(f.salesConversionRate),
      RegionRows(f.salesByRegion),
      CategoryRows(f.salesByCategory),
      TopSellingRows(f.topSellingProducts),
      VsTargetRows(f.salesVsTarget),
      RevenueAndProfitRows(f.revenueAndProfit),
      DemographicRows(f.customerDemographics),
      TrendRows(f.salesTrendOverTime))
  }

  /** The report over a snapshot of the store, for any limit; `SalesData` passes a positive one. */
  function Report(records: seq<SaleRecord>, limit: nat, period: string): (r: SalesReport)
    ensures |r.topSellingProducts| <= limit
    ensures |r.salesConversionRate| == |r.salesTrendOverTime|
  {
    TransformData(RunFacets(records, limit, period))
  }

  /**
   * The nullable `topSellingLimit: Int` argument as the resolver receives it:
   * left out, an explicit `null`, or a number. The destructuring default
   * replaces only a left-out argument, so `null` reaches the `$limit` stage.
   */
  datatype LimitArg = LimitAbsent | LimitNull | LimitGiven(value: int)

  /** The limit the `$limit` stage receives; `None` for `null`. */
  function StageLimit(a: LimitArg): (l: Option<int>)
    ensures a.LimitAbsent? ==> l == Some(DefaultTopSellingLimit)
    ensures a.LimitNull? <==> l.None?
    ensures a.LimitGiven? ==> l == Some(a.value)
  {
    match a
    case LimitAbsent => Some(DefaultTopSellingLimit)
    case LimitNull => None
    case LimitGiven(n) => Some(n)
  }

  /** Some record's date lies outside the years 0-9999, the only ones `$dateToString` formats. */
  predicate HasUnformattableDate(records: seq<SaleRecord>)
  {
    exists j | 0 <= j < |records| :: records[j].date.year < 0 || records[j].date.year > 9999
  }

  /**
   * The `salesData` resolver. `store` is the record store's answer to the
   * aggregation (None when the store call fails); a left-out argument takes
   * its default. A `$limit` stage given `null` or a non-positive number is
   * refused, and so is a date every period key formats with `$dateToString`
   * when its year is before 0 or past 9999: either way the query fails as for any store
   * error.
   */
  function SalesData(store: Option<seq<SaleRecord>>, topSellingLimit: LimitArg, period: Option<string>)
    : (r: Result<SalesReport, string>)
    ensures r.Failure? <==>
      || store.None? || topSellingLimit.LimitNull? || (topSellingLimit.LimitGiven? && topSellingLimit.value <= 0)
      || HasUnformattableDate(store.value)
    ensures r.Failure? ==> r.error == QueryFailedMessage
    ensures r.Success? ==>
      r.value == Report(store.value, StageLimit(topSellingLimit).value, period.GetOr(DefaultPeriod))
    ensures topSellingLimit.LimitAbsent? && store.Some? && !HasUnformattableDate(store.value) ==>
      r == Success(Report(store.value, DefaultTopSellingLimit, period.GetOr(DefaultPeriod)))
  {
    var limit := StageLimit(topSellingLimit);
    if store.None? || limit.None? || limit.value <= 0 || HasUnformattableDate(store.value) then
      Failure(QueryFailedMessage)
    else Success(Report(store.value, limit.value, period.GetOr(DefaultPeriod)))
  }

  // ---------------------------------------------------------------------
  // Period bucketing

  lemma Pow10Values()
    ensures Pow10(2) == 100 && Pow10(4) == 10000
  {
    assert Pow10(1) == 10;
    assert Pow10(3) == 1000;
  }

  /** The quarterly label is `YYYY-Q` and a digit 1..4 that is the month's quarter, `ceil(month / 3)`. */
  lemma QuarterlyLabel(t: Timestamp)
    requires Valid(t)
    ensures var l := GetGroupByPeriod("quarterly", t);
      && |l| == 7 && DigitsValue(l[..4]) == t.year && l[4..6] == "-Q"
      && (forall i | 0 <= i < 4 :: IsDigit(l[i]))
      && '1' <= l[6] <= '4' && CharValue(l[6]) == (t.month + 2) / 3
  {
    var l := GetGroupByPeriod("quarterly", t);
    Pow10Values();
    FormatYReadsBack(t);
    assert l[..4] == FormatY(t);
  }

  /** `monthly` renders `YYYY-MM`, `annually` `YYYY`, `daily` and every unrecognised period `YYYY-MM-DD`. */
  lemma PeriodLabelFormats(t: Timestamp, period: string)
    requires Valid(t)
    ensures var l := GetGroupByPeriod("monthly", t);
      && |l| == 7 && DigitsValue(l[..4]) == t.year && l[4] == '-' && DigitsValue(l[5..]) == t.month
      && (forall i | 0 <= i < |l| && i != 4 :: IsDigit(l[i]))
    ensures var l := GetGroupByPeriod("annually", t);
      && |l| == 4 && DigitsValue(l) == t.year
      && (forall i | 0 <= i < |l| :: IsDigit(l[i]))
    ensures var l := GetGroupByPeriod("daily", t);
      && |l| == 10 && DigitsValue(l[..4]) == t.year && l[4] == '-' && DigitsValue(l[5..7]) == t.month
      && l[7] == '-' && DigitsValue(l[8..]) == t.day
      && (forall i | 0 <= i < |l| && i != 4 && i != 7 :: IsDigit(l[i]))
    ensures period != "monthly" && period != "quarterly" && period != "annually" ==>
      GetGroupByPeriod(period, t) == GetGroupByPeriod("daily", t)
  {
    Pow10Values();
    FormatYReadsBack(t);
    DigitsRoundTrip(t.month, 2);
    DigitsRoundTrip(t.day, 2);
    var m := GetGroupByPeriod("monthly", t);
    assert m[..4] == FormatY(t) && m[5..] == Digits(t.month, 2);
    var d := GetGroupByPeriod("daily", t);
    assert d[..4] == FormatY(t) && d[5..7] == Digits(t.month, 2) && d[8..] == Digits(t.day, 2);
  }

  /** Two valid dates share a bucket exactly when they agree on the fields the period keeps. */
  lemma BucketsSeparate(a: Timestamp, b: Timestamp)
    requires Valid(a) && Valid(b)
    ensures GetGroupByPeriod("daily", a) == GetGroupByPeriod("daily", b) <==>
      a.year == b.year && a.month == b.month && a.day == b.day
    ensures GetGroupByPeriod("monthly", a) == GetGroupByPeriod("monthly", b) <==>
      a.year == b.year && a.month == b.month
    ensures GetGroupByPeriod("quarterly", a) == GetGroupByPeriod("quarterly", b) <==>
      a.year == b.year && Quarter(a.month) == Quarter(b.month)
    ensures GetGroupByPeriod("annually", a) == GetGroupByPeriod("annually", b) <==>
      a.year == b.year
  {
    PeriodLabelFormats(a, "daily");
    PeriodLabelFormats(b, "daily");
    QuarterlyLabel(a);
    QuarterlyLabel(b);
    var qa, qb := GetGroupByPeriod("quarterly", a), GetGroupByPeriod("quarterly", b);
    if qa == qb {
      assert qa[..4] == qb[..4] && qa[6] == qb[6];
    }
    var da, db := GetGroupByPeriod("daily", a), GetGroupByPeriod("daily", b);
    if da == db {
      assert da[..4] == db[..4] && da[5..7] == db[5..7] && da[8..] == db[8..];
    }
    var ma, mb := GetGroupByPeriod("monthly", a), GetGroupByPeriod("monthly", b);
    if ma == mb {
      assert ma[..4] == mb[..4] && ma[5..] == mb[5..];
    }
  }

  /** July 2023 dates bucket to `2023-07` monthly, `2023-Q3` quarterly and to their own day daily. */
  lemma July2023Buckets(millis: nat)
    requires millis < MillisPerDay
    ensures GetGroupByPeriod("monthly", Timestamp(2023, 7, 1, millis)) == "2023-07"
    ensures GetGroupByPeriod("quarterly", Timestamp(2023, 7, 15, millis)) == "2023-Q3"
    ensures GetGroupByPeriod("daily", Timestamp(2023, 7, 1, millis)) == "2023-07-01"
  {
    July2023Digits();
    var m, q, d := Timestamp(2023, 7, 1, millis), Timestamp(2023, 7, 15, millis), Timestamp(2023, 7, 1, millis);
    assert FormatYm(m) == "2023" + "-" + "07";
    assert Quarter(7) == 3 && DigitChar(3) == '3';
    assert FormatY(q) + "-Q" + [DigitChar(Quarter(q.month))] == "2023" + "-Q" + "3";
    assert FormatYmd(d) == "2023" + "-" + "07" + "-" + "01";
  }

  /** The zero-padded renderings of 2023, 07 and 01. */
  lemma July2023Digits()
    ensures Digits(2023, 4) == "2023" && Digits(7, 2) == "07" && Digits(1, 2) == "01"
  {
    assert Digits(2, 1) == "2";
    assert Digits(20, 2) == "20";
    assert Digits(202, 3) == "202";
    assert Digits(0, 1) == "0";
  }

  // ---------------------------------------------------------------------
  // The grouped views

  // Projections of the public rows, for stating totals and key sets.
  function RegionName(e: SalesByRegionResult): string { e.region }
  function RegionTotal(e: SalesByRegionResult): int { e.totalSales }
  function CategoryName(e: SalesByCategoryResult): string { e.category }
  function CategoryTotal(e: SalesByCategoryResult): int { e.totalSales }
  function TargetProduct(e: SalesVsTargetResult): string { e.product }
  function ActualTotal(e: SalesVsTargetResult): int { e.actualSales }
  function TargetTotal(e: SalesVsTargetResult): int { e.targetSales }
  function DemographicKey(e: CustomerDemographicsResult): Demographic { Demographic(e.ageGroup, e.gender, e.occupation) }
  function DemographicTotal(e: CustomerDemographicsResult): int { e.totalSales }
  function TrendPeriod(e: SalesTrend): string { e.period }
  function TrendTotal(e: SalesTrend): int { e.totalSales }
  function RatePeriod(e: SalesConversionRateResult): string { e.period }
  function RateTotal(e: SalesConversionRateResult): int { e.totalSales }
  function RateRecords(e: SalesConversionRateResult): int { e.totalRecords }

  /** Sales by region: one entry per region that occurs, holding that region's revenue; the entries add up to all revenue. */
  lemma SalesByRegionSpec(records: seq<SaleRecord>, limit: nat, period: string)
    ensures var v := Report(records, limit, period).salesByRegion;
      && (forall i, j | 0 <= i < j < |v| :: v[i].region != v[j].region)
      && KeySet(v, RegionName) == KeySet(records, Region)
      && (forall i | 0 <= i < |v| :: v[i].totalSales == SumWhere(records, Region, v[i].region, Revenue))
      && Total(v, RegionTotal) == Total(records, Revenue)
  {
    var bs := Group(records, Region, Revenue, Nothing);
    var v := Report(records, limit, period).salesByRegion;
    assert v == RegionRows(bs);
    GroupFacts(records, Region, Revenue, Nothing);
    KeySetPointwise(v, RegionName, bs, KeyOf);
    TotalPointwise(v, RegionTotal, bs, First);
  }

  /** Sales by category: one entry per category that occurs, holding its revenue; the entries add up to all revenue. */
  lemma SalesByCategorySpec(records: seq<SaleRecord>, limit: nat, period: string)
    ensures var v := Report(records, limit, period).salesByCategory;
      && (forall i, j | 0 <= i < j < |v| :: v[i].category != v[j].category)
      && KeySet(v, CategoryName) == KeySet(records, Category)
      && (forall i | 0 <= i < |v| :: v[i].totalSales == SumWhere(records, Category, v[i].category, Revenue))
      && Total(v, CategoryTotal) == Total(records, Revenue)
  {
    var bs := Group(records, Category, Revenue, Nothing);
    var v := Report(records, limit, period).salesByCategory;
    assert v == CategoryRows(bs);
    GroupFacts(records, Category, Revenue, Nothing);
    KeySetPointwise(v, CategoryName, bs, KeyOf);
    TotalPointwise(v, CategoryTotal, bs, First);
  }

  /**
   * Sales vs target: one entry per product that occurs, with the product's
   * summed revenue as `actualSales` and its summed cost as `targetSales`.
   */
  lemma SalesVsTargetSpec(records: seq<SaleRecord>, limit: nat, period: string)
    ensures var v := Report(records, limit, period).salesVsTarget;
      && (forall i, j | 0 <= i < j < |v| :: v[i].product != v[j].product)
      && KeySet(v, TargetProduct) == KeySet(records, Product)
      && (forall i | 0 <= i < |v| ::
            && v[i].actualSales == SumWhere(records, Product, v[i].product, Revenue)
            && v[i].targetSales == SumWhere(records, Product, v[i].product, Cost))
      && Total(v, ActualTotal) == Total(records, Revenue)
      && Total(v, TargetTotal) == Total(records, Cost)
  {
    var bs := Group(records, Product, Revenue, Cost);
    var v := Report(records, limit, period).salesVsTarget;
    assert v == VsTargetRows(bs);
    GroupFacts(records, Product, Revenue, Cost);
    KeySetPointwise(v, TargetProduct, bs, KeyOf);
    TotalPointwise(v, ActualTotal, bs, First);
    TotalPointwise(v, TargetTotal, bs, Second);
  }

  /** Customer demographics: one entry per (ageGroup, gender, occupation) triple that occurs, holding its revenue. */
  lemma CustomerDemographicsSpec(records: seq<SaleRecord>, limit: nat, period: string)
    ensures var v := Report(records, limit, period).customerDemographics;
      && (forall i, j | 0 <= i < j < |v| :: DemographicKey(v[i]) != DemographicKey(v[j]))
      && KeySet(v, DemographicKey) == KeySet(records, DemographicOf)
      && (forall i | 0 <= i < |v| :: v[i].totalSales == SumWhere(records, DemographicOf, DemographicKey(v[i]), Revenue))
      && Total(v, DemographicTotal) == Total(records, Revenue)
  {
    var bs := Group(records, DemographicOf, Revenue, Nothing);
    var v := Report(records, limit, period).customerDemographics;
    assert v == DemographicRows(bs);
    GroupFacts(records, DemographicOf, Revenue, Nothing);
    assert forall i | 0 <= i < |v| :: DemographicKey(v[i]) == bs[i].key;
    KeySetPointwise(v, DemographicKey, bs, KeyOf);
    TotalPointwise(v, DemographicTotal, bs, First);
  }

  /** Sales trend: one entry per period bucket that occurs, holding the revenue of the records in that bucket. */
  lemma SalesTrendSpec(records: seq<SaleRecord>, limit: nat, period: string)
    ensures var v := Report(records, limit, period).salesTrendOverTime;
      && (forall i, j | 0 <= i < j < |v| :: v[i].period != v[j].period)
      && KeySet(v, TrendPeriod) == KeySet(records, PeriodKey(period))
      && (forall i | 0 <= i < |v| :: v[i].totalSales == SumWhere(records, PeriodKey(period), v[i].period, Revenue))
      && Total(v, TrendTotal) == Total(records, Revenue)
  {
    var key := PeriodKey(period);
    var bs := Group(records, key, Revenue, Nothing);
    var v := Report(records, limit, period).salesTrendOverTime;
    assert v == TrendRows(bs);
    GroupFacts(records, key, Revenue, Nothing);
    KeySetPointwise(v, TrendPeriod, bs, KeyOf);
    TotalPointwise(v, TrendTotal, bs, First);
  }

  /**
   * Conversion rate: one entry per period bucket that occurs; `totalRecords`
   * counts the bucket's records (never zero), `totalSales` sums their revenue,
   * and `conversionRate` is their quotient (see `ConversionRate`). The counts add up to the number of records.
   */
  lemma SalesConversionRateSpec(records: seq<SaleRecord>, limit: nat, period: string)
    ensures var v := Report(records, limit, period).salesConversionRate;
      && (forall i, j | 0 <= i < j < |v| :: v[i].period != v[j].period)
      && KeySet(v, RatePeriod) == KeySet(records, PeriodKey(period))
      && (forall i | 0 <= i < |v| ::
            && v[i].totalSales == SumWhere(records, PeriodKey(period), v[i].period, Revenue)
            && v[i].totalRecords == CountWhere(records, PeriodKey(period), v[i].period)
            && v[i].totalRecords > 0
            && v[i].conversionRate == ConversionRate(v[i].totalSales, v[i].totalRecords))
      && Total(v, RateTotal) == Total(records, Revenue)
      && Total(v, RateRecords) == |records|
  {
    var key := PeriodKey(period);
    var bs := Group(records, key, Revenue, Nothing);
    var v := Report(records, limit, period).salesConversionRate;
    assert v == RateRows(bs);
    GroupFacts(records, key, Revenue, Nothing);
    forall i | 0 <= i < |v|
      ensures v[i].totalRecords > 0
    {
      assert bs[i].key in KeySet(bs, KeyOf);
      var j :| 0 <= j < |records| && key(records[j]) == bs[i].key;
      CountPositive(records, key, j);
    }
    KeySetPointwise(v, RatePeriod, bs, KeyOf);
    TotalPointwise(v, RateTotal, bs, First);
    TotalPointwise(v, RateRecords, bs, Count);
  }

  /**
   * The conversion-rate and trend views group by the same period key: they
   * list the same periods and give each period the same sales, whatever
   * order each `$group` returns its buckets in.
   */
  lemma RateAndTrendAgree(records: seq<SaleRecord>, limit: nat, period: string)
    ensures var r := Report(records, limit, period);
      var conv, trend := r.salesConversionRate, r.salesTrendOverTime;
      && |conv| == |trend|
      && KeySet(conv, RatePeriod) == KeySet(trend, TrendPeriod)
      && forall i, j | 0 <= i < |conv| && 0 <= j < |trend| && conv[i].period == trend[j].period ::
           conv[i].totalSales == trend[j].totalSales
  {
    SalesTrendSpec(records, limit, period);
    SalesConversionRateSpec(records, limit, period);
  }

  // ---------------------------------------------------------------------
  // Top-selling products

  /** The sorted, truncated product buckets: at most `limit` distinct products, best first. */
  lemma TopSellingFacetSpec(records: seq<SaleRecord>, limit: nat)
    ensures var s, bs := TopSellingFacet(records, limit), Group(records, Product, Revenue, Nothing);
      && |s| == Min(limit, |bs|)
      && (forall i | 0 <= i < |s| :: s[i] in bs)
      && (forall i, j | 0 <= i < j < |s| :: s[i].key != s[j].key)
      && (forall i, j | 0 <= i < j < |s| :: s[i].first >= s[j].first)
  {
    var bs := Group(records, Product, Revenue, Nothing);
    var sorted := SortBy(bs, ByTotalDescending);
    var s := TopSellingFacet(records, limit);
    SortBySpec(bs, ByTotalDescending);
    GroupFacts(records, Product, Revenue, Nothing);
    PermutationKeepsDistinct(bs, sorted, KeyOf);
    forall i | 0 <= i < |s| ensures s[i] in bs {
      assert s[i] == sorted[i];
      assert sorted[i] in multiset(bs);
    }
    forall i, j | 0 <= i < j < |s| ensures s[i].key != s[j].key && s[i].first >= s[j].first {
      assert KeyOf(sorted[i]) != KeyOf(sorted[j]);
      assert ByTotalDescending(sorted[i]) <= ByTotalDescending(sorted[j]);
    }
  }

  /** The `$limit` cut keeps the best buckets, and keeps them all when fewer than `limit` exist. */
  lemma TopSellingFacetCut(records: seq<SaleRecord>, limit: nat)
    ensures var s, bs := TopSellingFacet(records, limit), Group(records, Product, Revenue, Nothing);
      && (forall k | 0 <= k < |bs| && bs[k] !in s :: forall i | 0 <= i < |s| :: bs[k].first <= s[i].first)
      && (|s| < limit ==> forall k | 0 <= k < |bs| :: bs[k] in s)
  {
    var bs := Group(records, Product, Revenue, Nothing);
    var sorted := SortBy(bs, ByTotalDescending);
    var m := Min(limit, |sorted|);
    var s := sorted[..m];
    SortBySpec(bs, ByTotalDescending);
    forall k | 0 <= k < |bs| && bs[k] !in s ensures forall i | 0 <= i < |s| :: bs[k].first <= s[i].first {
      assert bs[k] in multiset(sorted);
      var q :| 0 <= q < |sorted| && sorted[q] == bs[k];
      forall i | 0 <= i < |s| ensures bs[k].first <= s[i].first {
        assert ByTotalDescending(sorted[i]) <= ByTotalDescending(sorted[q]);
      }
    }
    if |s| < limit {
      assert s == sorted;
      forall k | 0 <= k < |bs| ensures bs[k] in s {
        assert bs[k] in multiset(sorted);
      }
    }
  }

  function TopProduct(e: TopSellingProductsResult): string { e.product }

  /**
   * Top-selling products: at most `limit` distinct products that occur, best
   * first, each with its summed revenue.
   */
  lemma TopSellingProductsSpec(records: seq<SaleRecord>, limit: nat, period: string)
    ensures var t := Report(records, limit, period).topSellingProducts;
      && |t| <= limit
      && (forall i, j | 0 <= i < j < |t| :: t[i].product != t[j].product)
      && (forall i, j | 0 <= i < j < |t| :: t[i].totalSales >= t[j].totalSales)
      && (forall i | 0 <= i < |t| :: t[i].totalSales == SumWhere(records, Product, t[i].product, Revenue))
      && KeySet(t, TopProduct) <= KeySet(records, Product)
  {
    var bs := Group(records, Product, Revenue, Nothing);
    var s := TopSellingFacet(records, limit);
    var t := Report(records, limit, period).topSellingProducts;
    assert t == TopSellingRows(s);
    TopSellingFacetSpec(records, limit);
    GroupFacts(records, Product, Revenue, Nothing);
    forall i | 0 <= i < |t| ensures t[i].totalSales == SumWhere(records, Product, t[i].product, Revenue) {
      var k :| 0 <= k < |bs| && bs[k] == s[i];
    }
    forall p | p in KeySet(t, TopProduct) ensures p in KeySet(bs, KeyOf) {
      var i :| 0 <= i < |t| && TopProduct(t[i]) == p;
      var k :| 0 <= k < |bs| && bs[k] == s[i];
      assert KeyOf(bs[k]) == p;
    }
  }

  /** The `$limit` cut keeps the best: a product left out sold no more than any product listed. */
  lemma TopSellingProductsRanking(records: seq<SaleRecord>, limit: nat, period: string)
    ensures var t := Report(records, limit, period).topSellingProducts;
      forall p | p in KeySet(records, Product) && p !in KeySet(t, TopProduct) ::
        forall i | 0 <= i < |t| :: SumWhere(records, Product, p, Revenue) <= t[i].totalSales
  {
    var bs := Group(records, Product, Revenue, Nothing);
    var s := TopSellingFacet(records, limit);
    var t := Report(records, limit, period).topSellingProducts;
    assert t == TopSellingRows(s);
    KeySetPointwise(t, TopProduct, s, KeyOf);
    GroupFacts(records, Product, Revenue, Nothing);
    TopSellingFacetCut(records, limit);
    forall p | p in KeySet(records, Product) && p !in KeySet(t, TopProduct)
      ensures forall i | 0 <= i < |t| :: SumWhere(records, Product, p, Revenue) <= t[i].totalSales
    {
      var k :| 0 <= k < |bs| && KeyOf(bs[k]) == p;
    }
  }

  /** Fewer than `limit` entries means every product that occurs is listed. */
  lemma TopSellingProductsComplete(records: seq<SaleRecord>, limit: nat, period: string)
    ensures var t := Report(records, limit, period).topSellingProducts;
      |t| < limit ==> KeySet(t, TopProduct) == KeySet(records, Product)
  {
    var bs := Group(records, Product, Revenue, Nothing);
    var s := TopSellingFacet(records, limit);
    var t := Report(records, limit, period).topSellingProducts;
    assert t == TopSellingRows(s);
    if |t| < limit {
      KeySetPointwise(t, TopProduct, s, KeyOf);
      GroupFacts(records, Product, Revenue, Nothing);
      TopSellingFacetSpec(records, limit);
      TopSellingFacetCut(records, limit);
      SameBucketsSameKeys(s, bs);
    }
  }

  /** Two bucket lists that each hold every bucket of the other have the same keys. */
  lemma SameBucketsSameKeys<K>(s: seq<Bucket<K>>, bs: seq<Bucket<K>>)
    requires forall i | 0 <= i < |s| :: s[i] in bs
    requires forall k | 0 <= k < |bs| :: bs[k] in s
    ensures KeySet(s, KeyOf) == KeySet(bs, KeyOf)
  {
    forall p | p in KeySet(bs, KeyOf) ensures p in KeySet(s, KeyOf) {
      var k :| 0 <= k < |bs| && KeyOf(bs[k]) == p;
      var i :| 0 <= i < |s| && s[i] == bs[k];
      assert KeyOf(s[i]) == p;
    }
    forall p | p in KeySet(s, KeyOf) ensures p in KeySet(bs, KeyOf) {
      var i :| 0 <= i < |s| && KeyOf(s[i]) == p;
      var k :| 0 <= k < |bs| && bs[k] == s[i];
      assert KeyOf(bs[k]) == p;
    }
  }

  // ---------------------------------------------------------------------
  // Revenue and profit over time

  /** A reordering of buckets holds the same buckets and the same keys. */
  lemma PermutedBuckets<K>(bs: seq<Bucket<K>>, s: seq<Bucket<K>>)
    requires multiset(s) == multiset(bs)
    ensures forall i | 0 <= i < |s| :: s[i] in bs
    ensures KeySet(s, KeyOf) == KeySet(bs, KeyOf)
  {
    forall i | 0 <= i < |s| ensures s[i] in bs {
      assert s[i] in multiset(bs);
    }
    forall k | k in KeySet(s, KeyOf) ensures k in KeySet(bs, KeyOf) {
      var i :| 0 <= i < |s| && KeyOf(s[i]) == k;
      var m :| 0 <= m < |bs| && bs[m] == s[i];
      assert KeyOf(bs[m]) == k;
    }
    forall k | k in KeySet(bs, KeyOf) ensures k in KeySet(s, KeyOf) {
      var m :| 0 <= m < |bs| && KeyOf(bs[m]) == k;
      assert bs[m] in multiset(s);
      var i :| 0 <= i < |s| && s[i] == bs[m];
      assert KeyOf(s[i]) == k;
    }
  }

  /** Date buckets sorted by rank, with distinct valid instants, are strictly ascending in time. */
  lemma SortedDatesAscend(s: seq<Bucket<Timestamp>>)
    requires SortedBy(s, ByDate)
    requires forall i, j | 0 <= i < j < |s| :: KeyOf(s[i]) != KeyOf(s[j])
    requires forall i | 0 <= i < |s| :: Valid(s[i].key)
    ensures forall i, j | 0 <= i < j < |s| :: Before(s[i].key, s[j].key)
  {
    forall i, j | 0 <= i < j < |s| ensures Before(s[i].key, s[j].key) {
      assert KeyOf(s[i]) != KeyOf(s[j]);
      assert ByDate(s[i]) <= ByDate(s[j]);
      OrdinalOrder(s[i].key, s[j].key);
    }
  }

  /**
   * The date buckets, sorted: one per instant that occurs, strictly ascending
   * in time, each holding the revenue and the profit recorded at that instant.
   */
  lemma RevenueAndProfitFacetSpec(records: seq<SaleRecord>)
    requires forall j | 0 <= j < |records| :: Valid(records[j].date)
    ensures var s := RevenueAndProfitFacet(records);
      && (forall i, j | 0 <= i < j < |s| :: Before(s[i].key, s[j].key))
      && KeySet(s, KeyOf) == KeySet(records, Date)
      && (forall i | 0 <= i < |s| ::
            && s[i].first == SumWhere(records, Date, s[i].key, Revenue)
            && s[i].second == SumWhere(records, Date, s[i].key, Profit))
  {
    var bs := Group(records, Date, Revenue, Profit);
    var s := RevenueAndProfitFacet(records);
    SortBySpec(bs, ByDate);
    GroupFacts(records, Date, Revenue, Profit);
    PermutationKeepsDistinct(bs, s, KeyOf);
    PermutedBuckets(bs, s);
    forall i | 0 <= i < |s| ensures Valid(s[i].key) {
      assert s[i].key in KeySet(bs, KeyOf);
      var j :| 0 <= j < |records| && Date(records[j]) == s[i].key;
    }
    SortedDatesAscend(s);
  }

  /**
   * Revenue and profit: entry `i` is the `i`-th instant of the sorted date
   * buckets, rendered as an ISO 8601 string, with the revenue and the profit
   * recorded at that instant.
   */
  lemma RevenueAndProfitSpec(records: seq<SaleRecord>, limit: nat, period: string)
    requires forall j | 0 <= j < |records| :: Valid(records[j].date)
    ensures var v, s := Report(records, limit, period).revenueAndProfit, RevenueAndProfitFacet(records);
      && |v| == |s|
      && (forall i, j | 0 <= i < j < |s| :: Before(s[i].key, s[j].key))
      && KeySet(s, KeyOf) == KeySet(records, Date)
      && (forall i | 0 <= i < |v| :: v[i] == RevenueAndProfitResult(IsoString(s[i].key),
            SumWhere(records, Date, s[i].key, Revenue), SumWhere(records, Date, s[i].key, Profit)))
  {
    assert Report(records, limit, period).revenueAndProfit == RevenueAndProfitRows(RevenueAndProfitFacet(records));
    RevenueAndProfitFacetSpec(records);
  }

  // ---------------------------------------------------------------------
  // Worked examples

  /** A record with the given grouping fields; the rest are fixed filler. */
  function Sample(product: string, region: string, revenue: int, cost: int, date: Timestamp): SaleRecord
  {
    SaleRecord("", product, revenue, region, "C1", date, cost, 0, "25-34", "Male", "Engineer", date, date)
  }

  /** No records: every view is present and empty. */
  lemma EmptyReport(limit: nat, period: string)
    ensures Report([], limit, period) == SalesReport([], [], [], [], [], [], [], [])
  {
    assert TopSellingFacet([], limit) == [];
  }

  /** Two sales of 100 and 200 in region R1 give one region entry of 300. */
  lemma ScenarioRegionSum(date: Timestamp)
    ensures Report([Sample("P1", "R1", 100, 0, date), Sample("P2", "R1", 200, 0, date)], DefaultTopSellingLimit, DefaultPeriod)
      .salesByRegion == [SalesByRegionResult("R1", 300)]
  {
    var records := [Sample("P1", "R1", 100, 0, date), Sample("P2", "R1", 200, 0, date)];
    assert records[..1] == [records[0]] && [records[0]][..0] == [];
    assert Group([records[0]], Region, Revenue, Nothing) == [Bucket("R1", 100, 0, 1)];
    assert Group(records, Region, Revenue, Nothing) == [Bucket("R1", 300, 0, 2)];
  }

  /** One sale dated 2023-07-15, bucketed quarterly, gives the trend entry `2023-Q3`. */
  lemma ScenarioQuarterlyTrend(revenue: int)
    ensures Report([Sample("P1", "R1", revenue, 0, Timestamp(2023, 7, 15, 0))], DefaultTopSellingLimit, "quarterly")
      .salesTrendOverTime == [SalesTrend("2023-Q3", revenue)]
  {
    var records := [Sample("P1", "R1", revenue, 0, Timestamp(2023, 7, 15, 0))];
    July2023Buckets(0);
    assert records[..0] == [];
    assert Group(records, PeriodKey("quarterly"), Revenue, Nothing) == [Bucket("2023-Q3", revenue, 0, 1)];
  }

  /** Two products with revenue 100 / 200 and cost 150 / 250 give those actual and target figures. */
  lemma ScenarioSalesVsTarget(date: Timestamp)
    ensures var v := Report([Sample("P1", "R1", 100, 150, date), Sample("P2", "R1", 200, 250, date)],
                            DefaultTopSellingLimit, DefaultPeriod).salesVsTarget;
      && |v| == 2
      && SalesVsTargetResult("P1", 100, 150) in v
      && SalesVsTargetResult("P2", 200, 250) in v
  {
    var records := [Sample("P1", "R1", 100, 150, date), Sample("P2", "R1", 200, 250, date)];
    assert records[..1] == [records[0]] && [records[0]][..0] == [];
    assert Group([records[0]], Product, Revenue, Cost) == [Bucket("P1", 100, 150, 1)];
    assert "P1" != "P2" by { assert "P1"[1] != "P2"[1]; }
    assert [Bucket("P1", 100, 150, 1)][1..] == [];
    assert Group(records, Product, Revenue, Cost) == [Bucket("P1", 100, 150, 1), Bucket("P2", 200, 250, 1)];
    var v := Report(records, DefaultTopSellingLimit, DefaultPeriod).salesVsTarget;
    assert v[0] == SalesVsTargetResult("P1", 100, 150);
    assert v[1] == SalesVsTargetResult("P2", 200, 250);
  }

  /** With a limit of 1, of two products selling 100 and 200 only the second is listed. */
  lemma ScenarioTopSellingLimit(date: Timestamp)
    ensures Report([Sample("P1", "R1", 100, 50, date), Sample("P2", "R2", 200, 100, date)], 1, DefaultPeriod)
      .topSellingProducts == [TopSellingProductsResult("P2", 200)]
  {
    var records := [Sample("P1", "R1", 100, 50, date), Sample("P2", "R2", 200, 100, date)];
    var b1, b2 := Bucket("P1", 100, 0, 1), Bucket("P2", 200, 0, 1);
    assert records[..1] == [records[0]] && [records[0]][..0] == [];
    assert Group([records[0]], Product, Revenue, Nothing) == [b1];
    assert "P1" != "P2" by { assert "P1"[1] != "P2"[1]; }
    assert [b1][1..] == [];
    assert Accumulate([b1], "P2", 200, 0) == [b1, b2];
    assert Group(records, Product, Revenue, Nothing) == Accumulate([b1], "P2", 200, 0);
    assert [b1, b2][1..] == [b2] && [b2][1..] == [];
    assert SortBy([b2], ByTotalDescending) == [b2];
    assert Insert(b1, [b2], ByTotalDescending) == [b2, b1];
    assert SortBy([b1, b2], ByTotalDescending) == [b2, b1];
    assert TopSellingFacet(records, 1) == [b2];
  }

  /** A record dated in the year 10000 makes the query fail, whatever the limit. */
  lemma FarFutureDateFails(records: seq<SaleRecord>, j: nat, limit: LimitArg, period: Option<string>)
    requires j < |records| && records[j].date.year == 10000
    ensures SalesData(Some(records), limit, period) == Failure(QueryFailedMessage)
  {
  }

  /** A record dated in the year -1 (`-000001` in ISO form) makes the query fail, whatever the limit. */
  lemma DistantPastDateFails(records: seq<SaleRecord>, j: nat, limit: LimitArg, period: Option<string>)
    requires j < |records| && records[j].date.year == -1
    ensures SalesData(Some(records), limit, period) == Failure(QueryFailedMessage)
  {
  }

  /** A limit of 0, or an explicit `null`, is refused by the `$limit` stage, so the query fails. */
  lemma ZeroLimitFails(records: seq<SaleRecord>, period: Option<string>)
    ensures SalesData(Some(records), LimitGiven(0), period) == Failure(QueryFailedMessage)
    ensures SalesData(Some(records), LimitNull, period) == Failure(QueryFailedMessage)
  {
  }
}
