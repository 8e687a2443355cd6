/**
 * The record and report shapes of the backend: a stored sale record and the
 * eight views of the sales report, with their public field names.
 * Money is held in integer cents, so rounding it to two decimal places
 * changes nothing.
 */
module SalesTypes {
  import opened Calendar

  /** A stored sale record: the ten business fields plus the store's id and bookkeeping timestamps. */
  datatype SaleRecord = SaleRecord(
    id: string,
    product: string,
    salesRevenue: int,
    region: string,
    category: string,
    date: Timestamp,
    cost: int,
    profit: int,
    ageGroup: string,
    gender: string,
    occupation: string,
    createdAt: Timestamp,
    updatedAt: Timestamp)

  datatype SalesTrend = SalesTrend(period: string, totalSales: int)
  datatype SalesByRegionResult = SalesByRegionResult(region: string, totalSales: int)
  datatype SalesByCategoryResult = SalesByCategoryResult(category: string, totalSales: int)
  datatype TopSellingProductsResult = TopSellingProductsResult(product: string, totalSales: int)
  datatype SalesVsTargetResult = SalesVsTargetResult(product: string, actualSales: int, targetSales: int)
  datatype RevenueAndProfitResult = RevenueAndProfitResult(date: string, totalRevenue: int, totalProfit: int)
  datatype CustomerDemographicsResult =
    CustomerDemographicsResult(ageGroup: string, gender: string, occupation: string, totalSales: int)
  /** `conversionRate` is the exact quotient of cents by records; its two-decimal rounding is not modelled. */
  datatype SalesConversionRateResult =
    SalesConversionRateResult(period: string, totalSales: int, totalRecords: int, conversionRate: real)

  /** The report returned by the `salesData` query: all eight views, each a (possibly empty) list. */
  datatype SalesReport = SalesReport(
    salesConversionRate: seq<SalesConversionRateResult>,
    salesByRegion: seq<SalesByRegionResult>,
    salesByCategory: seq<SalesByCategoryResult>,
    topSellingProducts: seq<TopSellingProductsResult>,
    salesVsTarget: seq<SalesVsTargetResult>,
    revenueAndProfit: seq<RevenueAndProfitResult>,
    customerDemographics: seq<CustomerDemographicsResult>,
    salesTrendOverTime: seq<SalesTrend>)
}
