# Sales dashboard core, modelled in Dafny

This project models the behavioural core of an e-commerce sales dashboard. The
backend stores sale records and answers one `salesData` query. That query is a
MongoDB `$facet` pipeline of eight group-and-sum views: conversion rate per
period, sales by region, sales by category, top-selling products, sales vs
target, revenue and profit per date, customer demographics, and the sales trend
per period. The backend also has two mutations, `createSalesData` and
`deleteSalesData`, and a Joi schema that checks a new record before it is
stored. The client keeps the last report in a Redux `sales` slice, reads it
through three selectors, picks a display currency from the browser locale, and
prepares the data of two charts: customer demographics and top-selling products.

Modules, one per source concern:

- `Wrappers`: `Option` and `Result`.
- `Calendar`: UTC instants; the `$dateToString` renderings `%Y`, `%Y-%m` and `%Y-%m-%d`; `toISOString`; and a time-ordered sort rank.
- `Aggregation`: `$group` with `$sum` accumulators, written as a left fold (`Group`). It is proved against the independent reference definitions `SumWhere`, `CountWhere` and `DistinctKeys`. The same definitions are reused for the charts' `filter(...).reduce(...)` and `Array.from(new Set(...))`.
- `Sorting`: `$sort` and `Array.prototype.sort` with a numeric comparator, as a stable insertion sort on an integer rank.
- `SalesTypes`: the stored record and the eight result row shapes.
- `SalesQueries`: the period bucketing `getGroupByPeriod`, the pipeline, `transformData`, and the resolver with its defaults and its error path.
- `SalesValidation`: `salesDataSchema`. Keys are checked in declaration order and the first failure is reported, in Joi's default wording.
- `SalesMutations`: the record store as a class holding a `map` from identifier to record. Records are filed under their printed ObjectId, and a deletion looks up the ObjectId its argument is cast to. The two mutation methods state the store's whole new state.
- `SalesSlice`: the reducer as a pure function, plus a class of three fields whose methods are proved to follow it.
- `SalesSelectors`: the three selectors over an optional slice.
- `CurrencyFormatter`: locale splitting, the EU table, and the if/else chain that reassigns `currency`. The chain is a method, proved equal to a table-driven reference.
- `DemographicsChart` and `TopProductsChart`: the data each chart is drawn from, and the empty-data fallbacks.

Money is held in integer cents, so `roundToTwoDecimalPlaces` and `$round: 2` change nothing and are not modelled. The conversion rate is an exact `real`. The facts the store decides on its own are parameters of the model:

- whether the store answers at all;
- the identifier and timestamps a new record receives;
- whether a save or delete throws.

Two consequences of the code:

- A `topSellingLimit` of 0 or less fails: MongoDB's `$limit` stage refuses it, and the resolver's `catch` reports `Failed to fetch sales data`. An explicit `null` fails the same way, because the destructuring default replaces only a left-out argument (`SalesQueries.SalesData`, `SalesQueries.ZeroLimitFails`).
- The unsorted views carry no promised order; none is claimed here.

The backend test at `backend/__tests__/salesDataResolvers.test.ts:136-153` expects one revenue-and-profit entry for two records dated by two separate `new Date()` calls. The pipeline groups by the exact instant (`SalesQueries.RevenueAndProfitFacetSpec`), so that test assumes both calls return the same millisecond.

## Model

| member | source | states |
|---|---|---|
| `SalesQueries.Quarter` | backend/src/domain/sales/resolvers/queries/salesDataQueries.ts:26-38 | the nested `$cond` gives a quarter in 1..4, and for a month 1..12 that quarter is ceil(month / 3) |
| `SalesQueries.GetGroupByPeriod` | backend/src/domain/sales/resolvers/queries/salesDataQueries.ts:15-49 | `monthly` gives a 7-character `YYYY-MM`, `quarterly` a 7-character `YYYY-Qn`, `annually` a 4-character year, and any other period a 10-character `YYYY-MM-DD`; every character is a digit, `-` or `Q` |
| `SalesQueries.QuarterlyLabel` | backend/src/domain/sales/resolvers/queries/salesDataQueries.ts:19-42 | the quarterly bucket is 7 characters: the four-digit year, `-Q`, and one digit 1..4 equal to ceil(month / 3) |
| `SalesQueries.PeriodLabelFormats` | backend/src/domain/sales/resolvers/queries/salesDataQueries.ts:15-49 | `monthly` reads back as year-month, `annually` as year, `daily` as year-month-day; any unrecognised period buckets as `daily` |
| `SalesQueries.BucketsSeparate` | backend/src/domain/sales/resolvers/queries/salesDataQueries.ts:15-49 | two valid dates share a bucket iff they agree on the day, month, quarter or year that the period keeps (both directions) |
| `SalesQueries.July2023Buckets` | backend/__tests__/salesDataResolvers.test.ts:187-202 | July 2023 dates bucket to `2023-07` monthly, `2023-Q3` quarterly and `2023-07-01` daily |
| `SalesQueries.ConversionRate` | backend/src/domain/sales/resolvers/queries/salesDataQueries.ts:77-83 | with records, rate × records = sales exactly; with no records the rate is 0 |
| `SalesQueries.StageLimit` | backend/src/domain/sales/resolvers/queries/salesDataQueries.ts:57 | a left-out `topSellingLimit` becomes 10, an explicit `null` stays null, and a given number is passed on |
| `SalesQueries.SalesData` | backend/src/domain/sales/resolvers/queries/salesDataQueries.ts:57-188 | fails with `Failed to fetch sales data` iff the store does not answer, the limit is `null`, the limit is not positive, or some record's year lies outside 0-9999 (which `$dateToString` refuses); otherwise returns the report over the snapshot for the limit (10 when left out) and the period (`daily` when left out) |
| `SalesQueries.TopSellingFacet` | backend/src/domain/sales/resolvers/queries/salesDataQueries.ts:93-97 | the product branch keeps min(limit, number of products) buckets |
| `SalesQueries.RevenueAndProfitFacet` | backend/src/domain/sales/resolvers/queries/salesDataQueries.ts:101-104 | the date branch has one bucket per `$group` bucket (its sort drops and adds none) |
| `SalesQueries.RunFacets` | backend/src/domain/sales/resolvers/queries/salesDataQueries.ts:58-125 | the top-selling branch has at most `limit` buckets; the conversion-rate and trend branches have as many buckets as each other, with the same set of keys |
| `SalesQueries.RateRows` | backend/src/domain/sales/resolvers/queries/salesDataQueries.ts:138-143 | one row per bucket: the key as `period`, its revenue as `totalSales`, its count as `totalRecords` |
| `SalesQueries.RegionRows` | backend/src/domain/sales/resolvers/queries/salesDataQueries.ts:145-148 | one row per bucket: the key as `region`, its revenue as `totalSales` |
| `SalesQueries.CategoryRows` | backend/src/domain/sales/resolvers/queries/salesDataQueries.ts:150-153 | one row per bucket: the key as `category`, its revenue as `totalSales` |
| `SalesQueries.TopSellingRows` | backend/src/domain/sales/resolvers/queries/salesDataQueries.ts:155-158 | one row per bucket, in order: the key as `product`, its revenue as `totalSales` |
| `SalesQueries.VsTargetRows` | backend/src/domain/sales/resolvers/queries/salesDataQueries.ts:160-164 | one row per bucket: the key as `product`, revenue as `actualSales`, cost as `targetSales` |
| `SalesQueries.RevenueAndProfitRows` | backend/src/domain/sales/resolvers/queries/salesDataQueries.ts:166-170 | one row per bucket, in order: the instant as an ISO string, its revenue and its profit |
| `SalesQueries.DemographicRows` | backend/src/domain/sales/resolvers/queries/salesDataQueries.ts:172-177 | one row per bucket: the three key fields and its revenue |
| `SalesQueries.TrendRows` | backend/src/domain/sales/resolvers/queries/salesDataQueries.ts:179-182 | one row per bucket: the key as `period`, its revenue as `totalSales` |
| `SalesQueries.TransformData` | backend/src/domain/sales/resolvers/queries/salesDataQueries.ts:137-183 | each of the eight public lists has exactly as many entries as its `$facet` branch |
| `SalesQueries.Report` | backend/src/domain/sales/resolvers/queries/salesDataQueries.ts:58-183 | at most `limit` top-selling products; the conversion-rate and trend views are equally long |
| `SalesQueries.SalesConversionRateSpec` | backend/src/domain/sales/resolvers/queries/salesDataQueries.ts:63-86 | one entry per period bucket that occurs, and exactly those buckets; `totalRecords` is the bucket's record count (> 0), `totalSales` its revenue, and `conversionRate` their quotient; the counts add up to the number of records and the sales to all revenue |
| `SalesQueries.SalesByRegionSpec` | backend/src/domain/sales/resolvers/queries/salesDataQueries.ts:87-89 | distinct regions, exactly those that occur, each with the revenue of its records; the entries sum to all revenue |
| `SalesQueries.SalesByCategorySpec` | backend/src/domain/sales/resolvers/queries/salesDataQueries.ts:90-92 | distinct categories, exactly those that occur, each with the revenue of its records; the entries sum to all revenue |
| `SalesQueries.TopSellingFacetSpec` | backend/src/domain/sales/resolvers/queries/salesDataQueries.ts:93-97 | the sorted, cut product buckets: min(limit, products) of them, all genuine buckets, distinct, non-increasing totals |
| `SalesQueries.TopSellingFacetCut` | backend/src/domain/sales/resolvers/queries/salesDataQueries.ts:95-96 | a bucket the cut drops totals no more than any bucket kept; if fewer than `limit` are kept, none is dropped |
| `SalesQueries.TopSellingProductsSpec` | backend/src/domain/sales/resolvers/queries/salesDataQueries.ts:93-97 | at most `limit` entries, distinct products that occur, best first, each with the product's summed revenue |
| `SalesQueries.TopSellingProductsRanking` | backend/src/domain/sales/resolvers/queries/salesDataQueries.ts:95-96 | a product left out sold no more than any product listed |
| `SalesQueries.TopSellingProductsComplete` | backend/src/domain/sales/resolvers/queries/salesDataQueries.ts:96 | fewer than `limit` entries means every product that occurs is listed |
| `SalesQueries.SalesVsTargetSpec` | backend/src/domain/sales/resolvers/queries/salesDataQueries.ts:98-100 | distinct products, exactly those that occur; `actualSales` is the product's revenue and `targetSales` its cost; both columns sum to the overall totals |
| `SalesQueries.RevenueAndProfitFacetSpec` | backend/src/domain/sales/resolvers/queries/salesDataQueries.ts:101-104 | one bucket per instant that occurs, strictly ascending in time, each with the revenue and the profit recorded at that instant |
| `SalesQueries.RevenueAndProfitSpec` | backend/src/domain/sales/resolvers/queries/salesDataQueries.ts:166-170 | entry i renders the i-th instant as an ISO 8601 string, with that instant's revenue and profit |
| `SalesQueries.CustomerDemographicsSpec` | backend/src/domain/sales/resolvers/queries/salesDataQueries.ts:105-107 | distinct (ageGroup, gender, occupation) triples, exactly those that occur, each with its revenue; the entries sum to all revenue |
| `SalesQueries.SalesTrendSpec` | backend/src/domain/sales/resolvers/queries/salesDataQueries.ts:108-122 | distinct period buckets, exactly those that occur, each with the revenue of its records; the entries sum to all revenue |
| `SalesQueries.EmptyReport` | backend/src/domain/sales/resolvers/queries/salesDataQueries.ts:137-183 | with no records every one of the eight views is an empty list |
| `SalesQueries.ScenarioRegionSum` | backend/__tests__/salesDataResolvers.test.ts:59-74 | two sales of 100 and 200 in one region give the single entry (region, 300) |
| `SalesQueries.ScenarioTopSellingLimit` | backend/__tests__/salesDataResolvers.test.ts:93-108 | with limit 1, of products selling 100 and 200 only the second is listed |
| `SalesQueries.ScenarioSalesVsTarget` | backend/__tests__/salesDataResolvers.test.ts:110-134 | two products give exactly two entries with their revenue as actual and their cost as target |
| `SalesQueries.ScenarioQuarterlyTrend` | backend/src/domain/sales/resolvers/queries/salesDataQueries.ts:19-42 | a sale dated 2023-07-15, bucketed quarterly, gives the single trend entry `2023-Q3` |
| `SalesQueries.RateAndTrendAgree` | backend/src/domain/sales/resolvers/queries/salesDataQueries.ts:108-122 | the conversion-rate and trend views are equally long, list the same set of periods, and give each period the same total sales, in whatever order each lists them |
| `SalesQueries.FarFutureDateFails` | backend/src/domain/sales/resolvers/queries/salesDataQueries.ts:14-48 | a record dated in the year 10000 makes the query fail, whatever the limit |
| `SalesQueries.DistantPastDateFails` | backend/src/domain/sales/resolvers/queries/salesDataQueries.ts:14-48 | a record dated in the year -1 makes the query fail, whatever the limit |
| `SalesQueries.ZeroLimitFails` | backend/src/domain/sales/resolvers/queries/salesDataQueries.ts:57-96 | a limit of 0, or an explicit `null`, makes the query fail |
| `Aggregation.Accumulate` | backend/src/domain/sales/resolvers/queries/salesDataQueries.ts:88 | adding one document grows the bucket count by at most one (what happens to each bucket is `Aggregation.AccumulateShape`) |
| `Aggregation.Group` | backend/src/domain/sales/resolvers/queries/salesDataQueries.ts:88 | the `$group` fold never yields more buckets than documents |
| `Aggregation.GroupSpec` | backend/src/domain/sales/resolvers/queries/salesDataQueries.ts:88 | the `$group` fold yields one bucket per distinct key, each holding the key's sums and count; the bucket totals equal the overall totals |
| `Aggregation.AccumulateShape` | backend/src/domain/sales/resolvers/queries/salesDataQueries.ts:88 | adding a document grows its key's bucket by its values and one count, leaving the others unchanged, or appends a new bucket for an unseen key |
| `Aggregation.GroupFacts` | backend/src/domain/sales/resolvers/queries/salesDataQueries.ts:99 | bucket keys are distinct and are exactly the keys that occur; each bucket holds its key's two sums and count; sums and counts are conserved |
| `Aggregation.DistinctNoDuplicates` | src/components/charts/CustomerDemographicsChart.tsx:26 | `Array.from(new Set(...))` lists no key twice |
| `Aggregation.DistinctCovers` | src/components/charts/CustomerDemographicsChart.tsx:26 | every listed key occurs, and every key that occurs is listed |
| `Aggregation.DistinctPrefix` | src/components/charts/CustomerDemographicsChart.tsx:26 | the distinct keys of any prefix of the rows are a prefix of the distinct keys of all rows (first-appearance order) |
| `Aggregation.AbsentKey` | src/components/charts/CustomerDemographicsChart.tsx:28-30 | a key that is not listed sums and counts to zero |
| `Sorting.SortBy` | backend/src/domain/sales/resolvers/queries/salesDataQueries.ts:95 | the sort yields as many elements as it is given |
| `Sorting.SortBySpec` | backend/src/domain/sales/resolvers/queries/salesDataQueries.ts:95 | the sort's result is ordered by rank, is a permutation of its input, and has the same length |
| `Sorting.PermutationKeepsDistinct` | backend/src/domain/sales/resolvers/queries/salesDataQueries.ts:103 | reordering rows with distinct keys keeps the keys distinct |
| `Calendar.OrdinalOrder` | backend/src/domain/sales/resolvers/queries/salesDataQueries.ts:103 | the sort rank of valid dates orders them exactly as time does, and tells distinct dates apart |
| `Calendar.DigitsRoundTrip` | backend/src/domain/sales/resolvers/queries/salesDataQueries.ts:18 | a zero-padded rendering of a number that fits its width reads back as that number |
| `Calendar.FormatYReadsBack` | backend/src/domain/sales/resolvers/queries/salesDataQueries.ts:44 | for a valid date, `%Y` renders the year as four digits that read back to it |
| `SalesValidation.CheckField` | backend/src/shared/validations/salesDataValidation.ts:4-13 | a key's error message starts with the key's quoted name |
| `SalesValidation.IsValid` | backend/src/shared/validations/salesDataValidation.ts:3-14 | an input the schema accepts passes every key's own check |
| `SalesValidation.Validate` | backend/src/shared/validations/salesDataValidation.ts:3-14 | no error iff every key passes: ten fields present, non-empty strings, positive revenue and cost, an ISO date, and a gender from the list |
| `SalesValidation.AllKeysPass` | backend/src/shared/validations/salesDataValidation.ts:3-14 | every key's own check passing is equivalent to the field-wise acceptance predicate |
| `SalesValidation.FirstErrorNone` | backend/src/shared/validations/salesDataValidation.ts:3-14 | the in-order scan `FirstError` finds no error iff none of the keys fails |
| `SalesValidation.FirstErrorIsFirst` | backend/src/shared/validations/salesDataValidation.ts:3-14 | a reported error is some key's error, and every key before it passed |
| `SalesValidation.ValidateReportsFirstFailure` | backend/src/shared/validations/salesDataValidation.ts:3-14 | a rejected input's message is that of the first failing key in schema order |
| `SalesValidation.GenderOutsideListRejected` | backend/src/shared/validations/salesDataValidation.ts:9-12 | a complete input with a negative profit is accepted; with a gender outside the list it is refused with Joi's `must be one of` message |
| `SalesValidation.MissingProductFirst` | backend/src/shared/validations/salesDataValidation.ts:4 | a missing product is reported first (`"product" is required`), whatever else is wrong |
| `SalesMutations.NewRecord` | backend/src/domain/sales/resolvers/mutations/salesDataMutations.ts:16-17 | the saved document holds every input field, the assigned identifier and both timestamps; its revenue and cost are positive and its gender is from the list |
| `SalesMutations.SalesStore.CreateSalesData` | backend/src/domain/sales/resolvers/mutations/salesDataMutations.ts:5-38 | a rejected input gives `Validation error: ` plus Joi's message, and a throwing save gives the catch message; both leave the store unchanged; otherwise exactly the new record is added under its identifier and returned |
| `SalesMutations.SalesStore.DeleteSalesData` | backend/src/domain/sales/resolvers/mutations/salesDataMutations.ts:39-79 | a malformed identifier, a throwing call, or an absent record each give their message and leave the store unchanged; otherwise the record filed under the ObjectId the identifier is cast to (hex digits in either case) is removed (only it) and returned |
| `SalesMutations.CaughtMessage` | backend/src/domain/sales/resolvers/mutations/salesDataMutations.ts:23-37 | an `Error` gives the prefix plus its message; any other thrown value gives the generic message |
| `SalesMutations.IsValidObjectId` | backend/src/domain/sales/resolvers/mutations/salesDataMutations.ts:42 | an accepted identifier has 12 or 24 characters |
| `SalesMutations.Canonical` | backend/src/domain/sales/resolvers/mutations/salesDataMutations.ts:50 | a well-formed identifier is cast to 24 lower-case hexadecimal digits, and an identifier already in that form is left as it is |
| `SalesMutations.CanonicalIsValid` | backend/src/domain/sales/resolvers/mutations/salesDataMutations.ts:50 | the cast form is itself a well-formed identifier, and casting it again changes nothing |
| `SalesMutations.CaseIgnored` | backend/src/domain/sales/resolvers/mutations/salesDataMutations.ts:50 | `64B7F0C2A1D3E4F5A6B7C8D9` is cast to `64b7f0c2a1d3e4f5a6b7c8d9`, so it deletes the record stored under the lower-case spelling |
| `SalesMutations.TwelveCharacterId` | backend/src/domain/sales/resolvers/mutations/salesDataMutations.ts:50 | the 12-character identifier `aaaaaaaaaaaa` is cast to the ObjectId `616161616161616161616161` |
| `SalesMutations.NotAValidId` | backend/src/domain/sales/resolvers/mutations/salesDataMutations.ts:42-48 | `not-a-valid-id` is refused as an identifier |
| `SalesMutations.HexIdentifiers` | backend/src/domain/sales/resolvers/mutations/salesDataMutations.ts:42 | 24 hexadecimal digits form an identifier; one non-hex character spoils it |
| `SalesSlice.Reduce` | frontend/src/redux/slices/salesSlice.ts:16-30 | start sets loading and clears the error; success stores the payload and clears loading; failure stores the error and clears loading; each keeps the other field; any other action changes nothing |
| `SalesSlice.ReducePreservesInFlightClean` | frontend/src/redux/slices/salesSlice.ts:6-29 | the initial state and every action keep "no error is shown while loading" |
| `SalesSlice.ReachableInFlightClean` | frontend/src/redux/slices/salesSlice.ts:6-29 | every state reached by any sequence of actions has no error while loading |
| `SalesSlice.ReduceIdempotent` | frontend/src/redux/slices/salesSlice.ts:18-29 | dispatching the same action twice equals dispatching it once |
| `SalesSlice.StartThenSuccess` | frontend/src/redux/slices/salesSlice.ts:18-25 | start then success shows the payload, with no loading and no error |
| `SalesSlice.FailureKeepsPreviousData` | frontend/src/redux/slices/salesSlice.ts:22-29 | a failed refetch keeps the report received earlier and shows the error |
| `SalesSlice.Slice.constructor` | frontend/src/redux/slices/salesSlice.ts:6-10 | the slice starts with no data, not loading, and no error |
| `SalesSlice.Slice.Start` | frontend/src/redux/slices/salesSlice.ts:18-21 | the in-place assignments produce the reducer's next state |
| `SalesSlice.Slice.Success` | frontend/src/redux/slices/salesSlice.ts:22-25 | the in-place assignments produce the reducer's next state |
| `SalesSlice.Slice.Failure` | frontend/src/redux/slices/salesSlice.ts:26-29 | the in-place assignments produce the reducer's next state |
| `SalesSlice.Slice.Dispatch` | frontend/src/redux/slices/salesSlice.ts:12-31 | any action moves the fields to the reducer's next state |
| `SalesSelectors.SelectSalesData` | frontend/src/redux/selectors/salesSelectors.ts:5-7 | a report is returned iff the slice exists and holds one, and it is that report |
| `SalesSelectors.SelectSalesLoading` | frontend/src/redux/selectors/salesSelectors.ts:10-12 | true iff the slice exists and is loading |
| `SalesSelectors.SelectSalesError` | frontend/src/redux/selectors/salesSelectors.ts:15-17 | an error is returned iff the slice exists and holds one, and it is that error |
| `SalesSelectors.SelectorsReadSlice` | frontend/src/redux/selectors/salesSelectors.ts:5-17 | with a slice present, the three selectors return its data, loading flag and error unchanged |
| `SalesSelectors.SelectorsDefaults` | frontend/src/redux/selectors/salesSelectors.ts:5-17 | with no slice, the selectors fall back to no data, not loading, and no error |
| `SalesSelectors.SelectorsInitially` | frontend/src/redux/selectors/salesSelectors.ts:5-17 | on the slice's initial state the selectors show no data, not loading, and no error |
| `SalesSelectors.SelectorsAfterActions` | frontend/src/redux/selectors/salesSelectors.ts:5-17 | after each fetch action the selectors show what that reducer case set and keep what it kept |
| `CurrencyFormatter.SplitJoin` | src/hooks/useCurrencyFormatter.ts:38 | joining the pieces of `split('-')` gives back the locale, and no piece contains a '-' |
| `CurrencyFormatter.CountryCode` | src/hooks/useCurrencyFormatter.ts:38 | the country code holds no `-` and is no longer than the locale |
| `CurrencyFormatter.CountryCodeOfPair` | src/hooks/useCurrencyFormatter.ts:38 | the country code of `lang-region` is the region, upper-cased |
| `CurrencyFormatter.CountryCodeSecondSubtag` | src/hooks/useCurrencyFormatter.ts:38 | only the second subtag is read, whatever follows it |
| `CurrencyFormatter.CountryCodeWithoutRegion` | src/hooks/useCurrencyFormatter.ts:38 | a locale without a '-' has the empty country code |
| `CurrencyFormatter.CountryCodeOfLetters` | src/hooks/useCurrencyFormatter.ts:38 | a two-letter language and an upper-case two-letter region give that region as the country code |
| `CurrencyFormatter.TableEntries` | src/hooks/useCurrencyFormatter.ts:9-35 | the EU table maps DE and FR to EUR and SE to SEK, and lists neither GB, JP nor US |
| `CurrencyFormatter.FirstPrefix` | src/hooks/useCurrencyFormatter.ts:43-51 | the prefix chain yields USD or the currency of an entry whose prefix the locale starts with |
| `CurrencyFormatter.ChooseCurrency` | src/hooks/useCurrencyFormatter.ts:6-51 | the if/else chain's final `currency` equals the table-driven choice: the EU table first, then the prefix table, then USD |
| `CurrencyFormatter.CurrencyFor` | src/hooks/useCurrencyFormatter.ts:41-42 | a country code in the EU table chooses that table's currency, whatever the prefix |
| `CurrencyFormatter.PrefixOrder` | src/hooks/useCurrencyFormatter.ts:43-51 | outside the EU table the prefixes are tried in order (`jp`, `cn`, `us`, `gb`), and USD is the fallback |
| `CurrencyFormatter.CurrencyIsKnown` | src/hooks/useCurrencyFormatter.ts:6-51 | the chosen currency is always one of the codes listed in the file |
| `CurrencyFormatter.CurrencyExamples` | src/hooks/useCurrencyFormatter.ts:9-51 | `de-DE` gives EUR, `sv-SE` SEK, `en-US` USD, and `jp-FR` EUR (the table wins over the prefix) |
| `CurrencyFormatter.UserLocale` | src/hooks/useCurrencyFormatter.ts:71 | the given locale if non-empty, otherwise the browser's language if non-empty, otherwise `en-US`; never empty |
| `CurrencyFormatter.BritishLocaleGetsDollars` | src/hooks/useCurrencyFormatter.ts:43-50 | as written, `en-GB` (region GB) and `ja-JP` (region JP) both get USD |
| `CurrencyFormatter.CurrencyForRegion` | src/hooks/useCurrencyFormatter.ts:41-51 | corrected choice: an EU country code still chooses its table currency |
| `CurrencyFormatter.RegionDecidesCurrency` | src/hooks/useCurrencyFormatter.ts:43-50 | corrected, the currency depends only on the region subtag: `xx-GB` gives GBP and `xx-JP` JPY for every language |
| `DemographicsChart.AggregateSales` | src/components/charts/CustomerDemographicsChart.tsx:25-33 | one sum per category |
| `DemographicsChart.AggregateSalesSpec` | src/components/charts/CustomerDemographicsChart.tsx:25-33 | categories are distinct and exactly the values that occur; entry i sums `totalSales` over the rows with category i; the entries sum to all rows' sales |
| `DemographicsChart.AggregateFirstSeenOrder` | src/components/charts/CustomerDemographicsChart.tsx:26 | the categories of any prefix of the rows come first, in the same order; the first category is the first row's |
| `DemographicsChart.KeepNonEmpty` | src/components/charts/CustomerDemographicsChart.tsx:64 | the filter keeps exactly the datasets with values |
| `DemographicsChart.DemographicsChart` | src/components/charts/CustomerDemographicsChart.tsx:20-22 | the fallback message is shown iff the data is missing or empty |
| `DemographicsChart.ChartOfRows` | src/components/charts/CustomerDemographicsChart.tsx:36-64 | for non-empty data the labels are the age groups, and all three datasets are kept, in order, none hidden, each holding its grouping's sums |
| `DemographicsChart.ChartConservesSales` | src/components/charts/CustomerDemographicsChart.tsx:36-64 | each of the three datasets sums to the rows' total sales |
| `TopProductsChart.SortedProducts` | src/components/charts/TopSellingProductsChart.tsx:26 | the sorted copy is as long as the rows |
| `TopProductsChart.SortedProductsSpec` | src/components/charts/TopSellingProductsChart.tsx:26 | the sorted copy is a permutation of the rows, non-increasing in sales |
| `TopProductsChart.TopProductsChart` | src/components/charts/TopSellingProductsChart.tsx:21-23 | the fallback message is shown iff the data is missing or empty |
| `TopProductsChart.ChartOfProducts` | src/components/charts/TopSellingProductsChart.tsx:26-40 | labels and values are equally long; pairing them position by position gives exactly the input rows; values do not increase |
| `TopProductsChart.ThreeProducts` | frontend/src/__tests__/components/TopSellingProductsChart.test.tsx:34-58 | sales of 5000, 3000 and 7000 for A, B and C are drawn as C, A, B with values 7000, 5000, 3000 |

## Left out

- I/O and transport are not modelled: the MongoDB connection, query execution, the Apollo server, logging, and the `Intl.NumberFormat` formatter and its symbol. Each store answer is a parameter.
- Floating point is not modelled. Money is integer cents, so two-decimal rounding is the identity, and the conversion rate is an exact quotient that is not rounded.
- `SalesQueries.RevenueAndProfitSpec`: requires that every record's date is a real calendar instant with a four-digit year. A year before 0 or past 9999 is refused by `$dateToString`, so `SalesQueries.SalesData` fails on such a store and no report is returned.
- `SalesQueries.RevenueAndProfitFacetSpec`: same requirement on record dates as above.
- `SalesQueries.GetGroupByPeriod`: a year outside 0-9999 is written as its lowest four digits. MongoDB refuses such a year, and `SalesQueries.SalesData` then fails, so no such label reaches a report.
- `SalesQueries.TopSellingProductsSpec`: claims nothing about the order of products with equal totals, because MongoDB's `$sort` does not fix it. The model's sort is stable, but stability is not claimed.
- Parsing ISO 8601 date strings is not modelled. A `date` input is either an instant already read or "not ISO".
- `Joi.object` refuses unknown keys. Inputs here have exactly the ten schema fields, so that rule is not modelled.
- The GraphQL input type declares every field non-null. The resolver's validator still handles absent fields, and that is what is modelled.
- `SalesMutations.IsValidObjectId`: the model's own stand-in for the ObjectId test, which lives outside this repository: any 12 characters, or 24 hexadecimal digits.
- `SalesMutations.Canonical`: a 12-character identifier is read as one byte per character (its code modulo 256). The driver's own encoding of non-ASCII characters is not modelled.
- A new record's identifier is fresh because the store generates it. The model asks the caller for an unused identifier in printed ObjectId form (24 lower-case hexadecimal digits).
- The order of the unsorted views, and the concurrence of separate requests, are not modelled.
- Dates and timestamps as objects, and Mongo's `_id`/`__v` fields, are not modelled. A record's `id` is its store key.
- The client sagas, store wiring and action creators are not modelled. They are effects; the actions are the `SalesSlice.Action` constructors.
- `CurrencyFormatter.Upper`: upper-cases ASCII letters only; `toUpperCase` on other scripts is not modelled.
- `DemographicsChart.DemographicsChart`: colours, stacking, axis titles, tooltips and the y-axis currency formatting are rendering and are not modelled.
- `TopProductsChart.TopProductsChart`: the component's input array is a value in Dafny, so "the input is not mutated" holds by construction rather than being proved.

## Findings

| source | as written | input that shows it | evidently intended | confidence | as-written member | corrected member |
|---|---|---|---|---|---|---|
| src/hooks/useCurrencyFormatter.ts:43-50 | the JPY, CNY, USD and GBP tests are `locale.startsWith('jp' / 'cn' / 'us' / 'gb')`. They look at the language subtag, although the comments name countries (Japan, China, United States, United Kingdom) | `en-GB` has region GB and gets USD; `ja-JP` and `zh-CN` get USD too | the country code decides: `xx-GB` gives GBP, `xx-JP` JPY, `xx-CN` CNY, `xx-US` USD | medium, not executed | `CurrencyFormatter.BritishLocaleGetsDollars` | `CurrencyFormatter.CurrencyForRegion` |

`CurrencyFormatter.ChooseCurrency` models the code as written. Nothing else in the model consumes the chosen currency. `CurrencyFormatter.RegionDecidesCurrency` proves the intended property of the corrected choice.
