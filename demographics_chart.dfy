/**
 * The data side of the customer-demographics bar chart: the rows are
 * grouped by age group, by gender and by occupation, each grouping listing
 * its distinct values in order of first appearance with the summed sales of
 * each; the age groups become the x-axis labels, and a grouping without any
 * value is dropped from the datasets. Colours, options and the drawing itself
 * are not part of this model.
 */
module DemographicsChart {
  import opened Wrappers
  import opened SalesTypes
  import opened Aggregation

  type Row = CustomerDemographicsResult

  /** The three keys `aggregateSales` is called with. */
  datatype Dimension = AgeGroupDim | GenderDim | OccupationDim

  function AgeGroupOf(r: Row): string { r.ageGroup }
  function GenderOf(r: Row): string { r.gender }
  function OccupationOf(r: Row): string { r.occupation }
  function SalesOf(r: Row): int { r.totalSales }
  function Value(x: int): int { x }

  function KeyFn(d: Dimension): Row -> string
  {
    match d
    case AgeGroupDim => AgeGroupOf
    case GenderDim => GenderOf
    case OccupationDim => OccupationOf
  }

  /** `{ categories, salesByCategory }` of `aggregateSales`. */
  datatype Aggregate = Aggregate(categories: seq<string>, salesByCategory: seq<int>)

  /**
   * `aggregateSales(key)`: the distinct values of `key` (`Array.from(new Set(...))`)
   * and, for each, the sum of `totalSales` over the rows that have it.
   */
  function AggregateSales(data: seq<Row>, d: Dimension): (a: Aggregate)
    ensures |a.salesByCategory| == |a.categories|
  {
    var key := KeyFn(d);
    var categories := DistinctKeys(data, key);
    Aggregate(categories, seq(|categories|, i requires 0 <= i < |categories| => SumWhere(data, key, categories[i], SalesOf)))
  }

  /** What `aggregateSales` computes, stated against the rows. */
  lemma AggregateSalesSpec(data: seq<Row>, d: Dimension)
    ensures var a, key := AggregateSales(data, d), KeyFn(d);
      && NoDuplicates(a.categories)
      && (set i | 0 <= i < |a.categories| :: a.categories[i]) == KeySet(data, key)
      && (forall i | 0 <= i < |a.categories| :: a.salesByCategory[i] == SumWhere(data, key, a.categories[i], SalesOf))
      && Total(a.salesByCategory, Value) == Total(data, SalesOf)
  {
    var a, key := AggregateSales(data, d), KeyFn(d);
    var r := Group(data, key, SalesOf, SalesOf);
    GroupSpec(data, key, SalesOf, SalesOf);
    DistinctNoDuplicates(data, key);
    DistinctCovers(data, key);
    assert forall i | 0 <= i < |r| :: r[i].key == a.categories[i];
    TotalPointwise(a.salesByCategory, Value, r, First);
  }

  /** Categories are listed in order of first appearance: those of any prefix of the rows come first. */
  lemma AggregateFirstSeenOrder(data: seq<Row>, d: Dimension, m: nat)
    requires m <= |data|
    ensures var p, a := AggregateSales(data[..m], d), AggregateSales(data, d);
      && |p.categories| <= |a.categories|
      && a.categories[..|p.categories|] == p.categories
    ensures 0 < |data| ==> AggregateSales(data, d).categories[0] == KeyFn(d)(data[0])
  {
    DistinctPrefix(data, KeyFn(d), m);
    if 0 < |data| {
      DistinctPrefix(data, KeyFn(d), 1);
      assert data[..1][..0] == [];
    }
  }

  // ---------------------------------------------------------------------
  // The chart data

  /** One bar dataset: its legend label (`label`), its values and whether it starts hidden. */
  datatype Dataset = Dataset(legendLabel: string, data: seq<int>, hidden: bool)

  /** What the component renders: the fallback message, or a bar chart's labels and datasets. */
  datatype Rendered = NoData(message: string) | Bar(labels: seq<string>, datasets: seq<Dataset>)

  const NoDataMessage: string := "No customer demographics data available"

  /** `datasets.filter(dataset => dataset.data.length > 0)`. */
  function KeepNonEmpty(ds: seq<Dataset>): (r: seq<Dataset>)
    ensures |r| <= |ds|
    ensures forall i | 0 <= i < |r| :: r[i] in ds && r[i].data != []
    ensures forall i | 0 <= i < |ds| :: ds[i].data != [] ==> ds[i] in r
    decreases |ds|
  {
    if ds == [] then []
    else if ds[0].data != [] then [ds[0]] + KeepNonEmpty(ds[1..])
    else KeepNonEmpty(ds[1..])
  }

  /** A filter whose test every dataset passes keeps them all, in order. */
  lemma {:induction false} KeepAll(ds: seq<Dataset>)
    requires forall i | 0 <= i < |ds| :: ds[i].data != []
    ensures KeepNonEmpty(ds) == ds
    decreases |ds|
  {
    if ds != [] {
      KeepAll(ds[1..]);
    }
  }

  /** The component: the fallback for missing or empty data, otherwise the chart data built from the three groupings. */
  function DemographicsChart(data: Option<seq<Row>>): (r: Rendered)
    ensures r.NoData? <==> data.None? || data.value == []
  {
    if data.None? || data.value == [] then NoData(NoDataMessage)
    else
      var rows := data.value;
      var ages, genders, occupations :=
        AggregateSales(rows, AgeGroupDim), AggregateSales(rows, GenderDim), AggregateSales(rows, OccupationDim);
      var labels :=
        if |ages.categories| > 0 then ages.categories
        else if |genders.categories| > 0 then genders.categories
        else occupations.categories;
      Bar(labels, KeepNonEmpty([
        Dataset("Sales by Age Group", ages.salesByCategory, |ages.categories| == 0),
        Dataset("Sales by Gender", genders.salesByCategory, |genders.categories| == 0),
        Dataset("Sales by Occupation", occupations.salesByCategory, |occupations.categories| == 0)]))
  }

  /** Non-empty rows give at least one category on every dimension. */
  lemma NonEmptyHasCategories(rows: seq<Row>, d: Dimension)
    requires rows != []
    ensures |AggregateSales(rows, d).categories| > 0
  {
    DistinctCovers(rows, KeyFn(d));
    assert KeyFn(d)(rows[0]) in AggregateSales(rows, d).categories;
  }

  /**
   * For non-empty rows the x-axis labels are the age groups, and all three
   * datasets are shown, in order, none hidden, each holding its grouping's sums.
   */
  lemma ChartOfRows(rows: seq<Row>)
    requires rows != []
    ensures var r := DemographicsChart(Some(rows));
      && r.Bar?
      && r.labels == AggregateSales(rows, AgeGroupDim).categories
      && r.datasets == [
           Dataset("Sales by Age Group", AggregateSales(rows, AgeGroupDim).salesByCategory, false),
           Dataset("Sales by Gender", AggregateSales(rows, GenderDim).salesByCategory, false),
           Dataset("Sales by Occupation", AggregateSales(rows, OccupationDim).salesByCategory, false)]
  {
    NonEmptyHasCategories(rows, AgeGroupDim);
    NonEmptyHasCategories(rows, GenderDim);
    NonEmptyHasCategories(rows, OccupationDim);
    var ds := [
      Dataset("Sales by Age Group", AggregateSales(rows, AgeGroupDim).salesByCategory, false),
      Dataset("Sales by Gender", AggregateSales(rows, GenderDim).salesByCategory, false),
      Dataset("Sales by Occupation", AggregateSales(rows, OccupationDim).salesByCategory, false)];
    KeepAll(ds);
  }

  /** Each dataset's values add up to the rows' total sales. */
  lemma ChartConservesSales(rows: seq<Row>, i: nat)
    requires rows != []
    requires i < 3
    ensures var r := DemographicsChart(Some(rows));
      r.Bar? && i < |r.datasets| && Total(r.datasets[i].data, Value) == Total(rows, SalesOf)
  {
    ChartOfRows(rows);
    if i == 0 {
      AggregateSalesSpec(rows, AgeGroupDim);
    } else if i == 1 {
      AggregateSalesSpec(rows, GenderDim);
    } else {
      AggregateSalesSpec(rows, OccupationDim);
    }
  }
}
