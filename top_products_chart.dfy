/**
 * The data side of the top-selling-products bar chart: a copy of the rows is
 * sorted by descending `totalSales`, and the chart's labels and values are
 * read off the sorted copy position by position. The input is a value here,
 * so it cannot be changed by the sort. Colours, options and the drawing itself
 * are not part of this model.
 */
module TopProductsChart {
  import opened Wrappers
  import opened SalesTypes
  import opened Sorting

  type Product = TopSellingProductsResult

  /** The comparator `(a, b) => b.totalSales - a.totalSales` as an ascending rank. */
  function Descending(p: Product): int { -p.totalSales }

  /** `[...data].sort((a, b) => b.totalSales - a.totalSales)`. */
  function SortedProducts(data: seq<Product>): (s: seq<Product>)
    ensures |s| == |data|
  {
    SortBy(data, Descending)
  }

  /** The sorted copy is a permutation of the rows, in non-increasing order of sales. */
  lemma SortedProductsSpec(data: seq<Product>)
    ensures var s := SortedProducts(data);
      && |s| == |data|
      && multiset(s) == multiset(data)
      && forall i, j | 0 <= i < j < |s| :: s[i].totalSales >= s[j].totalSales
  {
    var s := SortedProducts(data);
    SortBySpec(data, Descending);
    assert forall i, j | 0 <= i < j < |s| :: Descending(s[i]) <= Descending(s[j]);
  }

  /** What the component renders: the fallback message, or the bar chart's labels and single dataset. */
  datatype Rendered = NoData(message: string) | Bar(labels: seq<string>, legendLabel: string, values: seq<int>)

  const NoDataMessage: string := "No sales data available"

  /** The component: the fallback for missing or empty data, otherwise the chart data of the sorted copy. */
  function TopProductsChart(data: Option<seq<Product>>): (r: Rendered)
    ensures r.NoData? <==> data.None? || data.value == []
  {
    if data.None? || data.value == [] then NoData(NoDataMessage)
    else
      var sorted := SortedProducts(data.value);
      Bar(seq(|sorted|, i requires 0 <= i < |sorted| => sorted[i].product),
          "Top Selling Products",
          seq(|sorted|, i requires 0 <= i < |sorted| => sorted[i].totalSales))
  }

  /** Pairs the chart's labels with its values, position by position. */
  function Bars(labels: seq<string>, values: seq<int>): seq<Product>
    requires |labels| == |values|
  {
    seq(|labels|, i requires 0 <= i < |labels| => TopSellingProductsResult(labels[i], values[i]))
  }

  /**
   * For non-empty rows, labels and values are equally long, each position
   * pairs a product with that same row's sales, the pairs are exactly the
   * input rows, and the values do not increase from left to right.
   */
  lemma ChartOfProducts(data: seq<Product>)
    requires data != []
    ensures var r := TopProductsChart(Some(data));
      && r.Bar?
      && |r.labels| == |r.values| == |data|
      && multiset(Bars(r.labels, r.values)) == multiset(data)
      && forall i, j | 0 <= i < j < |r.values| :: r.values[i] >= r.values[j]
  {
    var r := TopProductsChart(Some(data));
    var s := SortedProducts(data);
    SortedProductsSpec(data);
    assert Bars(r.labels, r.values) == s;
  }

  function Row(name: string, sales: int): Product { TopSellingProductsResult(name, sales) }

  /** Sales of 5000, 3000 and 7000 for A, B and C are drawn in the order C, A, B. */
  lemma ThreeProducts()
    ensures TopProductsChart(Some([Row("Product A", 5000), Row("Product B", 3000), Row("Product C", 7000)]))
      == Bar(["Product C", "Product A", "Product B"], "Top Selling Products", [7000, 5000, 3000])
  {
    var a, b, c := Row("Product A", 5000), Row("Product B", 3000), Row("Product C", 7000);
    var data := [a, b, c];
    assert data[1..] == [b, c] && data[1..][1..] == [c] && data[1..][1..][1..] == [];
    assert SortBy([c], Descending) == [c];
    assert Insert(b, [c], Descending) == [c, b];
    assert SortBy([b, c], Descending) == [c, b];
    assert [c, b][1..] == [b];
    assert Insert(a, [b], Descending) == [a, b];
    assert Insert(a, [c, b], Descending) == [c, a, b];
    assert SortedProducts(data) == [c, a, b];
  }
}
