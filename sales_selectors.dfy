/**
 * The three read-only selectors over the client's root state. The `sales`
 * slice may be missing, and each selector then falls back to its default
 * (`null` for the report and the error, `false` for the loading flag).
 */
module SalesSelectors {
  import opened Wrappers
  import opened SalesTypes
  import opened SalesSlice

  datatype RootState = RootState(sales: Option<SalesState>)

  /** `selectSalesData`: the slice's report, or none when the slice or its report is absent. */
  function SelectSalesData(root: RootState): (r: Option<SalesReport>)
    ensures r.Some? <==> root.sales.Some? && root.sales.value.data.Some?
    ensures r.Some? ==> r == root.sales.value.data
  {
    if root.sales.Some? then root.sales.value.data else None
  }

  /** `selectSalesLoading`: the slice's flag, false when the slice is absent. */
  function SelectSalesLoading(root: RootState): (r: bool)
    ensures r <==> root.sales.Some? && root.sales.value.loading
  {
    root.sales.Some? && root.sales.value.loading
  }

  /** `selectSalesError`: the slice's error, or none when the slice or its error is absent. */
  function SelectSalesError(root: RootState): (r: Option<string>)
    ensures r.Some? <==> root.sales.Some? && root.sales.value.error.Some?
    ensures r.Some? ==> r == root.sales.value.error
  {
    if root.sales.Some? then root.sales.value.error else None
  }

  /** A present slice is read back field for field. */
  lemma SelectorsReadSlice(s: SalesState)
    ensures SelectSalesData(RootState(Some(s))) == s.data
    ensures SelectSalesLoading(RootState(Some(s))) == s.loading
    ensures SelectSalesError(RootState(Some(s))) == s.error
  {
  }

  /** A missing slice gives the defaults. */
  lemma SelectorsDefaults()
    ensures SelectSalesData(RootState(None)) == None
    ensures !SelectSalesLoading(RootState(None))
    ensures SelectSalesError(RootState(None)) == None
  {
  }

  /** What the selectors show after each fetch action. */
  lemma SelectorsAfterActions(s: SalesState, period: string, limit: int, payload: SalesReport, error: string)
    ensures SelectSalesLoading(RootState(Some(Reduce(s, FetchStart(period, limit)))))
    ensures SelectSalesError(RootState(Some(Reduce(s, FetchStart(period, limit))))) == None
    ensures SelectSalesData(RootState(Some(Reduce(s, FetchSuccess(payload))))) == Some(payload)
    ensures !SelectSalesLoading(RootState(Some(Reduce(s, FetchSuccess(payload)))))
    ensures SelectSalesError(RootState(Some(Reduce(s, FetchFailure(error))))) == Some(error)
    ensures SelectSalesData(RootState(Some(Reduce(s, FetchFailure(error))))) == s.data
  {
  }

  /** In the initial state nothing is loaded, nothing is loading and there is no error. */
  lemma SelectorsInitially()
    ensures SelectSalesData(RootState(Some(InitialState))) == None
    ensures !SelectSalesLoading(RootState(Some(InitialState)))
    ensures SelectSalesError(RootState(Some(InitialState))) == None
  {
  }
}
