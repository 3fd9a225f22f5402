/**
 * The S&P 500 page (nextjs/pages/display.js): the company search, the
 * sort by company or rating, and the price chart over the sorted rows.
 */
module DisplayPage {
  import opened Base
  import Text
  import Lists

  /** A row of the S&P 500 table as the page reads it. */
  datatype Sp500Item = Sp500Item(company: string, stockPrice: Option<real>, rating: Option<real>)

  /** The page opens sorted by company, ascending. */
  const InitialSortBy: string := "company"
  const InitialDirection: string := "asc"

  /** The search predicate on a row: its company contains the query,
      ignoring case. */
  predicate CompanyMatches(query: string, item: Sp500Item) {
    Text.Matches(item.company, query)
  }

  /** `filteredSP500`: the rows whose company matches, in their order. */
  function FilterSp500(items: seq<Sp500Item>, query: string): (r: seq<Sp500Item>)
    ensures Lists.IsSubseq(r, items)
    ensures forall x :: x in r ==> CompanyMatches(query, x)
    ensures forall x :: x in items ==>
      multiset(r)[x] == if CompanyMatches(query, x) then multiset(items)[x] else 0
  {
    Lists.Filter(items, x => CompanyMatches(query, x))
  }

  /** An empty search keeps every row. */
  lemma EmptyQueryKeepsAll(items: seq<Sp500Item>)
    ensures FilterSp500(items, "") == items
  {
    forall x | x in items ensures CompanyMatches("", x) {
      Text.EmptyQueryMatches(x.company);
    }
    Lists.FilterKeepsAll(items, x => CompanyMatches("", x));
  }

  /** The compared value: the company when sorting by "company", the
      rating otherwise, a null rating comparing as 0. */
  function SortKey(sortBy: string): (key: Sp500Item -> Lists.Key)
    ensures forall item :: !key(item).Last?
    ensures sortBy == "company" ==> forall a, b ::
      Lists.KeyBelow(key(a), key(b)) <==> Text.StrBelow(a.company, b.company)
    ensures sortBy != "company" ==> forall a, b ::
      Lists.KeyBelow(key(a), key(b)) <==> a.rating.GetOr(0.0) < b.rating.GetOr(0.0)
  {
    if sortBy == "company" then (item: Sp500Item) => Lists.Str(item.company)
    else (item: Sp500Item) => Lists.Num(item.rating.GetOr(0.0))
  }

  /** `sortedSP500`: a sorted copy, descending for any direction but "asc". */
  function SortSp500(filtered: seq<Sp500Item>, sortBy: string, sortDirection: string): (r: seq<Sp500Item>)
    ensures multiset(r) == multiset(filtered)
    ensures Lists.SortedByKey(r, SortKey(sortBy), sortDirection != "asc")
  {
    Lists.SortByKey(filtered, SortKey(sortBy), sortDirection != "asc")
  }

  /** Rows with distinct keys stand increasing under "asc" and decreasing
      under any other direction. */
  lemma SortedOrder(filtered: seq<Sp500Item>, sortBy: string, sortDirection: string, i: int, j: int)
    requires 0 <= i < j < |SortSp500(filtered, sortBy, sortDirection)|
    requires var r := SortSp500(filtered, sortBy, sortDirection);
      SortKey(sortBy)(r[i]) != SortKey(sortBy)(r[j])
    ensures var r := SortSp500(filtered, sortBy, sortDirection); var key := SortKey(sortBy);
      if sortDirection == "asc" then Lists.KeyBelow(key(r[i]), key(r[j]))
      else Lists.KeyBelow(key(r[j]), key(r[i]))
  {
    Lists.SortedDistinctKeys(SortSp500(filtered, sortBy, sortDirection), SortKey(sortBy), sortDirection != "asc", i, j);
  }

  /** The price chart: one label and one point per sorted row. */
  datatype PriceChart = PriceChart(labels: seq<string>, data: seq<Option<real>>)

  function Chart(sorted: seq<Sp500Item>): (chart: PriceChart)
    ensures |chart.labels| == |sorted| && |chart.data| == |sorted|
    ensures forall k :: 0 <= k < |sorted| ==>
      chart.labels[k] == sorted[k].company && chart.data[k] == sorted[k].stockPrice
  {
    PriceChart(seq(|sorted|, k requires 0 <= k < |sorted| => sorted[k].company),
               seq(|sorted|, k requires 0 <= k < |sorted| => sorted[k].stockPrice))
  }

  /** Every charted label is a company that matches the search, and its
      point is the price of a row with that company. */
  lemma ChartShowsMatches(items: seq<Sp500Item>, query: string, sortBy: string, sortDirection: string, k: int)
    requires 0 <= k < |Chart(SortSp500(FilterSp500(items, query), sortBy, sortDirection)).labels|
    ensures var chart := Chart(SortSp500(FilterSp500(items, query), sortBy, sortDirection));
      Text.Matches(chart.labels[k], query) &&
      Sp500Item(chart.labels[k], chart.data[k], SortSp500(FilterSp500(items, query), sortBy, sortDirection)[k].rating) in items
  {
    var filtered := FilterSp500(items, query);
    var sorted := SortSp500(filtered, sortBy, sortDirection);
    assert sorted[k] in multiset(filtered);
  }
}
