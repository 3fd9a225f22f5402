/**
 * The market table component (nextjs/pages/MarketSection.js): the rating
 * sort with unrated rows last, the top five, and the chart series built
 * from them with a colour per metric.
 */
module MarketSection {
  import opened Base
  import Lists

  /** The four series colours, cycled by metric index. */
  const Colors: seq<string> := ["#FF6384", "#36A2EB", "#FFCE56", "#4BC0C0"]

  /** `generateColor(index)`. */
  function GenerateColor(index: nat): (color: string)
    ensures color in Colors
  {
    Colors[index % |Colors|]
  }

  /** Colours repeat every four series. */
  lemma ColorPeriodic(index: nat)
    ensures GenerateColor(index + 4) == GenerateColor(index)
  {
  }

  /** Four consecutive series never share a colour. */
  lemma ColorsDistinctWithinFour(i: nat, j: nat)
    requires i < j < i + 4
    ensures GenerateColor(i) != GenerateColor(j)
  {
    assert i % 4 != j % 4;
  }

  /** A row of a market table: the company and the numeric columns it
      carries; a column absent from `values` is null or undefined. */
  datatype MarketItem = MarketItem(company: Option<string>, values: map<string, real>)

  /** `item.rating`, absent when null or undefined. */
  function Rating(item: MarketItem): Option<real> {
    if "rating" in item.values then Some(item.values["rating"]) else None
  }

  /** The direction state starts, and stays, at "desc". */
  const InitialDirection: string := "desc"

  /** The comparator as a key: unrated rows after every rated one; rated
      rows by rating, negated unless the direction is "asc". */
  function MarketKey(sortDirection: string): (key: MarketItem -> Lists.Key)
    ensures forall item :: key(item).Last? <==> Rating(item).None?
    ensures forall a, b :: Rating(a).Some? && Rating(b).Some? ==>
      (Lists.KeyBelow(key(a), key(b)) <==>
        if sortDirection == "asc" then Rating(a).value < Rating(b).value
        else Rating(a).value > Rating(b).value)
  {
    (item: MarketItem) =>
      match Rating(item)
      case None => Lists.Last
      case Some(r) => Lists.Num(if sortDirection == "asc" then r else -r)
  }

  /** `sortedData`: a sorted copy of the rows. */
  function SortedData(data: seq<MarketItem>, sortDirection: string): (r: seq<MarketItem>)
    ensures multiset(r) == multiset(data)
    ensures forall i, j :: 0 <= i < j < |r| && Rating(r[i]).None? ==> Rating(r[j]).None?
    ensures forall i, j :: 0 <= i < j < |r| && Rating(r[i]).Some? && Rating(r[j]).Some? ==>
      if sortDirection == "asc" then Rating(r[i]).value <= Rating(r[j]).value
      else Rating(r[i]).value >= Rating(r[j]).value
  {
    var sorted := Lists.SortByKey(data, MarketKey(sortDirection), false);
    assert forall i, j :: 0 <= i < j < |sorted| ==>
      !Lists.KeyBelow(MarketKey(sortDirection)(sorted[j]), MarketKey(sortDirection)(sorted[i]));
    sorted
  }

  /** `top5`: the first five sorted rows, or all of them when fewer. */
  function Top5(sorted: seq<MarketItem>): (r: seq<MarketItem>)
    ensures |r| == if |sorted| < 5 then |sorted| else 5
    ensures forall k :: 0 <= k < |r| ==> r[k] == sorted[k]
  {
    if |sorted| < 5 then sorted else sorted[..5]
  }

  /** Under "desc", a row left out of the top five is never rated above
      one in it, and if it is rated, every row in the top five is. */
  lemma TopFiveDominates(data: seq<MarketItem>, k: int, l: int)
    requires 0 <= k < |Top5(SortedData(data, InitialDirection))|
    requires 5 <= l < |SortedData(data, InitialDirection)|
    requires Rating(SortedData(data, InitialDirection)[l]).Some?
    ensures var top := Top5(SortedData(data, InitialDirection));
      var rest := SortedData(data, InitialDirection)[l];
      Rating(top[k]).Some? && Rating(top[k]).value >= Rating(rest).value
  {
    var sorted := SortedData(data, InitialDirection);
    assert Top5(sorted)[k] == sorted[k];
  }

  /** A metric to chart: the column it reads and its legend label (`name`). */
  datatype Metric = Metric(key: string, name: string)

  /** One line of the chart; `name` is its legend label. */
  datatype Dataset = Dataset(name: string, data: seq<real>, borderColor: string, backgroundColor: string)

  datatype ChartData = ChartData(labels: seq<string>, datasets: seq<Dataset>)

  /** The x-axis labels: each company, or "N/A" when it is missing or empty. */
  function Labels(top: seq<MarketItem>): (labels: seq<string>)
    ensures |labels| == |top|
    ensures forall k :: 0 <= k < |top| ==>
      (labels[k] == "N/A" <==> top[k].company.None? || top[k].company.value in {"", "N/A"}) &&
      (top[k].company.Some? && top[k].company.value != "" ==> labels[k] == top[k].company.value)
  {
    seq(|top|, k requires 0 <= k < |top| =>
      if top[k].company.Some? && top[k].company.value != "" then top[k].company.value else "N/A")
  }

  /** One series: each row's value of the metric's column, 0 when absent. */
  function Series(top: seq<MarketItem>, key: string): (data: seq<real>)
    ensures |data| == |top|
    ensures forall k :: 0 <= k < |top| && key in top[k].values ==> data[k] == top[k].values[key]
    ensures forall k :: 0 <= k < |top| && key !in top[k].values ==> data[k] == 0.0
  {
    seq(|top|, k requires 0 <= k < |top| => if key in top[k].values then top[k].values[key] else 0.0)
  }

  /** `chartData`: one label per top row and one dataset per metric, each
      in the rows' order and coloured by the metric's position. */
  function Chart(top: seq<MarketItem>, metrics: seq<Metric>): (chart: ChartData)
    ensures chart.labels == Labels(top)
    ensures |chart.datasets| == |metrics|
    ensures forall m :: 0 <= m < |metrics| ==>
      chart.datasets[m].name == metrics[m].name &&
      |chart.datasets[m].data| == |top| &&
      chart.datasets[m].data == Series(top, metrics[m].key) &&
      chart.datasets[m].borderColor == GenerateColor(m) &&
      chart.datasets[m].borderColor in Colors &&
      chart.datasets[m].backgroundColor == chart.datasets[m].borderColor + "80"
  {
    ChartData(
      Labels(top),
      seq(|metrics|, m requires 0 <= m < |metrics| =>
        Dataset(metrics[m].name, Series(top, metrics[m].key), GenerateColor(m), GenerateColor(m) + "80")))
  }

  /** Two metrics charted side by side never share a colour unless four
      or more positions apart. */
  lemma ChartColorsDistinct(top: seq<MarketItem>, metrics: seq<Metric>, m1: int, m2: int)
    requires 0 <= m1 < m2 < |metrics| && m2 < m1 + 4
    ensures Chart(top, metrics).datasets[m1].borderColor != Chart(top, metrics).datasets[m2].borderColor
  {
    ColorsDistinctWithinFour(m1, m2);
  }
}
