/**
 * The list logic of the calculator page (nextjs/pages/Calculator.js):
 * the form's change handler, the sort header, the sorted and searched
 * calculation history, and the local removal after a delete.
 */
module CalculatorPage {
  import opened Base
  import Text
  import Lists

  /** `handleInputChange`: the form state with one field replaced. */
  function WithInput(inputs: map<string, string>, name: string, value: string): (r: map<string, string>)
    ensures r.Keys == inputs.Keys + {name}
    ensures r[name] == value
    ensures forall k :: k in inputs && k != name ==> r[k] == inputs[k]
  {
    inputs[name := value]
  }

  /** A calculation from the history list, as the history route returns it. */
  datatype HistoryRecord = HistoryRecord(
    historyId: int,
    companyName: string,
    stockPrice: Option<real>,
    intrinsicValue: Option<real>,
    marginOfSafety: Option<real>,
    rating: Option<real>)

  /** The two sortable columns. */
  datatype HistoryColumn = CompanyName | Rating

  datatype Direction = Asc | Desc

  datatype SortConfig = SortConfig(key: HistoryColumn, direction: Direction)

  /** The page opens sorted by company, ascending. */
  const InitialSort: SortConfig := SortConfig(CompanyName, Asc)

  /** `handleSort`: the clicked column, descending only when it was already
      the ascending column. */
  function HandleSort(config: SortConfig, key: HistoryColumn): (r: SortConfig)
    ensures r.key == key
    ensures r.direction == Desc <==> config.key == key && config.direction == Asc
  {
    if config.key == key && config.direction == Asc then SortConfig(key, Desc)
    else SortConfig(key, Asc)
  }

  /** Clicking the same header again always reverses the direction. */
  lemma RepeatedClicksAlternate(config: SortConfig, key: HistoryColumn)
    ensures HandleSort(HandleSort(config, key), key).key == key
    ensures HandleSort(HandleSort(config, key), key).direction != HandleSort(config, key).direction
  {
  }

  /** The value the comparator reads: the company name, or the rating, a
      null rating comparing as 0 under `<` and `>`. */
  function HistoryKey(column: HistoryColumn): (key: HistoryRecord -> Lists.Key)
    ensures forall r :: !key(r).Last?
    ensures column == CompanyName ==> forall a, b ::
      Lists.KeyBelow(key(a), key(b)) <==> Text.StrBelow(a.companyName, b.companyName)
    ensures column == Rating ==> forall a, b ::
      Lists.KeyBelow(key(a), key(b)) <==> a.rating.GetOr(0.0) < b.rating.GetOr(0.0)
  {
    match column
    case CompanyName => (r: HistoryRecord) => Lists.Str(r.companyName)
    case Rating => (r: HistoryRecord) => Lists.Num(r.rating.GetOr(0.0))
  }

  /** `sortedHistory`: a sorted copy of the history. */
  function SortHistory(history: seq<HistoryRecord>, config: SortConfig): (r: seq<HistoryRecord>)
    ensures multiset(r) == multiset(history)
    ensures Lists.SortedByKey(r, HistoryKey(config.key), config.direction == Desc)
  {
    Lists.SortByKey(history, HistoryKey(config.key), config.direction == Desc)
  }

  /** Records with distinct keys stand increasing under "asc" and
      decreasing under "desc". */
  lemma SortedHistoryOrder(history: seq<HistoryRecord>, config: SortConfig, i: int, j: int)
    requires 0 <= i < j < |SortHistory(history, config)|
    requires HistoryKey(config.key)(SortHistory(history, config)[i]) != HistoryKey(config.key)(SortHistory(history, config)[j])
    ensures var r := SortHistory(history, config); var key := HistoryKey(config.key);
      if config.direction == Asc then Lists.KeyBelow(key(r[i]), key(r[j]))
      else Lists.KeyBelow(key(r[j]), key(r[i]))
  {
    Lists.SortedDistinctKeys(SortHistory(history, config), HistoryKey(config.key), config.direction == Desc, i, j);
  }

  /** The search predicate on a record: its company name contains the term,
      ignoring case. */
  predicate CompanyMatches(term: string, r: HistoryRecord) {
    Text.Matches(r.companyName, term)
  }

  /** `filteredHistory`: the sorted history narrowed to the search term.
      It stays sorted and holds exactly the matching records. */
  function VisibleHistory(history: seq<HistoryRecord>, config: SortConfig, term: string): (r: seq<HistoryRecord>)
    ensures Lists.SortedByKey(r, HistoryKey(config.key), config.direction == Desc)
    ensures forall x :: x in r ==> CompanyMatches(term, x)
    ensures forall x :: x in history ==>
      multiset(r)[x] == if CompanyMatches(term, x) then multiset(history)[x] else 0
  {
    var sorted := SortHistory(history, config);
    Lists.FilterKeepsSorted(sorted, x => CompanyMatches(term, x), HistoryKey(config.key), config.direction == Desc);
    Lists.Filter(sorted, x => CompanyMatches(term, x))
  }

  /** An empty search shows the whole sorted history. */
  lemma EmptySearchShowsAll(history: seq<HistoryRecord>, config: SortConfig)
    ensures VisibleHistory(history, config, "") == SortHistory(history, config)
  {
    var sorted := SortHistory(history, config);
    forall x | x in sorted ensures CompanyMatches("", x) {
      Text.EmptyQueryMatches(x.companyName);
    }
    Lists.FilterKeepsAll(sorted, x => CompanyMatches("", x));
  }

  /** The `id` property the local delete reads. History records carry
      `history_id` and no `id`, so the read is always undefined. */
  function IdProperty(r: HistoryRecord): Option<int> {
    None
  }

  /** The local delete as written: keep each record whose `id` differs
      from the deleted id. */
  function DeleteLocallyAsWritten(history: seq<HistoryRecord>, deletedId: int): (r: seq<HistoryRecord>)
    ensures Lists.IsSubseq(r, history)
    ensures forall x :: x in r ==> IdProperty(x) != Some(deletedId)
  {
    Lists.Filter(history, x => IdProperty(x) != Some(deletedId))
  }

  /** Because `undefined !== id` always holds, the local delete removes
      nothing, even the record just deleted on the server. */
  lemma DeleteLocallyAsWrittenKeepsAll(history: seq<HistoryRecord>, deletedId: int)
    ensures DeleteLocallyAsWritten(history, deletedId) == history
  {
    Lists.FilterKeepsAll(history, x => IdProperty(x) != Some(deletedId));
  }

  /** The local delete as intended: drop the records with the deleted
      `history_id`, keep the rest in order. */
  function DeleteLocally(history: seq<HistoryRecord>, deletedId: int): (r: seq<HistoryRecord>)
    ensures Lists.IsSubseq(r, history)
    ensures forall x :: x in r ==> x.historyId != deletedId
    ensures forall x :: x in history && x.historyId != deletedId ==> multiset(r)[x] == multiset(history)[x]
  {
    Lists.Filter(history, (x: HistoryRecord) => x.historyId != deletedId)
  }

  /** A delete removes the record just deleted whenever it is listed. */
  lemma DeleteLocallyRemoves(history: seq<HistoryRecord>, i: int)
    requires 0 <= i < |history|
    ensures history[i] !in DeleteLocally(history, history[i].historyId)
    ensures |DeleteLocally(history, history[i].historyId)| < |history|
  {
    Lists.FilterShrinks(history, (x: HistoryRecord) => x.historyId != history[i].historyId, i);
  }
}
