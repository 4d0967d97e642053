/** The trader list of src/components/GigaDegens/index.jsx: the filter
    settings, their merge, and the filtered and sorted view of the traders. */
module GigaDegens {
  import opened Records
  import opened Sequences
  import opened TraderAnalysis

  datatype Filters = Filters(minScore: int, minProfitability: int, sortBy: string)

  /** The settings the view starts with. */
  const InitialFilters := Filters(50, 15, "score")

  /** The keys a filter change supplies; `None` for a key it leaves out. */
  datatype FilterChange = FilterChange(minScore: Option<int>, minProfitability: Option<int>, sortBy: Option<string>)

  /** `{ ...prev, ...newFilters }`. */
  function HandleFilterChange(prev: Filters, newFilters: FilterChange): (r: Filters)
    ensures newFilters.minScore.None? ==> r.minScore == prev.minScore
    ensures newFilters.minProfitability.None? ==> r.minProfitability == prev.minProfitability
    ensures newFilters.sortBy.None? ==> r.sortBy == prev.sortBy
  {
    Filters(
      if newFilters.minScore.Some? then newFilters.minScore.value else prev.minScore,
      if newFilters.minProfitability.Some? then newFilters.minProfitability.value else prev.minProfitability,
      if newFilters.sortBy.Some? then newFilters.sortBy.value else prev.sortBy)
  }

  /** The later of two changes wins key by key. */
  function Then(first: FilterChange, second: FilterChange): FilterChange {
    FilterChange(
      if second.minScore.Some? then second.minScore else first.minScore,
      if second.minProfitability.Some? then second.minProfitability else first.minProfitability,
      if second.sortBy.Some? then second.sortBy else first.sortBy)
  }

  /** A supplied key overwrites; applying the same change twice is applying
      it once; two changes in a row act as their key-by-key combination. */
  lemma HandleFilterChangeLaws(prev: Filters, c: FilterChange, d: FilterChange)
    ensures c.minScore.Some? ==> HandleFilterChange(prev, c).minScore == c.minScore.value
    ensures c.minProfitability.Some? ==> HandleFilterChange(prev, c).minProfitability == c.minProfitability.value
    ensures c.sortBy.Some? ==> HandleFilterChange(prev, c).sortBy == c.sortBy.value
    ensures HandleFilterChange(HandleFilterChange(prev, c), c) == HandleFilterChange(prev, c)
    ensures HandleFilterChange(HandleFilterChange(prev, c), d) == HandleFilterChange(prev, Then(c, d))
  {
  }

  predicate Passes(f: Filters, t: Trader) {
    t.score >= f.minScore && t.profitability.avgProfit >= f.minProfitability
  }

  function ByProfit(t: Trader): int {
    t.profitability.avgProfit
  }

  function ByConsistency(t: Trader): int {
    t.metrics.consistencyScore
  }

  /** The comparator's key: 'profit', 'consistency', and the score for
      'score' or anything else. */
  function SortKey(sortBy: string): Trader -> int {
    if sortBy == "profit" then ByProfit
    else if sortBy == "consistency" then ByConsistency
    else ByScore
  }

  function FilteredTraders(traders: seq<Trader>, filters: Filters): (r: seq<Trader>)
    ensures |r| <= |traders|
  {
    SortDesc(Filter(traders, t => Passes(filters, t)), SortKey(filters.sortBy))
  }

  /** The view holds exactly the traders that pass both thresholds, each
      as often as the input holds it. */
  lemma FilteredMembers(traders: seq<Trader>, filters: Filters)
    ensures var r := FilteredTraders(traders, filters);
      && (forall t :: t in r <==> t in traders && Passes(filters, t))
      && (forall t :: multiset(r)[t] == if Passes(filters, t) then multiset(traders)[t] else 0)
      && |r| <= |traders|
  {
    var p := (t: Trader) => Passes(filters, t);
    var kept := Filter(traders, p);
    FilterIsSubsequence(traders, p);
    var r := FilteredTraders(traders, filters);
    assert multiset(r) == multiset(kept);
    SameMembers(r, kept);
  }

  /** The view is best first by the key `sortBy` names. */
  lemma FilteredOrder(traders: seq<Trader>, filters: Filters)
    ensures var r := FilteredTraders(traders, filters);
      && (filters.sortBy == "profit" ==>
            forall i, j :: 0 <= i < j < |r| ==> r[i].profitability.avgProfit >= r[j].profitability.avgProfit)
      && (filters.sortBy == "consistency" ==>
            forall i, j :: 0 <= i < j < |r| ==> r[i].metrics.consistencyScore >= r[j].metrics.consistencyScore)
      && (filters.sortBy != "profit" && filters.sortBy != "consistency" ==>
            forall i, j :: 0 <= i < j < |r| ==> r[i].score >= r[j].score)
  {
    var r := FilteredTraders(traders, filters);
    assert SortedDesc(r, SortKey(filters.sortBy));
  }

  /** The view holds exactly the traders that pass both thresholds, each
      as often as the input holds it, best first by the chosen key. */
  lemma FilteredTradersFacts(traders: seq<Trader>, filters: Filters)
    ensures var r := FilteredTraders(traders, filters);
      && (forall t :: t in r <==> t in traders && t.score >= filters.minScore
                                    && t.profitability.avgProfit >= filters.minProfitability)
      && (forall t :: multiset(r)[t] == if Passes(filters, t) then multiset(traders)[t] else 0)
      && |r| <= |traders|
      && (filters.sortBy == "profit" ==>
            forall i, j :: 0 <= i < j < |r| ==> r[i].profitability.avgProfit >= r[j].profitability.avgProfit)
      && (filters.sortBy == "consistency" ==>
            forall i, j :: 0 <= i < j < |r| ==> r[i].metrics.consistencyScore >= r[j].metrics.consistencyScore)
      && (filters.sortBy != "profit" && filters.sortBy != "consistency" ==>
            forall i, j :: 0 <= i < j < |r| ==> r[i].score >= r[j].score)
  {
    FilteredMembers(traders, filters);
    FilteredOrder(traders, filters);
  }
}
