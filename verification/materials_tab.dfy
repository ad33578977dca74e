/** The materials tab (components/MaterialsTab.tsx): the search over the
    catalogue's materials, the historical high and low of a price series,
    and the series shown for a selected material.

    `toLowerCase` is Unicode case mapping, which this model does not
    define: it is the parameter `lower`, and every property holds whatever
    function it is. */
module MaterialsTab {
  import opened Common

  // ---------------------------------------------------------------------
  // Search
  // ---------------------------------------------------------------------

  /** `name.toLowerCase().includes(searchQuery.toLowerCase())`. */
  function MatchesQuery(lower: string -> string, query: string): string -> bool {
    (name: string) => Contains(lower(name), lower(query))
  }

  /** `filteredMaterials`: every material for an empty query, otherwise the
      materials whose lower-cased name contains the lower-cased query. */
  function FilteredMaterials(all: seq<string>, query: string, lower: string -> string): (r: seq<string>)
    ensures |query| == 0 ==> r == all
    ensures |query| > 0 ==>
              forall name :: name in r <==> name in all && Contains(lower(name), lower(query))
    ensures |r| <= |all|
  {
    if |query| == 0 then all else Filter(MatchesQuery(lower, query), all)
  }

  /** The search keeps the catalogue's order: two results appear in the
      catalogue in the order the search lists them. */
  lemma FilteredMaterialsOrder(all: seq<string>, query: string, lower: string -> string)
    ensures forall i, j :: 0 <= i < j < |FilteredMaterials(all, query, lower)| ==>
              exists a, b :: 0 <= a < b < |all| && all[a] == FilteredMaterials(all, query, lower)[i] &&
                             all[b] == FilteredMaterials(all, query, lower)[j]
  {
    var r := FilteredMaterials(all, query, lower);
    forall i, j | 0 <= i < j < |r|
      ensures exists a, b :: 0 <= a < b < |all| && all[a] == r[i] && all[b] == r[j]
    {
      if |query| == 0 {
        assert all[i] == r[i] && all[j] == r[j];
      } else {
        var a, b := FilterOrderPair(MatchesQuery(lower, query), all, i, j);
        assert all[a] == r[i] && all[b] == r[j];
      }
    }
  }

  /** Searching the results again with the same query changes nothing. */
  lemma FilteredMaterialsIdempotent(all: seq<string>, query: string, lower: string -> string)
    ensures FilteredMaterials(FilteredMaterials(all, query, lower), query, lower) ==
            FilteredMaterials(all, query, lower)
  {
    if |query| > 0 {
      FilterAll(MatchesQuery(lower, query), FilteredMaterials(all, query, lower));
    }
  }

  /** A material's own name finds it. */
  lemma SearchFindsName(all: seq<string>, name: string, lower: string -> string)
    requires name in all
    ensures name in FilteredMaterials(all, name, lower)
  {
    ContainsSelf(lower(name));
  }

  // ---------------------------------------------------------------------
  // Historical high and low
  // ---------------------------------------------------------------------

  /** One point of the price series the tab receives. */
  datatype PriceHistoryData = PriceHistoryData(
    timestamp: int,
    date: int,
    hour: int,
    minuteSlot: int,
    minPrice: int,
    maxPrice: int,
    avgPrice: int,
    quantity: int)

  datatype HistoricalPrices = HistoricalPrices(historicalHigh: int, historicalLow: int)

  /** `priceHistory.filter(h => h.minPrice > 0).map(h => h.minPrice)`. */
  function PositiveMinPrices(history: seq<PriceHistoryData>): (ps: seq<int>)
    ensures forall x :: x in ps ==> x > 0 && exists i :: 0 <= i < |history| && history[i].minPrice == x
    ensures forall i :: 0 <= i < |history| && history[i].minPrice > 0 ==> history[i].minPrice in ps
  {
    if |history| == 0 then []
    else
      var rest := PositiveMinPrices(history[1..]);
      assert forall i :: 1 <= i < |history| ==> history[i] == history[1..][i - 1];
      (if history[0].minPrice > 0 then [history[0].minPrice] else []) + rest
  }

  /** `Math.max(...prices)` over a non-empty list. */
  function MaxOf(s: seq<int>): (m: int)
    requires |s| > 0
    ensures m in s
    ensures forall x :: x in s ==> x <= m
  {
    if |s| == 1 then s[0]
    else
      var rest := MaxOf(s[1..]);
      assert forall x :: x in s ==> x == s[0] || x in s[1..];
      if s[0] >= rest then s[0] else rest
  }

  /** `Math.min(...prices)` over a non-empty list. */
  function MinOf(s: seq<int>): (m: int)
    requires |s| > 0
    ensures m in s
    ensures forall x :: x in s ==> m <= x
  {
    if |s| == 1 then s[0]
    else
      var rest := MinOf(s[1..]);
      assert forall x :: x in s ==> x == s[0] || x in s[1..];
      if s[0] <= rest then s[0] else rest
  }

  /** `getHistoricalPrices`: the highest and lowest positive minimum price
      of the series, both 0 when there is none. The material's name is
      accepted and not used: every material gets the same answer. */
  function GetHistoricalPrices(history: seq<PriceHistoryData>, itemName: string): (r: HistoricalPrices)
    ensures (forall i :: 0 <= i < |history| ==> history[i].minPrice <= 0) ==> r == HistoricalPrices(0, 0)
    ensures (exists i :: 0 <= i < |history| && history[i].minPrice > 0) ==>
              && 0 < r.historicalLow <= r.historicalHigh
              && (exists i :: 0 <= i < |history| && history[i].minPrice == r.historicalHigh)
              && (exists i :: 0 <= i < |history| && history[i].minPrice == r.historicalLow)
              && forall i :: 0 <= i < |history| && history[i].minPrice > 0 ==>
                   r.historicalLow <= history[i].minPrice <= r.historicalHigh
  {
    var prices := PositiveMinPrices(history);
    if |prices| == 0 then HistoricalPrices(0, 0)
    else HistoricalPrices(MaxOf(prices), MinOf(prices))
  }

  /** The name plays no part. */
  lemma HistoricalPricesIgnoreName(history: seq<PriceHistoryData>, a: string, b: string)
    ensures GetHistoricalPrices(history, a) == GetHistoricalPrices(history, b)
  {
  }

  // ---------------------------------------------------------------------
  // Selected material
  // ---------------------------------------------------------------------

  /** `selectedMaterialHistory`: nothing without a selection (the empty
      name counts as none), otherwise the whole series, whichever material
      is selected. */
  function SelectedMaterialHistory(selected: Option<string>, history: seq<PriceHistoryData>): (r: seq<PriceHistoryData>)
    ensures selected.None? ==> r == []
    ensures selected.Some? && |selected.value| > 0 ==> r == history
    ensures |r| == 0 || r == history
  {
    if selected.None? || |selected.value| == 0 then [] else history
  }

  /** Two selections show the same series. */
  lemma SelectionDoesNotNarrow(a: string, b: string, history: seq<PriceHistoryData>)
    requires |a| > 0 && |b| > 0
    ensures SelectedMaterialHistory(Some(a), history) == SelectedMaterialHistory(Some(b), history)
  {
  }
}
