/** The dashboard's summary panel (components/TotalSummary.tsx): how many
    catalogue materials have a price, the coverage percentage, each
    mercenary's main-material cost and the cheapest priced mercenary.

    The panel is written against the catalogue (`getAllUniqueItems()` and
    `MERCENARIES`); here both lists are parameters, so every property holds
    for any catalogue, the shipped one included. */
module TotalSummary {
  import opened Common
  import opened Sorting
  import opened Rounding
  import opened Items

  // ---------------------------------------------------------------------
  // Coverage
  // ---------------------------------------------------------------------

  /** `prices[item]?.minPrice > 0` as a function value. */
  function Priced(prices: map<string, PriceInfo>): string -> bool {
    (name: string) => HasPositivePrice(prices, name)
  }

  /** `itemsWithPrice`: the number of materials with a positive price. */
  function ItemsWithPrice(allItems: seq<string>, prices: map<string, PriceInfo>): (n: nat)
    ensures n <= |allItems|
    ensures n == |Filter(Priced(prices), allItems)|
  {
    |Filter(Priced(prices), allItems)|
  }

  /** A filter that drops some element is shorter than its input. */
  lemma {:induction false} FilterDropsOne<T>(p: T -> bool, s: seq<T>, i: nat)
    requires i < |s| && !p(s[i])
    ensures |Filter(p, s)| < |s|
    decreases |s|
  {
    var rest := Filter(p, s[1..]);
    assert Filter(p, s) == (if p(s[0]) then [s[0]] else []) + rest;
    if i > 0 {
      assert s[1..][i - 1] == s[i];
      FilterDropsOne(p, s[1..], i - 1);
    }
  }

  /** Every material is priced exactly when the count reaches the number of
      materials. */
  lemma FullCoverage(allItems: seq<string>, prices: map<string, PriceInfo>)
    ensures ItemsWithPrice(allItems, prices) == |allItems| <==>
              forall i :: 0 <= i < |allItems| ==> HasPositivePrice(prices, allItems[i])
  {
    var p := Priced(prices);
    if forall i :: 0 <= i < |allItems| ==> HasPositivePrice(prices, allItems[i]) {
      FilterAll(p, allItems);
    } else {
      var i :| 0 <= i < |allItems| && !HasPositivePrice(prices, allItems[i]);
      FilterDropsOne(p, allItems, i);
    }
  }

  /** `priceRate`: the coverage as a whole percentage, rounded half up;
      0 for an empty catalogue. */
  function PriceRate(itemsWithPrice: nat, totalItems: nat): (r: int)
    requires itemsWithPrice <= totalItems
    ensures 0 <= r <= 100
    ensures totalItems == 0 ==> r == 0
    ensures totalItems > 0 ==>
              2 * totalItems * r - totalItems <= 200 * itemsWithPrice < 2 * totalItems * r + totalItems
  {
    if totalItems > 0 then
      RoundDivBetween(100 * itemsWithPrice, totalItems, 0, 100);
      RoundDiv(100 * itemsWithPrice, totalItems)
    else 0
  }

  /** The extremes: no priced material reads 0 %, full coverage 100 %. */
  lemma PriceRateEnds(itemsWithPrice: nat, totalItems: nat)
    requires itemsWithPrice <= totalItems
    ensures itemsWithPrice == 0 ==> PriceRate(itemsWithPrice, totalItems) == 0
    ensures 0 < itemsWithPrice == totalItems ==> PriceRate(itemsWithPrice, totalItems) == 100
  {
    if totalItems > 0 {
      if itemsWithPrice == 0 {
        RoundDivUnique(0, totalItems, 0);
      }
      if itemsWithPrice == totalItems {
        RoundDivUnique(100 * totalItems, totalItems, 100);
      }
    }
  }

  /** More priced materials never lower the percentage. */
  lemma PriceRateMonotone(a: nat, b: nat, totalItems: nat)
    requires a <= b <= totalItems
    ensures PriceRate(a, totalItems) <= PriceRate(b, totalItems)
  {
    if totalItems > 0 {
      var t := totalItems;
      var ra := PriceRate(a, t);
      var rb := PriceRate(b, t);
      // 2t*ra - t <= 200a <= 200b < 2t*rb + t, so t*ra < t*(rb + 1).
      assert 2 * t * ra < 2 * t * rb + 2 * t;
      assert t * ra < t * (rb + 1);
      MulStrict(t, rb + 1, ra);
    }
  }

  // ---------------------------------------------------------------------
  // Per-mercenary statistics
  // ---------------------------------------------------------------------

  datatype MercenaryStat = MercenaryStat(name: string, cost: int, hasAllPrices: bool)

  /** `items.every(item => prices[item.name]?.minPrice > 0)`. */
  predicate AllPriced(items: seq<ItemRequirement>, prices: map<string, PriceInfo>) {
    forall i :: 0 <= i < |items| ==> HasPositivePrice(prices, items[i].name)
  }

  /** One mercenary's statistics: its name, the folded cost of its main
      materials, and whether each of them is priced. */
  function StatOf(m: Mercenary, prices: map<string, PriceInfo>): (s: MercenaryStat)
    ensures s.name == m.name
    ensures s.cost == CalculateTotalCost(m, prices).mainCost && s.cost >= 0
    ensures s.hasAllPrices <==> forall i :: 0 <= i < |m.items| ==> HasPositivePrice(prices, m.items[i].name)
  {
    MercenaryStat(m.name, ReduceItemsCost(m.items, prices, 0), AllPriced(m.items, prices))
  }

  /** `mercenaryStats`: one statistic per mercenary, in catalogue order. */
  function MercenaryStats(mercs: seq<Mercenary>, prices: map<string, PriceInfo>): (r: seq<MercenaryStat>)
    ensures |r| == |mercs|
    ensures forall i :: 0 <= i < |mercs| ==> r[i] == StatOf(mercs[i], prices)
  {
    seq(|mercs|, i requires 0 <= i < |mercs| => StatOf(mercs[i], prices))
  }

  /** A mercenary costs something exactly when one of its main materials is
      priced and needed; with every material priced and one of them needed,
      the cost is positive. */
  lemma StatCostPositive(m: Mercenary, prices: map<string, PriceInfo>)
    ensures StatOf(m, prices).cost > 0 <==>
              exists i :: 0 <= i < |m.items| && HasPositivePrice(prices, m.items[i].name) && m.items[i].quantity > 0
    ensures StatOf(m, prices).hasAllPrices && (exists i :: 0 <= i < |m.items| && m.items[i].quantity > 0) ==>
              StatOf(m, prices).cost > 0
  {
    ItemsCostPositive(m.items, prices);
  }

  // ---------------------------------------------------------------------
  // Cheapest mercenary
  // ---------------------------------------------------------------------

  function Cost(s: MercenaryStat): int {
    s.cost
  }

  function HasCost(s: MercenaryStat): bool {
    s.cost > 0
  }

  /** `cheapestMerc`: the head of the positive-cost statistics sorted by
      cost with a stable sort; absent when none has a positive cost. */
  function CheapestMercenary(stats: seq<MercenaryStat>): (r: Option<MercenaryStat>)
    ensures r.Some? ==> r.value.cost > 0 && r.value in stats
  {
    var positive := Filter(HasCost, stats);
    if |positive| == 0 then None
    else
      assert SortBy(positive, Cost)[0] in multiset(SortBy(positive, Cost));
      Some(SortBy(positive, Cost)[0])
  }

  /** Reference definition, a single scan: the earliest positive-cost
      statistic whose cost no later positive-cost statistic undercuts. */
  function FirstCheapest(stats: seq<MercenaryStat>): (r: Option<MercenaryStat>)
    ensures r.None? <==> forall i :: 0 <= i < |stats| ==> stats[i].cost <= 0
    ensures r.Some? ==>
              && r.value.cost > 0
              && (forall i :: 0 <= i < |stats| && stats[i].cost > 0 ==> r.value.cost <= stats[i].cost)
              && exists k :: 0 <= k < |stats| && stats[k] == r.value &&
                   forall i :: 0 <= i < k && stats[i].cost > 0 ==> stats[i].cost > r.value.cost
  {
    if |stats| == 0 then None
    else
      var rest := FirstCheapest(stats[1..]);
      assert forall i :: 1 <= i < |stats| ==> stats[i] == stats[1..][i - 1];
      if stats[0].cost > 0 && (rest.None? || stats[0].cost <= rest.value.cost) then
        assert stats[0] == stats[0];
        Some(stats[0])
      else
        if rest.Some? then
          var k :| 0 <= k < |stats[1..]| && stats[1..][k] == rest.value &&
                   forall i :: 0 <= i < k && stats[1..][i].cost > 0 ==> stats[1..][i].cost > rest.value.cost;
          assert stats[k + 1] == rest.value;
          rest
        else rest
  }

  /** The filtered statistics' first minimum is the scan's answer. */
  lemma {:induction false} FirstMinIsFirstCheapest(stats: seq<MercenaryStat>)
    ensures |Filter(HasCost, stats)| == 0 <==> FirstCheapest(stats).None?
    ensures |Filter(HasCost, stats)| > 0 ==>
              Filter(HasCost, stats)[FirstMinIndex(Filter(HasCost, stats), Cost)] == FirstCheapest(stats).value
    decreases |stats|
  {
    if |stats| > 0 {
      FirstMinIsFirstCheapest(stats[1..]);
      var f := Filter(HasCost, stats);
      var ft := Filter(HasCost, stats[1..]);
      var rest := FirstCheapest(stats[1..]);
      assert FirstCheapest(stats) ==
        if stats[0].cost > 0 && (rest.None? || stats[0].cost <= rest.value.cost) then Some(stats[0]) else rest;
      if HasCost(stats[0]) {
        assert f == [stats[0]] + ft;
        if |ft| == 0 {
          assert FirstMinIndex(f, Cost) == 0;
        } else {
          assert f[1..] == ft;
          var j := FirstMinIndex(ft, Cost);
          assert ft[j] == rest.value;
          assert FirstMinIndex(f, Cost) == if Cost(f[0]) <= Cost(ft[j]) then 0 else j + 1;
        }
      } else {
        assert f == ft;
      }
    }
  }

  /** The sort-based selection is the scan: the cheapest positive-cost
      mercenary, the earliest among equal costs, absent exactly when every
      cost is zero. */
  lemma CheapestIsFirstCheapest(stats: seq<MercenaryStat>)
    ensures CheapestMercenary(stats) == FirstCheapest(stats)
  {
    FirstMinIsFirstCheapest(stats);
    var positive := Filter(HasCost, stats);
    if |positive| > 0 {
      SortByHead(positive, Cost);
    }
  }

  /** What the panel shows. */
  datatype Summary = Summary(
    itemsWithPrice: nat,
    totalItems: nat,
    priceRate: int,
    stats: seq<MercenaryStat>,
    cheapest: Option<MercenaryStat>)

  function Summarize(allItems: seq<string>, mercs: seq<Mercenary>, prices: map<string, PriceInfo>): (r: Summary)
    ensures r.itemsWithPrice <= r.totalItems == |allItems|
    ensures 0 <= r.priceRate <= 100
    ensures |r.stats| == |mercs|
    ensures forall i :: 0 <= i < |mercs| ==>
              r.stats[i].name == mercs[i].name && r.stats[i].cost == CalculateTotalCost(mercs[i], prices).mainCost
    ensures r.cheapest.Some? ==> r.cheapest.value.cost > 0 && r.cheapest.value in r.stats
  {
    var withPrice := ItemsWithPrice(allItems, prices);
    var stats := MercenaryStats(mercs, prices);
    Summary(withPrice, |allItems|, PriceRate(withPrice, |allItems|), stats, CheapestMercenary(stats))
  }

  /** The panel's cheapest mercenary, in terms of the catalogue: present
      exactly when some mercenary has a priced, needed material; then no
      positive-cost mercenary is cheaper, and every earlier one is dearer. */
  lemma SummaryCheapest(allItems: seq<string>, mercs: seq<Mercenary>, prices: map<string, PriceInfo>)
    ensures var r := Summarize(allItems, mercs, prices);
            && (r.cheapest.None? <==> forall i :: 0 <= i < |mercs| ==> CalculateTotalCost(mercs[i], prices).mainCost == 0)
            && (r.cheapest.Some? ==>
                  && (forall i :: 0 <= i < |mercs| && r.stats[i].cost > 0 ==> r.cheapest.value.cost <= r.stats[i].cost)
                  && exists k :: 0 <= k < |mercs| && r.stats[k] == r.cheapest.value &&
                       forall i :: 0 <= i < k && r.stats[i].cost > 0 ==> r.stats[i].cost > r.cheapest.value.cost)
  {
    CheapestIsFirstCheapest(MercenaryStats(mercs, prices));
  }
}
