/** The cached-prices API (app/api/prices/cached/route.ts): the latest
    history entry expanded back into a price per material. */
module CachedRoute {
  import opened Common
  import opened Items
  import opened PriceHistory

  const SERVER_NAME: string := "봉황"

  datatype CachedResponse =
    | NoData
    | Cached(data: map<string, PriceInfo>, timestamp: int, serverName: string, cached: bool)

  /** A stored statistic as a live price stamped with its entry's time; a
      stored statistic without listings gets none. */
  function ToPriceInfo(itemName: string, s: ItemStats, timestamp: int): (p: PriceInfo)
    ensures p.itemName == itemName && p.lastUpdated == timestamp
    ensures p.minPrice == s.minPrice && p.maxPrice == s.maxPrice
    ensures p.avgPrice == s.avgPrice && p.quantity == s.quantity
    ensures s.listings.None? ==> p.listings == []
    ensures s.listings.Some? ==> p.listings == s.listings.value
  {
    PriceInfo(itemName, s.minPrice, s.maxPrice, s.avgPrice, s.quantity, s.listings.GetOr([]), timestamp)
  }

  function EntryPrices(e: Entry): (m: map<string, PriceInfo>)
    ensures m.Keys == e.prices.Keys
    ensures forall name :: name in m ==> m[name] == ToPriceInfo(name, e.prices[name], e.timestamp)
  {
    map name | name in e.prices :: ToPriceInfo(name, e.prices[name], e.timestamp)
  }

  /** The route's `GET`: no data without a latest entry, otherwise the
      entry's materials with their stored figures. */
  function CachedGet(store: Store, now: int): (r: CachedResponse)
    ensures r.NoData? <==> LatestPrices(store, now).None?
    ensures r.Cached? ==>
              var e := LatestPrices(store, now).value;
              && r.timestamp == e.timestamp && r.serverName == SERVER_NAME && r.cached
              && r.data.Keys == e.prices.Keys
              && forall name :: name in r.data ==> r.data[name] == ToPriceInfo(name, e.prices[name], e.timestamp)
  {
    match LatestPrices(store, now)
    case None => NoData
    case Some(e) => Cached(EntryPrices(e), e.timestamp, SERVER_NAME, true)
  }

  /** Round trip: after a save that reached the store, with the clock past
      every stored entry, the cached view gives back, for exactly the
      materials that had a positive price, the saved figures, no listings
      and the save's time. */
  lemma CachedAfterSave(store: Store, prices: map<string, PriceInfo>, now: int, date: Day, hour: int, later: int)
    requires !store.Unavailable?
    requires forall x :: x in ReadHistory(store, now).entries ==> x.timestamp < now
    ensures var saved := SavePriceHistory(store, prices, now, date, hour, Written).0;
            var r := CachedGet(saved, later);
            && r.Cached? && r.timestamp == now
            && (forall name :: name in r.data <==> name in prices && prices[name].minPrice > 0)
            && forall name :: name in r.data ==>
                 r.data[name] == prices[name].(itemName := name, listings := [], lastUpdated := now)
  {
    var e := BuildEntry(prices, now, date, hour);
    LatestAfterSave(store, prices, now, date, hour, later);
    var saved := SavePriceHistory(store, prices, now, date, hour, Written).0;
    assert CachedGet(saved, later) == Cached(EntryPrices(e), now, SERVER_NAME, true);
    BuiltEntryPrices(prices, now, date, hour);
  }

  /** The price map of a freshly built entry: the positively priced
      materials, each with its own figures, no listings and the entry's
      time. */
  lemma BuiltEntryPrices(prices: map<string, PriceInfo>, now: int, date: Day, hour: int)
    ensures var m := EntryPrices(BuildEntry(prices, now, date, hour));
            && (forall name :: name in m <==> name in prices && prices[name].minPrice > 0)
            && forall name :: name in m ==>
                 m[name] == prices[name].(itemName := name, listings := [], lastUpdated := now)
  {
    var e := BuildEntry(prices, now, date, hour);
    forall name | name in EntryPrices(e)
      ensures EntryPrices(e)[name] == prices[name].(itemName := name, listings := [], lastUpdated := now)
    {
      var s := e.prices[name];
      assert EntryPrices(e)[name] == ToPriceInfo(name, s, now);
    }
  }
}
