/** The live-prices API (app/api/prices/route.ts) after the market page has
    been fetched and its listings extracted: the per-material statistics,
    the assembly of the price map, the history save of `GET` and the input
    check of `POST`.

    The outbound request and the extraction of listings from the page are
    not part of this model: each lookup's outcome is an input. */
module PricesRoute {
  import opened Common
  import opened Sorting
  import opened Rounding
  import opened Items
  import opened PriceHistory

  const SERVER_ID: int := 5
  const SERVER_NAME: string := "봉황"
  const MAX_LISTINGS: nat := 10

  /** One listing as extracted from the market page. */
  datatype GeotaItem = GeotaItem(itemName: string, price: int, totalQuantity: int, sellerName: string)

  /** What fetching one material's market page came to: a non-OK HTTP
      status, an exception, or the extracted listings. */
  datatype FetchOutcome = HttpError | Threw | Page(items: seq<GeotaItem>)

  /** A listing is for the requested material when its name equals the
      request or contains it. */
  predicate Matches(item: GeotaItem, itemName: string) {
    item.itemName == itemName || Contains(item.itemName, itemName)
  }

  function MatchesName(itemName: string): GeotaItem -> bool {
    (item: GeotaItem) => Matches(item, itemName)
  }

  function Prices(items: seq<GeotaItem>): (ps: seq<int>)
    ensures |ps| == |items|
    ensures forall i :: 0 <= i < |items| ==> ps[i] == items[i].price
  {
    if |items| == 0 then [] else [items[0].price] + Prices(items[1..])
  }

  function Sum(xs: seq<int>): int {
    if |xs| == 0 then 0 else xs[0] + Sum(xs[1..])
  }

  function TotalQuantity(items: seq<GeotaItem>): int {
    if |items| == 0 then 0 else items[0].totalQuantity + TotalQuantity(items[1..])
  }

  /** A sum of values between `lo` and `hi` lies between `n * lo` and
      `n * hi`. */
  lemma {:induction false} SumBounds(xs: seq<int>, lo: int, hi: int)
    requires forall i :: 0 <= i < |xs| ==> lo <= xs[i] <= hi
    ensures lo * |xs| <= Sum(xs) <= hi * |xs|
    decreases |xs|
  {
    if |xs| > 0 {
      SumBounds(xs[1..], lo, hi);
      assert lo * |xs| == lo + lo * (|xs| - 1);
      assert hi * |xs| == hi + hi * (|xs| - 1);
    }
  }

  function Id(x: int): int {
    x
  }

  function ToListing(item: GeotaItem): PriceListing {
    PriceListing(item.price, item.totalQuantity, item.sellerName)
  }

  /** The first `MAX_LISTINGS` listings, in extraction order. */
  function FirstListings(items: seq<GeotaItem>): (r: seq<PriceListing>)
    ensures |r| == if |items| < MAX_LISTINGS then |items| else MAX_LISTINGS
    ensures forall i :: 0 <= i < |r| ==> r[i] == ToListing(items[i])
  {
    var n := if |items| < MAX_LISTINGS then |items| else MAX_LISTINGS;
    seq(n, i requires 0 <= i < n => ToListing(items[i]))
  }

  /** The statistics `fetchItemPrice` computes once the listings are
      extracted: over the listings matching the request, the lowest and
      highest price, the rounded mean price, the summed quantity and the
      first ten listings; all zero when nothing matches. */
  function ItemStats(itemName: string, items: seq<GeotaItem>, now: int): (r: PriceInfo)
    ensures r.itemName == itemName && r.lastUpdated == now
  {
    var matched := Filter(MatchesName(itemName), items);
    if |matched| == 0 then PriceInfo(itemName, 0, 0, 0, 0, [], now)
    else MatchedStats(itemName, matched, now)
  }

  /** The statistics of a non-empty list of matching listings. */
  function MatchedStats(itemName: string, matched: seq<GeotaItem>, now: int): (r: PriceInfo)
    requires |matched| > 0
    ensures r.itemName == itemName && r.lastUpdated == now
  {
    var sorted := SortBy(Prices(matched), Id);
    PriceInfo(itemName,
              sorted[0],
              sorted[|sorted| - 1],
              RoundDiv(Sum(Prices(matched)), |matched|),
              TotalQuantity(matched),
              FirstListings(matched),
              now)
  }

  /** Nothing matching the request gives all-zero statistics. */
  lemma ItemStatsNoMatch(itemName: string, items: seq<GeotaItem>, now: int)
    requires forall item :: item in items ==> !Matches(item, itemName)
    ensures ItemStats(itemName, items, now) == PriceInfo(itemName, 0, 0, 0, 0, [], now)
  {
  }

  /** The first and last of the sorted prices bound every price and are
      themselves prices. */
  lemma SortedPriceExtremes(ps: seq<int>)
    requires |ps| > 0
    ensures var sorted := SortBy(ps, Id);
            && (forall k :: 0 <= k < |ps| ==> sorted[0] <= ps[k] <= sorted[|ps| - 1])
            && (exists k :: 0 <= k < |ps| && ps[k] == sorted[0])
            && (exists k :: 0 <= k < |ps| && ps[k] == sorted[|ps| - 1])
  {
    var sorted := SortBy(ps, Id);
    SortByMembers(ps, Id);
    forall k | 0 <= k < |ps|
      ensures sorted[0] <= ps[k] <= sorted[|ps| - 1]
    {
      assert ps[k] in sorted;
      var j :| 0 <= j < |sorted| && sorted[j] == ps[k];
      assert Id(sorted[0]) <= Id(sorted[j]) <= Id(sorted[|ps| - 1]);
    }
    assert sorted[0] in ps && sorted[|ps| - 1] in ps;
  }

  /** The lowest and highest price of a list of listings bound every
      listing's price and are prices of listings in it. */
  lemma MatchedStatsRange(itemName: string, matched: seq<GeotaItem>, now: int)
    requires |matched| > 0
    ensures var r := MatchedStats(itemName, matched, now);
            && (forall k :: 0 <= k < |matched| ==> r.minPrice <= matched[k].price <= r.maxPrice)
            && (exists k :: 0 <= k < |matched| && matched[k].price == r.minPrice)
            && (exists k :: 0 <= k < |matched| && matched[k].price == r.maxPrice)
  {
    var ps := Prices(matched);
    SortedPriceExtremes(ps);
  }

  /** With a match, the lowest and highest prices are attained by matching
      listings and bound every matching listing's price. */
  lemma ItemStatsExtremes(itemName: string, items: seq<GeotaItem>, now: int)
    requires exists item :: item in items && Matches(item, itemName)
    ensures var r := ItemStats(itemName, items, now);
            && (forall item :: item in items && Matches(item, itemName) ==>
                  r.minPrice <= item.price <= r.maxPrice)
            && (exists item :: item in items && Matches(item, itemName) && item.price == r.minPrice)
            && (exists item :: item in items && Matches(item, itemName) && item.price == r.maxPrice)
  {
    var matched := Filter(MatchesName(itemName), items);
    var item :| item in items && Matches(item, itemName);
    assert MatchesName(itemName)(item);
    var r := ItemStats(itemName, items, now);
    assert r == MatchedStats(itemName, matched, now);
    MatchedStatsRange(itemName, matched, now);
    forall x | x in items && Matches(x, itemName)
      ensures r.minPrice <= x.price <= r.maxPrice
    {
      assert MatchesName(itemName)(x);
      var k :| 0 <= k < |matched| && matched[k] == x;
    }
    var k0 :| 0 <= k0 < |matched| && matched[k0].price == r.minPrice;
    var k1 :| 0 <= k1 < |matched| && matched[k1].price == r.maxPrice;
    assert matched[k0] in matched && matched[k1] in matched;
  }

  /** With a match, the mean lies between the lowest and highest price; the
      quantity is the matching listings' total; the listings are the first
      ten matches in extraction order. */
  lemma ItemStatsMatched(itemName: string, items: seq<GeotaItem>, now: int)
    requires exists item :: item in items && Matches(item, itemName)
    ensures var r := ItemStats(itemName, items, now);
            var matched := Filter(MatchesName(itemName), items);
            && |matched| > 0
            && r.minPrice <= r.avgPrice <= r.maxPrice
            && r.quantity == TotalQuantity(matched)
            && r.listings == FirstListings(matched)
  {
    var matched := Filter(MatchesName(itemName), items);
    var item :| item in items && Matches(item, itemName);
    assert MatchesName(itemName)(item);
    var ps := Prices(matched);
    var r := ItemStats(itemName, items, now);
    ItemStatsExtremes(itemName, items, now);
    forall k | 0 <= k < |ps|
      ensures r.minPrice <= ps[k] <= r.maxPrice
    {
      assert matched[k] in matched;
    }
    SumBounds(ps, r.minPrice, r.maxPrice);
    RoundDivBetween(Sum(ps), |matched|, r.minPrice, r.maxPrice);
  }

  /** With a match, the average is the mean of the matching listings'
      prices rounded half up: within half a unit of their sum divided by
      their count. */
  lemma ItemStatsAverage(itemName: string, items: seq<GeotaItem>, now: int)
    requires exists item :: item in items && Matches(item, itemName)
    ensures var matched := Filter(MatchesName(itemName), items);
            var n := |matched|;
            var avg := ItemStats(itemName, items, now).avgPrice;
            && n > 0
            && 2 * n * avg - n <= 2 * Sum(Prices(matched)) < 2 * n * avg + n
  {
    var item :| item in items && Matches(item, itemName);
    assert MatchesName(itemName)(item);
  }

  /** `fetchItemPrice`: nothing on a failed request, the statistics of the
      extracted listings otherwise. */
  function FetchItemPrice(itemName: string, outcome: FetchOutcome, now: int): (r: Option<PriceInfo>)
    ensures r.None? <==> !outcome.Page?
    ensures r.Some? ==> r.value == ItemStats(itemName, outcome.items, now)
  {
    match outcome
    case Page(items) => Some(ItemStats(itemName, items, now))
    case _ => None
  }

  /** The `forEach` that fills the price map: each successful lookup is
      stored under its requested name, a later one overwriting an earlier
      one of the same name. */
  function Assemble(names: seq<string>, results: seq<Option<PriceInfo>>): (m: map<string, PriceInfo>)
    requires |names| == |results|
    ensures forall k :: k in m <==> exists i :: 0 <= i < |names| && names[i] == k && results[i].Some?
    decreases |names|
  {
    if |names| == 0 then map[]
    else
      var n := |names| - 1;
      var m := Assemble(names[..n], results[..n]);
      assert forall i :: 0 <= i < n ==> names[..n][i] == names[i] && results[..n][i] == results[i];
      if results[n].Some? then m[names[n] := results[n].value] else m
  }

  /** The value stored under a name is the result of the last successful
      lookup of that name. */
  lemma {:induction false} AssembleLastWins(names: seq<string>, results: seq<Option<PriceInfo>>, i: nat)
    requires |names| == |results|
    requires i < |names| && results[i].Some?
    requires forall j :: i < j < |names| && names[j] == names[i] ==> results[j].None?
    ensures Assemble(names, results)[names[i]] == results[i].value
    decreases |names|
  {
    var n := |names| - 1;
    if i < n {
      assert forall j :: 0 <= j < n ==> names[..n][j] == names[j] && results[..n][j] == results[j];
      AssembleLastWins(names[..n], results[..n], i);
    }
  }

  /** Over distinct names every successful lookup is stored as is. */
  lemma AssembleDistinct(names: seq<string>, results: seq<Option<PriceInfo>>)
    requires |names| == |results|
    requires NoDuplicates(names)
    ensures forall i :: 0 <= i < |names| && results[i].Some? ==> Assemble(names, results)[names[i]] == results[i].value
  {
    forall i | 0 <= i < |names| && results[i].Some?
      ensures Assemble(names, results)[names[i]] == results[i].value
    {
      AssembleLastWins(names, results, i);
    }
  }

  /** The lookups of `names`, run side by side: the i-th one meets
      `outcomes[i]` and reads the clock as `fetchedAt[i]` when it ends. */
  function Lookups(names: seq<string>, outcomes: seq<FetchOutcome>, fetchedAt: seq<int>): (r: seq<Option<PriceInfo>>)
    requires |names| == |outcomes| == |fetchedAt|
    ensures |r| == |names|
    ensures forall i :: 0 <= i < |names| ==> r[i] == FetchItemPrice(names[i], outcomes[i], fetchedAt[i])
  {
    seq(|names|, i requires 0 <= i < |names| => FetchItemPrice(names[i], outcomes[i], fetchedAt[i]))
  }

  datatype GetResponse = GetResponse(
    data: map<string, PriceInfo>,
    timestamp: int,
    serverId: int,
    serverName: string,
    historySaved: Option<(Day, int)>)

  /** The route's `GET` for the material list `names` (the catalogue's
      unique materials): looks every name up, saves the history unless
      `skipSave`, and answers whatever the save's write did. The clock is
      read separately by each lookup (`fetchedAt`), by the save (`savedAt`,
      with its UTC `date` and local `hour`) and for the answer
      (`answeredAt`). */
  function PricesGet(names: seq<string>, outcomes: seq<FetchOutcome>, fetchedAt: seq<int>, skipSave: bool,
                     store: Store, savedAt: int, date: Day, hour: int, write: WriteOutcome,
                     answeredAt: int): (r: (GetResponse, Store))
    requires |names| == |outcomes| == |fetchedAt|
    ensures r.0.data == Assemble(names, Lookups(names, outcomes, fetchedAt))
    ensures r.0.serverId == SERVER_ID && r.0.serverName == SERVER_NAME && r.0.timestamp == answeredAt
    ensures r.0.historySaved.Some? <==> !skipSave
    ensures !skipSave ==> r.0.historySaved.value == (date, hour)
    ensures skipSave ==> r.1 == store
    ensures !skipSave ==> r.1 == SavePriceHistory(store, r.0.data, savedAt, date, hour, write).0
  {
    var data := Assemble(names, Lookups(names, outcomes, fetchedAt));
    if skipSave then (GetResponse(data, answeredAt, SERVER_ID, SERVER_NAME, None), store)
    else
      var saved := SavePriceHistory(store, data, savedAt, date, hour, write);
      (GetResponse(data, answeredAt, SERVER_ID, SERVER_NAME, Some((saved.1.date, saved.1.hour))), saved.0)
  }

  /** A name is in the answered map exactly when its lookup returned
      something. */
  lemma PricesGetKeys(names: seq<string>, outcomes: seq<FetchOutcome>, fetchedAt: seq<int>, skipSave: bool,
                      store: Store, savedAt: int, date: Day, hour: int, write: WriteOutcome, answeredAt: int)
    requires |names| == |outcomes| == |fetchedAt|
    ensures forall k :: k in PricesGet(names, outcomes, fetchedAt, skipSave, store, savedAt, date, hour, write,
                                       answeredAt).0.data <==>
              exists i :: 0 <= i < |names| && names[i] == k && outcomes[i].Page?
  {
  }

  /** Whatever the write does, the answer is the same. */
  lemma PricesGetIgnoresWrite(names: seq<string>, outcomes: seq<FetchOutcome>, fetchedAt: seq<int>, skipSave: bool,
                              store: Store, savedAt: int, date: Day, hour: int,
                              write1: WriteOutcome, write2: WriteOutcome, answeredAt: int)
    requires |names| == |outcomes| == |fetchedAt|
    ensures PricesGet(names, outcomes, fetchedAt, skipSave, store, savedAt, date, hour, write1, answeredAt).0 ==
            PricesGet(names, outcomes, fetchedAt, skipSave, store, savedAt, date, hour, write2, answeredAt).0
  {
  }

  /** A `POST` body: not JSON at all; the JSON value `null`, which has no
      fields to destructure; or any other JSON value, whose `items` field is
      absent (or falsy), not an array, or a list of names. */
  datatype PostBody = InvalidJson | NullJson | NoItems | NotAnArray | Items(names: seq<string>)

  datatype PostResponse =
    | BadRequest
    | ServerError
    | PostOk(data: map<string, PriceInfo>, timestamp: int, serverId: int, serverName: string)

  /** The route's `POST`: 400 without an item list; 500 when reading the
      body throws, that is on a body that does not parse or on `null`, whose
      destructuring throws; the looked-up prices otherwise. */
  function PricesPost(body: PostBody, outcomes: seq<FetchOutcome>, fetchedAt: seq<int>, answeredAt: int): (r: PostResponse)
    requires body.Items? ==> |outcomes| == |body.names| == |fetchedAt|
    ensures r.BadRequest? <==> body.NoItems? || body.NotAnArray?
    ensures r.ServerError? <==> body.InvalidJson? || body.NullJson?
    ensures r.PostOk? ==> body.Items? && r.serverId == SERVER_ID && r.serverName == SERVER_NAME
    ensures r.PostOk? ==> r.timestamp == answeredAt
    ensures r.PostOk? ==> r.data == Assemble(body.names, Lookups(body.names, outcomes, fetchedAt))
    ensures r.PostOk? ==>
              forall k :: k in r.data <==> exists i :: 0 <= i < |body.names| && body.names[i] == k && outcomes[i].Page?
  {
    match body
    case InvalidJson => ServerError
    case NullJson => ServerError
    case NoItems => BadRequest
    case NotAnArray => BadRequest
    case Items(names) => PostOk(Assemble(names, Lookups(names, outcomes, fetchedAt)), answeredAt, SERVER_ID, SERVER_NAME)
  }
}
