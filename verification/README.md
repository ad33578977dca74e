# gersang-market price logic in Dafny

A model of the price logic of the gersang-market dashboard, with proofs. The dashboard tracks market prices of the crafting materials of legendary mercenaries on one game server (봉황). The model covers:

- **the hourly price-history document** (`lib/priceHistory.ts`). A save builds an entry from the live prices and overwrites the entry of the same (date, hour) bucket or appends. It then keeps the last seven days and re-sorts by time. The document also answers the read-side queries: an item's history, the entries of a date, the latest entry, the price change and the statistics. The file store is a value, `Store`: unavailable, missing, unreadable, or holding a document. A write's outcome is an input: it goes through, fails before the file is opened, or fails after truncating the file.
- **the history API** (`app/api/history/route.ts`). It covers the dispatch order of its query parameters and the merge of an item's detailed samples with its daily records.
- **the prices API** (`app/api/prices/route.ts`). It covers the statistics `fetchItemPrice` computes from the listings it extracted, the `GET` map assembly with its skip-save flag, and the `POST` validation.
- **the cached-prices API** (`app/api/prices/cached/route.ts`). It expands the latest history entry back into a price map, which gives a round trip with the save.
- **the catalogue** (`lib/items.ts`):
  - the `parseCraftingMaterials` text parser, as a real search for `(.+?)\s+(\d+)개`;
  - the static mercenary tables and their consistency;
  - `getAllUniqueItems`, `isModifiedMercenaryItem`, `calculateTotalCost` and `getAttributeColor`.
- **two dashboard panels** (`components/TotalSummary.tsx`, `components/MaterialsTab.tsx`). These cover the coverage percentage, each mercenary's cost, the cheapest mercenary, the material search, the historical high and low, and the selected series.

Modules:

| module | file | models |
|---|---|---|
| `Common` | common.dfy | option, `Array.prototype.filter`, `String.prototype.includes` |
| `Sorting` | sorting.dfy | JavaScript's stable `sort` by a numeric key, as a stable insertion sort |
| `Rounding` | rounding.dfy | `Math.round(a / b)` for `b > 0` |
| `Items` | items.dfy | catalogue types, parser, unique items, costs, colours |
| `Catalogue` | catalogue.dfy | the static tables and `MERCENARIES` |
| `PriceHistory` | price_history.dfy | `lib/priceHistory.ts` |
| `HistoryRoute` | history_route.dfy | `app/api/history/route.ts` |
| `PricesRoute` | prices_route.dfy | `app/api/prices/route.ts` |
| `CachedRoute` | cached_route.dfy | `app/api/prices/cached/route.ts` |
| `TotalSummary` | total_summary.dfy | `components/TotalSummary.tsx` |
| `MaterialsTab` | materials_tab.dfy | `components/MaterialsTab.tsx` |

Conventions:

- Timestamps are integer milliseconds since the epoch.
- A date (`YYYY-MM-DD`) is the number of its day since 1970-01-01 (`Day`). The daily point's `<date>T12:00:00.000Z` is therefore `day * 86400000 + 43200000`.
- Every reading of the clock is an input of its own: each price lookup's, the save's (with its UTC `date` and local `hour`) and the response's.
- Prices are integers.
- A percentage rounded by `Math.round` is an integer: `changePercent` is kept in basis points, `round(change * 10000 / previous)`.

The history document has hourly buckets and a seven-day window, and old entries are dropped rather than folded into daily aggregates. A save returns the entry it built whatever happens to the write.

## Model

| member | source | states |
|---|---|---|
| Common.Filter | components/MaterialsTab.tsx:33-35 | the kept elements are exactly the input's elements satisfying the predicate, and the result is no longer than the input |
| Common.FilterAppend | components/MaterialsTab.tsx:33-35 | filtering a concatenation filters each part, so the filter keeps relative order |
| Common.FilterOrderPair | components/MaterialsTab.tsx:33-35 | any two kept elements come from two input positions in the same order |
| Common.FilterKeepsDistinct | lib/priceHistory.ts:127-129 | a filter keeps a key distinct when the input had it distinct |
| Sorting.SortBy | lib/priceHistory.ts:132-134 | the sort result is ordered by the key and is a permutation of the input |
| Sorting.SortByMembers | lib/priceHistory.ts:132-134 | sorting keeps exactly the same elements |
| Sorting.SortByHead | components/TotalSummary.tsx:41-43 | the stable sort's head is the earliest element with the smallest key |
| Sorting.SortKeepsDistinct | lib/priceHistory.ts:132-134 | sorting keeps a key distinct |
| Rounding.RoundDiv | app/api/prices/route.ts:96 | `Math.round(a / b)`: the result r satisfies r - 1/2 <= a/b < r + 1/2 |
| Rounding.RoundDivBetween | app/api/prices/route.ts:96 | a quotient between two integers rounds to a value between them |
| Rounding.RoundDivSign | lib/priceHistory.ts:191-193 | rounding keeps the sign of a non-negative or non-positive quotient |
| Items.Split | lib/items.ts:33 | `split(', ')` gives at least one piece, none of which holds the separator, and joining the pieces gives the text back |
| Items.SplitJoin | lib/items.ts:33 | splitting undoes joining separator-free pieces |
| Items.LazyEndMeaning | lib/items.ts:34 | the lazy group `(.+?)` stops at the first position where `\s+(\d+)개` matches, and finds none when none does, giving up at a line terminator |
| Items.SearchFromFound | lib/items.ts:34 | the search finds the leftmost start with a match and the shortest group at that start |
| Items.SearchFromNone | lib/items.ts:34 | a failed search means no start has a match |
| Items.ParsePiece | lib/items.ts:34-38 | the per-piece map of `parseCraftingMaterials`. Its meaning is stated by `ParsePieceMeaning`: the name before the first `\s+\d+개` run with that run's number, or the whole piece with quantity 1 |
| Items.ParsePieceMeaning | lib/items.ts:34-38 | a piece on one line reads as the text before its first `\s+\d+개` run with that run's number as quantity, and otherwise as the whole piece with quantity 1 |
| Items.ParseCraftingMaterials | lib/items.ts:30-39 | the empty text gives no requirement, any other text gives one per `, `-separated piece |
| Items.ParseJoined | lib/items.ts:33-39 | a text made of separator-free pieces parses piece by piece, in order. Only the single empty piece, which is the falsy empty text, is excluded, so a text starting with ", " is covered |
| Items.ParseRendered | lib/items.ts:30-39 | round trip: parsing the rendered `name N개, …` text of well-formed requirements gives them back |
| Items.ParseRenderedPiece | lib/items.ts:34-38 | round trip for one `name N개` piece |
| Items.NatToDigits | lib/items.ts:36 | the decimal notation of n is a non-empty digit run that `parseInt` reads back as n |
| Items.AddName | lib/items.ts:543 | `Set.add` on an insertion-ordered set: the old elements stay first, the name is added once, no duplicate appears |
| Items.AddMercenaries | lib/items.ts:541-553 | the fold over mercenaries adds exactly the main materials and the materials of non-modified children, without duplicates |
| Items.UniqueItems | lib/items.ts:537-556 | `getAllUniqueItems`: no duplicates, and a name is listed exactly when some mercenary's main materials or non-modified child's materials name it |
| Items.ReduceItemsCost | lib/items.ts:569-575 | the left fold equals the start value plus the sum of each priced material's `minPrice * quantity` |
| Items.ReduceChildrenCost | lib/items.ts:578-586 | the nested fold equals the sum of the children's material costs |
| Items.CalculateTotalCost | lib/items.ts:564-593 | the main cost and child cost are the sums over priced materials, both non-negative, and the total is their sum |
| Items.ItemsCostAppend | lib/items.ts:569-575 | the cost of a concatenation is the sum of the costs |
| Items.ItemsCostPositive | lib/items.ts:569-575 | a cost is positive exactly when some material has a positive price and a positive quantity |
| Items.ItemsCostIgnoresUnpriced | lib/items.ts:570-574 | price entries without a positive minimum never change a cost |
| Items.AttributeColor | lib/items.ts:623-632 | every attribute gets a `#rrggbb` colour, and it is the fallback grey exactly when the attribute is not one of the five |
| Items.AttributeColorsDistinct | lib/items.ts:623-632 | the five attributes get five different colours, none of them the fallback |
| Catalogue.LookupChildren | lib/items.ts:518-519 | `ids.map(id => table[id]).filter(Boolean)`: no longer than the ids, and exactly the table entries in id order when every id resolves |
| Catalogue.LookupChildrenFrom | lib/items.ts:518-519 | every looked-up child is the table entry of one of the ids |
| Catalogue.AwakeningText | lib/items.ts:126 | `'영웅의 영혼석 20개, 각성석 1개'` parses to 영웅의 영혼석 ×20 and 각성석 ×1 |
| Catalogue.AwakenedEntries | lib/items.ts:119-309 | every awakened mercenary is of class 각성장수 and needs the awakening materials |
| Catalogue.ModifiedEntries | lib/items.ts:43-116 | every modified mercenary is of class 개조장수 and needs 20 of one material that `isModifiedMercenaryItem` accepts, and every such material belongs to one of them |
| Catalogue.TablesKeyedById | lib/items.ts:43-309 | each table entry's key is its own id |
| Catalogue.Legend206 | lib/items.ts:345-354 | legendary mercenary 1 of 15 is 206, and its materials are those its `parseCraftingMaterials` text lists |
| Catalogue.Legend160 | lib/items.ts:355-364 | legendary mercenary 2 of 15 is 160, and its materials are those its `parseCraftingMaterials` text lists |
| Catalogue.Legend159 | lib/items.ts:365-374 | legendary mercenary 3 of 15 is 159, and its materials are those its `parseCraftingMaterials` text lists |
| Catalogue.Legend158 | lib/items.ts:375-384 | legendary mercenary 4 of 15 is 158, and its materials are those its `parseCraftingMaterials` text lists |
| Catalogue.Legend157 | lib/items.ts:385-397 | legendary mercenary 5 of 15 is 157, and its materials are those its `parseCraftingMaterials` text lists |
| Catalogue.Legend156 | lib/items.ts:398-407 | legendary mercenary 6 of 15 is 156, and its materials are those its `parseCraftingMaterials` text lists |
| Catalogue.Legend155 | lib/items.ts:408-420 | legendary mercenary 7 of 15 is 155, and its materials are those its `parseCraftingMaterials` text lists |
| Catalogue.Legend154 | lib/items.ts:421-433 | legendary mercenary 8 of 15 is 154, and its materials are those its `parseCraftingMaterials` text lists |
| Catalogue.Legend153 | lib/items.ts:434-446 | legendary mercenary 9 of 15 is 153, and its materials are those its `parseCraftingMaterials` text lists |
| Catalogue.Legend152 | lib/items.ts:447-459 | legendary mercenary 10 of 15 is 152, and its materials are those its `parseCraftingMaterials` text lists |
| Catalogue.Legend151 | lib/items.ts:460-469 | legendary mercenary 11 of 15 is 151, and its materials are those its `parseCraftingMaterials` text lists |
| Catalogue.Legend150 | lib/items.ts:470-482 | legendary mercenary 12 of 15 is 150, and its materials are those its `parseCraftingMaterials` text lists |
| Catalogue.Legend149 | lib/items.ts:483-495 | legendary mercenary 13 of 15 is 149, and its materials are those its `parseCraftingMaterials` text lists |
| Catalogue.Legend148 | lib/items.ts:496-508 | legendary mercenary 14 of 15 is 148, and its materials are those its `parseCraftingMaterials` text lists |
| Catalogue.Legend147 | lib/items.ts:509-521 | legendary mercenary 15 of 15 is 147, and its materials are those its `parseCraftingMaterials` text lists |
| Catalogue.RowsConsistent | lib/items.ts:312-341 | each legendary mercenary's inline id lists equal `LEGEND_TO_AWAKENED` and `LEGEND_TO_MODIFIED`, and every id resolves |
| Catalogue.MercenaryChildIds | lib/items.ts:344-522 | each mercenary's children are its awakened ids followed by its modified ids, in order |
| Catalogue.ChildKinds | lib/items.ts:517-520 | every child is an awakened or a modified mercenary |
| Catalogue.AllUniqueItemsListed | lib/items.ts:537-556 | the catalogue's unique materials are exactly eighteen named materials, without duplicates |
| Catalogue.NoModifiedItemListed | lib/items.ts:524-552 | no modified-mercenary material is among the unique materials |
| Catalogue.IsModifiedMercenaryItem | lib/items.ts:559-561 | true exactly for the materials of the eight modified mercenaries, both directions stated by `ModifiedEntries`. By `CatalogueMaterialsSold` it is false for every listed material |
| Catalogue.CatalogueMaterialsSold | lib/items.ts:559-561 | `isModifiedMercenaryItem` rejects every listed material |
| PriceHistory.ReadHistory | lib/priceHistory.ts:45-70 | a stored document reads as itself, and an unavailable, missing or unreadable store reads as an empty document |
| PriceHistory.WriteHistory | lib/priceHistory.ts:73-82 | success is reported exactly when the data directory exists and the write goes through, and the store then holds the document. Without a directory, or when the write fails before opening the file, the store is left as it was. A write that fails after truncating the file leaves it unreadable |
| PriceHistory.ReadAfterWrite | lib/priceHistory.ts:60-82 | reading back after a write gives the written document, the old document after a write that failed before opening the file, and an empty document after one that failed part-way, so the history is lost |
| PriceHistory.BuildEntry | lib/priceHistory.ts:98-115 | the entry holds exactly the materials with `minPrice > 0`, with the four figures copied and no listings, stamped with now, date and hour |
| PriceHistory.FindBucket | lib/priceHistory.ts:94-96 | `findIndex`: -1 exactly when no entry has the bucket, and otherwise the first entry with it |
| PriceHistory.SavePriceHistory | lib/priceHistory.ts:85-140 | the save returns the built entry whatever the write does. After a successful write the store holds the re-windowed, re-sorted document. Without a directory, or when the write fails before opening the file, the store is unchanged. A write that fails part-way leaves the store unreadable |
| PriceHistory.PutInBucket | lib/priceHistory.ts:117-123 | overwrite the bucket's first entry or append. The shape is stated by `PutInBucketShape` and the members by `PutInBucketMembers` |
| PriceHistory.PutInBucketShape | lib/priceHistory.ts:117-123 | the bucket's first entry is overwritten in place and nothing else moves, and with no such entry the new one is appended |
| PriceHistory.PutInBucketMembers | lib/priceHistory.ts:117-123 | after the put the new entry is present, nothing else is new, and every entry of another bucket is kept |
| PriceHistory.PutInBucketKeepsUnique | lib/priceHistory.ts:94-123 | the put keeps at most one entry per (date, hour) |
| PriceHistory.SaveKeepsBucketsUnique | lib/priceHistory.ts:94-134 | a save keeps at most one entry per (date, hour), and the saved entry is alone in its bucket |
| PriceHistory.SaveEntry | lib/priceHistory.ts:117-136 | the document after a save. Its window, order and kept entries are stated by `SaveEntryWindow`, and bucket uniqueness by `SaveKeepsBucketsUnique` |
| PriceHistory.SaveEntryWindow | lib/priceHistory.ts:117-136 | after a save, `lastUpdated` is now and the entries are sorted by time, all within seven days and old or new. The new entry and every in-window entry of another bucket are kept |
| PriceHistory.SaveKeepsNewEntry | lib/priceHistory.ts:85-140 | the built entry is in the saved document, whose `lastUpdated` is its timestamp |
| PriceHistory.SavedEntryIsLast | lib/priceHistory.ts:126-136 | with the clock past every stored entry, the saved entry ends the document |
| PriceHistory.SaveTwiceSameBucket | lib/priceHistory.ts:94-123 | two saves in one bucket leave one entry there, the second |
| PriceHistory.SampleOfSpread | lib/priceHistory.ts:157-160 | a sample is the entry's time followed by every field of the stored statistic, stored listings included |
| PriceHistory.ItemHistory | lib/priceHistory.ts:154-161 | one sample per entry holding the item, carrying the entry's time and the item's stored statistic, listings included |
| PriceHistory.SamplesMembers | lib/priceHistory.ts:154-161 | the projection is no longer than the entries, keeps the sample of every entry holding the item and has no other samples |
| PriceHistory.SamplesAppend | lib/priceHistory.ts:154-161 | the projection of a concatenation is the concatenation of the projections |
| PriceHistory.ItemHistoryAppend | lib/priceHistory.ts:154-161 | the projection of a concatenation is the concatenation of projections, so document order is kept |
| PriceHistory.UnknownItemHistory | lib/priceHistory.ts:155 | an item no entry holds has an empty history |
| PriceHistory.GetItemPriceHistory | lib/priceHistory.ts:143-161 | an empty history when no document can be read. Otherwise a sample is in the history exactly when it is the sample of a stored entry holding the item |
| PriceHistory.PricesByDate | lib/priceHistory.ts:165-168 | exactly the stored entries of that date |
| PriceHistory.PricesByDateOrder | lib/priceHistory.ts:165-168 | the entries of a date keep document order: any two come from two document positions in the same order |
| PriceHistory.LatestPrices | lib/priceHistory.ts:171-175 | none exactly when there are no entries, and otherwise the last one |
| PriceHistory.LatestAfterSave | lib/priceHistory.ts:171-175 | after a save with a clock past every stored entry, the latest entry is the saved one, whenever the document is read afterwards |
| PriceHistory.CalculatePriceChange | lib/priceHistory.ts:178-196 | none below two samples. Otherwise the previous price is the second-to-last sample's and the change is current minus previous. The percentage is the rounded basis points, 0 for a non-positive previous price |
| PriceHistory.PriceChangeSign | lib/priceHistory.ts:190-193 | the percentage has the sign of the change, and is 0 when the change is 0 |
| PriceHistory.PriceChangeDouble | lib/priceHistory.ts:190-193 | a doubled price reads as +100 % |
| PriceHistory.ItemNames | lib/priceHistory.ts:216-219 | the set of names appearing in any entry |
| PriceHistory.GetPriceStats | lib/priceHistory.ts:199-230 | an empty history gives 0 entries, no range and 0 items. Otherwise the range runs from the first entry's date to the last's and the item count is the number of distinct names |
| PriceHistory.SavedStatsOrdered | lib/priceHistory.ts:221-226 | in a saved document the first entry is the oldest and the last the newest |
| HistoryRoute.FromDaily | app/api/history/route.ts:36-46 | a daily record becomes a point at noon of its day, hour 12, slot 0, flagged daily, with figures copied and the total quantity as quantity |
| HistoryRoute.FromDailyOnItsDay | app/api/history/route.ts:37 | the pinned time falls on the record's own day, at noon |
| HistoryRoute.DetailedDates | app/api/history/route.ts:49 | the set of the detailed samples' dates |
| HistoryRoute.SurvivingDaily | app/api/history/route.ts:52 | exactly the daily points of days not covered by detailed samples |
| HistoryRoute.MergeDaily | app/api/history/route.ts:55-57 | the merge is sorted by time and is a permutation of surviving daily points followed by detailed samples |
| HistoryRoute.MergeDailyMembers | app/api/history/route.ts:49-57 | every detailed sample is kept. A daily point is present exactly when its day is uncovered, no daily point shares a date with a detailed sample, and the count is surviving plus detailed |
| HistoryRoute.CoveredDayDropped | app/api/history/route.ts:49-52 | a daily record of a covered day never shows as a daily point |
| HistoryRoute.MergeWithoutDaily | app/api/history/route.ts:55-57 | with no daily records the merge is the sorted detailed samples |
| HistoryRoute.HistoryGet | app/api/history/route.ts:12-96 | `stats=true` beats a non-empty item name, which beats a date, which beats the full history. The counts are the lengths, `detailedCount` and `dailyCount` are the input lengths, and a failing daily source fails the route |
| HistoryRoute.HistoryGetData | app/api/history/route.ts:69-88 | the item branch answers the item's history, the merge branch the merge, and the date branch exactly the entries of that day |
| HistoryRoute.IncludeDailyOnlyForItems | app/api/history/route.ts:18-32 | `includeDaily` changes nothing unless an item is asked for without stats |
| HistoryRoute.FailsOnlyOnDailySource | app/api/history/route.ts:97-103 | the route fails exactly when the daily source fails in the merge branch |
| HistoryRoute.FullCountIsStatsCount | app/api/history/route.ts:91-96 | the full history's entry count equals the statistics' entry count |
| CachedRoute.ToPriceInfo | app/api/prices/cached/route.ts:20-28 | a stored statistic becomes a price with its name, the four figures copied, the entry's time, and its listings or `[]` |
| CachedRoute.EntryPrices | app/api/prices/cached/route.ts:18-29 | the price map has exactly the entry's names as keys |
| CachedRoute.CachedGet | app/api/prices/cached/route.ts:8-37 | no data exactly without a latest entry. Otherwise each of the entry's names maps to its stored statistic expanded by `ToPriceInfo`: its figures and time, and its listings or `[]`. The answer also carries the entry's timestamp, the server name and `cached` |
| CachedRoute.BuiltEntryPrices | app/api/prices/cached/route.ts:18-29 | a freshly built entry expands to exactly the positively priced materials, each with its own figures, no listings and the entry's time |
| CachedRoute.CachedAfterSave | app/api/prices/cached/route.ts:8-37 | round trip: after a save, the cached view gives back exactly the materials with a positive price, each with its saved figures, no listings and the save's time |
| PricesRoute.Prices | app/api/prices/route.ts:93 | the prices of the matched listings, in order |
| PricesRoute.SumBounds | app/api/prices/route.ts:96 | a sum of n values between lo and hi lies between n·lo and n·hi |
| PricesRoute.FirstListings | app/api/prices/route.ts:99-105 | the first at most ten matches in extraction order, as price, quantity and seller |
| PricesRoute.ItemStatsNoMatch | app/api/prices/route.ts:80-90 | no listing equal to or containing the name gives all-zero statistics with no listings |
| PricesRoute.ItemStatsExtremes | app/api/prices/route.ts:93-95 | with a match, min and max are prices of matching listings and bound every matching listing's price |
| PricesRoute.ItemStatsAverage | app/api/prices/route.ts:96 | with a match, the average is the mean of the matching prices rounded half up: 2n·avg − n <= 2·sum < 2n·avg + n for n matches |
| PricesRoute.ItemStatsMatched | app/api/prices/route.ts:92-115 | with a match, min <= avg <= max, the quantity is the matching listings' total and the listings are the first ten matches in order |
| PricesRoute.MatchedStatsRange | app/api/prices/route.ts:93-95 | the first and last of the sorted prices bound every listing's price and are attained |
| PricesRoute.FetchItemPrice | app/api/prices/route.ts:53-120 | nothing on a failed request, and otherwise the statistics of the extracted listings |
| PricesRoute.Lookups | app/api/prices/route.ts:128-130 | one result per name, in order: the i-th is the lookup of the i-th name with its own outcome and clock reading, as `Promise.all` keeps positions |
| PricesRoute.Assemble | app/api/prices/route.ts:132-137 | a name is a key exactly when some lookup of it returned something |
| PricesRoute.AssembleLastWins | app/api/prices/route.ts:133-136 | a key holds the result of the last successful lookup of that name |
| PricesRoute.AssembleDistinct | app/api/prices/route.ts:128-137 | over distinct names every successful lookup is stored as is |
| PricesRoute.PricesGet | app/api/prices/route.ts:123-160 | the answer carries the map assembled from the lookups, each stamped with its own clock reading, plus the server id and name and the time read for the answer. History is saved with the save's own clock reading exactly when `skipSave` is off, and the answer then reports the saved bucket |
| PricesRoute.PricesGetKeys | app/api/prices/route.ts:128-137 | a requested name is answered exactly when its fetch returned a page |
| PricesRoute.PricesGetIgnoresWrite | app/api/prices/route.ts:141-148 | whatever the history write does (success, or failure before or after truncating the file), the answer is the same |
| PricesRoute.PricesPost | app/api/prices/route.ts:171-207 | 400 exactly when `items` is absent, falsy or not an array. The elements themselves are not checked. 500 for a body that is not JSON or is the JSON value `null`, whose destructuring throws. Otherwise the answer is the map assembled from the lookups, so its keys are the names whose lookups returned something and the last successful lookup of a name wins. It is stamped with the time read for the answer |
| TotalSummary.ItemsWithPrice | components/TotalSummary.tsx:14-18 | the number of materials with a positive price, at most the number of materials |
| TotalSummary.FullCoverage | components/TotalSummary.tsx:14-18 | the count equals the number of materials exactly when every material is priced |
| TotalSummary.PriceRate | components/TotalSummary.tsx:19 | 0 for an empty catalogue, otherwise the percentage rounded to the nearest integer, always within 0..100 |
| TotalSummary.PriceRateEnds | components/TotalSummary.tsx:19 | no priced material gives 0 %, full coverage gives 100 % |
| TotalSummary.PriceRateMonotone | components/TotalSummary.tsx:19 | more priced materials never lower the percentage |
| TotalSummary.StatOf | components/TotalSummary.tsx:22-37 | a mercenary's cost is `calculateTotalCost(...).mainCost`, and `hasAllPrices` holds exactly when every main material has a positive price |
| TotalSummary.MercenaryStats | components/TotalSummary.tsx:22-38 | one statistic per mercenary, in catalogue order |
| TotalSummary.StatCostPositive | components/TotalSummary.tsx:23-31 | the cost is positive exactly when a needed main material is priced, and so with every material priced and one needed |
| TotalSummary.CheapestMercenary | components/TotalSummary.tsx:41-43 | a present result has a positive cost and is one of the statistics |
| TotalSummary.FirstCheapest | components/TotalSummary.tsx:41-43 | reference scan: absent exactly when no cost is positive. Otherwise a positive cost no positive-cost entry undercuts, and every earlier positive-cost entry is dearer |
| TotalSummary.CheapestIsFirstCheapest | components/TotalSummary.tsx:41-43 | the filter-then-stable-sort selection equals the reference scan |
| TotalSummary.Summarize | components/TotalSummary.tsx:10-43 | the panel's counts, its percentage within 0..100, and its per-mercenary names and costs |
| TotalSummary.SummaryCheapest | components/TotalSummary.tsx:22-43 | the panel's cheapest mercenary is absent exactly when every main cost is 0. Otherwise it is no dearer than any positive-cost mercenary and is the earliest of the cheapest |
| MaterialsTab.FilteredMaterials | components/MaterialsTab.tsx:31-36 | the empty query lists every material in order. Otherwise exactly the materials whose lower-cased name contains the lower-cased query |
| MaterialsTab.FilteredMaterialsOrder | components/MaterialsTab.tsx:31-36 | the search keeps the catalogue's order |
| MaterialsTab.FilteredMaterialsIdempotent | components/MaterialsTab.tsx:33-35 | searching the results again with the same query changes nothing |
| MaterialsTab.SearchFindsName | components/MaterialsTab.tsx:33-35 | a material's own name finds it |
| MaterialsTab.PositiveMinPrices | components/MaterialsTab.tsx:40-46 | the list holds exactly the series' positive minimum prices |
| MaterialsTab.MaxOf | components/MaterialsTab.tsx:47 | `Math.max` of a non-empty list is attained and bounds it |
| MaterialsTab.MinOf | components/MaterialsTab.tsx:48 | `Math.min` of a non-empty list is attained and bounds it |
| MaterialsTab.GetHistoricalPrices | components/MaterialsTab.tsx:39-50 | 0/0 without a positive minimum price. Otherwise high and low are the largest and smallest positive minimum prices, attained, with 0 < low <= high. The item name plays no part |
| MaterialsTab.SelectedMaterialHistory | components/MaterialsTab.tsx:53-56 | nothing without a selection (the empty name counts as none), otherwise the whole series |
| MaterialsTab.SelectionDoesNotNarrow | components/MaterialsTab.tsx:53-56 | every selected material shows the same series |

## Left out

- File I/O, the `VERCEL` gate, JSON parsing and serialisation in `lib/priceHistory.ts`. The store is the value `Store`, and the write's outcome is an input.
- A stored document that parses but has no `entries` array. The source would throw on it, and the model has no such document.
- The clock and time zones. Each `new Date()` is an input of its own: each lookup's `fetchedAt`, the save's `savedAt` and the response's `answeredAt`. The model does not relate these readings: neither their order nor that `date` and `hour` are the UTC day and local hour of `savedAt`. So the bucket of a save is whatever the caller passes.
- The HTML/RSC extraction (`extractDataFromRSC`), `fetch`, its headers and the `Promise.all` fan-out in `app/api/prices/route.ts`. A lookup's outcome is an input: an HTTP error, a thrown error, or the extracted listings.
- `getItemHistoryWithDaily` and `DailyPriceData` are not part of this model. Their detailed samples and daily records are an input, `None` standing for a call that threw.
- `NextRequest`/`NextResponse`, URL parsing and status codes. Responses are datatypes, and query parameters arrive decoded.
- Error paths of the history route other than the daily source, such as a failing `getPriceStats`. The modelled reads never throw.
- React rendering, hooks, `localStorage`, the refresh interval and the UI-only components.
- Locale formatting (`formatPrice`, `formatNumber`, `toLocaleString`).
- Unicode case mapping: `toLowerCase` is the function parameter `lower`.
- Image paths, countries and other display fields of the catalogue.
- Floating point:
  - `avgPrice`, `priceRate` and `changePercent` are computed with integer rounding of the exact quotient;
  - `changePercent` is kept in basis points rather than as a two-decimal float;
  - the chart's bar heights are not modelled.
- `Math.max(...xs)` and `Math.min(...xs)` on very long lists, which JavaScript may reject for argument count.
- PricesRoute.ItemStats: its own contract states only the name and time. The statistics are stated by `ItemStatsNoMatch`, `ItemStatsExtremes`, `ItemStatsAverage` and `ItemStatsMatched`, because proving them in the function's contract makes every caller pay for them.
- PriceHistory.ItemHistory: an entry holds an item when the name is an own key of its `prices` map. `entry.prices[itemName]` also finds names inherited from `Object.prototype` (`constructor`, `toString`, …). For such a name the source returns one sample per entry carrying only the time fields. The model does not cover those names.
- PriceHistory.UnknownItemHistory: the empty history is stated for names that are no entry's own key. For `Object.prototype` names this differs from the source, as for `ItemHistory`.
- PricesRoute.Assemble: a key is stored as a map update. In JavaScript, assigning `prices['__proto__']` replaces the object's prototype and adds no key, so for that name the model's key is absent in the source.
- PricesRoute.PricesPost: a `__proto__` item is not covered, as for `Assemble`. The model also takes the `items` array's elements to be strings. The source checks only `Array.isArray`, so numbers, `null` or objects pass. Such an element is looked up by its string form and stored under `String(item)`, while its `itemName` keeps the raw value. The model has no such body.
- Catalogue.LookupChildren: the existential form of its contract lives in `LookupChildrenFrom`, for the same reason.
- Items.AttributeColor: its contract fixes the colour's shape and when the fallback grey is given; with `AttributeColorsDistinct` the five attribute colours are distinct. The individual hex values are only in the body.
