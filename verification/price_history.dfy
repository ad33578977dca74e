/** The hourly price-history document of lib/priceHistory.ts: one entry per
    (date, hour) bucket holding the per-item statistics of the materials
    that had a price, kept for seven days and ordered by time, plus the
    read-side queries over it.

    The file store is a value: reading it and writing it are pure functions
    of a `Store`, and the clock (`now`, the UTC `date` and the local `hour`)
    is an input. Timestamps are milliseconds since the epoch; a `Day` is the
    number of days since 1970-01-01, the value the `YYYY-MM-DD` text
    stands for. */
module PriceHistory {
  import opened Common
  import opened Sorting
  import opened Rounding
  import opened Items

  type Day = int

  /** Seven days, the retention window. */
  const WEEK_MS: int := 7 * 24 * 60 * 60 * 1000

  /** The statistics stored for one material. Documents written by
      `savePriceHistory` never carry listings; `listings` records whether a
      stored document does. */
  datatype ItemStats = ItemStats(
    minPrice: int,
    maxPrice: int,
    avgPrice: int,
    quantity: int,
    listings: Option<seq<PriceListing>>)

  datatype Entry = Entry(timestamp: int, date: Day, hour: int, prices: map<string, ItemStats>)

  datatype Doc = Doc(lastUpdated: int, entries: seq<Entry>)

  /** The history file as the server finds it: no writable data directory
      (the serverless environment, or a failed `mkdir`), no file, a file
      that does not parse, or a document. */
  datatype Store = Unavailable | Missing | Unreadable | Holds(doc: Doc)

  // ---------------------------------------------------------------------
  // Reading and writing the store
  // ---------------------------------------------------------------------

  /** `readPriceHistory`: the stored document, or an empty one stamped with
      the current time whenever there is none to read. */
  function ReadHistory(store: Store, now: int): (d: Doc)
    ensures store.Holds? ==> d == store.doc
    ensures !store.Holds? ==> d.entries == [] && d.lastUpdated == now
  {
    match store
    case Holds(doc) => doc
    case _ => Doc(now, [])
  }

  /** What `writeFileSync` does once the data directory exists. It opens
      the file for writing, truncating it, and then writes the text, so it
      either writes the whole document, fails before the file is opened
      (leaving it as it was), or fails after truncating it (leaving an
      empty or cut-off text that no longer parses). */
  datatype WriteOutcome = Written | FailedBeforeOpen | FailedAfterTruncate

  /** `writePriceHistory`: without a data directory nothing is written and
      the result is false; otherwise the write's own outcome decides. Only a
      write that fails after truncating the file changes the store without
      reporting success: it leaves a file that no longer parses. */
  function WriteHistory(store: Store, doc: Doc, outcome: WriteOutcome): (r: (Store, bool))
    ensures r.1 <==> !store.Unavailable? && outcome.Written?
    ensures r.1 ==> r.0 == Holds(doc)
    ensures store.Unavailable? || outcome.FailedBeforeOpen? ==> r.0 == store
    ensures !store.Unavailable? && outcome.FailedAfterTruncate? ==> r.0 == Unreadable
  {
    if store.Unavailable? then (store, false)
    else
      match outcome
      case Written => (Holds(doc), true)
      case FailedBeforeOpen => (store, false)
      case FailedAfterTruncate => (Unreadable, false)
  }

  /** Reading back what a write left: the written document, the old
      document when nothing was touched, and an empty document after a
      write that failed part-way, so the whole history is gone. */
  lemma ReadAfterWrite(store: Store, doc: Doc, outcome: WriteOutcome, now: int)
    ensures var r := WriteHistory(store, doc, outcome);
            && (r.1 ==> ReadHistory(r.0, now) == doc)
            && (store.Holds? && outcome.FailedBeforeOpen? ==> ReadHistory(r.0, now) == store.doc)
            && (!store.Unavailable? && outcome.FailedAfterTruncate? ==>
                  ReadHistory(r.0, now) == Doc(now, []))
  {
  }

  // ---------------------------------------------------------------------
  // Saving
  // ---------------------------------------------------------------------

  /** The stored form of a live price: its four figures, no listings. */
  function StatsOf(info: PriceInfo): ItemStats {
    ItemStats(info.minPrice, info.maxPrice, info.avgPrice, info.quantity, None)
  }

  /** The entry a save builds: stamped with the clock, holding the
      materials whose lowest price is positive. */
  function BuildEntry(prices: map<string, PriceInfo>, now: int, date: Day, hour: int): (e: Entry)
    ensures e.timestamp == now && e.date == date && e.hour == hour
    ensures forall name :: name in e.prices <==> name in prices && prices[name].minPrice > 0
    ensures forall name :: name in e.prices ==>
              && e.prices[name].minPrice == prices[name].minPrice
              && e.prices[name].maxPrice == prices[name].maxPrice
              && e.prices[name].avgPrice == prices[name].avgPrice
              && e.prices[name].quantity == prices[name].quantity
              && e.prices[name].listings.None?
  {
    Entry(now, date, hour,
          map name | name in prices && prices[name].minPrice > 0 :: StatsOf(prices[name]))
  }

  /** An entry's (date, hour) bucket. */
  function Bucket(e: Entry): (Day, int) {
    (e.date, e.hour)
  }

  /** `findIndex` of the first entry in the bucket, or -1. */
  function FindBucket(entries: seq<Entry>, date: Day, hour: int): (i: int)
    ensures -1 <= i < |entries|
    ensures i == -1 <==> forall k :: 0 <= k < |entries| ==> Bucket(entries[k]) != (date, hour)
    ensures i >= 0 ==> Bucket(entries[i]) == (date, hour)
    ensures i >= 0 ==> forall k :: 0 <= k < i ==> Bucket(entries[k]) != (date, hour)
  {
    if |entries| == 0 then -1
    else if Bucket(entries[0]) == (date, hour) then 0
    else
      var i := FindBucket(entries[1..], date, hour);
      assert forall k :: 1 <= k < |entries| ==> entries[k] == entries[1..][k - 1];
      if i == -1 then -1 else i + 1
  }

  /** Replaces the bucket's first entry in place, or appends. */
  function PutInBucket(entries: seq<Entry>, e: Entry): (r: seq<Entry>) {
    var i := FindBucket(entries, e.date, e.hour);
    if i >= 0 then entries[i := e] else entries + [e]
  }

  /** The entries kept by a save at `cutoff`. */
  function Recent(cutoff: int): Entry -> bool {
    (e: Entry) => e.timestamp >= cutoff
  }

  function Timestamp(e: Entry): int {
    e.timestamp
  }

  /** The document after saving `e` at time `now`: put in its bucket, the
      week-old entries dropped, ordered by timestamp, stamped with `now`. */
  function SaveEntry(doc: Doc, e: Entry, now: int): (d: Doc) {
    var kept := Filter(Recent(now - WEEK_MS), PutInBucket(doc.entries, e));
    Doc(now, SortBy(kept, Timestamp))
  }

  /** `savePriceHistory`: reads, saves the built entry, writes, and returns
      the entry whatever the write did. */
  function SavePriceHistory(store: Store, prices: map<string, PriceInfo>, now: int, date: Day, hour: int,
                            outcome: WriteOutcome): (r: (Store, Entry))
    ensures r.1 == BuildEntry(prices, now, date, hour)
    ensures outcome.Written? && !store.Unavailable? ==>
              r.0 == Holds(SaveEntry(ReadHistory(store, now), r.1, now))
    ensures store.Unavailable? || outcome.FailedBeforeOpen? ==> r.0 == store
    ensures !store.Unavailable? && outcome.FailedAfterTruncate? ==> r.0 == Unreadable
  {
    var e := BuildEntry(prices, now, date, hour);
    var doc := SaveEntry(ReadHistory(store, now), e, now);
    (WriteHistory(store, doc, outcome).0, e)
  }

  /** Putting an entry in its bucket: the bucket's first entry becomes `e`
      and nothing else moves, or, with no such entry, `e` goes last. */
  lemma PutInBucketShape(entries: seq<Entry>, e: Entry)
    ensures var i := FindBucket(entries, e.date, e.hour);
            var r := PutInBucket(entries, e);
            && (i >= 0 ==> |r| == |entries| && r[i] == e &&
                           forall k :: 0 <= k < |r| && k != i ==> r[k] == entries[k])
            && (i < 0 ==> r == entries + [e])
  {
  }

  /** What a bucket put holds: `e`, and every old entry except the
      replaced one. */
  lemma PutInBucketMembers(entries: seq<Entry>, e: Entry)
    ensures e in PutInBucket(entries, e)
    ensures forall x :: x in PutInBucket(entries, e) ==> x == e || x in entries
    ensures forall k :: 0 <= k < |entries| && Bucket(entries[k]) != Bucket(e) ==>
              entries[k] in PutInBucket(entries, e)
  {
    var i := FindBucket(entries, e.date, e.hour);
    var r := PutInBucket(entries, e);
    if i >= 0 {
      assert r[i] == e;
      forall x | x in r
        ensures x == e || x in entries
      {
        var k :| 0 <= k < |r| && r[k] == x;
        if k != i {
          assert entries[k] == x;
        }
      }
      forall k | 0 <= k < |entries| && Bucket(entries[k]) != Bucket(e)
        ensures entries[k] in r
      {
        assert r[k] == entries[k];
      }
    } else {
      assert r == entries + [e];
      assert r[|entries|] == e;
      forall k | 0 <= k < |entries|
        ensures entries[k] in r
      {
        assert r[k] == entries[k];
      }
    }
  }

  /** No two entries share a bucket. */
  ghost predicate UniqueBuckets(entries: seq<Entry>) {
    DistinctBy(entries, Bucket)
  }

  /** Putting an entry in its bucket keeps buckets unique. */
  lemma PutInBucketKeepsUnique(entries: seq<Entry>, e: Entry)
    requires UniqueBuckets(entries)
    ensures UniqueBuckets(PutInBucket(entries, e))
  {
    var i := FindBucket(entries, e.date, e.hour);
    var r := PutInBucket(entries, e);
    if i >= 0 {
      forall a, b | 0 <= a < b < |r|
        ensures Bucket(r[a]) != Bucket(r[b])
      {
        if a == i {
          assert Bucket(r[a]) == Bucket(entries[i]);
        } else if b == i {
          assert Bucket(r[b]) == Bucket(entries[i]);
        }
      }
    } else {
      forall a, b | 0 <= a < b < |r|
        ensures Bucket(r[a]) != Bucket(r[b])
      {
        if b == |entries| {
          assert r[a] == entries[a];
        } else {
          assert r[a] == entries[a] && r[b] == entries[b];
        }
      }
    }
  }

  /** A save keeps at most one entry per (date, hour) bucket, and the
      saved entry is the only one in its bucket. */
  lemma SaveKeepsBucketsUnique(doc: Doc, e: Entry, now: int)
    requires UniqueBuckets(doc.entries)
    ensures UniqueBuckets(SaveEntry(doc, e, now).entries)
    ensures e.timestamp >= now - WEEK_MS ==>
              forall x :: x in SaveEntry(doc, e, now).entries && Bucket(x) == Bucket(e) ==> x == e
  {
    var put := PutInBucket(doc.entries, e);
    var kept := Filter(Recent(now - WEEK_MS), put);
    PutInBucketKeepsUnique(doc.entries, e);
    FilterKeepsDistinct(Recent(now - WEEK_MS), put, Bucket);
    SortKeepsDistinct(kept, Timestamp, Bucket);
    var r := SortBy(kept, Timestamp);
    if e.timestamp >= now - WEEK_MS {
      PutInBucketMembers(doc.entries, e);
      assert e in kept;
      SortByMembers(kept, Timestamp);
      forall x | x in r && Bucket(x) == Bucket(e)
        ensures x == e
      {
        var a :| 0 <= a < |r| && r[a] == x;
        var b :| 0 <= b < |r| && r[b] == e;
        if a != b {
          assert false;
        }
      }
    }
  }

  /** The saved document: stamped with `now`, ordered by timestamp, nothing
      older than a week, the new entry present when it is itself recent,
      and every recent old entry of another bucket kept. */
  lemma SaveEntryWindow(doc: Doc, e: Entry, now: int)
    ensures SaveEntry(doc, e, now).lastUpdated == now
    ensures SortedBy(SaveEntry(doc, e, now).entries, Timestamp)
    ensures forall x :: x in SaveEntry(doc, e, now).entries ==>
              x.timestamp >= now - WEEK_MS && (x == e || x in doc.entries)
    ensures e.timestamp >= now - WEEK_MS ==> e in SaveEntry(doc, e, now).entries
    ensures forall x :: x in doc.entries && x.timestamp >= now - WEEK_MS && Bucket(x) != Bucket(e) ==>
              x in SaveEntry(doc, e, now).entries
  {
    var put := PutInBucket(doc.entries, e);
    var kept := Filter(Recent(now - WEEK_MS), put);
    PutInBucketMembers(doc.entries, e);
    SortByMembers(kept, Timestamp);
    forall x | x in doc.entries && x.timestamp >= now - WEEK_MS && Bucket(x) != Bucket(e)
      ensures x in SaveEntry(doc, e, now).entries
    {
      var k :| 0 <= k < |doc.entries| && doc.entries[k] == x;
      assert x in put;
    }
  }

  /** The entry `savePriceHistory` builds is in the saved document, and the
      document's `lastUpdated` is its timestamp. */
  lemma SaveKeepsNewEntry(doc: Doc, prices: map<string, PriceInfo>, now: int, date: Day, hour: int)
    ensures var e := BuildEntry(prices, now, date, hour);
            var d := SaveEntry(doc, e, now);
            e in d.entries && d.lastUpdated == e.timestamp
  {
    SaveEntryWindow(doc, BuildEntry(prices, now, date, hour), now);
  }

  /** When the clock has moved on past every stored entry, the saved entry
      is the document's last. */
  lemma SavedEntryIsLast(doc: Doc, e: Entry, now: int)
    requires e.timestamp == now
    requires forall x :: x in doc.entries ==> x.timestamp < now
    ensures var d := SaveEntry(doc, e, now);
            |d.entries| > 0 && d.entries[|d.entries| - 1] == e
  {
    var entries := SaveEntry(doc, e, now).entries;
    SaveEntryWindow(doc, e, now);
    NewestIsLast(entries, e);
  }

  /** In a time-sorted list holding `e`, where every other entry is older
      than `e`, `e` is last. */
  lemma NewestIsLast(entries: seq<Entry>, e: Entry)
    requires SortedBy(entries, Timestamp) && e in entries
    requires forall x :: x in entries ==> x == e || x.timestamp < e.timestamp
    ensures entries[|entries| - 1] == e
  {
    var last := entries[|entries| - 1];
    SortedLastIsMax(entries, Timestamp);
    assert Timestamp(e) <= Timestamp(last);
    assert last in entries;
  }

  /** Saving twice in the same bucket leaves one entry there: the second. */
  lemma SaveTwiceSameBucket(doc: Doc, e1: Entry, e2: Entry, now1: int, now2: int)
    requires UniqueBuckets(doc.entries)
    requires Bucket(e1) == Bucket(e2)
    requires e2.timestamp == now2
    ensures var d := SaveEntry(SaveEntry(doc, e1, now1), e2, now2);
            e2 in d.entries && forall x :: x in d.entries && Bucket(x) == Bucket(e1) ==> x == e2
  {
    var d1 := SaveEntry(doc, e1, now1);
    SaveKeepsBucketsUnique(doc, e1, now1);
    SaveKeepsBucketsUnique(d1, e2, now2);
    SaveEntryWindow(d1, e2, now2);
  }

  // ---------------------------------------------------------------------
  // Queries
  // ---------------------------------------------------------------------

  /** One point of an item's history: the entry's time followed by every
      field of the stored statistic, `listings` included when the stored
      document has them. */
  datatype Sample = Sample(
    timestamp: int,
    date: Day,
    hour: int,
    minPrice: int,
    maxPrice: int,
    avgPrice: int,
    quantity: int,
    listings: Option<seq<PriceListing>>)

  /** The entry's time spread together with the item's stored statistic. */
  function SampleOf(e: Entry, itemName: string): Sample
    requires itemName in e.prices
  {
    var s := e.prices[itemName];
    Sample(e.timestamp, e.date, e.hour, s.minPrice, s.maxPrice, s.avgPrice, s.quantity, s.listings)
  }

  /** A sample carries the entry's time and every field of the stored
      statistic, its listings included. */
  lemma SampleOfSpread(e: Entry, itemName: string)
    requires itemName in e.prices
    ensures var p := SampleOf(e, itemName);
            var s := e.prices[itemName];
            && p.timestamp == e.timestamp && p.date == e.date && p.hour == e.hour
            && p.minPrice == s.minPrice && p.maxPrice == s.maxPrice
            && p.avgPrice == s.avgPrice && p.quantity == s.quantity
            && p.listings == s.listings
  {
  }

  /** The samples of an item in document order, one per entry holding it. */
  function Samples(entries: seq<Entry>, itemName: string): seq<Sample> {
    if |entries| == 0 then []
    else
      (if itemName in entries[0].prices then [SampleOf(entries[0], itemName)] else [])
      + Samples(entries[1..], itemName)
  }

  /** The projection keeps every entry holding the item and nothing else. */
  lemma {:induction false} SamplesMembers(entries: seq<Entry>, itemName: string)
    ensures |Samples(entries, itemName)| <= |entries|
    ensures forall e :: e in entries && itemName in e.prices ==> SampleOf(e, itemName) in Samples(entries, itemName)
    ensures forall s :: s in Samples(entries, itemName) ==>
              exists e :: e in entries && itemName in e.prices && s == SampleOf(e, itemName)
  {
    if |entries| > 0 {
      SamplesMembers(entries[1..], itemName);
      assert forall e :: e in entries[1..] ==> e in entries;
      assert forall e :: e in entries ==> e == entries[0] || e in entries[1..];
    }
  }

  /** `getItemPriceHistory` over a document's entries: one sample per entry
      holding the item. */
  function ItemHistory(entries: seq<Entry>, itemName: string): (r: seq<Sample>)
    ensures |r| <= |entries|
    ensures forall e :: e in entries && itemName in e.prices ==> SampleOf(e, itemName) in r
    ensures forall s :: s in r ==> exists e :: e in entries && itemName in e.prices && s == SampleOf(e, itemName)
  {
    SamplesMembers(entries, itemName);
    Samples(entries, itemName)
  }

  /** The projection maps over a concatenation part by part. */
  lemma {:induction false} SamplesAppend(a: seq<Entry>, b: seq<Entry>, itemName: string)
    ensures Samples(a + b, itemName) == Samples(a, itemName) + Samples(b, itemName)
    decreases |a|
  {
    if |a| == 0 {
      assert a + b == b;
    } else {
      assert (a + b)[0] == a[0] && (a + b)[1..] == a[1..] + b;
      SamplesAppend(a[1..], b, itemName);
    }
  }

  /** The history keeps document order: it maps over a concatenation part
      by part. */
  lemma ItemHistoryAppend(a: seq<Entry>, b: seq<Entry>, itemName: string)
    ensures ItemHistory(a + b, itemName) == ItemHistory(a, itemName) + ItemHistory(b, itemName)
  {
    SamplesAppend(a, b, itemName);
  }

  /** An item no entry holds has an empty history. */
  lemma {:induction false} UnknownItemHistory(entries: seq<Entry>, itemName: string)
    requires forall e :: e in entries ==> itemName !in e.prices
    ensures ItemHistory(entries, itemName) == []
  {
    if |entries| > 0 {
      assert entries[0] in entries;
      assert forall e :: e in entries[1..] ==> e in entries;
      UnknownItemHistory(entries[1..], itemName);
    }
  }

  /** `getItemPriceHistory`. */
  function GetItemPriceHistory(store: Store, now: int, itemName: string): (r: seq<Sample>)
    ensures !store.Holds? ==> r == []
    ensures store.Holds? ==>
              forall s :: s in r <==> exists e :: e in store.doc.entries && itemName in e.prices && s == SampleOf(e, itemName)
  {
    ItemHistory(ReadHistory(store, now).entries, itemName)
  }

  function OnDate(date: Day): Entry -> bool {
    (e: Entry) => e.date == date
  }

  /** `getPricesByDate`: the entries of one date, in document order. */
  function PricesByDate(store: Store, now: int, date: Day): (r: seq<Entry>)
    ensures forall e :: e in r <==> e in ReadHistory(store, now).entries && e.date == date
    ensures |r| <= |ReadHistory(store, now).entries|
  {
    Filter(OnDate(date), ReadHistory(store, now).entries)
  }

  /** The entries of a date keep their document order: any two of them come
      from two positions of the document in the same order. */
  lemma PricesByDateOrder(store: Store, now: int, date: Day)
    ensures var es := ReadHistory(store, now).entries;
            var r := PricesByDate(store, now, date);
            forall i, j :: 0 <= i < j < |r| ==>
              exists a, b :: 0 <= a < b < |es| && es[a] == r[i] && es[b] == r[j]
  {
    var es := ReadHistory(store, now).entries;
    var r := PricesByDate(store, now, date);
    assert r == Filter(OnDate(date), es);
    forall i, j | 0 <= i < j < |r|
      ensures exists a, b :: 0 <= a < b < |es| && es[a] == r[i] && es[b] == r[j]
    {
      var a, b := FilterOrderPair(OnDate(date), es, i, j);
      assert 0 <= a < b < |es| && es[a] == r[i] && es[b] == r[j];
    }
  }

  /** `getLatestPrices`: the last entry, if any. */
  function LatestPrices(store: Store, now: int): (r: Option<Entry>)
    ensures var es := ReadHistory(store, now).entries;
            (r.None? <==> |es| == 0) && (r.Some? ==> r.value == es[|es| - 1])
  {
    var es := ReadHistory(store, now).entries;
    if |es| == 0 then None else Some(es[|es| - 1])
  }

  /** After a save whose clock is past every stored entry, the latest
      entry is the saved one, whenever it is read later. */
  lemma LatestAfterSave(store: Store, prices: map<string, PriceInfo>, now: int, date: Day, hour: int, later: int)
    requires !store.Unavailable?
    requires forall x :: x in ReadHistory(store, now).entries ==> x.timestamp < now
    ensures var r := SavePriceHistory(store, prices, now, date, hour, Written);
            LatestPrices(r.0, later) == Some(r.1)
  {
    var e := BuildEntry(prices, now, date, hour);
    var d := SaveEntry(ReadHistory(store, now), e, now);
    assert SavePriceHistory(store, prices, now, date, hour, Written) == (Holds(d), e);
    SavedEntryIsLast(ReadHistory(store, now), e, now);
    assert ReadHistory(Holds(d), later) == d;
  }

  /** `calculatePriceChange`, with the percentage as basis points. */
  datatype PriceChange = PriceChange(change: int, changeBasisPoints: int, previousPrice: int)

  /** The change of `currentPrice` against the second-to-last sample of the
      item; none with fewer than two samples. The percentage is
      `Math.round(change / previous * 10000)`, in hundredths of a percent,
      and 0 when the previous price is not positive. */
  function CalculatePriceChange(history: seq<Sample>, currentPrice: int): (r: Option<PriceChange>)
    ensures r.None? <==> |history| < 2
    ensures r.Some? ==> r.value.previousPrice == history[|history| - 2].minPrice
    ensures r.Some? ==> r.value.change == currentPrice - r.value.previousPrice
    ensures r.Some? && r.value.previousPrice > 0 ==>
              var p := r.value.previousPrice;
              2 * p * r.value.changeBasisPoints - p <= 2 * 10000 * r.value.change < 2 * p * r.value.changeBasisPoints + p
    ensures r.Some? && r.value.previousPrice <= 0 ==> r.value.changeBasisPoints == 0
  {
    if |history| < 2 then None
    else
      var previous := history[|history| - 2].minPrice;
      var change := currentPrice - previous;
      var bp := if previous > 0 then RoundDiv(change * 10000, previous) else 0;
      Some(PriceChange(change, bp, previous))
  }

  /** No move, no change; a rise or fall shows in the sign of both
      figures. */
  lemma PriceChangeSign(history: seq<Sample>, currentPrice: int)
    requires |history| >= 2 && history[|history| - 2].minPrice > 0
    ensures var c := CalculatePriceChange(history, currentPrice).value;
            && (c.change == 0 ==> c.changeBasisPoints == 0)
            && (c.change > 0 ==> c.changeBasisPoints >= 0)
            && (c.change < 0 ==> c.changeBasisPoints <= 0)
  {
    var c := CalculatePriceChange(history, currentPrice).value;
    RoundDivSign(c.change * 10000, c.previousPrice);
  }

  /** A doubled price reads as +100%, that is 10000 basis points. */
  lemma PriceChangeDouble(history: seq<Sample>)
    requires |history| >= 2 && history[|history| - 2].minPrice > 0
    ensures CalculatePriceChange(history, 2 * history[|history| - 2].minPrice).value.changeBasisPoints == 10000
  {
    var p := history[|history| - 2].minPrice;
    RoundDivUnique(p * 10000, p, 10000);
  }

  /** The materials named by any entry. */
  function ItemNames(entries: seq<Entry>): (r: set<string>)
    ensures forall x :: x in r <==> exists i :: 0 <= i < |entries| && x in entries[i].prices
  {
    if |entries| == 0 then {}
    else
      var rest := ItemNames(entries[1..]);
      assert forall i :: 1 <= i < |entries| ==> entries[i] == entries[1..][i - 1];
      entries[0].prices.Keys + rest
  }

  datatype DateRange = DateRange(from: Day, to: Day)

  datatype PriceStats = PriceStats(
    totalEntries: nat,
    dateRange: Option<DateRange>,
    itemCount: nat,
    lastUpdated: int)

  /** `getPriceStats`: how many entries, the first and last entries'
      dates, how many distinct materials, and the document's stamp. */
  function GetPriceStats(doc: Doc): (r: PriceStats)
    ensures r.totalEntries == |doc.entries|
    ensures r.lastUpdated == doc.lastUpdated
    ensures r.dateRange.None? <==> |doc.entries| == 0
    ensures |doc.entries| == 0 ==> r.itemCount == 0
    ensures r.dateRange.Some? ==>
              r.dateRange.value == DateRange(doc.entries[0].date, doc.entries[|doc.entries| - 1].date)
    ensures r.itemCount == |ItemNames(doc.entries)|
  {
    if |doc.entries| == 0 then
      assert ItemNames(doc.entries) == {};
      PriceStats(0, None, 0, doc.lastUpdated)
    else
      PriceStats(|doc.entries|,
                 Some(DateRange(doc.entries[0].date, doc.entries[|doc.entries| - 1].date)),
                 |ItemNames(doc.entries)|,
                 doc.lastUpdated)
  }

  /** In a saved document the date range runs forwards in time: the first
      entry is the oldest. */
  lemma SavedStatsOrdered(doc: Doc, e: Entry, now: int)
    requires |SaveEntry(doc, e, now).entries| > 0
    ensures var d := SaveEntry(doc, e, now);
            forall x :: x in d.entries ==> d.entries[0].timestamp <= x.timestamp <= d.entries[|d.entries| - 1].timestamp
  {
    var d := SaveEntry(doc, e, now);
    SaveEntryWindow(doc, e, now);
    SortedLastIsMax(d.entries, Timestamp);
  }
}
