/** The history API (app/api/history/route.ts): which query is answered,
    and the merge of an item's detailed samples with its daily records.

    The detailed samples and daily records come from a function that is not
    part of this model; they are inputs here, `None` standing for a call
    that threw. The query string arrives decoded: `stats` and
    `includeDaily` say whether those parameters were exactly `true`. */
module HistoryRoute {
  import opened Common
  import opened Sorting
  import opened PriceHistory

  const DAY_MS: int := 24 * 60 * 60 * 1000
  const NOON_MS: int := 12 * 60 * 60 * 1000

  /** One day's aggregate of an item, as the daily source gives it. */
  datatype DailyRecord = DailyRecord(
    date: Day,
    minPrice: int,
    maxPrice: int,
    avgPrice: int,
    totalQuantity: int)

  /** A point of the merged series: a detailed sample, or a daily record
      pinned to noon of its day. */
  datatype Point = Point(
    timestamp: int,
    date: Day,
    hour: int,
    minuteSlot: int,
    minPrice: int,
    maxPrice: int,
    avgPrice: int,
    quantity: int,
    isDaily: bool)

  /** A daily record as a point: `<date>T12:00:00.000Z`, hour 12, slot 0,
      the day's total quantity, flagged as daily. */
  function FromDaily(d: DailyRecord): (p: Point)
    ensures p.timestamp == d.date * DAY_MS + NOON_MS
    ensures p.date == d.date && p.hour == 12 && p.minuteSlot == 0 && p.isDaily
    ensures p.minPrice == d.minPrice && p.maxPrice == d.maxPrice && p.avgPrice == d.avgPrice
    ensures p.quantity == d.totalQuantity
  {
    Point(d.date * DAY_MS + NOON_MS, d.date, 12, 0, d.minPrice, d.maxPrice, d.avgPrice, d.totalQuantity, true)
  }

  /** The pinned timestamp falls on the record's own day, at noon. */
  lemma FromDailyOnItsDay(d: DailyRecord)
    ensures FromDaily(d).timestamp / DAY_MS == d.date
    ensures FromDaily(d).timestamp % DAY_MS == NOON_MS
  {
  }

  function PointTime(p: Point): int {
    p.timestamp
  }

  /** The days the detailed samples cover. */
  function DetailedDates(detailed: seq<Point>): (r: set<Day>)
    ensures forall day :: day in r <==> exists i :: 0 <= i < |detailed| && detailed[i].date == day
  {
    set i | 0 <= i < |detailed| :: detailed[i].date
  }

  /** The daily records as points, except those of days the detailed
      samples already cover. */
  function SurvivingDaily(daily: seq<DailyRecord>, covered: set<Day>): (r: seq<Point>)
    ensures |r| <= |daily|
    ensures forall p :: p in r <==> exists d :: d in daily && d.date !in covered && p == FromDaily(d)
  {
    if |daily| == 0 then []
    else
      var rest := SurvivingDaily(daily[1..], covered);
      assert forall d :: d in daily <==> d == daily[0] || d in daily[1..];
      (if daily[0].date !in covered then [FromDaily(daily[0])] else []) + rest
  }

  /** The merged series: surviving daily points then detailed samples,
      ordered by timestamp. */
  function MergeDaily(detailed: seq<Point>, daily: seq<DailyRecord>): (r: seq<Point>)
    ensures SortedBy(r, PointTime)
    ensures multiset(r) == multiset(SurvivingDaily(daily, DetailedDates(detailed)) + detailed)
  {
    SortBy(SurvivingDaily(daily, DetailedDates(detailed)) + detailed, PointTime)
  }

  /** What the merge holds: every detailed sample, and exactly the daily
      records of days no detailed sample covers. */
  lemma MergeDailyMembers(detailed: seq<Point>, daily: seq<DailyRecord>)
    ensures forall p :: p in detailed ==> p in MergeDaily(detailed, daily)
    ensures forall p :: p in MergeDaily(detailed, daily) <==>
              p in detailed ||
              exists d :: d in daily && d.date !in DetailedDates(detailed) && p == FromDaily(d)
    ensures forall p :: p in MergeDaily(detailed, daily) && p !in detailed ==>
              forall q :: q in detailed ==> q.date != p.date
    ensures |MergeDaily(detailed, daily)| ==
              |SurvivingDaily(daily, DetailedDates(detailed))| + |detailed|
  {
    var covered := DetailedDates(detailed);
    var all := SurvivingDaily(daily, covered) + detailed;
    SortByMembers(all, PointTime);
    forall p | p in MergeDaily(detailed, daily) && p !in detailed
      ensures forall q :: q in detailed ==> q.date != p.date
    {
      var d :| d in daily && d.date !in covered && p == FromDaily(d);
      forall q | q in detailed
        ensures q.date != p.date
      {
        var i :| 0 <= i < |detailed| && detailed[i] == q;
      }
    }
  }

  /** A daily record whose day the detailed samples cover never reaches
      the merge as a daily point. */
  lemma CoveredDayDropped(detailed: seq<Point>, daily: seq<DailyRecord>, d: DailyRecord)
    requires d in daily
    requires exists q :: q in detailed && q.date == d.date
    requires FromDaily(d) !in detailed
    ensures FromDaily(d) !in MergeDaily(detailed, daily)
  {
    MergeDailyMembers(detailed, daily);
    var q :| q in detailed && q.date == d.date;
    var i :| 0 <= i < |detailed| && detailed[i] == q;
  }

  /** With no daily records the merge is the detailed samples, sorted. */
  lemma MergeWithoutDaily(detailed: seq<Point>)
    ensures MergeDaily(detailed, []) == SortBy(detailed, PointTime)
  {
    assert SurvivingDaily([], DetailedDates(detailed)) + detailed == detailed;
  }

  // ---------------------------------------------------------------------
  // Dispatch
  // ---------------------------------------------------------------------

  /** The `date` parameter: absent (or empty), or a text naming a day, or a
      text naming none, which no entry's date equals. */
  datatype DateParam = NoDate | DateText(day: Option<Day>)

  datatype Query = Query(itemName: Option<string>, date: DateParam, stats: bool, includeDaily: bool)

  datatype HistoryResponse =
    | StatsResponse(stats: PriceStats)
    | MergedResponse(itemName: string, points: seq<Point>, count: nat, detailedCount: nat, dailyCount: nat)
    | ItemResponse(itemName: string, samples: seq<Sample>, count: nat)
    | DateResponse(date: DateParam, entries: seq<Entry>, count: nat)
    | FullResponse(doc: Doc, entriesCount: nat)
    | Failure

  /** The item parameter counts only when present and non-empty: the empty
      string is falsy. */
  predicate ItemGiven(q: Query) {
    q.itemName.Some? && |q.itemName.value| > 0
  }

  function EntriesOnDate(store: Store, now: int, date: DateParam): seq<Entry> {
    match date
    case DateText(Some(day)) => PricesByDate(store, now, day)
    case _ => []
  }

  /** The route's `GET`. */
  function HistoryGet(store: Store, now: int, q: Query,
                      dailySource: Option<(seq<Point>, seq<DailyRecord>)>): (r: HistoryResponse)
    ensures q.stats ==> r == StatsResponse(GetPriceStats(ReadHistory(store, now)))
    ensures !q.stats && ItemGiven(q) && q.includeDaily && dailySource.None? ==> r.Failure?
    ensures !q.stats && ItemGiven(q) && q.includeDaily && dailySource.Some? ==>
              r.MergedResponse? && r.itemName == q.itemName.value && r.count == |r.points|
              && r.detailedCount == |dailySource.value.0| && r.dailyCount == |dailySource.value.1|
    ensures !q.stats && ItemGiven(q) && !q.includeDaily ==>
              r.ItemResponse? && r.itemName == q.itemName.value && r.count == |r.samples|
    ensures !q.stats && !ItemGiven(q) && q.date.DateText? ==>
              r.DateResponse? && r.date == q.date && r.count == |r.entries|
    ensures !q.stats && !ItemGiven(q) && q.date.NoDate? ==>
              r.FullResponse? && r.doc == ReadHistory(store, now) && r.entriesCount == |r.doc.entries|
  {
    if q.stats then StatsResponse(GetPriceStats(ReadHistory(store, now)))
    else if ItemGiven(q) then
      var name := q.itemName.value;
      if q.includeDaily then
        match dailySource
        case None => Failure
        case Some((detailed, daily)) =>
          var merged := MergeDaily(detailed, daily);
          MergedResponse(name, merged, |merged|, |detailed|, |daily|)
      else
        var h := GetItemPriceHistory(store, now, name);
        ItemResponse(name, h, |h|)
    else if q.date.DateText? then
      var es := EntriesOnDate(store, now, q.date);
      DateResponse(q.date, es, |es|)
    else
      var doc := ReadHistory(store, now);
      FullResponse(doc, |doc.entries|)
  }

  /** The item branch answers with the item's history; the date branch with
      the entries of that day, none for a text that names no day. */
  lemma HistoryGetData(store: Store, now: int, q: Query, dailySource: Option<(seq<Point>, seq<DailyRecord>)>)
    ensures var r := HistoryGet(store, now, q, dailySource);
            && (r.ItemResponse? ==> r.samples == GetItemPriceHistory(store, now, q.itemName.value))
            && (r.MergedResponse? ==> r.points == MergeDaily(dailySource.value.0, dailySource.value.1))
            && (r.DateResponse? ==>
                  forall e :: e in r.entries <==>
                    q.date.day.Some? && e in ReadHistory(store, now).entries && e.date == q.date.day.value)
  {
  }

  /** `includeDaily` matters only when an item is asked for and stats are
      not. */
  lemma IncludeDailyOnlyForItems(store: Store, now: int, q: Query,
                                 dailySource: Option<(seq<Point>, seq<DailyRecord>)>)
    requires q.stats || !ItemGiven(q)
    ensures HistoryGet(store, now, q.(includeDaily := true), dailySource) ==
            HistoryGet(store, now, q.(includeDaily := false), dailySource)
  {
  }

  /** Only a failing daily source fails the route. */
  lemma FailsOnlyOnDailySource(store: Store, now: int, q: Query,
                               dailySource: Option<(seq<Point>, seq<DailyRecord>)>)
    ensures HistoryGet(store, now, q, dailySource).Failure? <==>
              !q.stats && ItemGiven(q) && q.includeDaily && dailySource.None?
  {
  }

  /** The full history's count agrees with the stats' count. */
  lemma FullCountIsStatsCount(store: Store, now: int, q: Query,
                              dailySource: Option<(seq<Point>, seq<DailyRecord>)>)
    requires !q.stats && !ItemGiven(q) && q.date.NoDate?
    ensures HistoryGet(store, now, q, dailySource).entriesCount ==
            GetPriceStats(ReadHistory(store, now)).totalEntries
  {
  }
}
