/**
 * The statistics job: one snapshot per time window over the call log
 * (all time, 30 days, 7 days, 24 hours), assembled into a report that
 * overwrites the cached one.
 */
module Stats {
  import opened Wrappers
  import opened LogModel
  import opened Rounding
  import opened Durations
  import opened Ranking
  import opened Endpoints

  /** The cache key the report is stored under. */
  const CacheKey: string := "star_wars_api_stats"

  /** Milliseconds in an hour and in a day (a day is taken as 24 hours). */
  const MsPerHour: int := 3_600_000
  const MsPerDay: int := 24 * MsPerHour

  /** How many queries the ranking keeps. */
  const TopQueryCount: nat := 5

  /** One ranked query: its label, how often it was called and its share in percent. */
  datatype QueryStat = QueryStat(query: string, count: nat, percentage: Hundredths)

  /** The statistics of one window (`average_*` values are in hundredths). */
  datatype Snapshot = Snapshot(
    topFiveQueries: seq<QueryStat>,
    averageDurationMs: Hundredths,
    mostPopularHour: Option<Hour>,
    mostPopularDayOfWeek: Option<Weekday>,
    longestQueryMs: nat,
    shortestQueryMs: nat,
    averageByEndpoint: map<Category, Hundredths>,
    totalByEndpoint: map<Category, nat>,
    grandTotal: nat)

  /** The cached report: four snapshots and the instant it was generated. */
  datatype StatsReport = StatsReport(
    allTime: Snapshot,
    last30Days: Snapshot,
    last7Days: Snapshot,
    last24Hours: Snapshot,
    generatedAt: int)

  /** The four categories the report averages and counts. */
  const AllCategories: set<Category> := {PersonById, PersonByName, FilmById, FilmByName}

  /** PHP truthiness of an optional string: present, non-empty and not "0". */
  predicate Truthy(v: Option<string>) {
    v.Some? && v.value != "" && v.value != "0"
  }

  /**
   * The label a call is ranked under: `endpoint?name=value` when both the
   * parameter name and value are truthy, otherwise the endpoint alone.
   */
  function QueryLabel(r: LogRecord): (query: string)
    ensures r.endpoint <= query
    ensures query == r.endpoint <==> !(Truthy(r.paramName) && Truthy(r.paramValue))
    ensures query != r.endpoint ==>
      query[|r.endpoint|..] == "?" + r.paramName.value + "=" + r.paramValue.value
  {
    if Truthy(r.paramName) && Truthy(r.paramValue) then
      r.endpoint + "?" + r.paramName.value + "=" + r.paramValue.value
    else r.endpoint
  }

  /**
   * Labels and categories disagree on falsy search values: a search whose
   * value is empty or "0" is ranked under the bare endpoint, yet still
   * counts towards its search category.
   */
  lemma FalsySearchLabel(r: LogRecord, c: Category)
    requires !c.WithId() && r.endpoint == c.Pattern()
    requires r.paramName.Some? && !Truthy(r.paramValue)
    ensures QueryLabel(r) == r.endpoint
    ensures Classify(r) == Some(c)
  {
    assert RTrimSlashes(c.Pattern()) == c.Pattern();
  }

  /** The label of every record, in log order. */
  function QueryLabels(logs: seq<LogRecord>): (labels: seq<string>)
    ensures |labels| == |logs|
    ensures forall i :: 0 <= i < |logs| ==> labels[i] == QueryLabel(logs[i])
  {
    if logs == [] then [] else [QueryLabel(logs[0])] + QueryLabels(logs[1..])
  }

  /** The hour of every record's start, in log order. */
  function StartHours(logs: seq<LogRecord>): (hours: seq<Hour>)
    ensures |hours| == |logs|
    ensures forall i :: 0 <= i < |logs| ==> hours[i] == logs[i].startedAt.hour
  {
    if logs == [] then [] else [logs[0].startedAt.hour] + StartHours(logs[1..])
  }

  /** The weekday of every record's start, in log order. */
  function StartWeekdays(logs: seq<LogRecord>): (days: seq<Weekday>)
    ensures |days| == |logs|
    ensures forall i :: 0 <= i < |logs| ==> days[i] == logs[i].startedAt.weekday
  {
    if logs == [] then [] else [logs[0].startedAt.weekday] + StartWeekdays(logs[1..])
  }

  /**
   * `topFiveQueries`: the five most frequent labels with their counts and
   * `round(count / total * 100, 2)`; only called on a non-empty window.
   */
  function TopFiveQueries(logs: seq<LogRecord>): seq<QueryStat>
    requires logs != []
  {
    var top := TopGroups(QueryLabels(logs), TopQueryCount);
    seq(|top|, i requires 0 <= i < |top| =>
      QueryStat(top[i].key, top[i].count, RoundHundredths(100 * top[i].count, |logs|)))
  }

  /** The ranked queries, each a label of the window with its count and share. */
  lemma {:induction false} TopFiveQueriesCounts(logs: seq<LogRecord>)
    requires logs != []
    ensures var top := TopFiveQueries(logs);
      && |top| == (if |Distinct(QueryLabels(logs))| < 5 then |Distinct(QueryLabels(logs))| else 5)
      && (forall i :: 0 <= i < |top| ==>
            && top[i].query in QueryLabels(logs)
            && top[i].count == Count(QueryLabels(logs), top[i].query)
            && top[i].percentage == RoundHundredths(100 * top[i].count, |logs|)
            && top[i].percentage <= 10000)
  {
    var labels := QueryLabels(logs);
    var top := TopFiveQueries(logs);
    var g := TopGroups(labels, TopQueryCount);
    TopGroupsEntries(labels, TopQueryCount);
    forall i | 0 <= i < |top|
      ensures top[i].query in labels && top[i].count == Count(labels, top[i].query)
      ensures top[i].percentage == RoundHundredths(100 * top[i].count, |logs|) <= 10000
    {
      assert top[i] == QueryStat(g[i].key, g[i].count, RoundHundredths(100 * g[i].count, |logs|));
      assert g[i].count <= |logs|;
      RoundHundredthsBetween(100 * g[i].count, |logs|, 0, 100);
    }
  }

  /**
   * The ranking: distinct labels, counts non-increasing, equal counts in
   * the order the labels were first called, and no label left out was
   * called more often than one kept.
   */
  lemma {:induction false} TopFiveQueriesRanking(logs: seq<LogRecord>)
    requires logs != []
    ensures var top := TopFiveQueries(logs);
      && (forall i, j :: 0 <= i < j < |top| ==> top[i].query != top[j].query)
      && (forall i, j :: 0 <= i < j < |top| ==> top[i].count >= top[j].count)
      && (forall i, j :: 0 <= i < j < |top| && top[i].count == top[j].count ==>
            top[i].query in QueryLabels(logs) && top[j].query in QueryLabels(logs) &&
            FirstIndex(QueryLabels(logs), top[i].query) < FirstIndex(QueryLabels(logs), top[j].query))
  {
    var labels := QueryLabels(logs);
    var groups := TopGroups(labels, TopQueryCount);
    var top := TopFiveQueries(logs);
    TopGroupsOrder(labels, TopQueryCount);
    forall i | 0 <= i < |top| ensures top[i].query == groups[i].key && top[i].count == groups[i].count {
      assert top[i] == QueryStat(groups[i].key, groups[i].count, RoundHundredths(100 * groups[i].count, |logs|));
    }
  }

  /**
   * A label called at all but not ranked was called less often than every
   * ranked one, or as often as a ranked one that was called first.
   */
  lemma {:induction false} TopFiveQueriesMaximal(logs: seq<LogRecord>, q: string)
    requires logs != [] && q in QueryLabels(logs)
    requires forall i :: 0 <= i < |TopFiveQueries(logs)| ==> TopFiveQueries(logs)[i].query != q
    ensures forall i :: 0 <= i < |TopFiveQueries(logs)| ==>
      Count(QueryLabels(logs), q) <= TopFiveQueries(logs)[i].count
    ensures forall i :: 0 <= i < |TopFiveQueries(logs)| ==>
      Count(QueryLabels(logs), q) < TopFiveQueries(logs)[i].count ||
      (Count(QueryLabels(logs), q) == TopFiveQueries(logs)[i].count &&
       TopFiveQueries(logs)[i].query in QueryLabels(logs) &&
       FirstIndex(QueryLabels(logs), TopFiveQueries(logs)[i].query) < FirstIndex(QueryLabels(logs), q))
  {
    var labels := QueryLabels(logs);
    var groups := TopGroups(labels, TopQueryCount);
    var top := TopFiveQueries(logs);
    assert forall i :: 0 <= i < |groups| ==> top[i].query == groups[i].key && top[i].count == groups[i].count;
    TopGroupsMaximal(labels, TopQueryCount, q);
  }

  /** A first label that no other label outnumbers heads the ranked queries. */
  lemma TopQueryLeader(logs: seq<LogRecord>, q: string)
    requires logs != [] && QueryLabels(logs)[0] == q
    requires forall i :: 0 <= i < |logs| ==>
      Count(QueryLabels(logs), QueryLabels(logs)[i]) <= Count(QueryLabels(logs), q)
    ensures |TopFiveQueries(logs)| > 0
    ensures var n := Count(QueryLabels(logs), q);
      TopFiveQueries(logs)[0] == QueryStat(q, n, RoundHundredths(100 * n, |logs|))
  {
    var labels := QueryLabels(logs);
    MostPopularLeader(labels, q);
    TopGroupsFirst(labels, TopQueryCount);
  }

  /** With exactly 100 calls in the window a label's share is its count, to the hundredth. */
  lemma {:induction false} PercentageOfHundredCalls(logs: seq<LogRecord>)
    requires |logs| == 100
    ensures forall i :: 0 <= i < |TopFiveQueries(logs)| ==>
      TopFiveQueries(logs)[i].percentage == 100 * TopFiveQueries(logs)[i].count
  {
    var top := TopFiveQueries(logs);
    var g := TopGroups(QueryLabels(logs), TopQueryCount);
    forall i | 0 <= i < |top| ensures top[i].percentage == 100 * top[i].count {
      var c := g[i].count;
      assert top[i] == QueryStat(g[i].key, c, RoundHundredths(100 * c, 100));
      RoundHundredthsExact(c, 100);
      assert c * 100 == 100 * c;
    }
  }

  /** `mostPopularHour`: the start hour with the most calls, the first seen on a tie. */
  function MostPopularHour(logs: seq<LogRecord>): Option<Hour> {
    MostPopular(StartHours(logs))
  }

  /** `mostPopularDayOfWeek`: the start weekday with the most calls, the first seen on a tie. */
  function MostPopularDayOfWeek(logs: seq<LogRecord>): Option<Weekday> {
    MostPopular(StartWeekdays(logs))
  }

  /**
   * The most popular hour is an hour some call started in, no hour has more
   * calls, and every call before its first call started in an hour with
   * strictly fewer calls; there is none for an empty window.
   */
  lemma {:induction false} MostPopularHourSpec(logs: seq<LogRecord>)
    ensures MostPopularHour(logs).None? <==> logs == []
    ensures MostPopularHour(logs).Some? ==>
      var h := MostPopularHour(logs).value;
      && h in StartHours(logs)
      && (forall i :: 0 <= i < |logs| ==>
            Count(StartHours(logs), logs[i].startedAt.hour) <= Count(StartHours(logs), h))
      && (forall i :: 0 <= i < FirstIndex(StartHours(logs), h) ==>
            Count(StartHours(logs), logs[i].startedAt.hour) < Count(StartHours(logs), h))
  {
    var hours := StartHours(logs);
    MostPopularPresent(hours);
    if logs != [] {
      var h := MostPopularHour(logs).value;
      forall i | 0 <= i < |logs| ensures Count(hours, logs[i].startedAt.hour) <= Count(hours, h) {
        MostPopularIsLargest(hours, hours[i]);
      }
      forall i | 0 <= i < FirstIndex(hours, h) ensures Count(hours, logs[i].startedAt.hour) < Count(hours, h) {
        MostPopularFirstSeen(hours, i);
      }
    }
  }

  /** The same for the weekday. */
  lemma {:induction false} MostPopularDayOfWeekSpec(logs: seq<LogRecord>)
    ensures MostPopularDayOfWeek(logs).None? <==> logs == []
    ensures MostPopularDayOfWeek(logs).Some? ==>
      var d := MostPopularDayOfWeek(logs).value;
      && d in StartWeekdays(logs)
      && (forall i :: 0 <= i < |logs| ==>
            Count(StartWeekdays(logs), logs[i].startedAt.weekday) <= Count(StartWeekdays(logs), d))
      && (forall i :: 0 <= i < FirstIndex(StartWeekdays(logs), d) ==>
            Count(StartWeekdays(logs), logs[i].startedAt.weekday) < Count(StartWeekdays(logs), d))
  {
    var days := StartWeekdays(logs);
    MostPopularPresent(days);
    if logs != [] {
      var d := MostPopularDayOfWeek(logs).value;
      forall i | 0 <= i < |logs| ensures Count(days, logs[i].startedAt.weekday) <= Count(days, d) {
        MostPopularIsLargest(days, days[i]);
      }
      forall i | 0 <= i < FirstIndex(days, d) ensures Count(days, logs[i].startedAt.weekday) < Count(days, d) {
        MostPopularFirstSeen(days, i);
      }
    }
  }

  /**
   * `averageByEndpoint`: every category with its total duration over its
   * count, rounded to hundredths, and 0 when it has no call.
   */
  function AverageByEndpoint(logs: seq<LogRecord>): (m: map<Category, Hundredths>)
    ensures m.Keys == AllCategories
    ensures forall c :: c in m ==> (CountForPattern(logs, c) == 0 ==> m[c] == 0)
    ensures forall c :: c in m && CountForPattern(logs, c) > 0 ==>
      m[c] == RoundHundredths(SumDurations(Matching(logs, c)), CountForPattern(logs, c))
    ensures forall c :: c in m && CountForPattern(logs, c) > 0 ==>
      100 * Shortest(Matching(logs, c)) <= m[c] <= 100 * Longest(Matching(logs, c))
  {
    map c | c in AllCategories :: AverageForPattern(logs, c)
  }

  /** `totalByEndpoint`: every category with its number of calls; they add up to at most the window size. */
  function TotalByEndpoint(logs: seq<LogRecord>): (m: map<Category, nat>)
    ensures m.Keys == AllCategories
    ensures forall c :: c in m ==> m[c] == |Matching(logs, c)|
    ensures m[PersonById] + m[PersonByName] + m[FilmById] + m[FilmByName] <= |logs|
  {
    CategoryTotalsPartition(logs);
    map c | c in AllCategories :: CountForPattern(logs, c)
  }

  /** `emptyStats`: the snapshot of a window without calls. */
  function EmptyStats(): Snapshot {
    Snapshot([], 0, None, None, 0, 0, map[], map[], 0)
  }

  /**
   * `calculateStats` on the records of one window: the empty snapshot when
   * there are none; `grand_total` is the window size.
   */
  function CalculateStats(logs: seq<LogRecord>): (s: Snapshot)
    ensures s.grandTotal == |logs|
    ensures logs == [] ==> s == EmptyStats()
  {
    if logs == [] then EmptyStats()
    else
      Snapshot(
        TopFiveQueries(logs),
        MeanHundredths(logs),
        MostPopularHour(logs),
        MostPopularDayOfWeek(logs),
        Longest(logs),
        Shortest(logs),
        AverageByEndpoint(logs),
        TotalByEndpoint(logs),
        |logs|)
  }

  /**
   * A non-empty window's snapshot: each field is the job's helper applied to
   * the window; the longest and shortest durations are attained and bound
   * every record, the rounded mean lies between them, an hour and a weekday
   * are present, at most five queries are ranked, and both category maps
   * list all four categories.
   */
  lemma CalculateStatsSnapshot(logs: seq<LogRecord>)
    requires logs != []
    ensures var s := CalculateStats(logs);
      && s.topFiveQueries == TopFiveQueries(logs)
      && s.averageDurationMs == MeanHundredths(logs)
      && s.mostPopularHour == MostPopularHour(logs)
      && s.mostPopularDayOfWeek == MostPopularDayOfWeek(logs)
      && s.averageByEndpoint == AverageByEndpoint(logs)
      && s.totalByEndpoint == TotalByEndpoint(logs)
      && (exists i :: 0 <= i < |logs| && logs[i].durationMs == s.longestQueryMs)
      && (forall i :: 0 <= i < |logs| ==> logs[i].durationMs <= s.longestQueryMs)
      && (exists i :: 0 <= i < |logs| && logs[i].durationMs == s.shortestQueryMs)
      && (forall i :: 0 <= i < |logs| ==> s.shortestQueryMs <= logs[i].durationMs)
      && 100 * s.shortestQueryMs <= s.averageDurationMs <= 100 * s.longestQueryMs
      && s.mostPopularHour.Some? && s.mostPopularDayOfWeek.Some?
      && |s.topFiveQueries| <= 5
      && s.averageByEndpoint.Keys == AllCategories
      && s.totalByEndpoint.Keys == AllCategories
  {
    MostPopularPresent(StartHours(logs));
    MostPopularPresent(StartWeekdays(logs));
    TopGroupsEntries(QueryLabels(logs), TopQueryCount);
  }

  /** The empty window yields no ranking, zero durations, no hour or day and empty category maps. */
  lemma EmptyWindowSnapshot()
    ensures var s := CalculateStats([]);
      && s.topFiveQueries == [] && s.averageDurationMs == 0
      && s.longestQueryMs == 0 && s.shortestQueryMs == 0
      && s.mostPopularHour.None? && s.mostPopularDayOfWeek.None?
      && s.averageByEndpoint == map[] && s.totalByEndpoint == map[]
      && s.grandTotal == 0
  {
  }

  /** Whether a record started no earlier than the window's lower bound, if it has one. */
  predicate InWindow(r: LogRecord, since: Option<int>) {
    since.None? || r.startedAt.epochMs >= since.value
  }

  /** The records of the window starting at `since` (all records when unbounded), in log order. */
  function Window(store: seq<LogRecord>, since: Option<int>): (w: seq<LogRecord>)
    ensures |w| <= |store|
    ensures forall i :: 0 <= i < |w| ==> w[i] in store && InWindow(w[i], since)
    ensures forall i :: 0 <= i < |store| && InWindow(store[i], since) ==> store[i] in w
  {
    if store == [] then []
    else
      var rest := Window(store[1..], since);
      assert forall i :: 1 <= i < |store| ==> store[i] == store[1..][i - 1];
      if InWindow(store[0], since) then [store[0]] + rest else rest
  }

  /** The unbounded window is the whole log. */
  lemma {:induction false} WindowAllTime(store: seq<LogRecord>)
    ensures Window(store, None) == store
  {
    if store != [] {
      WindowAllTime(store[1..]);
      assert store == [store[0]] + store[1..];
    }
  }

  /**
   * Windows nest: the window from a later bound is the window from an
   * earlier bound filtered again, so it is never larger.
   */
  lemma {:induction false} WindowNested(store: seq<LogRecord>, early: int, late: int)
    requires early <= late
    ensures Window(store, Some(late)) == Window(Window(store, Some(early)), Some(late))
    ensures |Window(store, Some(late))| <= |Window(store, Some(early))|
  {
    if store != [] {
      WindowNested(store[1..], early, late);
    }
  }

  /** Filtering a window distributes over concatenation of logs. */
  lemma {:induction false} WindowAppend(a: seq<LogRecord>, b: seq<LogRecord>, since: Option<int>)
    ensures Window(a + b, since) == Window(a, since) + Window(b, since)
  {
    if a == [] {
      assert a + b == b;
    } else {
      var x, t := a[0], a[1..];
      assert a == [x] + t && a + b == [x] + (t + b);
      WindowCons(x, t + b, since);
      WindowCons(x, t, since);
      WindowAppend(t, b, since);
      PrefixConcat(if InWindow(x, since) then [x] else [], Window(t, since), Window(b, since));
    }
  }

  /** The window of a log with one more record in front. */
  lemma WindowCons(x: LogRecord, s: seq<LogRecord>, since: Option<int>)
    ensures Window([x] + s, since) == (if InWindow(x, since) then [x] else []) + Window(s, since)
  {
    assert ([x] + s)[1..] == s;
  }

  /** A log whose every record is in the window is its own window. */
  lemma {:induction false} WindowKeepsAll(store: seq<LogRecord>, since: Option<int>)
    requires forall i :: 0 <= i < |store| ==> InWindow(store[i], since)
    ensures Window(store, since) == store
  {
    if store != [] {
      WindowKeepsAll(store[1..], since);
      assert store == [store[0]] + store[1..];
    }
  }

  /** A log none of whose records is in the window has an empty window. */
  lemma {:induction false} WindowDropsAll(store: seq<LogRecord>, since: Option<int>)
    requires forall i :: 0 <= i < |store| ==> !InWindow(store[i], since)
    ensures Window(store, since) == []
  {
    if store != [] {
      WindowDropsAll(store[1..], since);
    }
  }

  /** `handle`'s report, with every window measured back from the one instant `now`. */
  function BuildReport(store: seq<LogRecord>, now: int): StatsReport {
    StatsReport(
      CalculateStats(Window(store, None)),
      CalculateStats(Window(store, Some(now - 30 * MsPerDay))),
      CalculateStats(Window(store, Some(now - 7 * MsPerDay))),
      CalculateStats(Window(store, Some(now - 24 * MsPerHour))),
      now)
  }

  /** The all-time snapshot of a non-empty log is computed on the whole log. */
  lemma AllTimeSnapshot(logs: seq<LogRecord>, now: int)
    requires logs != []
    ensures BuildReport(logs, now).allTime == Snapshot(
      TopFiveQueries(logs), MeanHundredths(logs), MostPopularHour(logs), MostPopularDayOfWeek(logs),
      Longest(logs), Shortest(logs), AverageByEndpoint(logs), TotalByEndpoint(logs), |logs|)
  {
    WindowAllTime(logs);
  }

  /** The report's totals nest: 24 hours <= 7 days <= 30 days <= all time, the whole log. */
  lemma ReportTotalsNest(store: seq<LogRecord>, now: int)
    ensures var r := BuildReport(store, now);
      r.last24Hours.grandTotal <= r.last7Days.grandTotal <= r.last30Days.grandTotal
        <= r.allTime.grandTotal == |store|
  {
    WindowAllTime(store);
    WindowNested(store, now - 30 * MsPerDay, now - 7 * MsPerDay);
    WindowNested(store, now - 7 * MsPerDay, now - 24 * MsPerHour);
  }

  /**
   * The job reads the clock once per window; as long as the clock does not
   * go back between the readings the windows still nest.
   */
  lemma WindowsNestWithAdvancingClock(store: seq<LogRecord>, at30: int, at7: int, at24: int)
    requires at30 <= at7 <= at24
    ensures |Window(store, Some(at24 - 24 * MsPerHour))| <= |Window(store, Some(at7 - 7 * MsPerDay))|
              <= |Window(store, Some(at30 - 30 * MsPerDay))| <= |Window(store, None)|
  {
    WindowAllTime(store);
    WindowNested(store, at30 - 30 * MsPerDay, at7 - 7 * MsPerDay);
    WindowNested(store, at7 - 7 * MsPerDay, at24 - 24 * MsPerHour);
  }

  /** The single cache slot holding the latest report. */
  class StatsCache {
    var entries: map<string, StatsReport>

    /** An empty cache. */
    constructor ()
      ensures entries == map[]
    {
      entries := map[];
    }

    /** `handle`: compute the report over the log at `now` and overwrite the cached one. */
    method Handle(store: seq<LogRecord>, now: int)
      modifies this
      ensures entries == old(entries)[CacheKey := BuildReport(store, now)]
      ensures entries[CacheKey].allTime.grandTotal == |store|
    {
      WindowAllTime(store);
      entries := entries[CacheKey := BuildReport(store, now)];
    }

    /** `Cache::get`: the stored report, or none if the job never ran. */
    method Get(key: string) returns (r: Option<StatsReport>)
      ensures r.Some? <==> key in entries
      ensures r.Some? ==> r.value == entries[key]
    {
      r := if key in entries then Some(entries[key]) else None;
    }
  }
}
