/**
 * The twenty-call log of the statistics feature test, with the clock frozen
 * at Sunday 2026-01-11 15:30 UTC, and what the job reports for it: window
 * totals 20, 16, 12 and 10, durations 500 / 10 / 158.00 ms, per-category
 * totals 5 / 6 / 5 / 4 and means 100.00 / 126.67 / 260.00 / 150.00 ms,
 * busiest hour 15 and weekday Sunday, and five ranked queries headed by
 * `people/1` with 5 calls, 25.00 percent.
 *
 * The log is built the way the test inserts it: runs of calls that share
 * an endpoint, a category and a duration.
 */
module StatsFixture {
  import opened Wrappers
  import opened LogModel
  import opened Endpoints
  import opened Rounding
  import opened Durations
  import opened Ranking
  import opened Stats

  const MsPerMinute: int := 60_000

  /** The frozen clock: 2026-01-11 15:30:00 UTC, in epoch milliseconds. */
  const Now: int := 1_768_145_400_000

  /** A call that started and completed at `at`, without an exception. */
  function Call(endpoint: string, paramName: Option<string>, paramValue: Option<string>,
                at: Timestamp, durationMs: nat): LogRecord {
    LogRecord(endpoint, paramName, paramValue, at, at, durationMs, None)
  }

  /** The instant `m` minutes after half an hour ago (Sunday, 15:xx). */
  function Today(m: int): Timestamp {
    Timestamp(Now - 30 * MsPerMinute + m * MsPerMinute, 15, Sunday)
  }

  /** The instant `m` minutes after 25 hours ago (Saturday, 14:xx). */
  function DayAgo(m: int): Timestamp {
    Timestamp(Now - 25 * MsPerHour + m * MsPerMinute, 14, Saturday)
  }

  /** The instant `m` minutes after 20 days ago (Monday, 15:xx). */
  function TwentyDaysBack(m: int): Timestamp {
    Timestamp(Now - 20 * MsPerDay + m * MsPerMinute, 15, Monday)
  }

  /** The instant `m` minutes after 40 days ago (Tuesday, 15:xx). */
  function FortyDaysBack(m: int): Timestamp {
    Timestamp(Now - 40 * MsPerDay + m * MsPerMinute, 15, Tuesday)
  }

  function PersonLookup(i: int): LogRecord {
    Call("people/1", None, None, Today(i), 100)
  }

  function LukeSearch(i: int): LogRecord {
    Call("people", Some("name"), Some("Luke"), Today(10 + i), 150)
  }

  function FilmLookup(i: int): LogRecord {
    Call("films/1", None, None, Today(20 + i), 200)
  }

  /** Ten calls of the last half hour: five `people/1`, three Luke searches, two `films/1`. */
  function Last24Hours(): seq<LogRecord> {
    seq(5, PersonLookup) + seq(3, LukeSearch) + seq(2, FilmLookup)
  }

  /** Two calls 25 hours ago: the longest and the shortest. */
  function Outside24Hours(): seq<LogRecord> {
    [Call("films/2", None, None, DayAgo(0), 500)]
    + [Call("people", Some("name"), Some("Leia"), DayAgo(5), 10)]
  }

  /** Four calls 20 days ago. */
  function TwentyDaysAgo(): seq<LogRecord> {
    [Call("films/3", None, None, TwentyDaysBack(0), 200)]
    + [Call("films", Some("title"), Some("Return"), TwentyDaysBack(5), 150),
       Call("films", Some("title"), Some("Empire"), TwentyDaysBack(10), 150)]
    + [Call("people", Some("name"), Some("Vader"), TwentyDaysBack(15), 150)]
  }

  /** Four calls 40 days ago. */
  function FortyDaysAgo(): seq<LogRecord> {
    [Call("films/4", None, None, FortyDaysBack(0), 200)]
    + [Call("films", Some("title"), Some("Phantom"), FortyDaysBack(5), 150),
       Call("films", Some("title"), Some("Clones"), FortyDaysBack(10), 150)]
    + [Call("people", Some("name"), Some("Yoda"), FortyDaysBack(15), 150)]
  }

  /** The test's log, in insertion order. */
  function Fixture(): seq<LogRecord> {
    Last24Hours() + Outside24Hours() + TwentyDaysAgo() + FortyDaysAgo()
  }

  // ----- Windows -----

  /** The window of four groups is the four groups filtered one by one. */
  lemma WindowOfGroups(a: seq<LogRecord>, b: seq<LogRecord>, c: seq<LogRecord>, d: seq<LogRecord>, w: Option<int>)
    ensures Window(a + b + c + d, w) == Window(a, w) + Window(b, w) + Window(c, w) + Window(d, w)
  {
    WindowAppend(a + b + c, d, w);
    WindowAppend(a + b, c, w);
    WindowAppend(a, b, w);
  }

  /** Every record started between `lo` and `hi`. */
  predicate StartsWithin(logs: seq<LogRecord>, lo: int, hi: int) {
    forall i :: 0 <= i < |logs| ==> lo <= logs[i].startedAt.epochMs <= hi
  }

  lemma StartsWithinAppend(a: seq<LogRecord>, b: seq<LogRecord>, lo: int, hi: int)
    requires StartsWithin(a, lo, hi) && StartsWithin(b, lo, hi)
    ensures StartsWithin(a + b, lo, hi)
  {
  }

  /** A group that started between `lo` and `hi` is kept whole by a window from before `lo` and dropped by one from after `hi`. */
  lemma WindowOfGroup(logs: seq<LogRecord>, lo: int, hi: int, since: int)
    requires StartsWithin(logs, lo, hi)
    ensures since <= lo ==> Window(logs, Some(since)) == logs
    ensures hi < since ==> Window(logs, Some(since)) == []
  {
    if since <= lo {
      WindowKeepsAll(logs, Some(since));
    } else if hi < since {
      WindowDropsAll(logs, Some(since));
    }
  }

  /** When each group of the log started. */
  lemma GroupStarts()
    ensures StartsWithin(Last24Hours(), Now - 30 * MsPerMinute, Now - 9 * MsPerMinute)
    ensures StartsWithin(Outside24Hours(), Now - 25 * MsPerHour, Now - 25 * MsPerHour + 5 * MsPerMinute)
    ensures StartsWithin(TwentyDaysAgo(), Now - 20 * MsPerDay, Now - 20 * MsPerDay + 15 * MsPerMinute)
    ensures StartsWithin(FortyDaysAgo(), Now - 40 * MsPerDay, Now - 40 * MsPerDay + 15 * MsPerMinute)
  {
    var lo, hi := Now - 30 * MsPerMinute, Now - 9 * MsPerMinute;
    StartsWithinAppend(seq(5, PersonLookup), seq(3, LukeSearch), lo, hi);
    StartsWithinAppend(seq(5, PersonLookup) + seq(3, LukeSearch), seq(2, FilmLookup), lo, hi);
  }

  /** The window from `since` of the four groups, each started between its bounds. */
  lemma WindowOfFixture(since: int)
    ensures Window(Fixture(), Some(since)) ==
      Window(Last24Hours(), Some(since)) + Window(Outside24Hours(), Some(since))
      + Window(TwentyDaysAgo(), Some(since)) + Window(FortyDaysAgo(), Some(since))
  {
    WindowOfGroups(Last24Hours(), Outside24Hours(), TwentyDaysAgo(), FortyDaysAgo(), Some(since));
  }

  /** The last-24-hours window keeps the ten calls of the last half hour only. */
  lemma Window24Hours()
    ensures Window(Fixture(), Some(Now - 24 * MsPerHour)) == Last24Hours()
  {
    var since := Now - 24 * MsPerHour;
    GroupStarts();
    WindowOfFixture(since);
    WindowOfGroup(Last24Hours(), Now - 30 * MsPerMinute, Now - 9 * MsPerMinute, since);
    WindowOfGroup(Outside24Hours(), Now - 25 * MsPerHour, Now - 25 * MsPerHour + 5 * MsPerMinute, since);
    WindowOfGroup(TwentyDaysAgo(), Now - 20 * MsPerDay, Now - 20 * MsPerDay + 15 * MsPerMinute, since);
    WindowOfGroup(FortyDaysAgo(), Now - 40 * MsPerDay, Now - 40 * MsPerDay + 15 * MsPerMinute, since);
    assert Last24Hours() + [] + [] + [] == Last24Hours();
  }

  /** The last-7-days window adds the two calls of 25 hours ago. */
  lemma Window7Days()
    ensures Window(Fixture(), Some(Now - 7 * MsPerDay)) == Last24Hours() + Outside24Hours()
  {
    var since := Now - 7 * MsPerDay;
    GroupStarts();
    WindowOfFixture(since);
    WindowOfGroup(Last24Hours(), Now - 30 * MsPerMinute, Now - 9 * MsPerMinute, since);
    WindowOfGroup(Outside24Hours(), Now - 25 * MsPerHour, Now - 25 * MsPerHour + 5 * MsPerMinute, since);
    WindowOfGroup(TwentyDaysAgo(), Now - 20 * MsPerDay, Now - 20 * MsPerDay + 15 * MsPerMinute, since);
    WindowOfGroup(FortyDaysAgo(), Now - 40 * MsPerDay, Now - 40 * MsPerDay + 15 * MsPerMinute, since);
    assert Last24Hours() + Outside24Hours() + [] + [] == Last24Hours() + Outside24Hours();
  }

  /** The last-30-days window adds the four calls of 20 days ago. */
  lemma Window30Days()
    ensures Window(Fixture(), Some(Now - 30 * MsPerDay)) == Last24Hours() + Outside24Hours() + TwentyDaysAgo()
  {
    var since := Now - 30 * MsPerDay;
    GroupStarts();
    WindowOfFixture(since);
    WindowOfGroup(Last24Hours(), Now - 30 * MsPerMinute, Now - 9 * MsPerMinute, since);
    WindowOfGroup(Outside24Hours(), Now - 25 * MsPerHour, Now - 25 * MsPerHour + 5 * MsPerMinute, since);
    WindowOfGroup(TwentyDaysAgo(), Now - 20 * MsPerDay, Now - 20 * MsPerDay + 15 * MsPerMinute, since);
    WindowOfGroup(FortyDaysAgo(), Now - 40 * MsPerDay, Now - 40 * MsPerDay + 15 * MsPerMinute, since);
    assert Last24Hours() + Outside24Hours() + TwentyDaysAgo() + [] == Last24Hours() + Outside24Hours() + TwentyDaysAgo();
  }

  /** The window totals the test expects: 20 all time, 16, 12 and 10. */
  lemma FixtureWindowTotals()
    ensures var r := BuildReport(Fixture(), Now);
      r.allTime.grandTotal == 20 && r.last30Days.grandTotal == 16 &&
      r.last7Days.grandTotal == 12 && r.last24Hours.grandTotal == 10
  {
    FixtureWindowSizes();
    WindowAllTime(Fixture());
    ReportWindows(Fixture(), Now);
  }

  /** The report's four snapshots, each computed on its window. */
  lemma ReportWindows(logs: seq<LogRecord>, now: int)
    ensures BuildReport(logs, now) == StatsReport(
      CalculateStats(Window(logs, None)),
      CalculateStats(Window(logs, Some(now - 30 * MsPerDay))),
      CalculateStats(Window(logs, Some(now - 7 * MsPerDay))),
      CalculateStats(Window(logs, Some(now - 24 * MsPerHour))),
      now)
  {
  }

  /** The log holds 20 calls; 16 of them in the last 30 days, 12 in the last 7, 10 in the last 24 hours. */
  lemma FixtureWindowSizes()
    ensures |Fixture()| == 20
    ensures |Window(Fixture(), Some(Now - 30 * MsPerDay))| == 16
    ensures |Window(Fixture(), Some(Now - 7 * MsPerDay))| == 12
    ensures |Window(Fixture(), Some(Now - 24 * MsPerHour))| == 10
  {
    Window30Days();
    Window7Days();
    Window24Hours();
  }

  // ----- Durations -----

  /** Every call took between `lo` and `hi` milliseconds. */
  predicate DurationsWithin(logs: seq<LogRecord>, lo: nat, hi: nat) {
    forall i :: 0 <= i < |logs| ==> lo <= logs[i].durationMs <= hi
  }

  lemma DurationsWithinAppend(a: seq<LogRecord>, b: seq<LogRecord>, lo: nat, hi: nat)
    requires DurationsWithin(a, lo, hi) && DurationsWithin(b, lo, hi)
    ensures DurationsWithin(a + b, lo, hi)
  {
  }

  /** All time, the longest call took 500 ms and the shortest 10 ms, both 25 hours ago. */
  lemma FixtureExtremes()
    ensures Longest(Fixture()) == 500 && Shortest(Fixture()) == 10
  {
    var a, b, c, d := Last24Hours(), Outside24Hours(), TwentyDaysAgo(), FortyDaysAgo();
    DurationsWithinAppend(seq(5, PersonLookup), seq(3, LukeSearch), 10, 500);
    DurationsWithinAppend(seq(5, PersonLookup) + seq(3, LukeSearch), seq(2, FilmLookup), 10, 500);
    DurationsWithinAppend(a, b, 10, 500);
    DurationsWithinAppend(a + b, c, 10, 500);
    DurationsWithinAppend(a + b + c, d, 10, 500);
    assert Fixture()[10] == b[0] && Fixture()[11] == b[1];
  }

  /** Records that all took `d` milliseconds, after a first one that took `first`. */
  lemma SumFirstAndRest(logs: seq<LogRecord>, first: nat, d: nat)
    requires logs != [] && logs[0].durationMs == first
    requires forall i :: 1 <= i < |logs| ==> logs[i].durationMs == d
    ensures SumDurations(logs) == first + (|logs| - 1) * d
  {
    SumDurationsUniform(logs[1..], d);
  }

  /** The calls of the last half hour took 1350 ms in all. */
  lemma RecentTotalDuration()
    ensures SumDurations(Last24Hours()) == 1350
  {
    SumDurationsUniform(seq(5, PersonLookup), 100);
    SumDurationsUniform(seq(3, LukeSearch), 150);
    SumDurationsUniform(seq(2, FilmLookup), 200);
    SumDurationsAppend(seq(5, PersonLookup), seq(3, LukeSearch));
    SumDurationsAppend(seq(5, PersonLookup) + seq(3, LukeSearch), seq(2, FilmLookup));
  }

  /** The older calls took 510, 650 and 650 ms. */
  lemma OlderTotalDurations()
    ensures SumDurations(Outside24Hours()) == 510
    ensures SumDurations(TwentyDaysAgo()) == 650 && SumDurations(FortyDaysAgo()) == 650
  {
    SumFirstAndRest(Outside24Hours(), 500, 10);
    SumFirstAndRest(TwentyDaysAgo(), 200, 150);
    SumFirstAndRest(FortyDaysAgo(), 200, 150);
  }

  /** The twenty calls took 3160 ms in all. */
  lemma FixtureTotalDuration()
    ensures SumDurations(Fixture()) == 3160
  {
    var a, b, c, d := Last24Hours(), Outside24Hours(), TwentyDaysAgo(), FortyDaysAgo();
    RecentTotalDuration();
    OlderTotalDurations();
    SumDurationsAppend(a, b);
    SumDurationsAppend(a + b, c);
    SumDurationsAppend(a + b + c, d);
  }

  /** Twenty calls that took 3160 ms in all average 158.00 ms. */
  lemma FixtureMeanRounding()
    ensures RoundHundredths(3160, 20) == 15800
  {
  }

  /**
   * The all-time duration fields of the report on any log of twenty calls
   * that took 3160 ms in all, from 10 ms to 500 ms.
   */
  lemma AllTimeDurations(logs: seq<LogRecord>, now: int)
    requires |logs| == 20 && SumDurations(logs) == 3160
    requires Longest(logs) == 500 && Shortest(logs) == 10
    ensures var s := BuildReport(logs, now).allTime;
      s.longestQueryMs == 500 && s.shortestQueryMs == 10 && s.averageDurationMs == 15800
  {
    AllTimeSnapshot(logs, now);
    FixtureMeanRounding();
  }

  /** All time, the longest call took 500 ms, the shortest 10 ms, and the mean is 158.00 ms. */
  lemma FixtureAllTimeDurations()
    ensures var s := BuildReport(Fixture(), Now).allTime;
      s.longestQueryMs == 500 && s.shortestQueryMs == 10 && s.averageDurationMs == 15800
  {
    FixtureExtremes();
    FixtureTotalDuration();
    AllTimeDurations(Fixture(), Now);
  }

  // ----- Per category -----

  /** Counts and total durations of two logs' categories add up. */
  lemma MatchingTotalsAppend(a: seq<LogRecord>, b: seq<LogRecord>, c: Category)
    ensures |Matching(a + b, c)| == |Matching(a, c)| + |Matching(b, c)|
    ensures SumDurations(Matching(a + b, c)) == SumDurations(Matching(a, c)) + SumDurations(Matching(b, c))
  {
    MatchingConcat(a, b, c);
    SumDurationsAppend(Matching(a, c), Matching(b, c));
  }

  /** A run of calls of category `k` that each took `d` ms. */
  lemma MatchingTotalsRun(run: seq<LogRecord>, k: Category, d: nat, c: Category)
    requires forall i :: 0 <= i < |run| ==> Classify(run[i]) == Some(k) && run[i].durationMs == d
    ensures |Matching(run, c)| == if c == k then |run| else 0
    ensures SumDurations(Matching(run, c)) == if c == k then |run| * d else 0
  {
    MatchingRun(run, k, c);
    SumDurationsUniform(run, d);
  }

  /** The categories of the last half hour: 5 person lookups, 3 name searches, 2 film lookups. */
  lemma Last24HoursByCategory(c: Category)
    ensures |Matching(Last24Hours(), c)| ==
      match c case PersonById => 5 case PersonByName => 3 case FilmById => 2 case FilmByName => 0
    ensures SumDurations(Matching(Last24Hours(), c)) ==
      match c case PersonById => 500 case PersonByName => 450 case FilmById => 400 case FilmByName => 0
  {
    var r1, r2, r3 := seq(5, PersonLookup), seq(3, LukeSearch), seq(2, FilmLookup);
    MatchingTotalsRun(r1, PersonById, 100, c);
    MatchingTotalsRun(r2, PersonByName, 150, c);
    MatchingTotalsRun(r3, FilmById, 200, c);
    MatchingTotalsAppend(r1, r2, c);
    MatchingTotalsAppend(r1 + r2, r3, c);
  }

  /** The categories of 25 hours ago: one film lookup of 500 ms, one name search of 10 ms. */
  lemma Outside24HoursByCategory(c: Category)
    ensures |Matching(Outside24Hours(), c)| ==
      match c case PersonById => 0 case PersonByName => 1 case FilmById => 1 case FilmByName => 0
    ensures SumDurations(Matching(Outside24Hours(), c)) ==
      match c case PersonById => 0 case PersonByName => 10 case FilmById => 500 case FilmByName => 0
  {
    var g := Outside24Hours();
    MatchingTotalsRun(g[..1], FilmById, 500, c);
    MatchingTotalsRun(g[1..], PersonByName, 10, c);
    assert g == g[..1] + g[1..];
    MatchingTotalsAppend(g[..1], g[1..], c);
  }

  /**
   * The categories of a group of four: a film lookup of 200 ms, two title
   * searches and a name search of 150 ms each (20 and 40 days ago alike).
   */
  lemma OlderByCategory(lookup: LogRecord, title1: LogRecord, title2: LogRecord, search: LogRecord, c: Category)
    requires Classify(lookup) == Some(FilmById) && lookup.durationMs == 200
    requires Classify(title1) == Some(FilmByName) && title1.durationMs == 150
    requires Classify(title2) == Some(FilmByName) && title2.durationMs == 150
    requires Classify(search) == Some(PersonByName) && search.durationMs == 150
    ensures var g := [lookup] + [title1, title2] + [search];
      |Matching(g, c)| ==
        (match c case PersonById => 0 case PersonByName => 1 case FilmById => 1 case FilmByName => 2)
      && SumDurations(Matching(g, c)) ==
        (match c case PersonById => 0 case PersonByName => 150 case FilmById => 200 case FilmByName => 300)
  {
    var r1, r2, r3 := [lookup], [title1, title2], [search];
    MatchingTotalsOne(lookup, FilmById, c);
    MatchingTotalsPair(title1, title2, FilmByName, 150, c);
    MatchingTotalsOne(search, PersonByName, c);
    var m := Matching(r1 + r2 + r3, c);
    assert |m| == |Matching(r1, c)| + |Matching(r2, c)| + |Matching(r3, c)| by {
      MatchingTotalsAppend(r1, r2, c);
      MatchingTotalsAppend(r1 + r2, r3, c);
    }
    assert SumDurations(m) == SumDurations(Matching(r1, c)) + SumDurations(Matching(r2, c)) + SumDurations(Matching(r3, c)) by {
      MatchingTotalsAppend(r1, r2, c);
      MatchingTotalsAppend(r1 + r2, r3, c);
    }
  }

  /** A single call falls only into its own category. */
  lemma MatchingTotalsOne(x: LogRecord, k: Category, c: Category)
    requires Classify(x) == Some(k)
    ensures |Matching([x], c)| == if c == k then 1 else 0
    ensures SumDurations(Matching([x], c)) == if c == k then x.durationMs else 0
  {
    MatchingTotalsRun([x], k, x.durationMs, c);
  }

  /** Two calls of one category and duration `d`. */
  lemma MatchingTotalsPair(x: LogRecord, y: LogRecord, k: Category, d: nat, c: Category)
    requires Classify(x) == Some(k) && x.durationMs == d
    requires Classify(y) == Some(k) && y.durationMs == d
    ensures |Matching([x, y], c)| == if c == k then 2 else 0
    ensures SumDurations(Matching([x, y], c)) == if c == k then 2 * d else 0
  {
    MatchingTotalsRun([x, y], k, d, c);
  }

  lemma TwentyDaysAgoByCategory(c: Category)
    ensures |Matching(TwentyDaysAgo(), c)| ==
      match c case PersonById => 0 case PersonByName => 1 case FilmById => 1 case FilmByName => 2
    ensures SumDurations(Matching(TwentyDaysAgo(), c)) ==
      match c case PersonById => 0 case PersonByName => 150 case FilmById => 200 case FilmByName => 300
  {
    OlderByCategory(Call("films/3", None, None, TwentyDaysBack(0), 200),
      Call("films", Some("title"), Some("Return"), TwentyDaysBack(5), 150),
      Call("films", Some("title"), Some("Empire"), TwentyDaysBack(10), 150),
      Call("people", Some("name"), Some("Vader"), TwentyDaysBack(15), 150), c);
  }

  lemma FortyDaysAgoByCategory(c: Category)
    ensures |Matching(FortyDaysAgo(), c)| ==
      match c case PersonById => 0 case PersonByName => 1 case FilmById => 1 case FilmByName => 2
    ensures SumDurations(Matching(FortyDaysAgo(), c)) ==
      match c case PersonById => 0 case PersonByName => 150 case FilmById => 200 case FilmByName => 300
  {
    OlderByCategory(Call("films/4", None, None, FortyDaysBack(0), 200),
      Call("films", Some("title"), Some("Phantom"), FortyDaysBack(5), 150),
      Call("films", Some("title"), Some("Clones"), FortyDaysBack(10), 150),
      Call("people", Some("name"), Some("Yoda"), FortyDaysBack(15), 150), c);
  }

  /** All time: 5 / 6 / 5 / 4 calls per category, which took 500 / 760 / 1300 / 600 ms. */
  lemma FixtureByCategory(c: Category)
    ensures |Matching(Fixture(), c)| ==
      match c case PersonById => 5 case PersonByName => 6 case FilmById => 5 case FilmByName => 4
    ensures SumDurations(Matching(Fixture(), c)) ==
      match c case PersonById => 500 case PersonByName => 760 case FilmById => 1300 case FilmByName => 600
  {
    var a, b, t, f := Last24Hours(), Outside24Hours(), TwentyDaysAgo(), FortyDaysAgo();
    Last24HoursByCategory(c);
    Outside24HoursByCategory(c);
    TwentyDaysAgoByCategory(c);
    FortyDaysAgoByCategory(c);
    MatchingTotalsAppend(a, b, c);
    MatchingTotalsAppend(a + b, t, c);
    MatchingTotalsAppend(a + b + t, f, c);
  }

  /** The all-time snapshot of a non-empty log takes its per-category maps from the whole log. */
  lemma AllTimeMaps(logs: seq<LogRecord>, now: int)
    requires logs != []
    ensures BuildReport(logs, now).allTime.totalByEndpoint == TotalByEndpoint(logs)
    ensures BuildReport(logs, now).allTime.averageByEndpoint == AverageByEndpoint(logs)
  {
    AllTimeSnapshot(logs, now);
  }

  /** A map over the four categories is the display of its four values. */
  lemma CategoryMap<V>(m: map<Category, V>, a: V, b: V, c: V, d: V)
    requires m.Keys == AllCategories
    requires m[PersonById] == a && m[PersonByName] == b && m[FilmById] == c && m[FilmByName] == d
    ensures m == map[PersonById := a, PersonByName := b, FilmById := c, FilmByName := d]
  {
  }

  /** The four means of the test, rounded half away from zero to hundredths. */
  lemma CategoryRoundings()
    ensures RoundHundredths(500, 5) == 10000 && RoundHundredths(760, 6) == 12667
    ensures RoundHundredths(1300, 5) == 26000 && RoundHundredths(600, 4) == 15000
  {
  }

  /**
   * The all-time per-category fields of the report on any log whose
   * categories hold 5 / 6 / 5 / 4 calls that took 500 / 760 / 1300 / 600 ms.
   */
  lemma AllTimeByEndpoint(logs: seq<LogRecord>, now: int)
    requires |Matching(logs, PersonById)| == 5 && SumDurations(Matching(logs, PersonById)) == 500
    requires |Matching(logs, PersonByName)| == 6 && SumDurations(Matching(logs, PersonByName)) == 760
    requires |Matching(logs, FilmById)| == 5 && SumDurations(Matching(logs, FilmById)) == 1300
    requires |Matching(logs, FilmByName)| == 4 && SumDurations(Matching(logs, FilmByName)) == 600
    ensures var s := BuildReport(logs, now).allTime;
      s.totalByEndpoint == map[PersonById := 5, PersonByName := 6, FilmById := 5, FilmByName := 4]
      && s.averageByEndpoint == map[PersonById := 10000, PersonByName := 12667, FilmById := 26000, FilmByName := 15000]
  {
    assert logs != [] by { assert |Matching(logs, PersonById)| <= |logs|; }
    AllTimeMaps(logs, now);
    CategoryMap(TotalByEndpoint(logs), 5, 6, 5, 4);
    CategoryRoundings();
    CategoryMap(AverageByEndpoint(logs), 10000, 12667, 26000, 15000);
  }

  /** All time, the totals by endpoint are 5 / 6 / 5 / 4 and the means 100.00 / 126.67 / 260.00 / 150.00 ms. */
  lemma FixtureAllTimeByEndpoint()
    ensures var s := BuildReport(Fixture(), Now).allTime;
      s.totalByEndpoint == map[PersonById := 5, PersonByName := 6, FilmById := 5, FilmByName := 4]
      && s.averageByEndpoint == map[PersonById := 10000, PersonByName := 12667, FilmById := 26000, FilmByName := 15000]
  {
    FixtureByCategory(PersonById);
    FixtureByCategory(PersonByName);
    FixtureByCategory(FilmById);
    FixtureByCategory(FilmByName);
    AllTimeByEndpoint(Fixture(), Now);
  }

  // ----- Busiest hour and weekday -----

  /** Every call of the group started in hour `h` of weekday `d`. */
  predicate StartedIn(logs: seq<LogRecord>, h: Hour, d: Weekday) {
    forall i :: 0 <= i < |logs| ==> logs[i].startedAt.hour == h && logs[i].startedAt.weekday == d
  }

  lemma StartedInAppend(a: seq<LogRecord>, b: seq<LogRecord>, h: Hour, d: Weekday)
    requires StartedIn(a, h, d) && StartedIn(b, h, d)
    ensures StartedIn(a + b, h, d)
  {
  }

  /** The hour and weekday of each group. */
  lemma GroupHours()
    ensures StartedIn(Last24Hours(), 15, Sunday)
    ensures StartedIn(Outside24Hours(), 14, Saturday)
    ensures StartedIn(TwentyDaysAgo(), 15, Monday)
    ensures StartedIn(FortyDaysAgo(), 15, Tuesday)
  {
    StartedInAppend(seq(5, PersonLookup), seq(3, LukeSearch), 15, Sunday);
    StartedInAppend(seq(5, PersonLookup) + seq(3, LukeSearch), seq(2, FilmLookup), 15, Sunday);
  }

  /** Start hours and weekdays of two logs together. */
  lemma StartsAppend(a: seq<LogRecord>, b: seq<LogRecord>)
    ensures StartHours(a + b) == StartHours(a) + StartHours(b)
    ensures StartWeekdays(a + b) == StartWeekdays(a) + StartWeekdays(b)
  {
  }

  /** A group started in `h` on `d` counts `|logs|` calls for each, and none for any other. */
  lemma GroupCounts(logs: seq<LogRecord>, h: Hour, d: Weekday, h': Hour, d': Weekday)
    requires StartedIn(logs, h, d)
    ensures Count(StartHours(logs), h') == if h' == h then |logs| else 0
    ensures Count(StartWeekdays(logs), d') == if d' == d then |logs| else 0
  {
    if logs != [] {
      var rest := logs[1..];
      assert StartedIn(rest, h, d) by {
        assert forall i :: 0 <= i < |rest| ==> rest[i] == logs[i + 1];
      }
      GroupCounts(rest, h, d, h', d');
      assert StartHours(logs) == [h] + StartHours(rest);
      assert StartWeekdays(logs) == [d] + StartWeekdays(rest);
    }
  }

  /** The start hours and weekdays of the log, group by group. */
  lemma FixtureStarts()
    ensures StartHours(Fixture()) == StartHours(Last24Hours()) + StartHours(Outside24Hours())
      + StartHours(TwentyDaysAgo()) + StartHours(FortyDaysAgo())
    ensures StartWeekdays(Fixture()) == StartWeekdays(Last24Hours()) + StartWeekdays(Outside24Hours())
      + StartWeekdays(TwentyDaysAgo()) + StartWeekdays(FortyDaysAgo())
  {
    var a, b, t, f := Last24Hours(), Outside24Hours(), TwentyDaysAgo(), FortyDaysAgo();
    StartsAppend(a, b);
    StartsAppend(a + b, t);
    StartsAppend(a + b + t, f);
  }

  /** The occurrences of `k` in four sequences together. */
  lemma CountOfFour<K>(a: seq<K>, b: seq<K>, c: seq<K>, d: seq<K>, k: K)
    ensures Count(a + b + c + d, k) == Count(a, k) + Count(b, k) + Count(c, k) + Count(d, k)
  {
    CountAppend(a, b, k);
    CountAppend(a + b, c, k);
    CountAppend(a + b + c, d, k);
  }

  /** All time, 18 of the 20 calls started in hour 15. */
  lemma FixtureHourCount()
    ensures Count(StartHours(Fixture()), 15) == 18
  {
    var a, b, t, f := Last24Hours(), Outside24Hours(), TwentyDaysAgo(), FortyDaysAgo();
    GroupHours();
    GroupCounts(a, 15, Sunday, 15, Sunday);
    GroupCounts(b, 14, Saturday, 15, Sunday);
    GroupCounts(t, 15, Monday, 15, Sunday);
    GroupCounts(f, 15, Tuesday, 15, Sunday);
    FixtureStarts();
    CountOfFour(StartHours(a), StartHours(b), StartHours(t), StartHours(f), 15);
  }

  /** All time, 10 of the 20 calls started on a Sunday. */
  lemma FixtureDayCount()
    ensures Count(StartWeekdays(Fixture()), Sunday) == 10
  {
    var a, b, t, f := Last24Hours(), Outside24Hours(), TwentyDaysAgo(), FortyDaysAgo();
    GroupHours();
    GroupCounts(a, 15, Sunday, 15, Sunday);
    GroupCounts(b, 14, Saturday, 15, Sunday);
    GroupCounts(t, 15, Monday, 15, Sunday);
    GroupCounts(f, 15, Tuesday, 15, Sunday);
    FixtureStarts();
    CountOfFour(StartWeekdays(a), StartWeekdays(b), StartWeekdays(t), StartWeekdays(f), Sunday);
  }

  /** The report's busiest hour and weekday all time, and its busiest hour over the last 24 hours. */
  lemma ReportBusiest(logs: seq<LogRecord>, now: int)
    requires logs != []
    ensures BuildReport(logs, now).allTime.mostPopularHour == MostPopularHour(logs)
    ensures BuildReport(logs, now).allTime.mostPopularDayOfWeek == MostPopularDayOfWeek(logs)
    ensures var w := Window(logs, Some(now - 24 * MsPerHour));
      w != [] ==> BuildReport(logs, now).last24Hours.mostPopularHour == MostPopularHour(w)
  {
    AllTimeSnapshot(logs, now);
  }

  /** The busiest hour is 15 both all time and over the last 24 hours, and the busiest weekday all time is Sunday. */
  lemma FixtureBusiest()
    ensures BuildReport(Fixture(), Now).allTime.mostPopularHour == Some(15)
    ensures BuildReport(Fixture(), Now).allTime.mostPopularDayOfWeek == Some(Sunday)
    ensures BuildReport(Fixture(), Now).last24Hours.mostPopularHour == Some(15)
  {
    var logs, recent := Fixture(), Last24Hours();
    FixtureHourCount();
    FixtureDayCount();
    assert logs[0] == PersonLookup(0);
    MostPopularMajority(StartHours(logs), 15);
    MostPopularMajority(StartWeekdays(logs), Sunday);
    GroupHours();
    GroupCounts(recent, 15, Sunday, 15, Sunday);
    assert recent[0] == PersonLookup(0);
    MostPopularMajority(StartHours(recent), 15);
    Window24Hours();
    ReportBusiest(logs, Now);
  }

  // ----- Top queries -----

  /** Labels of two logs together. */
  lemma LabelsAppend(a: seq<LogRecord>, b: seq<LogRecord>)
    ensures QueryLabels(a + b) == QueryLabels(a) + QueryLabels(b)
  {
  }

  /** A run of calls all labelled `q` counts `|run|` for `q` and nothing for any other label. */
  lemma LabelRunCount(run: seq<LogRecord>, q: string, y: string)
    requires forall i :: 0 <= i < |run| ==> QueryLabel(run[i]) == q
    ensures Count(QueryLabels(run), y) == if y == q then |run| else 0
  {
    var labels := QueryLabels(run);
    if y == q {
      assert forall i :: 0 <= i < |labels| ==> labels[i] == q;
      CountAll(labels, q);
    } else {
      assert y !in labels;
    }
  }

  /** A sequence of one repeated key counts it once per element. */
  lemma {:induction false} CountAll<K>(ks: seq<K>, k: K)
    requires forall i :: 0 <= i < |ks| ==> ks[i] == k
    ensures Count(ks, k) == |ks|
  {
    if ks != [] {
      CountAll(ks[1..], k);
    }
  }

  /** The ten labels of the calls older than a day, each called once. */
  const OlderLabels: seq<string> := [
    "films/2", "people?name=Leia",
    "films/3", "films?title=Return", "films?title=Empire", "people?name=Vader",
    "films/4", "films?title=Phantom", "films?title=Clones", "people?name=Yoda"]

  /** A lookup is labelled by its endpoint alone. */
  lemma PlainLabel(e: string, at: Timestamp, d: nat)
    ensures QueryLabel(Call(e, None, None, at, d)) == e
  {
  }

  /** A search with a truthy name and value is labelled `endpoint?name=value`. */
  lemma SearchLabel(e: string, n: string, v: string, at: Timestamp, d: nat)
    requires n != "" && n != "0" && v != "" && v != "0"
    ensures QueryLabel(Call(e, Some(n), Some(v), at, d)) == e + "?" + n + "=" + v
  {
  }

  lemma OutsideLabels()
    ensures QueryLabels(Outside24Hours()) == OlderLabels[..2]
  {
    PlainLabel("films/2", DayAgo(0), 500);
    SearchLabel("people", "name", "Leia", DayAgo(5), 10);
    assert "people" + "?" + "name" + "=" + "Leia" == "people?name=Leia";
  }

  /** The search labels of the calls twenty days ago, spelled out. */
  lemma TwentyDaysTexts()
    ensures "films" + "?" + "title" + "=" + "Return" == "films?title=Return"
    ensures "films" + "?" + "title" + "=" + "Empire" == "films?title=Empire"
    ensures "people" + "?" + "name" + "=" + "Vader" == "people?name=Vader"
  {
  }

  lemma TwentyDaysAgoLabels()
    ensures QueryLabels(TwentyDaysAgo()) == OlderLabels[2..6]
  {
    PlainLabel("films/3", TwentyDaysBack(0), 200);
    SearchLabel("films", "title", "Return", TwentyDaysBack(5), 150);
    SearchLabel("films", "title", "Empire", TwentyDaysBack(10), 150);
    SearchLabel("people", "name", "Vader", TwentyDaysBack(15), 150);
    TwentyDaysTexts();
  }

  /** The search labels of the calls forty days ago, spelled out. */
  lemma FortyDaysTexts()
    ensures "films" + "?" + "title" + "=" + "Phantom" == "films?title=Phantom"
    ensures "films" + "?" + "title" + "=" + "Clones" == "films?title=Clones"
    ensures "people" + "?" + "name" + "=" + "Yoda" == "people?name=Yoda"
  {
  }

  lemma FortyDaysAgoLabels()
    ensures QueryLabels(FortyDaysAgo()) == OlderLabels[6..]
  {
    PlainLabel("films/4", FortyDaysBack(0), 200);
    SearchLabel("films", "title", "Phantom", FortyDaysBack(5), 150);
    SearchLabel("films", "title", "Clones", FortyDaysBack(10), 150);
    SearchLabel("people", "name", "Yoda", FortyDaysBack(15), 150);
    FortyDaysTexts();
  }

  lemma OlderLabelsOf()
    ensures QueryLabels(Outside24Hours() + TwentyDaysAgo() + FortyDaysAgo()) == OlderLabels
  {
    var b, t, f := Outside24Hours(), TwentyDaysAgo(), FortyDaysAgo();
    LabelsAppend(b, t);
    LabelsAppend(b + t, f);
    OutsideLabels();
    TwentyDaysAgoLabels();
    FortyDaysAgoLabels();
    assert OlderLabels == OlderLabels[..2] + OlderLabels[2..6] + OlderLabels[6..];
  }

  /** No older label repeats, and none is a label of the last half hour. */
  lemma OlderLabelsDistinct()
    ensures NoDup(OlderLabels)
    ensures "people/1" !in OlderLabels && "people?name=Luke" !in OlderLabels && "films/1" !in OlderLabels
  {
  }

  /** How often each label is called in the last half hour. */
  function RecentCount(y: string): nat {
    if y == "people/1" then 5
    else if y == "people?name=Luke" then 3
    else if y == "films/1" then 2
    else 0
  }

  /** The labels of the last half hour: five `people/1`, three Luke searches, two `films/1`. */
  lemma RecentLabelCount(y: string)
    ensures QueryLabels(Last24Hours())[0] == "people/1"
    ensures Count(QueryLabels(Last24Hours()), y) == RecentCount(y)
  {
    var p, l, f := seq(5, PersonLookup), seq(3, LukeSearch), seq(2, FilmLookup);
    forall i | 0 <= i < |l| ensures QueryLabel(l[i]) == "people?name=Luke" {
      SearchLabel("people", "name", "Luke", Today(10 + i), 150);
    }
    LabelRunCount(p, "people/1", y);
    LabelRunCount(l, "people?name=Luke", y);
    LabelRunCount(f, "films/1", y);
    LabelsAppend(p, l);
    LabelsAppend(p + l, f);
    CountAppend(QueryLabels(p), QueryLabels(l), y);
    CountAppend(QueryLabels(p) + QueryLabels(l), QueryLabels(f), y);
  }

  /** The whole log's labels: the last half hour's, then the ten older ones. */
  lemma FixtureLabelsSplit()
    ensures QueryLabels(Fixture()) == QueryLabels(Last24Hours()) + OlderLabels
  {
    var recent, older := Last24Hours(), Outside24Hours() + TwentyDaysAgo() + FortyDaysAgo();
    assert Fixture() == recent + older;
    LabelsAppend(recent, older);
    OlderLabelsOf();
  }

  /** Recent labels counted as `RecentCount` says, followed by the older ones: none beats `people/1`. */
  lemma SplitLabelCounts(recent: seq<string>, y: string)
    requires Count(recent, y) == RecentCount(y) && Count(recent, "people/1") == 5
    ensures Count(recent + OlderLabels, "people/1") == 5
    ensures Count(recent + OlderLabels, y) <= 5
  {
    OlderLabelsDistinct();
    CountAppend(recent, OlderLabels, y);
    CountAppend(recent, OlderLabels, "people/1");
    CountNoDup(OlderLabels, y);
    if y == "people?name=Luke" || y == "films/1" {
      assert Count(OlderLabels, y) == 0;
    }
  }

  /**
   * Over the whole log `people/1` is called five times, no label more often,
   * and it comes first.
   */
  lemma FixtureLabelCounts(y: string)
    ensures QueryLabels(Fixture())[0] == "people/1"
    ensures Count(QueryLabels(Fixture()), "people/1") == 5
    ensures Count(QueryLabels(Fixture()), y) <= 5
  {
    FixtureLabelsSplit();
    RecentLabelCount(y);
    RecentLabelCount("people/1");
    SplitLabelCounts(QueryLabels(Last24Hours()), y);
  }

  /** Three recent labels and two older ones are five different labels. */
  lemma SplitDistinct(recent: seq<string>)
    requires "people/1" in recent && "people?name=Luke" in recent && "films/1" in recent
    ensures |Distinct(recent + OlderLabels)| >= 5
  {
    var labels := recent + OlderLabels;
    assert labels[|recent|] == "films/2" && labels[|recent| + 1] == "people?name=Leia";
    var some := ["people/1", "people?name=Luke", "films/1", "films/2", "people?name=Leia"];
    assert forall i :: 0 <= i < |some| ==> some[i] in labels;
    DistinctAtLeast(labels, some);
  }

  /** At least five different labels occur in the whole log. */
  lemma FixtureDistinctLabels()
    ensures |Distinct(QueryLabels(Fixture()))| >= 5
  {
    FixtureLabelsSplit();
    RecentLabelCount("people/1");
    RecentLabelCount("people?name=Luke");
    RecentLabelCount("films/1");
    SplitDistinct(QueryLabels(Last24Hours()));
  }

  /** Twenty calls, five of them to the leading label `people/1`, among at least five labels. */
  lemma AllTimeTopQueries(logs: seq<LogRecord>, now: int)
    requires |logs| == 20 && QueryLabels(logs)[0] == "people/1"
    requires Count(QueryLabels(logs), "people/1") == 5
    requires forall i :: 0 <= i < |logs| ==> Count(QueryLabels(logs), QueryLabels(logs)[i]) <= 5
    requires |Distinct(QueryLabels(logs))| >= 5
    ensures var top := BuildReport(logs, now).allTime.topFiveQueries;
      |top| == 5 && top[0] == QueryStat("people/1", 5, 2500)
  {
    AllTimeSnapshot(logs, now);
    TopQueryLeader(logs, "people/1");
    TopFiveQueriesCounts(logs);
    QuarterShare();
  }

  /** Five calls out of twenty are 25.00 percent. */
  lemma QuarterShare()
    ensures RoundHundredths(100 * 5, 20) == 2500
  {
  }

  /** All time, five queries are ranked and the first is `people/1`: 5 calls, 25.00 percent. */
  lemma FixtureTopQueries()
    ensures var top := BuildReport(Fixture(), Now).allTime.topFiveQueries;
      |top| == 5 && top[0] == QueryStat("people/1", 5, 2500)
  {
    var labels := QueryLabels(Fixture());
    FixtureLabelCounts("people/1");
    forall i | 0 <= i < |labels| ensures Count(labels, labels[i]) <= 5 {
      FixtureLabelCounts(labels[i]);
    }
    FixtureDistinctLabels();
    AllTimeTopQueries(Fixture(), Now);
  }
}
