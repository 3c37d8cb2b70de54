# Star Wars API proxy: call log and statistics, in Dafny

The backend proxies four lookups to the public Star Wars API: a person or a film, by
identifier or by a search term. The model covers two parts of it.

- **The controller** (`StarWarsController`) wraps every upstream call. Each call writes
  exactly one record to the `star_wars_api_logs` table, whether the call returns or
  throws, and the exception is passed on. The controller then reshapes the `result`
  part of the answer: each item's `properties` object is merged into the item itself.
- **The statistics job** (`CalculateStarWarsApiStats`) reads the log back for four time
  windows: all time, the last 30 days, the last 7 days and the last 24 hours. For each
  window it computes:
  - the five most frequent query labels, with their counts and percentage shares;
  - the mean, longest and shortest call durations;
  - the most popular start hour and weekday;
  - the number of calls and the mean duration for each of four endpoint categories;
  - the window size.

  The four snapshots are stored as one report under the cache key
  `star_wars_api_stats`, and `getApiStats` serves that report.

Modules, one per file:

| module | file | contents |
|---|---|---|
| `Wrappers` | `wrappers.dfy` | `Option` and `Result` |
| `Rounding` | `rounding.dfy` | `round(x, 2)` on a non-negative rational, kept as an exact count of hundredths |
| `LogModel` | `log_model.dfy` | log records, clock readings, the millisecond difference between two readings |
| `Durations` | `durations.dfy` | sum, maximum, minimum and rounded mean of durations |
| `Endpoints` | `endpoints.dfy` | the four categories, the pattern filter, per-category count and mean |
| `Ranking` | `ranking.dfy` | the collection pipeline: `countBy`/`groupBy` in first-seen order, the stable descending sort by count, `take`, and "the first key of the sorted groups" |
| `Stats` | `stats.dfy` | query labels, the snapshot, the windows, the report, and the cache as a class |
| `Json` | `json.dfy` | decoded JSON, PHP's `(array)` cast, `unset`, `array_merge`, `flattenResult`, `flattenResults` |
| `Controller` | `controller.dfy` | the controller as a class whose `logs` field is the log table, with the logging wrapper and the handlers |
| `StatsFixture` | `fixture.dfy` | the twenty-call log of the statistics feature test, and the report values the job computes for it |

Representation choices:

- Decimal results such as `average_duration_ms` and `percentage` are natural numbers of
  hundredths. For example, 126.67 is `12667`.
- PHP's `round` rounds half away from zero. On non-negative values this is round half
  up, and `Rounding.RoundHundredths` is characterised by its error bound.
- A clock reading is an instant in epoch milliseconds, paired with the wall-clock hour
  and the weekday that `format('H')` and `format('l')` give for it.
- A log record holds an optional parameter name and value, and an optional exception
  message. This is how "null" is represented.

## Model

| member | source | states |
|---|---|---|
| Rounding.RoundHundredths | backend/app/Jobs/CalculateStarWarsApiStats.php:56 | the rounded value `h` (in hundredths) of `num/den` is within half a hundredth of the exact value, with exact halves going up |
| Rounding.RoundHundredthsUnique | backend/app/Jobs/CalculateStarWarsApiStats.php:166 | the value meeting that error bound is unique, so `RoundHundredths` is the only correct rounding |
| Rounding.RoundHundredthsBetween | backend/app/Jobs/CalculateStarWarsApiStats.php:166 | rounding a value that lies between two whole numbers gives a result between them |
| Rounding.RoundHundredthsExact | backend/app/Jobs/CalculateStarWarsApiStats.php:100 | a whole number is rounded to itself |
| LogModel.DiffInMilliseconds | backend/app/Http/Controllers/Api/StarWarsController.php:61 | the duration is the distance between the two clock readings; it is the completion time minus the start time when the clock did not go back |
| LogModel.WeekdayNamesDistinct | backend/app/Jobs/CalculateStarWarsApiStats.php:122-125 | distinct weekdays have distinct names, so grouping by name is grouping by weekday |
| Durations.Longest | backend/app/Jobs/CalculateStarWarsApiStats.php:59 | `max('duration_ms')` is the duration of some record and at least every record's duration |
| Durations.Shortest | backend/app/Jobs/CalculateStarWarsApiStats.php:60 | `min('duration_ms')` is the duration of some record and at most every record's duration |
| Durations.SumDurationsAtMost | backend/app/Jobs/CalculateStarWarsApiStats.php:56 | the sum of durations is at most the longest duration times the number of records |
| Durations.SumDurationsAtLeast | backend/app/Jobs/CalculateStarWarsApiStats.php:56 | the sum of durations is at least the shortest duration times the number of records |
| Durations.MeanHundredths | backend/app/Jobs/CalculateStarWarsApiStats.php:56 | `round(avg('duration_ms'), 2)` is the mean rounded to hundredths, and lies between the shortest and the longest duration |
| Durations.SumDurationsAppend | backend/app/Jobs/CalculateStarWarsApiStats.php:56 | the total duration of two logs together is the sum of their totals |
| Durations.SumDurationsUniform | backend/app/Jobs/CalculateStarWarsApiStats.php:56 | `n` calls that each took `d` ms took `n * d` ms in all |
| Endpoints.RTrimSlashes | backend/app/Jobs/CalculateStarWarsApiStats.php:157 | `rtrim($pattern, '/')` is a prefix of its input, does not end in `/`, and only slashes were removed |
| Endpoints.Classify | backend/app/Jobs/CalculateStarWarsApiStats.php:149-160 | a record falls into a category exactly when the classifier returns that category, so the four filters never overlap |
| Endpoints.Matching | backend/app/Jobs/CalculateStarWarsApiStats.php:149-160 | the filtered collection holds exactly the records that pass the category's filter |
| Endpoints.MatchingAppend | backend/app/Jobs/CalculateStarWarsApiStats.php:181-190 | logging one more record adds it to its own category's records, at the end, and to no other category |
| Endpoints.MatchingConcat | backend/app/Jobs/CalculateStarWarsApiStats.php:149-160 | the records of a category in two logs together are those of the first log, then those of the second |
| Endpoints.MatchingRun | backend/app/Jobs/CalculateStarWarsApiStats.php:149-160 | a run of records all classified into one category is wholly that category's, and no other category gets any of them |
| Endpoints.CountForPattern | backend/app/Jobs/CalculateStarWarsApiStats.php:179-191 | the count is at most the number of records, and it is zero exactly when no record passes the filter |
| Endpoints.CountForPatternAppend | backend/app/Jobs/CalculateStarWarsApiStats.php:179-191 | one more record raises the count of the category it is classified into by one and leaves every other count unchanged |
| Endpoints.AverageForPattern | backend/app/Jobs/CalculateStarWarsApiStats.php:147-167 | 0 when no record matches; otherwise the matching records' total duration over their count, rounded to hundredths, which lies between their shortest and longest durations |
| Endpoints.CategoryTotalsPartition | backend/app/Jobs/CalculateStarWarsApiStats.php:169-191 | the four category totals add up to the number of classified records, so they never exceed the window size |
| Ranking.Count | backend/app/Jobs/CalculateStarWarsApiStats.php:91 | a key's count is at most the number of keys, and it is positive exactly when the key occurs |
| Ranking.FirstIndex | backend/app/Jobs/CalculateStarWarsApiStats.php:91 | the position at which a group is first seen, with no earlier occurrence of its key |
| Ranking.Distinct | backend/app/Jobs/CalculateStarWarsApiStats.php:91 | the group keys are the keys that occur, each once |
| Ranking.DistinctOrder | backend/app/Jobs/CalculateStarWarsApiStats.php:91 | the groups come in the order in which their keys are first seen |
| Ranking.Tally | backend/app/Jobs/CalculateStarWarsApiStats.php:91 | `countBy` pairs each distinct key with its number of occurrences |
| Ranking.InsertSplit | backend/app/Jobs/CalculateStarWarsApiStats.php:94 | one step of the stable sort places the new group right after every group with a strictly larger count, and leaves the other groups in order |
| Ranking.InsertPerm | backend/app/Jobs/CalculateStarWarsApiStats.php:94 | one step of the sort adds the new group and keeps every other group |
| Ranking.InsertSorted | backend/app/Jobs/CalculateStarWarsApiStats.php:94 | inserting into a list sorted by count, highest first, keeps it sorted |
| Ranking.SortByCountDescSpec | backend/app/Jobs/CalculateStarWarsApiStats.php:94 | `sortDesc` returns a permutation of its input, sorted by count with the highest first |
| Ranking.SortByCountDescStable | backend/app/Jobs/CalculateStarWarsApiStats.php:94 | the sort is stable: groups with equal counts keep their input order |
| Ranking.SortByCountDescNoDup | backend/app/Jobs/CalculateStarWarsApiStats.php:94 | sorting keeps distinct groups distinct |
| Ranking.Take | backend/app/Jobs/CalculateStarWarsApiStats.php:95 | `take(n)` is the first `min(n, size)` elements |
| Ranking.RankedEntries | backend/app/Jobs/CalculateStarWarsApiStats.php:91-94 | the ranked groups are exactly the occurring keys with their counts, sorted, each key once |
| Ranking.RankedTiesFirstSeen | backend/app/Jobs/CalculateStarWarsApiStats.php:91-94 | among ranked groups with equal counts, the key seen first comes first |
| Ranking.RankedHas | backend/app/Jobs/CalculateStarWarsApiStats.php:91-94 | every key that occurs is ranked with its true count |
| Ranking.MostPopularPresent | backend/app/Jobs/CalculateStarWarsApiStats.php:113-119 | there is a most popular key exactly when there are keys, and it is one of them |
| Ranking.MostPopularIsLargest | backend/app/Jobs/CalculateStarWarsApiStats.php:117-119 | no key occurs more often than the most popular one |
| Ranking.MostPopularFirstSeen | backend/app/Jobs/CalculateStarWarsApiStats.php:117-119 | every key seen before the first occurrence of the most popular key occurs strictly less often, so ties go to the first-seen key |
| Ranking.TopGroupsEntries | backend/app/Jobs/CalculateStarWarsApiStats.php:91-95 | the top `n` groups are `min(n, number of distinct keys)` occurring keys with their counts |
| Ranking.CountAppend | backend/app/Jobs/CalculateStarWarsApiStats.php:91 | a key's count in two sequences together is the sum of its counts |
| Ranking.CountPair | backend/app/Jobs/CalculateStarWarsApiStats.php:91 | two different keys together occur at most as often as there are keys |
| Ranking.CountNoDup | backend/app/Jobs/CalculateStarWarsApiStats.php:91 | in a sequence without repeats every key occurs at most once |
| Ranking.KeySetSize | backend/app/Jobs/CalculateStarWarsApiStats.php:91 | a sequence has at most as many different keys as elements, and exactly as many when nothing repeats |
| Ranking.DistinctAtLeast | backend/app/Jobs/CalculateStarWarsApiStats.php:91 | a sequence holding `m` different given keys has at least `m` groups |
| Ranking.MostPopularLeader | backend/app/Jobs/CalculateStarWarsApiStats.php:117-119 | when the first key occurs at least as often as every other key, it is the most popular key, even on a tie |
| Ranking.MostPopularMajority | backend/app/Jobs/CalculateStarWarsApiStats.php:117-119 | when the first key fills at least half of the sequence, it is the most popular key |
| Ranking.TopGroupsFirst | backend/app/Jobs/CalculateStarWarsApiStats.php:91-95 | the first ranked group is the most popular key with its count |
| Ranking.TopGroupsOrder | backend/app/Jobs/CalculateStarWarsApiStats.php:91-95 | the top groups have distinct keys, are sorted by count, and equal counts follow first-seen order |
| Ranking.TopGroupsMaximal | backend/app/Jobs/CalculateStarWarsApiStats.php:94-95 | a key that is left out occurs less often than every key that was kept, or as often as a kept key that was seen first |
| Stats.QueryLabel | backend/app/Jobs/CalculateStarWarsApiStats.php:84-89 | the label is the endpoint, followed by `?name=value` exactly when both the parameter name and value are truthy in PHP's sense |
| Stats.QueryLabels | backend/app/Jobs/CalculateStarWarsApiStats.php:84-89 | one label per record, in log order |
| Stats.FalsySearchLabel | backend/app/Jobs/CalculateStarWarsApiStats.php:84-89 | a search whose value is empty or "0" is ranked under the bare endpoint, yet it still counts toward its search category |
| Stats.TopFiveQueriesCounts | backend/app/Jobs/CalculateStarWarsApiStats.php:82-105 | there are `min(5, number of distinct labels)` entries; each entry is a label of the window with its true count and `round(count / total * 100, 2)`, which is at most 100 |
| Stats.TopFiveQueriesRanking | backend/app/Jobs/CalculateStarWarsApiStats.php:91-95 | the entries have distinct labels and are sorted by count, with ties in the order the labels were first called |
| Stats.TopFiveQueriesMaximal | backend/app/Jobs/CalculateStarWarsApiStats.php:94-95 | a label that was called but not ranked was called less often than every ranked one, or as often as a ranked one that was called first |
| Stats.TopQueryLeader | backend/app/Jobs/CalculateStarWarsApiStats.php:91-100 | a first label that no other label outnumbers heads the ranking, with its count and percentage |
| Stats.PercentageOfHundredCalls | backend/app/Jobs/CalculateStarWarsApiStats.php:100 | in a window of exactly 100 calls, a label's percentage equals its count |
| Stats.MostPopularHourSpec | backend/app/Jobs/CalculateStarWarsApiStats.php:107-120 | null exactly for an empty window; otherwise an hour in which some call started, with no hour busier, and ties broken in favour of the hour seen first |
| Stats.MostPopularDayOfWeekSpec | backend/app/Jobs/CalculateStarWarsApiStats.php:122-135 | the same for the weekday |
| Stats.AverageByEndpoint | backend/app/Jobs/CalculateStarWarsApiStats.php:137-145 | all four categories are present; each is 0 without calls, otherwise the category's total duration over its count, rounded to hundredths, between its shortest and longest durations |
| Stats.TotalByEndpoint | backend/app/Jobs/CalculateStarWarsApiStats.php:169-177 | all four categories are present, each with its number of matching calls, and together they never exceed the window size |
| Stats.CalculateStats | backend/app/Jobs/CalculateStarWarsApiStats.php:40-65 | `grand_total` is the window size, and an empty window gives `emptyStats` |
| Stats.CalculateStatsSnapshot | backend/app/Jobs/CalculateStarWarsApiStats.php:54-64 | for a non-empty window: the ranking, mean, hour, weekday and both category maps are the job's helpers applied to the window; the longest and shortest durations are attained and bound every record; the mean lies between them; an hour and a weekday are present; at most five queries are ranked; both category maps list all four categories |
| Stats.EmptyWindowSnapshot | backend/app/Jobs/CalculateStarWarsApiStats.php:67-80 | an empty window gives no ranking, zero durations, null hour and weekday, empty category maps and a total of 0 |
| Stats.Window | backend/app/Jobs/CalculateStarWarsApiStats.php:42-48 | the window holds exactly the records that started at or after its lower bound, in log order |
| Stats.WindowAllTime | backend/app/Jobs/CalculateStarWarsApiStats.php:30 | the unbounded window is the whole log |
| Stats.WindowNested | backend/app/Jobs/CalculateStarWarsApiStats.php:44-46 | the window from a later bound is the window from an earlier bound, filtered again, and it is never larger |
| Stats.WindowAppend | backend/app/Jobs/CalculateStarWarsApiStats.php:42-48 | the window of two logs together is the window of the first, then the window of the second |
| Stats.WindowKeepsAll | backend/app/Jobs/CalculateStarWarsApiStats.php:42-48 | a log whose every record started at or after the bound is its own window |
| Stats.WindowDropsAll | backend/app/Jobs/CalculateStarWarsApiStats.php:42-48 | a log whose every record started before the bound has an empty window |
| Stats.AllTimeSnapshot | backend/app/Jobs/CalculateStarWarsApiStats.php:29-30 | the all-time snapshot of a non-empty log is computed on the whole log |
| Stats.ReportTotalsNest | backend/app/Jobs/CalculateStarWarsApiStats.php:29-35 | the report's totals satisfy 24 hours <= 7 days <= 30 days <= all time, and all time is the whole log |
| Stats.WindowsNestWithAdvancingClock | backend/app/Jobs/CalculateStarWarsApiStats.php:31-33 | when the clock is read once per window, the windows still nest as long as the clock does not go back |
| Stats.StatsCache.Handle | backend/app/Jobs/CalculateStarWarsApiStats.php:25-38 | `handle` overwrites only the `star_wars_api_stats` entry, with the report built at `now`, whose all-time total is the whole log |
| Stats.StatsCache.Get | backend/app/Http/Controllers/Api/StarWarsController.php:210 | `Cache::get` returns the stored entry, or null when there is none |
| Json.Keys | backend/app/Http/Controllers/Api/StarWarsController.php:77 | the keys of an array, one per field, in order |
| Json.Lookup | backend/app/Http/Controllers/Api/StarWarsController.php:79-80 | reading a key gives null exactly when the key is absent |
| Json.Put | backend/app/Http/Controllers/Api/StarWarsController.php:82 | assigning a key keeps every existing key in place; a new key is appended at the end |
| Json.LookupPut | backend/app/Http/Controllers/Api/StarWarsController.php:82 | after assigning a key it holds the new value, and every other key keeps its value |
| Json.PutUnique | backend/app/Http/Controllers/Api/StarWarsController.php:82 | assigning keeps keys unique; the keys are the old ones plus the assigned one |
| Json.LookupMerge | backend/app/Http/Controllers/Api/StarWarsController.php:82 | in `array_merge`, keys of the second array take its values and every other key keeps the first array's value |
| Json.MergeKeepsOrder | backend/app/Http/Controllers/Api/StarWarsController.php:82 | `array_merge` keeps the first array's keys in place and adds new keys only after them |
| Json.MergeUnique | backend/app/Http/Controllers/Api/StarWarsController.php:82 | `array_merge` of arrays with unique keys has unique keys, namely those of either array |
| Json.Remove | backend/app/Http/Controllers/Api/StarWarsController.php:81 | after `unset` the key is absent and every other key keeps its value |
| Json.NatToDecimal | backend/app/Http/Controllers/Api/StarWarsController.php:80 | an integer key is written as a non-empty string of decimal digits |
| Json.NatToDecimalRoundTrip | backend/app/Http/Controllers/Api/StarWarsController.php:80 | reading back the digits of a number gives the number |
| Json.NatToDecimalInjective | backend/app/Http/Controllers/Api/StarWarsController.php:80 | different numbers give different keys |
| Json.ToFields | backend/app/Http/Controllers/Api/StarWarsController.php:77 | the `(array)` cast of an object is its fields |
| Json.ToFieldsUnique | backend/app/Http/Controllers/Api/StarWarsController.php:80 | the `(array)` cast of a properties value has unique keys, including list positions |
| Json.FlattenResult | backend/app/Http/Controllers/Api/StarWarsController.php:75-86 | an item without non-null `properties` is returned unchanged |
| Json.FlattenResultLookup | backend/app/Http/Controllers/Api/StarWarsController.php:79-83 | after flattening, property keys hold the property values and override same-named top-level keys; other keys keep their top-level values; `properties` is gone unless the properties hold such a key themselves |
| Json.FlattenResultKeepsOrder | backend/app/Http/Controllers/Api/StarWarsController.php:81-82 | the item's other keys stay in their order, ahead of any added property key |
| Json.FlattenResultIdempotent | backend/app/Http/Controllers/Api/StarWarsController.php:75-86 | after flattening an object of properties, no `properties` key is left, so flattening again changes nothing |
| Json.FlattenResults | backend/app/Http/Controllers/Api/StarWarsController.php:94-111 | null gives null; an object is flattened; a list is flattened item by item, keeping its length and order, and fails exactly when some item is not an object; any other scalar is cast to a one-element list |
| Controller.IntToString | backend/app/Http/Controllers/Api/StarWarsController.php:148 | the interpolated identifier is non-empty and starts with `-` exactly when it is negative |
| Controller.Logged | backend/app/Http/Controllers/Api/StarWarsController.php:55-63 | the record has no exception exactly when the call returned, and its duration is the elapsed time when the clock advanced |
| Controller.StarWarsController.ExecuteWithLogging | backend/app/Http/Controllers/Api/StarWarsController.php:37-67 | exactly one record is appended, holding the call's endpoint, parameters, clock readings and exception; the result is returned, and an exception is passed on |
| Controller.StarWarsController.GetPersonByName | backend/app/Http/Controllers/Api/StarWarsController.php:121-135 | logs `people` with parameter `name`; the record counts toward `person_by_name` only and is labelled `people?name=<name>` when the name is truthy; the response flattens `result`, or is an empty list when `result` is missing |
| Controller.StarWarsController.GetPersonById | backend/app/Http/Controllers/Api/StarWarsController.php:145-157 | logs `people/<id>` without parameters; the record counts toward `person_by_id` only; the response flattens `result`, or is null when `result` is missing |
| Controller.StarWarsController.GetFilmByTitle | backend/app/Http/Controllers/Api/StarWarsController.php:167-181 | logs `films` with parameter `title`; the record counts toward `film_by_name` only and is labelled `films?title=<title>` when the title is truthy; an empty list when `result` is missing |
| Controller.StarWarsController.GetFilmById | backend/app/Http/Controllers/Api/StarWarsController.php:191-203 | logs `films/<id>` without parameters; the record counts toward `film_by_id` only; null when `result` is missing |
| Controller.StarWarsController.GetApiStats | backend/app/Http/Controllers/Api/StarWarsController.php:208-213 | the stats endpoint serves the cached report, or null before the job has ever run |
| Controller.SearchLogged | backend/app/Jobs/CalculateStarWarsApiStats.php:84-89 | a search call's record falls into its endpoint's search category, and its label carries the search term when that term is truthy |
| Controller.LoggedOnce | backend/app/Jobs/CalculateStarWarsApiStats.php:179-191 | appending one record changes each category's count by that record's own contribution |
| StatsFixture.WindowOfGroup | backend/tests/Feature/StarWarsApiStatsTest.php:274-281 | a group of calls that started between two instants is kept whole by a window that opens before the first and dropped by one that opens after the second |
| StatsFixture.GroupStarts | backend/tests/Feature/StarWarsApiStatsTest.php:274-281 | the calls start half an hour ago, 25 hours ago, 20 days ago and 40 days ago, each group within a quarter of an hour |
| StatsFixture.Window24Hours | backend/tests/Feature/StarWarsApiStatsTest.php:114-125 | the last-24-hours window holds exactly the ten calls of the last half hour |
| StatsFixture.Window7Days | backend/tests/Feature/StarWarsApiStatsTest.php:100-111 | the last-7-days window also holds the two calls of 25 hours ago, and nothing older |
| StatsFixture.Window30Days | backend/tests/Feature/StarWarsApiStatsTest.php:86-97 | the last-30-days window holds everything but the four calls of 40 days ago |
| StatsFixture.FixtureWindowSizes | backend/tests/Feature/StarWarsApiStatsTest.php:86-125 | the log and its three bounded windows hold 20, 16, 12 and 10 calls |
| StatsFixture.FixtureWindowTotals | backend/tests/Feature/StarWarsApiStatsTest.php:86-125 | the report's `grand_total` is 20 all time, 16 over 30 days, 12 over 7 days and 10 over 24 hours |
| StatsFixture.FixtureExtremes | backend/tests/Feature/StarWarsApiStatsTest.php:70-71 | the longest call took 500 ms and the shortest 10 ms |
| StatsFixture.FixtureTotalDuration | backend/tests/Feature/StarWarsApiStatsTest.php:61 | the twenty calls took 3160 ms in all |
| StatsFixture.AllTimeDurations | backend/app/Jobs/CalculateStarWarsApiStats.php:56-60 | on any twenty calls that took 3160 ms, from 10 to 500 ms, the report gives longest 500, shortest 10 and a mean of 158.00 ms |
| StatsFixture.FixtureAllTimeDurations | backend/tests/Feature/StarWarsApiStatsTest.php:61-71 | the test's all-time mean is 158.00 ms, the longest call 500 ms and the shortest 10 ms |
| StatsFixture.MatchingTotalsRun | backend/app/Jobs/CalculateStarWarsApiStats.php:179-190 | a run of calls of one category, each taking `d` ms, adds its length and its length times `d` to that category only |
| StatsFixture.OlderByCategory | backend/app/Jobs/CalculateStarWarsApiStats.php:147-190 | a film lookup, two title searches and a name search give 1 / 2 / 1 calls to film-by-id, film-by-name and person-by-name, with their durations |
| StatsFixture.FixtureByCategory | backend/tests/Feature/StarWarsApiStatsTest.php:74-83 | all time the categories hold 5 / 6 / 5 / 4 calls, which took 500 / 760 / 1300 / 600 ms |
| StatsFixture.CategoryRoundings | backend/tests/Feature/StarWarsApiStatsTest.php:80-83 | 500/5, 760/6, 1300/5 and 600/4 round to 100.00, 126.67, 260.00 and 150.00 |
| StatsFixture.AllTimeByEndpoint | backend/app/Jobs/CalculateStarWarsApiStats.php:137-190 | on any log with those per-category counts and totals, the report's two category maps are exactly the test's values |
| StatsFixture.FixtureAllTimeByEndpoint | backend/tests/Feature/StarWarsApiStatsTest.php:74-83 | `total_by_endpoint` is 5 / 6 / 5 / 4 and `average_by_endpoint` is 100.00 / 126.67 / 260.00 / 150.00 |
| StatsFixture.FixtureHourCount | backend/tests/Feature/StarWarsApiStatsTest.php:64 | 18 of the 20 calls started in hour 15 |
| StatsFixture.FixtureDayCount | backend/tests/Feature/StarWarsApiStatsTest.php:67 | 10 of the 20 calls started on a Sunday |
| StatsFixture.ReportBusiest | backend/app/Jobs/CalculateStarWarsApiStats.php:29-33 | the report's busiest hour and weekday all time, and its busiest hour over the last 24 hours, are those of the whole log and of the 24-hour window |
| StatsFixture.FixtureBusiest | backend/tests/Feature/StarWarsApiStatsTest.php:62-67 | the busiest hour is 15 and the busiest weekday Sunday all time, and the busiest hour over the last 24 hours is 15 as well |
| StatsFixture.OlderLabelsOf | backend/tests/Feature/StarWarsApiStatsTest.php:318-415 | the ten calls older than a day carry ten labels, such as `films/2`, `people?name=Leia` and `films?title=Empire` |
| StatsFixture.OlderLabelsDistinct | backend/tests/Feature/StarWarsApiStatsTest.php:318-415 | those ten labels are all different, and none is a label of the last half hour |
| StatsFixture.RecentLabelCount | backend/tests/Feature/StarWarsApiStatsTest.php:284-316 | in the last half hour `people/1` is called 5 times, `people?name=Luke` 3 times and `films/1` twice, and `people/1` comes first |
| StatsFixture.FixtureLabelCounts | backend/tests/Feature/StarWarsApiStatsTest.php:55-57 | over the whole log `people/1` comes first and is called 5 times, and no label is called more often |
| StatsFixture.FixtureDistinctLabels | backend/tests/Feature/StarWarsApiStatsTest.php:55 | the log has at least five different labels |
| StatsFixture.AllTimeTopQueries | backend/app/Jobs/CalculateStarWarsApiStats.php:82-105 | on any twenty calls led by `people/1` with 5 calls, among at least five labels, five queries are ranked and the first is `people/1`, 5, 25.00 |
| StatsFixture.FixtureTopQueries | backend/tests/Feature/StarWarsApiStatsTest.php:55-58 | five queries are ranked all time, and the first is `people/1` with 5 calls and 25.00 percent |

## Left out

- Database, cache store, HTTP and the upstream Star Wars API. The log table is a sequence
  field and the cache is a map field. The upstream call is a parameter stating what the
  call did: it returned a decoded object, or it threw with a message.
- The clock. `now()` and `Carbon::now()` are parameters. `handle`'s report is modelled
  with a single reading for all windows. `Stats.WindowsNestWithAdvancingClock` covers the
  source's four separate readings.
- Calendar arithmetic. `subDays(30)` and `subDays(7)` are taken as 30 and 7 days of
  24 hours each, which ignores daylight-saving transitions. The hour and the weekday of
  a reading are given, not derived from the instant. `generated_at` is the instant
  itself, not its ISO 8601 text.
- Floating point. Means and percentages are exact rationals rounded to hundredths. PHP
  computes them in doubles, which can differ in the last place for large inputs.
- `Json.Merge`: PHP's `array_merge` renumbers integer keys. The model treats every key as
  a string key, which is exact for the string-keyed objects the upstream API returns.
- `Json.FlattenResults`: a list item that is not an object raises a `TypeError` in PHP. It
  is modelled as a `Failure` result, with no exception message.
- The request validation (`GetPersonByNameRequest`), the route definitions, the
  scheduler and its no-overlap guarantee, the health endpoint and the frontend are not
  part of this model.
- The database's unsigned 32-bit bound on `duration_ms` is not modelled. Durations are
  unbounded naturals.
- `LogModel.DiffInMilliseconds`: the model follows Carbon 2's `diffInMilliseconds`, the
  absolute difference in whole milliseconds. The scheduler set-up in
  `backend/routes/console.php` points to Laravel 11 or later and Carbon 3, whose
  `diffInMilliseconds` returns a signed float. For a clock that does not go back the two
  agree except for fractional milliseconds, which the model drops: clock readings are whole
  milliseconds and `durationMs` is a natural number. For a clock that goes back Carbon 3
  gives a negative value where the model gives its absolute value.
- `Stats.Window`: the log is read in the order its records were logged. The job's query
  (backend/app/Jobs/CalculateStarWarsApiStats.php:42-48) has no `orderBy`, so the database
  may return the rows in another order, for example that of the `started_at` index. The
  first-seen tie-breaks of the ranked queries, the busiest hour and the busiest weekday
  depend on that order, and the model fixes it to log order.
- `Stats.Window`: start times and the lower bound are compared in milliseconds. The
  `started_at` column holds whole seconds, and the bound reaches the query as
  `Y-m-d H:i:s` text, so a call that started a few milliseconds before the bound, within
  the same second, is inside the database's window but outside the model's.
- The job's `Log::info` line at the start of `handle` is not modelled.
- An empty window follows the code. It gives empty maps for `average_by_endpoint` and
  `total_by_endpoint`, not maps of the four categories with value 0.
