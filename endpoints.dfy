/**
 * The four endpoint categories of the statistics report and the pattern
 * filter that assigns log records to them (`averageForPattern` and
 * `countForPattern` share it), with the per-category count and mean duration.
 */
module Endpoints {
  import opened Wrappers
  import opened LogModel
  import opened Rounding
  import opened Durations

  /** The report's category keys. */
  datatype Category = PersonById | PersonByName | FilmById | FilmByName {
    /** The key under which the category appears in the report. */
    function Key(): string {
      match this
      case PersonById => "person_by_id"
      case PersonByName => "person_by_name"
      case FilmById => "film_by_id"
      case FilmByName => "film_by_name"
    }

    /** The pattern the job passes for this category. */
    function Pattern(): string {
      match this
      case PersonById => "people/"
      case PersonByName => "people"
      case FilmById => "films/"
      case FilmByName => "films"
    }

    /** Whether the pattern is matched as a path with an identifier after it. */
    function WithId(): bool {
      PersonById? || FilmById?
    }
  }

  /** `rtrim($s, '/')`: `s` without its trailing slashes. */
  function RTrimSlashes(s: string): (r: string)
    ensures r <= s
    ensures r == [] || r[|r| - 1] != '/'
    ensures forall i :: |r| <= i < |s| ==> s[i] == '/'
  {
    if s == [] || s[|s| - 1] != '/' then s
    else
      var r := RTrimSlashes(s[..|s| - 1]);
      assert s[..|s| - 1][..|r|] == s[..|r|];
      r
  }

  /**
   * The filter closure: with an identifier, the endpoint starts with the
   * pattern, is longer than it, and the record has no parameter name;
   * without, the endpoint equals the pattern stripped of trailing slashes
   * and the record has a parameter name.
   */
  predicate MatchesPattern(r: LogRecord, pattern: string, withId: bool) {
    if withId then
      pattern <= r.endpoint && |r.endpoint| > |pattern| && r.paramName.None?
    else
      r.endpoint == RTrimSlashes(pattern) && r.paramName.Some?
  }

  /** The record falls into category `c`. */
  predicate InCategory(r: LogRecord, c: Category) {
    MatchesPattern(r, c.Pattern(), c.WithId())
  }

  /**
   * The closed classifier: the one category a record falls into, or none.
   * A record is in at most one category, so the categories never overlap.
   */
  function Classify(r: LogRecord): (c: Option<Category>)
    ensures forall k: Category :: InCategory(r, k) <==> c == Some(k)
  {
    assert RTrimSlashes("people") == "people";
    assert RTrimSlashes("films") == "films";
    if r.paramName.None? then
      if "people/" <= r.endpoint && |r.endpoint| > 7 then
        assert !("films/" <= r.endpoint) by { assert r.endpoint[0] == 'p'; }
        Some(PersonById)
      else if "films/" <= r.endpoint && |r.endpoint| > 6 then Some(FilmById)
      else None
    else if r.endpoint == "people" then Some(PersonByName)
    else if r.endpoint == "films" then Some(FilmByName)
    else None
  }

  /** The records of category `c`, in log order: the filtered collection. */
  function Matching(logs: seq<LogRecord>, c: Category): (m: seq<LogRecord>)
    ensures |m| <= |logs|
    ensures forall i :: 0 <= i < |m| ==> m[i] in logs && InCategory(m[i], c)
    ensures forall i :: 0 <= i < |logs| && InCategory(logs[i], c) ==> logs[i] in m
  {
    if logs == [] then []
    else
      var rest := Matching(logs[1..], c);
      assert forall i :: 1 <= i < |logs| ==> logs[i] == logs[1..][i - 1];
      if InCategory(logs[0], c) then [logs[0]] + rest else rest
  }

  /** Logging one more record extends each category's records by that record if it falls into it. */
  lemma {:induction false} MatchingAppend(logs: seq<LogRecord>, r: LogRecord, c: Category)
    ensures Matching(logs + [r], c) == Matching(logs, c) + (if InCategory(r, c) then [r] else [])
  {
    if logs != [] {
      assert (logs + [r])[1..] == logs[1..] + [r];
      MatchingAppend(logs[1..], r, c);
    }
  }

  /** The records of category `c` in two logs together: those of the first, then those of the second. */
  lemma {:induction false} MatchingConcat(a: seq<LogRecord>, b: seq<LogRecord>, c: Category)
    ensures Matching(a + b, c) == Matching(a, c) + Matching(b, c)
  {
    if a == [] {
      assert a + b == b;
    } else {
      var x, t := a[0], a[1..];
      assert a == [x] + t && a + b == [x] + (t + b);
      MatchingCons(x, t + b, c);
      MatchingCons(x, t, c);
      MatchingConcat(t, b, c);
      PrefixConcat(if InCategory(x, c) then [x] else [], Matching(t, c), Matching(b, c));
    }
  }

  /** Putting a prefix in front of a concatenation. */
  lemma PrefixConcat<T>(p: seq<T>, s: seq<T>, u: seq<T>)
    ensures p + (s + u) == (p + s) + u
  {
  }

  /** The records of category `c` in a log with one more record in front. */
  lemma MatchingCons(x: LogRecord, s: seq<LogRecord>, c: Category)
    ensures Matching([x] + s, c) == (if InCategory(x, c) then [x] else []) + Matching(s, c)
  {
    assert ([x] + s)[1..] == s;
  }

  /** A run of records all classified as `k` is wholly in category `k` and in no other. */
  lemma {:induction false} MatchingRun(run: seq<LogRecord>, k: Category, c: Category)
    requires forall i :: 0 <= i < |run| ==> Classify(run[i]) == Some(k)
    ensures Matching(run, c) == if c == k then run else []
  {
    if run != [] {
      var x, t := run[0], run[1..];
      assert run == [x] + t;
      assert forall i :: 0 <= i < |t| ==> t[i] == run[i + 1];
      MatchingRun(t, k, c);
      MatchingCons(x, t, c);
      assert InCategory(x, c) <==> c == k by { assert Classify(x) == Some(k); }
    }
  }

  /** `countForPattern`: how many records fall into category `c`. */
  function CountForPattern(logs: seq<LogRecord>, c: Category): (n: nat)
    ensures n <= |logs|
    ensures n == 0 <==> forall i :: 0 <= i < |logs| ==> !InCategory(logs[i], c)
  {
    var m := Matching(logs, c);
    assert m != [] ==> m[0] in logs;
    |m|
  }

  /**
   * `averageForPattern`: 0 when no record falls into category `c`, else
   * the total duration of those records over their count, rounded to two
   * places, which lies between their shortest and longest duration.
   */
  function AverageForPattern(logs: seq<LogRecord>, c: Category): (h: Hundredths)
    ensures CountForPattern(logs, c) == 0 ==> h == 0
    ensures CountForPattern(logs, c) > 0 ==>
      h == RoundHundredths(SumDurations(Matching(logs, c)), CountForPattern(logs, c))
    ensures CountForPattern(logs, c) > 0 ==>
      100 * Shortest(Matching(logs, c)) <= h <= 100 * Longest(Matching(logs, c))
  {
    var m := Matching(logs, c);
    if m == [] then 0 else MeanHundredths(m)
  }

  /** One more record raises the count of its own category by one and leaves the others alone. */
  lemma CountForPatternAppend(logs: seq<LogRecord>, r: LogRecord, c: Category)
    ensures CountForPattern(logs + [r], c) ==
      CountForPattern(logs, c) + (if Classify(r) == Some(c) then 1 else 0)
  {
    MatchingAppend(logs, r, c);
  }

  /** The records that fall into some category. */
  function Classified(logs: seq<LogRecord>): (m: seq<LogRecord>)
    ensures |m| <= |logs|
  {
    if logs == [] then []
    else (if Classify(logs[0]).Some? then [logs[0]] else []) + Classified(logs[1..])
  }

  /** The four category totals. */
  function TotalOfCategories(logs: seq<LogRecord>): nat {
    CountForPattern(logs, PersonById) + CountForPattern(logs, PersonByName)
      + CountForPattern(logs, FilmById) + CountForPattern(logs, FilmByName)
  }

  /**
   * Every classified record is counted in exactly one category: the four
   * totals add up to the number of classified records, hence never exceed
   * the number of records.
   */
  lemma {:induction false} CategoryTotalsPartition(logs: seq<LogRecord>)
    ensures TotalOfCategories(logs) == |Classified(logs)| <= |logs|
  {
    if logs != [] {
      CategoryTotalsPartition(logs[1..]);
    }
  }
}
