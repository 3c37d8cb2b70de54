/**
 * Aggregates over the `duration_ms` column of a set of log records:
 * `sum`, `max`, `min` and `avg` rounded to two places.
 */
module Durations {
  import opened LogModel
  import opened Rounding

  /** Total duration of the records. */
  function SumDurations(logs: seq<LogRecord>): nat {
    if logs == [] then 0 else logs[0].durationMs + SumDurations(logs[1..])
  }

  /** `max('duration_ms')`: the duration of some record, and none is longer. */
  function Longest(logs: seq<LogRecord>): (m: nat)
    requires logs != []
    ensures exists i :: 0 <= i < |logs| && logs[i].durationMs == m
    ensures forall i :: 0 <= i < |logs| ==> logs[i].durationMs <= m
  {
    if |logs| == 1 then logs[0].durationMs
    else
      var rest := Longest(logs[1..]);
      assert forall i :: 1 <= i < |logs| ==> logs[i] == logs[1..][i - 1];
      if logs[0].durationMs >= rest then logs[0].durationMs else rest
  }

  /** `min('duration_ms')`: the duration of some record, and none is shorter. */
  function Shortest(logs: seq<LogRecord>): (m: nat)
    requires logs != []
    ensures exists i :: 0 <= i < |logs| && logs[i].durationMs == m
    ensures forall i :: 0 <= i < |logs| ==> m <= logs[i].durationMs
  {
    if |logs| == 1 then logs[0].durationMs
    else
      var rest := Shortest(logs[1..]);
      assert forall i :: 1 <= i < |logs| ==> logs[i] == logs[1..][i - 1];
      if logs[0].durationMs <= rest then logs[0].durationMs else rest
  }

  /** One step of the bounds below: adding a record within the bound keeps the sum within it. */
  lemma StepBelow(d: nat, s: nat, m: nat, mr: nat, n: nat)
    requires d <= m && mr <= m && s <= mr * n
    ensures d + s <= m * (n + 1)
  {
    Rounding.MulMonotone(m, mr, n);
    Rounding.Distribute(n, 1, m);
  }

  /** One step of the bounds below, from underneath. */
  lemma StepAbove(d: nat, s: nat, m: nat, mr: nat, n: nat)
    requires m <= d && m <= mr && mr * n <= s
    ensures m * (n + 1) <= d + s
  {
    Rounding.MulMonotone(mr, m, n);
    Rounding.Distribute(n, 1, m);
  }

  /** The total is at most `n` times the longest duration. */
  lemma {:induction false} SumDurationsAtMost(logs: seq<LogRecord>)
    requires logs != []
    ensures SumDurations(logs) <= Longest(logs) * |logs|
  {
    if |logs| > 1 {
      var rest := logs[1..];
      SumDurationsAtMost(rest);
      assert Longest(rest) <= Longest(logs) by {
        var i :| 0 <= i < |rest| && rest[i].durationMs == Longest(rest);
        assert logs[i + 1] == rest[i];
      }
      StepBelow(logs[0].durationMs, SumDurations(rest), Longest(logs), Longest(rest), |rest|);
    }
  }

  /** The total is at least `n` times the shortest duration. */
  lemma {:induction false} SumDurationsAtLeast(logs: seq<LogRecord>)
    requires logs != []
    ensures Shortest(logs) * |logs| <= SumDurations(logs)
  {
    if |logs| > 1 {
      var rest := logs[1..];
      SumDurationsAtLeast(rest);
      assert Shortest(logs) <= Shortest(rest) by {
        var i :| 0 <= i < |rest| && rest[i].durationMs == Shortest(rest);
        assert logs[i + 1] == rest[i];
      }
      StepAbove(logs[0].durationMs, SumDurations(rest), Shortest(logs), Shortest(rest), |rest|);
    }
  }

  /** The total of two logs together is the sum of their totals. */
  lemma {:induction false} SumDurationsAppend(a: seq<LogRecord>, b: seq<LogRecord>)
    ensures SumDurations(a + b) == SumDurations(a) + SumDurations(b)
  {
    if a == [] {
      assert a + b == b;
    } else {
      assert (a + b)[0] == a[0] && (a + b)[1..] == a[1..] + b;
      SumDurationsAppend(a[1..], b);
    }
  }

  /** Records that all took `d` milliseconds total `|logs| * d`. */
  lemma {:induction false} SumDurationsUniform(logs: seq<LogRecord>, d: nat)
    requires forall i :: 0 <= i < |logs| ==> logs[i].durationMs == d
    ensures SumDurations(logs) == |logs| * d
  {
    if logs != [] {
      SumDurationsUniform(logs[1..], d);
      Rounding.Distribute(|logs| - 1, 1, d);
    }
  }

  /**
   * `round(avg('duration_ms'), 2)` in hundredths; it lies between the
   * shortest and the longest duration.
   */
  function MeanHundredths(logs: seq<LogRecord>): (h: Hundredths)
    requires logs != []
    ensures 100 * Shortest(logs) <= h <= 100 * Longest(logs)
    ensures -(|logs| as int) < 2 * (h * |logs| - 100 * SumDurations(logs)) <= |logs|
  {
    SumDurationsAtMost(logs);
    SumDurationsAtLeast(logs);
    RoundHundredthsBetween(SumDurations(logs), |logs|, Shortest(logs), Longest(logs));
    RoundHundredths(SumDurations(logs), |logs|)
  }
}
