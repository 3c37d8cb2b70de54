/**
 * The rows of the `star_wars_api_logs` table: one record per upstream call.
 *
 * Timestamps are instants in epoch milliseconds together with the wall-clock
 * hour and weekday name that the statistics job reads from them; the calendar
 * arithmetic that derives those two is outside this model.
 */
module LogModel {
  import opened Wrappers

  /** An hour of the day, as `format('H')` yields it once cast to an integer. */
  type Hour = h: int | 0 <= h < 24

  /** A day of the week, as `format('l')` names it. */
  datatype Weekday = Monday | Tuesday | Wednesday | Thursday | Friday | Saturday | Sunday {
    /** The English weekday name the report shows. */
    function Name(): (s: string)
      ensures |s| >= 6 && s[|s| - 3..] == "day"
    {
      match this
      case Monday => "Monday"
      case Tuesday => "Tuesday"
      case Wednesday => "Wednesday"
      case Thursday => "Thursday"
      case Friday => "Friday"
      case Saturday => "Saturday"
      case Sunday => "Sunday"
    }
  }

  /** Distinct weekdays are shown under distinct names. */
  lemma WeekdayNamesDistinct(a: Weekday, b: Weekday)
    ensures a.Name() == b.Name() ==> a == b
  {
    if a != b {
      assert a.Name()[0] != b.Name()[0] || a.Name()[1] != b.Name()[1];
    }
  }

  /** A clock reading: an instant and its local hour and weekday. */
  datatype Timestamp = Timestamp(epochMs: int, hour: Hour, weekday: Weekday)

  /**
   * One logged call: the endpoint path, the optional search parameter, when
   * it started and completed, its duration (an unsigned column) and the
   * message of the exception it raised, if any.
   */
  datatype LogRecord = LogRecord(
    endpoint: string,
    paramName: Option<string>,
    paramValue: Option<string>,
    startedAt: Timestamp,
    completedAt: Timestamp,
    durationMs: nat,
    exception: Option<string>)

  /** `diffInMilliseconds`: the distance between two readings, whichever comes first. */
  function DiffInMilliseconds(from: Timestamp, to: Timestamp): (d: nat)
    ensures from.epochMs + d == to.epochMs || to.epochMs + d == from.epochMs
    ensures from.epochMs <= to.epochMs ==> from.epochMs + d == to.epochMs
  {
    if from.epochMs <= to.epochMs then to.epochMs - from.epochMs else from.epochMs - to.epochMs
  }
}
