/**
 * The HTTP controller in front of the upstream Star Wars API: every
 * upstream call is wrapped so that exactly one log record is written
 * whether the call returns or throws, and each handler reshapes the
 * `result` part of the upstream answer with `flattenResults`.
 *
 * The upstream call itself is not modelled: each handler is given what
 * the call did (a decoded object, or the message of the exception it
 * threw) and the clock readings taken before and after it.
 */
module Controller {
  import opened Wrappers
  import opened LogModel
  import opened Endpoints
  import opened Json
  import opened Stats

  /** What the upstream call did: returned a decoded JSON object, or threw. */
  datatype CallOutcome = Returned(body: seq<Field>) | Threw(message: string)

  /** `"$id"`: an integer as PHP interpolates it into a path. */
  function IntToString(n: int): (s: string)
    ensures |s| > 0
    ensures s[0] == '-' <==> n < 0
  {
    if n < 0 then "-" + NatToDecimal(-n) else NatToDecimal(n)
  }

  /** The record the logging wrapper writes for one call. */
  function Logged(endpoint: string, paramName: Option<string>, paramValue: Option<string>,
                  startedAt: Timestamp, call: CallOutcome, completedAt: Timestamp): (r: LogRecord)
    ensures r.exception.None? <==> call.Returned?
    ensures r.startedAt.epochMs <= r.completedAt.epochMs ==>
      r.startedAt.epochMs + r.durationMs == r.completedAt.epochMs
  {
    LogRecord(endpoint, paramName, paramValue, startedAt, completedAt,
      DiffInMilliseconds(startedAt, completedAt),
      if call.Threw? then Some(call.message) else None)
  }

  /** `$res->result ?? $default`: the upstream `result`, unless it is missing or null. */
  function ResultOr(body: seq<Field>, default: Json): Json {
    var v := Lookup(body, "result");
    if v.Some? && v.value != JNull then v.value else default
  }

  /** The response a handler builds from what the upstream call did. */
  function Respond(call: CallOutcome, default: Json): Result<Option<Json>, string> {
    if call.Threw? then Failure(call.message) else FlattenResults(ResultOr(call.body, default))
  }

  class StarWarsController {
    /** The `star_wars_api_logs` table, in insertion order. */
    var logs: seq<LogRecord>
    /** The cache the statistics job writes. */
    const cache: StatsCache

    constructor (cache: StatsCache)
      ensures logs == [] && this.cache == cache
    {
      logs := [];
      this.cache := cache;
    }

    /**
     * `executeWithLogging`: run the call and log it exactly once, with the
     * exception message if it threw; a thrown exception is passed on.
     */
    method ExecuteWithLogging(endpoint: string, paramName: Option<string>, paramValue: Option<string>,
                              startedAt: Timestamp, call: CallOutcome, completedAt: Timestamp)
      returns (r: Result<seq<Field>, string>)
      modifies this
      ensures logs == old(logs) + [Logged(endpoint, paramName, paramValue, startedAt, call, completedAt)]
      ensures call.Returned? ==> r == Success(call.body)
      ensures call.Threw? ==> r == Failure(call.message)
    {
      if call.Threw? {
        r := Failure(call.message);
      } else {
        r := Success(call.body);
      }
      logs := logs + [Logged(endpoint, paramName, paramValue, startedAt, call, completedAt)];
    }

    /** `getPersonByName`: search people by name, logged as `people` with parameter `name`. */
    method GetPersonByName(name: string, startedAt: Timestamp, call: CallOutcome, completedAt: Timestamp)
      returns (r: Result<Option<Json>, string>)
      modifies this
      ensures logs == old(logs) + [Logged("people", Some("name"), Some(name), startedAt, call, completedAt)]
      ensures Classify(logs[|logs| - 1]) == Some(PersonByName)
      ensures QueryLabel(logs[|logs| - 1]) == if Truthy(Some(name)) then "people?name=" + name else "people"
      ensures forall c: Category :: (CountForPattern(logs, c) ==
        CountForPattern(old(logs), c) + (if c == PersonByName then 1 else 0))
      ensures r == Respond(call, JList([]))
      ensures call.Returned? && Lookup(call.body, "result").None? ==> r == Success(Some(JList([])))
    {
      var res := ExecuteWithLogging("people", Some("name"), Some(name), startedAt, call, completedAt);
      SearchLogged(PersonByName, "name", name, "people?name=", logs[|logs| - 1]);
      LoggedOnce(old(logs), logs[|logs| - 1]);
      r := Flatten(res, JList([]));
    }

    /** `getPersonById`: fetch one person, logged as `people/<id>` without parameters. */
    method GetPersonById(id: int, startedAt: Timestamp, call: CallOutcome, completedAt: Timestamp)
      returns (r: Result<Option<Json>, string>)
      modifies this
      ensures logs == old(logs) + [Logged("people/" + IntToString(id), None, None, startedAt, call, completedAt)]
      ensures Classify(logs[|logs| - 1]) == Some(PersonById)
      ensures QueryLabel(logs[|logs| - 1]) == "people/" + IntToString(id)
      ensures forall c: Category :: (CountForPattern(logs, c) ==
        CountForPattern(old(logs), c) + (if c == PersonById then 1 else 0))
      ensures r == Respond(call, JNull)
      ensures call.Returned? && Lookup(call.body, "result").None? ==> r == Success(None)
    {
      var endpoint := "people/" + IntToString(id);
      var res := ExecuteWithLogging(endpoint, None, None, startedAt, call, completedAt);
      assert "people/" <= endpoint;
      LoggedOnce(old(logs), logs[|logs| - 1]);
      r := Flatten(res, JNull);
    }

    /** `getFilmByTitle`: search films by title, logged as `films` with parameter `title`. */
    method GetFilmByTitle(title: string, startedAt: Timestamp, call: CallOutcome, completedAt: Timestamp)
      returns (r: Result<Option<Json>, string>)
      modifies this
      ensures logs == old(logs) + [Logged("films", Some("title"), Some(title), startedAt, call, completedAt)]
      ensures Classify(logs[|logs| - 1]) == Some(FilmByName)
      ensures QueryLabel(logs[|logs| - 1]) == if Truthy(Some(title)) then "films?title=" + title else "films"
      ensures forall c: Category :: (CountForPattern(logs, c) ==
        CountForPattern(old(logs), c) + (if c == FilmByName then 1 else 0))
      ensures r == Respond(call, JList([]))
      ensures call.Returned? && Lookup(call.body, "result").None? ==> r == Success(Some(JList([])))
    {
      var res := ExecuteWithLogging("films", Some("title"), Some(title), startedAt, call, completedAt);
      SearchLogged(FilmByName, "title", title, "films?title=", logs[|logs| - 1]);
      LoggedOnce(old(logs), logs[|logs| - 1]);
      r := Flatten(res, JList([]));
    }

    /** `getFilmById`: fetch one film, logged as `films/<id>` without parameters. */
    method GetFilmById(id: int, startedAt: Timestamp, call: CallOutcome, completedAt: Timestamp)
      returns (r: Result<Option<Json>, string>)
      modifies this
      ensures logs == old(logs) + [Logged("films/" + IntToString(id), None, None, startedAt, call, completedAt)]
      ensures Classify(logs[|logs| - 1]) == Some(FilmById)
      ensures QueryLabel(logs[|logs| - 1]) == "films/" + IntToString(id)
      ensures forall c: Category :: (CountForPattern(logs, c) ==
        CountForPattern(old(logs), c) + (if c == FilmById then 1 else 0))
      ensures r == Respond(call, JNull)
      ensures call.Returned? && Lookup(call.body, "result").None? ==> r == Success(None)
    {
      var endpoint := "films/" + IntToString(id);
      var res := ExecuteWithLogging(endpoint, None, None, startedAt, call, completedAt);
      assert "films/" <= endpoint;
      LoggedOnce(old(logs), logs[|logs| - 1]);
      r := Flatten(res, JNull);
    }

    /** `getApiStats`: the cached report, or null before the job has run. */
    method GetApiStats() returns (r: Option<StatsReport>)
      ensures r.Some? <==> CacheKey in cache.entries
      ensures r.Some? ==> r.value == cache.entries[CacheKey]
    {
      r := cache.Get(CacheKey);
    }
  }

  /** The handlers' common tail: flatten the `result` of a call that returned. */
  function Flatten(res: Result<seq<Field>, string>, default: Json): Result<Option<Json>, string> {
    if res.Failure? then Failure(res.error) else FlattenResults(ResultOr(res.value, default))
  }

  /**
   * A search call's record: it falls into the search category of its
   * endpoint, and its label carries the search term when that is truthy.
   */
  lemma SearchLogged(c: Category, param: string, value: string, prefix: string, r: LogRecord)
    requires !c.WithId() && Truthy(Some(param))
    requires r.endpoint == c.Pattern() && r.paramName == Some(param) && r.paramValue == Some(value)
    requires prefix == c.Pattern() + "?" + param + "="
    ensures Classify(r) == Some(c)
    ensures QueryLabel(r) == if Truthy(Some(value)) then prefix + value else r.endpoint
  {
    assert RTrimSlashes(c.Pattern()) == c.Pattern();
  }

  /** Appending one record changes every category count by that record's own contribution. */
  lemma LoggedOnce(logs: seq<LogRecord>, r: LogRecord)
    ensures forall c: Category :: (CountForPattern(logs + [r], c) ==
      CountForPattern(logs, c) + (if Classify(r) == Some(c) then 1 else 0))
  {
    forall c: Category
      ensures CountForPattern(logs + [r], c) ==
        CountForPattern(logs, c) + (if Classify(r) == Some(c) then 1 else 0)
    {
      CountForPatternAppend(logs, r, c);
    }
  }
}
