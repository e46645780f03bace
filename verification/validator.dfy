/**
 * `validate_plan` (planner/validator.py:47-88): clean the model reply, parse
 * it, walk the days and their tasks, and either return the parsed document
 * untouched or raise one `ValueError` whose message is a fixed prefix
 * followed by the inner cause.
 *
 * `json.loads` and the str branch of `float()` are not modelled here; they
 * come in as the parameters `parse` and `strToFloat`, each returning the
 * parsed value or the text of the error Python would raise.
 */
module Validator {
  import opened Wrappers
  import opened PyJson
  import opened PlanChecks
  import Fences

  /** The prefix of every message `validate_plan` raises (validator.py:88). */
  const Prefix: string := "Invalid plan structure: "

  /** The cause of the first failure of the whole `try` block, if any. */
  function Outcome(raw: string, daysLeft: int, hoursPerDay: real,
                   parse: string -> Result<Json, string>,
                   strToFloat: string -> Result<real, string>): (r: Result<Json, Cause>)
    ensures parse(Fences.Clean(raw)).Err? ==> r == Err(Malformed(parse(Fences.Clean(raw)).error))
    ensures r.Ok? <==> parse(Fences.Clean(raw)).Ok?
                       && AcceptablePlan(parse(Fences.Clean(raw)).value, daysLeft, hoursPerDay, strToFloat)
    ensures r.Ok? ==> r.value == parse(Fences.Clean(raw)).value
  {
    match parse(Fences.Clean(raw))
    case Err(m) => Err(Malformed(m))
    case Ok(doc) =>
      CheckDocOk(doc, daysLeft, hoursPerDay, strToFloat);
      CheckDoc(doc, daysLeft, hoursPerDay, strToFloat)
  }

  /**
   * The inner loop of validator.py:69-74: check each task's fields and add
   * up `float(task["hours"])`, stopping at the first task that fails.
   */
  method SumTaskHours(tasks: seq<Json>, strToFloat: string -> Result<real, string>)
    returns (r: Result<real, Cause>)
    ensures r == TasksTotal(tasks, strToFloat)
    ensures r.Ok? <==> AllAcceptableTasks(tasks, strToFloat)
    ensures r.Ok? ==> r.value == HoursSum(tasks, strToFloat)
  {
    var total: real := 0.0;
    var j := 0;
    while j < |tasks|
      invariant 0 <= j <= |tasks|
      invariant TasksTotal(tasks[..j], strToFloat) == Ok(total)
    {
      var hours := TaskHours(tasks[j], strToFloat);
      assert tasks[..j + 1][..j] == tasks[..j];
      if hours.Err? {
        TasksFirstFailure(tasks, j + 1, strToFloat);
        TasksTotalOk(tasks, strToFloat);
        return Err(hours.error);
      }
      total := total + hours.value;
      j := j + 1;
    }
    assert tasks[..j] == tasks;
    TasksTotalOk(tasks, strToFloat);
    return Ok(total);
  }

  /** The outer loop body for one day. */
  method CheckDayEntry(day: Json, hoursPerDay: real, strToFloat: string -> Result<real, string>)
    returns (r: Result<(), Cause>)
    ensures r == CheckDay(day, hoursPerDay, strToFloat)
    ensures r.Ok? <==> AcceptableDay(day, hoursPerDay, strToFloat)
  {
    CheckDayOk(day, hoursPerDay, strToFloat);
    var hasDay := In("day", day);
    if hasDay.Err? {
      return Err(Raised(hasDay.error));
    }
    // `"day" in day` did not raise, so `"tasks" in day` cannot either
    var hasTasks := In("tasks", day).value;
    if !hasDay.value || !hasTasks {
      return Err(DayMissingFields);
    }
    var index := Index(day, "day");
    if index.Err? {
      return Err(Raised(index.error));
    }
    if !IsPositiveIndex(index.value) {
      return Err(BadDayIndex);
    }
    // `day["day"]` did not raise, so `day` is a dict holding "tasks"
    var tasks := Index(day, "tasks").value;
    if !tasks.JArray? || |tasks.items| == 0 {
      return Err(NoTasks);
    }
    var total := SumTaskHours(tasks.items, strToFloat);
    if total.Err? {
      return Err(total.error);
    }
    if total.value > hoursPerDay + Tolerance {
      return Err(HourLimitExceeded(IndexLabel(index.value)));
    }
    return Ok(());
  }

  /** The `try` block after parsing: shape checks, the day loop, the day-count cap. */
  method CheckDocument(doc: Json, daysLeft: int, hoursPerDay: real,
                       strToFloat: string -> Result<real, string>)
    returns (r: Result<Json, Cause>)
    ensures r == CheckDoc(doc, daysLeft, hoursPerDay, strToFloat)
    ensures r.Ok? <==> AcceptablePlan(doc, daysLeft, hoursPerDay, strToFloat)
    ensures r.Ok? ==> r.value == doc
  {
    CheckDocOk(doc, daysLeft, hoursPerDay, strToFloat);
    var hasDays := In("days", doc);
    if hasDays.Err? {
      return Err(Raised(hasDays.error));
    }
    if !hasDays.value {
      return Err(MissingDaysList);
    }
    var daysValue := Index(doc, "days");
    if daysValue.Err? {
      return Err(Raised(daysValue.error));
    }
    if !daysValue.value.JArray? {
      return Err(MissingDaysList);
    }
    var days := daysValue.value.items;
    if |days| == 0 {
      return Err(NoDays);
    }
    var i := 0;
    while i < |days|
      invariant 0 <= i <= |days|
      invariant CheckDays(days[..i], hoursPerDay, strToFloat) == Ok(())
    {
      var outcome := CheckDayEntry(days[i], hoursPerDay, strToFloat);
      assert days[..i + 1][..i] == days[..i];
      if outcome.Err? {
        FirstFailureWins(days, i + 1, hoursPerDay, strToFloat);
        return Err(outcome.error);
      }
      i := i + 1;
    }
    assert days[..i] == days;
    if |days| > daysLeft + DaySlack {
      return Err(TooManyDays);
    }
    return Ok(doc);
  }

  /**
   * The whole of `validate_plan`.  It accepts exactly when the cleaned text
   * parses to an acceptable document, returns that document unchanged, and
   * otherwise fails with the prefix followed by the first failure's cause.
   */
  method ValidatePlan(raw: string, daysLeft: int, hoursPerDay: real,
                      parse: string -> Result<Json, string>,
                      strToFloat: string -> Result<real, string>)
    returns (r: Result<Json, string>)
    ensures r.Ok? <==> parse(Fences.Clean(raw)).Ok?
                       && AcceptablePlan(parse(Fences.Clean(raw)).value, daysLeft, hoursPerDay, strToFloat)
    ensures r.Ok? ==> r.value == parse(Fences.Clean(raw)).value
    ensures r.Err? ==> Outcome(raw, daysLeft, hoursPerDay, parse, strToFloat).Err?
                       && r.error == Prefix + Detail(Outcome(raw, daysLeft, hoursPerDay, parse, strToFloat).error)
  {
    var text := Fences.Strip(Fences.RemoveFences(raw));
    var outcome: Result<Json, Cause>;
    match parse(text) {
      case Err(m) =>
        outcome := Err(Malformed(m));
      case Ok(doc) =>
        outcome := CheckDocument(doc, daysLeft, hoursPerDay, strToFloat);
    }
    match outcome {
      case Ok(doc) =>
        r := Ok(doc);
      case Err(cause) =>
        r := Err(Prefix + Detail(cause));
    }
  }
}
