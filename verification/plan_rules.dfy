/**
 * The individual rules of `validate_plan` (planner/validator.py:53-85), each
 * as a statement about which cause the check reports.
 */
module PlanRules {
  import opened Wrappers
  import opened PyJson
  import opened PlanChecks

  /** A document that is not a dict never passes. */
  lemma NonObjectRejected(doc: Json, daysLeft: int, hoursPerDay: real, strToFloat: string -> Result<real, string>)
    requires !doc.JObject?
    ensures CheckDoc(doc, daysLeft, hoursPerDay, strToFloat).Err?
  {
    CheckDocOk(doc, daysLeft, hoursPerDay, strToFloat);
  }

  /** No `days` key, or a `days` that is not a list (validator.py:53-54). */
  lemma MissingDaysRejected(doc: Json, daysLeft: int, hoursPerDay: real, strToFloat: string -> Result<real, string>)
    requires doc.JObject?
    requires "days" !in doc.fields || !doc.fields["days"].JArray?
    ensures CheckDoc(doc, daysLeft, hoursPerDay, strToFloat) == Err(MissingDaysList)
  {
  }

  /** An empty `days` list (validator.py:56-57). */
  lemma EmptyDaysRejected(doc: Json, daysLeft: int, hoursPerDay: real, strToFloat: string -> Result<real, string>)
    requires doc.JObject? && "days" in doc.fields && doc.fields["days"] == JArray([])
    ensures CheckDoc(doc, daysLeft, hoursPerDay, strToFloat) == Err(NoDays)
  {
  }

  /**
   * A dict day entry is rejected for a missing `day` or `tasks`, then for an
   * index that is not a positive int, then for `tasks` that is not a
   * non-empty list (validator.py:60-67).
   */
  lemma DayEntryRejected(day: Json, hoursPerDay: real, strToFloat: string -> Result<real, string>)
    requires day.JObject?
    ensures ("day" !in day.fields || "tasks" !in day.fields)
            ==> CheckDay(day, hoursPerDay, strToFloat) == Err(DayMissingFields)
    ensures "day" in day.fields && "tasks" in day.fields && !IsPositiveIndex(day.fields["day"])
            ==> CheckDay(day, hoursPerDay, strToFloat) == Err(BadDayIndex)
    ensures "day" in day.fields && "tasks" in day.fields && IsPositiveIndex(day.fields["day"])
            && (!day.fields["tasks"].JArray? || day.fields["tasks"].items == [])
            ==> CheckDay(day, hoursPerDay, strToFloat) == Err(NoTasks)
  {
  }

  /** A day whose tasks are a non-empty list of dicts, with its index accepted. */
  ghost predicate WellFormedDay(day: Json) {
    && day.JObject?
    && "day" in day.fields && "tasks" in day.fields
    && IsPositiveIndex(day.fields["day"])
    && day.fields["tasks"].JArray?
    && day.fields["tasks"].items != []
  }

  /**
   * Within such a day, the first task that lacks one of `subject`, `topic`
   * or `hours` fails the day, once the tasks before it passed (validator.py:70-72).
   */
  lemma TaskMissingFieldRejected(day: Json, k: nat, hoursPerDay: real, strToFloat: string -> Result<real, string>)
    requires WellFormedDay(day)
    requires k < |day.fields["tasks"].items|
    requires AllAcceptableTasks(day.fields["tasks"].items[..k], strToFloat)
    requires var task := day.fields["tasks"].items[k];
             task.JObject? && !("subject" in task.fields && "topic" in task.fields && "hours" in task.fields)
    ensures CheckDay(day, hoursPerDay, strToFloat) == Err(TaskMissingFields)
  {
    var tasks := day.fields["tasks"].items;
    assert TaskKeys[0] == "subject" && TaskKeys[1] == "topic" && TaskKeys[2] == "hours";
    assert TaskHours(tasks[k], strToFloat) == Err(TaskMissingFields);
    FailsAt(tasks, k, strToFloat);
    TasksFirstFailure(tasks, k + 1, strToFloat);
  }

  /**
   * Within such a day, the first complete task whose `float(task["hours"])`
   * raises (a str that does not read as a number, an int beyond the double
   * range, None, a list or a dict) fails the day with that very exception
   * (validator.py:74).
   */
  lemma TaskHoursRejected(day: Json, k: nat, hoursPerDay: real, strToFloat: string -> Result<real, string>)
    requires WellFormedDay(day)
    requires k < |day.fields["tasks"].items|
    requires AllAcceptableTasks(day.fields["tasks"].items[..k], strToFloat)
    requires var task := day.fields["tasks"].items[k];
             task.JObject? && "subject" in task.fields && "topic" in task.fields && "hours" in task.fields
             && Float(task.fields["hours"], strToFloat).Err?
    ensures var hours := day.fields["tasks"].items[k].fields["hours"];
            CheckDay(day, hoursPerDay, strToFloat) == Err(Raised(Float(hours, strToFloat).error))
  {
    var tasks := day.fields["tasks"].items;
    HoursRaise(tasks[k], strToFloat);
    FailsAt(tasks, k, strToFloat);
    TasksFirstFailure(tasks, k + 1, strToFloat);
  }

  /** A complete task whose `float(task["hours"])` raises fails with that exception. */
  lemma HoursRaise(task: Json, strToFloat: string -> Result<real, string>)
    requires task.JObject? && "subject" in task.fields && "topic" in task.fields && "hours" in task.fields
    requires Float(task.fields["hours"], strToFloat).Err?
    ensures TaskHours(task, strToFloat) == Err(Raised(Float(task.fields["hours"], strToFloat).error))
  {
    assert TaskKeys[0] == "subject" && TaskKeys[1] == "topic" && TaskKeys[2] == "hours";
  }

  /** Acceptable tasks followed by a failing one: the loop fails on that one. */
  lemma FailsAt(tasks: seq<Json>, k: nat, strToFloat: string -> Result<real, string>)
    requires k < |tasks|
    requires AllAcceptableTasks(tasks[..k], strToFloat)
    requires TaskHours(tasks[k], strToFloat).Err?
    ensures TasksTotal(tasks[..k + 1], strToFloat) == TaskHours(tasks[k], strToFloat)
  {
    var s := tasks[..k + 1];
    assert s[..|s| - 1] == tasks[..k] && s[|s| - 1] == tasks[k];
    TasksTotalOk(tasks[..k], strToFloat);
  }

  /**
   * The per-day hour cap (validator.py:69-79): with well-formed tasks, the
   * day passes exactly when its hours add up to at most `hoursPerDay + 0.5`;
   * a sum of exactly the cap passes.
   */
  lemma HourCap(day: Json, hoursPerDay: real, strToFloat: string -> Result<real, string>)
    requires WellFormedDay(day)
    requires AllAcceptableTasks(day.fields["tasks"].items, strToFloat)
    ensures var sum := HoursSum(day.fields["tasks"].items, strToFloat);
            CheckDay(day, hoursPerDay, strToFloat)
            == if sum > hoursPerDay + Tolerance
               then Err(HourLimitExceeded(IndexLabel(day.fields["day"])))
               else Ok(())
  {
    TasksTotalOk(day.fields["tasks"].items, strToFloat);
  }

  /**
   * The hour-cap message (validator.py:77-79) names its day: two accepted
   * day indices whose over-cap messages read the same are the same index.
   */
  lemma HourMessageNamesDay(a: Json, b: Json)
    requires IsPositiveIndex(a) && IsPositiveIndex(b)
    requires Detail(HourLimitExceeded(IndexLabel(a))) == Detail(HourLimitExceeded(IndexLabel(b)))
    ensures a == b
  {
    DetailIdentifiesRule(HourLimitExceeded(IndexLabel(a)), HourLimitExceeded(IndexLabel(b)));
    IndexLabelInjective(a, b);
  }

  /**
   * The day-count cap (validator.py:82-83): once every day passes, the plan
   * passes exactly when it has at most `daysLeft + 2` entries.
   */
  lemma DayCountCap(doc: Json, daysLeft: int, hoursPerDay: real, strToFloat: string -> Result<real, string>)
    requires doc.JObject? && "days" in doc.fields && doc.fields["days"].JArray?
    requires doc.fields["days"].items != []
    requires AllAcceptableDays(doc.fields["days"].items, hoursPerDay, strToFloat)
    ensures CheckDoc(doc, daysLeft, hoursPerDay, strToFloat)
            == if |doc.fields["days"].items| > daysLeft + DaySlack then Err(TooManyDays) else Ok(doc)
  {
    CheckDaysOk(doc.fields["days"].items, hoursPerDay, strToFloat);
  }

  /**
   * Days are examined in order: the first day that fails decides the cause,
   * whatever the number of days.
   */
  lemma FirstBadDayDecides(doc: Json, i: nat, daysLeft: int, hoursPerDay: real,
                           strToFloat: string -> Result<real, string>)
    requires doc.JObject? && "days" in doc.fields && doc.fields["days"].JArray?
    requires i < |doc.fields["days"].items|
    requires AllAcceptableDays(doc.fields["days"].items[..i], hoursPerDay, strToFloat)
    requires !AcceptableDay(doc.fields["days"].items[i], hoursPerDay, strToFloat)
    ensures CheckDay(doc.fields["days"].items[i], hoursPerDay, strToFloat).Err?
    ensures CheckDoc(doc, daysLeft, hoursPerDay, strToFloat)
            == Err(CheckDay(doc.fields["days"].items[i], hoursPerDay, strToFloat).error)
  {
    var days := doc.fields["days"].items;
    var prefix := days[..i + 1];
    assert prefix[..i] == days[..i];
    CheckDaysOk(days[..i], hoursPerDay, strToFloat);
    CheckDayOk(days[i], hoursPerDay, strToFloat);
    FirstFailureWins(days, i + 1, hoursPerDay, strToFloat);
    assert CheckDays(days, hoursPerDay, strToFloat) == CheckDay(days[i], hoursPerDay, strToFloat);
  }
}
