/**
 * What `validate_plan` (planner/validator.py:47-88) decides about a parsed
 * document, stated twice: `CheckDoc` follows the order in which the source
 * inspects the document and yields the cause of the FIRST failure, and
 * `AcceptablePlan` says declaratively which documents pass.  `CheckDocOk`
 * proves the two agree.
 */
module PlanChecks {
  import opened Wrappers
  import opened PyJson

  /** Slack on the per-day hour cap (validator.py:76). */
  const Tolerance: real := 0.5
  /** Slack on the day-count cap (validator.py:82). */
  const DaySlack: int := 2
  /** Fields every task must carry (validator.py:71). */
  const TaskKeys: seq<string> := ["subject", "topic", "hours"]

  /** Why a document was rejected: one case per `raise` of the source. */
  datatype Cause =
    | Malformed(message: string)       // json.loads failed
    | MissingDaysList
    | NoDays
    | DayMissingFields
    | BadDayIndex
    | NoTasks
    | TaskMissingFields
    | HourLimitExceeded(dayLabel: string)
    | TooManyDays
    | Raised(error: PyError)           // a TypeError/ValueError of a built-in

  /** The rules' own failures, as opposed to a parse error or a built-in's exception. */
  predicate IsRuleCause(c: Cause) {
    !c.Malformed? && !c.Raised?
  }

  /**
   * The inner message, as `str(e)` renders it: each rule has its own text,
   * and the text of a parse error or of a built-in's exception is passed on
   * unchanged (validator.py:88).
   */
  function Detail(c: Cause): (r: string)
    ensures c.Malformed? ==> r == c.message
    ensures c.Raised? ==> r == ErrorText(c.error)
    ensures IsRuleCause(c) ==> |r| > 0
  {
    match c
    case Malformed(m) => m
    case MissingDaysList => "Missing or invalid 'days' list"
    case NoDays => "Plan contains no days"
    case DayMissingFields => "Each day must have 'day' and 'tasks'"
    case BadDayIndex => "Day index must be a positive integer"
    case NoTasks => "Each day must contain tasks"
    case TaskMissingFields => "Task missing required fields"
    case HourLimitExceeded(day) => "Daily hour limit exceeded on Day " + day
    case TooManyDays => "Plan exceeds allowed number of days"
    case Raised(e) => ErrorText(e)
  }

  /** Each rule has its own message: the text names the rule that failed. */
  lemma DetailIdentifiesRule(c: Cause, d: Cause)
    requires IsRuleCause(c) && IsRuleCause(d)
    requires Detail(c) == Detail(d)
    ensures c == d
  {
    var hp := "Daily hour limit exceeded on Day ";
    if c.HourLimitExceeded? && d.HourLimitExceeded? {
      assert c.dayLabel == Detail(c)[|hp|..];
    } else if c.HourLimitExceeded? {
      HourMessageIsOwn(c.dayLabel, d);
    } else if d.HourLimitExceeded? {
      HourMessageIsOwn(d.dayLabel, c);
    }
  }

  /** No other rule's message starts like the hour-limit message. */
  lemma HourMessageIsOwn(day: string, e: Cause)
    requires IsRuleCause(e) && !e.HourLimitExceeded?
    ensures Detail(e) != Detail(HourLimitExceeded(day))
  {
    var m := Detail(HourLimitExceeded(day));
    assert m[2] == 'i' && m[3] == 'l';
  }

  function Lift<T>(r: Result<T, PyError>): Result<T, Cause> {
    match r
    case Ok(v) => Ok(v)
    case Err(e) => Err(Raised(e))
  }

  /** `str(day["day"])` for an accepted index: its digits, or "True". */
  function IndexLabel(v: Json): (r: string)
    requires IsPositiveIndex(v)
    ensures |r| > 0
    ensures v.JInt? ==> (forall k :: 0 <= k < |r| ==> IsDigit(r[k])) && DigitsValue(r) == v.i
    ensures v.JInt? ==> r[0] != '0'
    ensures v.JBool? ==> r == "True"
  {
    if v.JInt? then Decimal(v.i) else "True"
  }

  /** Distinct accepted day indices get distinct labels, so the hour-cap message names the day. */
  lemma IndexLabelInjective(v: Json, w: Json)
    requires IsPositiveIndex(v) && IsPositiveIndex(w)
    requires IndexLabel(v) == IndexLabel(w)
    ensures v == w
  {
    if v.JInt? && w.JInt? {
      assert DigitsValue(IndexLabel(v)) == v.i;
    }
  }

  /** `all(k in v for k in keys)`, stopping at the first missing key. */
  function AllIn(keys: seq<string>, v: Json): (r: Result<bool, Cause>)
    ensures v.JObject? ==> r == Ok(forall k :: 0 <= k < |keys| ==> keys[k] in v.fields)
  {
    if keys == [] then Ok(true)
    else
      var present :- Lift(In(keys[0], v));
      if !present then Ok(false) else AllIn(keys[1..], v)
  }

  /** One task of the inner loop: the field check, then `float(task["hours"])`. */
  function TaskHours(task: Json, strToFloat: string -> Result<real, string>): (r: Result<real, Cause>)
    ensures !(task.JObject? || task.JArray? || task.JString?) ==> r.Err? && r.error.Raised?
    ensures task.JObject? && !(forall k :: 0 <= k < |TaskKeys| ==> TaskKeys[k] in task.fields)
            ==> r == Err(TaskMissingFields)
    ensures r.Ok? ==> task.JObject? && "hours" in task.fields
                      && Float(task.fields["hours"], strToFloat) == Ok(r.value)
  {
    var complete :- AllIn(TaskKeys, task);
    if !complete then Err(TaskMissingFields)
    else
      var hours :- Lift(Index(task, "hours"));
      Lift(Float(hours, strToFloat))
  }

  /** `total_hours` after the inner loop has run over `tasks`, or its first failure. */
  function TasksTotal(tasks: seq<Json>, strToFloat: string -> Result<real, string>): (r: Result<real, Cause>)
    ensures r.Ok? <==> forall k :: 0 <= k < |tasks| ==> TaskHours(tasks[k], strToFloat).Ok?
  {
    if tasks == [] then Ok(0.0)
    else
      var sum :- TasksTotal(tasks[..|tasks| - 1], strToFloat);
      var hours :- TaskHours(tasks[|tasks| - 1], strToFloat);
      Ok(sum + hours)
  }

  /** One pass of the outer loop body (validator.py:60-79). */
  function CheckDay(day: Json, hoursPerDay: real, strToFloat: string -> Result<real, string>): (r: Result<(), Cause>)
    ensures r.Ok? ==>
              && day.JObject? && "day" in day.fields && "tasks" in day.fields
              && IsPositiveIndex(day.fields["day"])
              && day.fields["tasks"].JArray? && |day.fields["tasks"].items| > 0
              && TasksTotal(day.fields["tasks"].items, strToFloat).Ok?
              && TasksTotal(day.fields["tasks"].items, strToFloat).value <= hoursPerDay + Tolerance
  {
    var hasDay :- Lift(In("day", day));
    if !hasDay then Err(DayMissingFields)
    else
      // `"day" in day` did not raise, so neither does `"tasks" in day`
      match Lift(In("tasks", day))
      case Err(e) => Err(e)
      case Ok(hasTasks) =>
        if !hasTasks then Err(DayMissingFields)
        else
          var index :- Lift(Index(day, "day"));
          if !IsPositiveIndex(index) then Err(BadDayIndex)
          else
            // `day["day"]` did not raise, so `day` is a dict holding "tasks"
            match Lift(Index(day, "tasks"))
            case Err(e) => Err(e)
            case Ok(tasks) =>
              if !tasks.JArray? || |tasks.items| == 0 then Err(NoTasks)
              else
                var total :- TasksTotal(tasks.items, strToFloat);
                if total > hoursPerDay + Tolerance then Err(HourLimitExceeded(IndexLabel(index)))
                else Ok(())
  }

  /** The outer loop over `days`: the first failing day decides. */
  function CheckDays(days: seq<Json>, hoursPerDay: real, strToFloat: string -> Result<real, string>): (r: Result<(), Cause>)
    ensures r.Ok? <==> forall k :: 0 <= k < |days| ==> CheckDay(days[k], hoursPerDay, strToFloat).Ok?
    ensures r.Err? ==> exists k :: 0 <= k < |days| && CheckDay(days[k], hoursPerDay, strToFloat) == r
  {
    if days == [] then Ok(())
    else
      var init := days[..|days| - 1];
      assert forall k :: 0 <= k < |init| ==> init[k] == days[k];
      var _ :- CheckDays(init, hoursPerDay, strToFloat);
      CheckDay(days[|days| - 1], hoursPerDay, strToFloat)
  }

  /** The body of the `try` after parsing (validator.py:53-85). */
  function CheckDoc(doc: Json, daysLeft: int, hoursPerDay: real,
                    strToFloat: string -> Result<real, string>): (r: Result<Json, Cause>)
    ensures r.Ok? ==>
              && r.value == doc
              && doc.JObject? && "days" in doc.fields && doc.fields["days"].JArray?
              && 0 < |doc.fields["days"].items| <= daysLeft + DaySlack
  {
    var hasDays :- Lift(In("days", doc));
    if !hasDays then Err(MissingDaysList)
    else
      var days :- Lift(Index(doc, "days"));
      if !days.JArray? then Err(MissingDaysList)
      else if |days.items| == 0 then Err(NoDays)
      else
        var _ :- CheckDays(days.items, hoursPerDay, strToFloat);
        if |days.items| > daysLeft + DaySlack then Err(TooManyDays)
        else Ok(doc)
  }

  // ---------------------------------------------------------------------
  // The declarative side.

  ghost predicate AcceptableTask(task: Json, strToFloat: string -> Result<real, string>) {
    && task.JObject?
    && "subject" in task.fields && "topic" in task.fields && "hours" in task.fields
    && Float(task.fields["hours"], strToFloat).Ok?
  }

  ghost predicate AllAcceptableTasks(tasks: seq<Json>, strToFloat: string -> Result<real, string>) {
    forall k :: 0 <= k < |tasks| ==> AcceptableTask(tasks[k], strToFloat)
  }

  /** The hours of a list of acceptable tasks, added from the front. */
  ghost function HoursSum(tasks: seq<Json>, strToFloat: string -> Result<real, string>): real
    requires AllAcceptableTasks(tasks, strToFloat)
  {
    if tasks == [] then 0.0
    else Float(tasks[0].fields["hours"], strToFloat).value + HoursSum(tasks[1..], strToFloat)
  }

  ghost predicate AcceptableDay(day: Json, hoursPerDay: real, strToFloat: string -> Result<real, string>) {
    && day.JObject?
    && "day" in day.fields && "tasks" in day.fields
    && IsPositiveIndex(day.fields["day"])
    && day.fields["tasks"].JArray?
    && |day.fields["tasks"].items| > 0
    && AllAcceptableTasks(day.fields["tasks"].items, strToFloat)
    && HoursSum(day.fields["tasks"].items, strToFloat) <= hoursPerDay + Tolerance
  }

  ghost predicate AllAcceptableDays(days: seq<Json>, hoursPerDay: real, strToFloat: string -> Result<real, string>) {
    forall k :: 0 <= k < |days| ==> AcceptableDay(days[k], hoursPerDay, strToFloat)
  }

  /** A document the validator lets through. */
  ghost predicate AcceptablePlan(doc: Json, daysLeft: int, hoursPerDay: real,
                                 strToFloat: string -> Result<real, string>) {
    && doc.JObject?
    && "days" in doc.fields
    && doc.fields["days"].JArray?
    && 0 < |doc.fields["days"].items| <= daysLeft + DaySlack
    && AllAcceptableDays(doc.fields["days"].items, hoursPerDay, strToFloat)
  }

  // ---------------------------------------------------------------------
  // The two sides agree.

  lemma TaskHoursOk(task: Json, strToFloat: string -> Result<real, string>)
    ensures TaskHours(task, strToFloat).Ok? <==> AcceptableTask(task, strToFloat)
    ensures TaskHours(task, strToFloat).Ok? ==>
              TaskHours(task, strToFloat).value == Float(task.fields["hours"], strToFloat).value
  {
    assert TaskKeys[0] == "subject" && TaskKeys[1] == "topic" && TaskKeys[2] == "hours";
    if task.JObject? {
      var all := forall k :: 0 <= k < |TaskKeys| ==> TaskKeys[k] in task.fields;
      assert AllIn(TaskKeys, task) == Ok(all);
      assert all <==> "subject" in task.fields && "topic" in task.fields && "hours" in task.fields;
    }
  }

  lemma {:induction false} HoursSumSnoc(tasks: seq<Json>, task: Json, strToFloat: string -> Result<real, string>)
    requires AllAcceptableTasks(tasks, strToFloat) && AcceptableTask(task, strToFloat)
    ensures AllAcceptableTasks(tasks + [task], strToFloat)
    ensures HoursSum(tasks + [task], strToFloat)
            == HoursSum(tasks, strToFloat) + Float(task.fields["hours"], strToFloat).value
  {
    var s := tasks + [task];
    if tasks != [] {
      assert s[1..] == tasks[1..] + [task];
      HoursSumSnoc(tasks[1..], task, strToFloat);
    }
  }

  /** The inner loop succeeds exactly on acceptable tasks, and then sums their hours. */
  lemma {:induction false} TasksTotalOk(tasks: seq<Json>, strToFloat: string -> Result<real, string>)
    ensures TasksTotal(tasks, strToFloat).Ok? <==> AllAcceptableTasks(tasks, strToFloat)
    ensures TasksTotal(tasks, strToFloat).Ok? ==>
              TasksTotal(tasks, strToFloat).value == HoursSum(tasks, strToFloat)
  {
    if tasks != [] {
      var init, last := tasks[..|tasks| - 1], tasks[|tasks| - 1];
      assert tasks == init + [last];
      TasksTotalOk(init, strToFloat);
      TaskHoursOk(last, strToFloat);
      if AllAcceptableTasks(tasks, strToFloat) {
        assert AllAcceptableTasks(init, strToFloat) by {
          forall k | 0 <= k < |init| ensures AcceptableTask(init[k], strToFloat) {
            assert init[k] == tasks[k];
          }
        }
        HoursSumSnoc(init, last, strToFloat);
      } else if AllAcceptableTasks(init, strToFloat) {
        assert !AcceptableTask(last, strToFloat);
      }
    }
  }

  /** One day passes exactly when it is acceptable. */
  lemma CheckDayOk(day: Json, hoursPerDay: real, strToFloat: string -> Result<real, string>)
    ensures CheckDay(day, hoursPerDay, strToFloat).Ok? <==> AcceptableDay(day, hoursPerDay, strToFloat)
  {
    if day.JObject? && "day" in day.fields && "tasks" in day.fields && day.fields["tasks"].JArray? {
      TasksTotalOk(day.fields["tasks"].items, strToFloat);
    }
  }

  /** Once some prefix of the days has failed, the whole list fails with the same cause. */
  lemma {:induction false} FirstFailureWins(days: seq<Json>, n: nat, hoursPerDay: real,
                                            strToFloat: string -> Result<real, string>)
    requires n <= |days|
    requires CheckDays(days[..n], hoursPerDay, strToFloat).Err?
    ensures CheckDays(days, hoursPerDay, strToFloat) == CheckDays(days[..n], hoursPerDay, strToFloat)
    decreases |days| - n
  {
    if n < |days| {
      var next := days[..n + 1];
      assert next[..n] == days[..n];
      FirstFailureWins(days, n + 1, hoursPerDay, strToFloat);
    } else {
      assert days[..n] == days;
    }
  }

  /** Once some prefix of a day's tasks has failed, the inner loop fails with the same cause. */
  lemma {:induction false} TasksFirstFailure(tasks: seq<Json>, n: nat, strToFloat: string -> Result<real, string>)
    requires n <= |tasks|
    requires TasksTotal(tasks[..n], strToFloat).Err?
    ensures TasksTotal(tasks, strToFloat) == TasksTotal(tasks[..n], strToFloat)
    decreases |tasks| - n
  {
    if n < |tasks| {
      var next := tasks[..n + 1];
      assert next[..n] == tasks[..n];
      TasksFirstFailure(tasks, n + 1, strToFloat);
    } else {
      assert tasks[..n] == tasks;
    }
  }

  /** The outer loop succeeds exactly when every day is acceptable. */
  lemma CheckDaysOk(days: seq<Json>, hoursPerDay: real, strToFloat: string -> Result<real, string>)
    ensures CheckDays(days, hoursPerDay, strToFloat).Ok? <==> AllAcceptableDays(days, hoursPerDay, strToFloat)
  {
    forall k | 0 <= k < |days|
      ensures CheckDay(days[k], hoursPerDay, strToFloat).Ok? <==> AcceptableDay(days[k], hoursPerDay, strToFloat)
    {
      CheckDayOk(days[k], hoursPerDay, strToFloat);
    }
  }

  /**
   * The validator accepts exactly the acceptable documents, and what it
   * returns on acceptance is the document itself, unchanged.
   */
  lemma CheckDocOk(doc: Json, daysLeft: int, hoursPerDay: real, strToFloat: string -> Result<real, string>)
    ensures CheckDoc(doc, daysLeft, hoursPerDay, strToFloat).Ok?
            <==> AcceptablePlan(doc, daysLeft, hoursPerDay, strToFloat)
    ensures CheckDoc(doc, daysLeft, hoursPerDay, strToFloat).Ok? ==>
              CheckDoc(doc, daysLeft, hoursPerDay, strToFloat).value == doc
  {
    if doc.JObject? && "days" in doc.fields && doc.fields["days"].JArray? {
      CheckDaysOk(doc.fields["days"].items, hoursPerDay, strToFloat);
    }
  }
}
