/**
 * `flatten_plan` (planner/parser.py:15-31): turn the nested day -> tasks
 * document into one row per task.  Dates are day ordinals (1 is
 * 0001-01-01, as `date.toordinal()` counts) and the start date, which the
 * source reads from `date.today()`, is a parameter.
 */
module Parser {
  import opened Wrappers
  import opened PyJson
  import PlanChecks

  /** One task row, ready for insertion; `completed` starts false. */
  datatype Row = Row(date: int, subject: Json, topic: Json, hours: Json, completed: bool)

  /** What `flatten_plan` reads from a task without raising. */
  predicate ShapedTask(task: Json) {
    task.JObject? && "subject" in task.fields && "topic" in task.fields && "hours" in task.fields
  }

  /** What `flatten_plan` reads from a day without raising. */
  predicate ShapedDay(day: Json) {
    && day.JObject?
    && "day" in day.fields && "tasks" in day.fields
    && (day.fields["day"].JInt? || day.fields["day"].JBool?)
    && day.fields["tasks"].JArray?
    && forall k :: 0 <= k < |day.fields["tasks"].items| ==> ShapedTask(day.fields["tasks"].items[k])
  }

  predicate ShapedDays(days: seq<Json>) {
    forall k :: 0 <= k < |days| ==> ShapedDay(days[k])
  }

  predicate ShapedPlan(plan: Json) {
    plan.JObject? && "days" in plan.fields && plan.fields["days"].JArray?
    && ShapedDays(plan.fields["days"].items)
  }

  function DaysOf(plan: Json): seq<Json>
    requires ShapedPlan(plan)
  {
    plan.fields["days"].items
  }

  function TasksOf(day: Json): seq<Json>
    requires ShapedDay(day)
  {
    day.fields["tasks"].items
  }

  /** `start_date + timedelta(days=day["day"] - 1)` (parser.py:20). */
  function DayDate(day: Json, start: int): int
    requires ShapedDay(day)
  {
    start + IntValue(day.fields["day"]) - 1
  }

  /** The row built for one task (parser.py:23-29). */
  function RowOf(date: int, task: Json): Row
    requires ShapedTask(task)
  {
    Row(date, task.fields["subject"], task.fields["topic"], task.fields["hours"], false)
  }

  /** The rows of one day, in task order. */
  function DayRows(day: Json, start: int): seq<Row>
    requires ShapedDay(day)
  {
    var tasks := TasksOf(day);
    seq(|tasks|, k requires 0 <= k < |tasks| => RowOf(DayDate(day, start), tasks[k]))
  }

  /** The rows of a list of days, day after day; every row starts out pending. */
  function PlanRows(days: seq<Json>, start: int): (rows: seq<Row>)
    requires ShapedDays(days)
    ensures forall r :: r in rows ==> !r.completed
  {
    if days == [] then []
    else PlanRows(days[..|days| - 1], start) + DayRows(days[|days| - 1], start)
  }

  /** The number of tasks across `days`. */
  function TaskCount(days: seq<Json>): nat
    requires ShapedDays(days)
  {
    if days == [] then 0 else |TasksOf(days[0])| + TaskCount(days[1..])
  }

  /**
   * The nested loops of parser.py:19-29: one row per task, appended in day
   * order and then task order, all pending.
   */
  method FlattenPlan(plan: Json, start: int) returns (rows: seq<Row>)
    requires ShapedPlan(plan)
    ensures rows == PlanRows(DaysOf(plan), start)
    ensures |rows| == TaskCount(DaysOf(plan))
    ensures forall r :: r in rows ==> !r.completed
  {
    var days := DaysOf(plan);
    rows := [];
    var i := 0;
    while i < |days|
      invariant 0 <= i <= |days|
      invariant rows == PlanRows(days[..i], start)
    {
      var day := days[i];
      var date := start + IntValue(day.fields["day"]) - 1;
      var tasks := day.fields["tasks"].items;
      var j := 0;
      while j < |tasks|
        invariant 0 <= j <= |tasks|
        invariant rows == PlanRows(days[..i], start) + DayRows(day, start)[..j]
      {
        rows := rows + [RowOf(date, tasks[j])];
        j := j + 1;
      }
      assert DayRows(day, start)[..j] == DayRows(day, start);
      assert days[..i + 1][..i] == days[..i];
      i := i + 1;
    }
    assert days[..i] == days;
    PlanRowsCount(days, start);
  }

  // ---------------------------------------------------------------------

  lemma {:induction false} TaskCountSnoc(days: seq<Json>, day: Json)
    requires ShapedDays(days) && ShapedDay(day)
    ensures ShapedDays(days + [day])
    ensures TaskCount(days + [day]) == TaskCount(days) + |TasksOf(day)|
  {
    if days != [] {
      assert (days + [day])[1..] == days[1..] + [day];
      TaskCountSnoc(days[1..], day);
    }
  }

  /** There are exactly as many rows as tasks. */
  lemma {:induction false} PlanRowsCount(days: seq<Json>, start: int)
    requires ShapedDays(days)
    ensures |PlanRows(days, start)| == TaskCount(days)
  {
    if days != [] {
      var init, last := days[..|days| - 1], days[|days| - 1];
      assert days == init + [last];
      PlanRowsCount(init, start);
      TaskCountSnoc(init, last);
    }
  }

  /**
   * Task `k` of day `d` lands at position `TaskCount(days[..d]) + k`, with
   * the day's date and the task's subject, topic and hours copied unchanged.
   */
  lemma {:induction false} PlanRowsAt(days: seq<Json>, start: int, d: nat, k: nat)
    requires ShapedDays(days)
    requires d < |days| && k < |TasksOf(days[d])|
    ensures TaskCount(days[..d]) + k < |PlanRows(days, start)|
    ensures PlanRows(days, start)[TaskCount(days[..d]) + k]
            == Row(start + IntValue(days[d].fields["day"]) - 1,
                   TasksOf(days[d])[k].fields["subject"],
                   TasksOf(days[d])[k].fields["topic"],
                   TasksOf(days[d])[k].fields["hours"],
                   false)
  {
    var init, last := days[..|days| - 1], days[|days| - 1];
    PlanRowsCount(init, start);
    if d < |days| - 1 {
      assert init[..d] == days[..d];
      PlanRowsAt(init, start, d, k);
    } else {
      assert days[..d] == init;
    }
  }

  /** Row `p` comes from task `k` of day `d`. */
  ghost predicate RowSource(days: seq<Json>, start: int, p: int, d: int, k: int)
    requires ShapedDays(days)
  {
    && 0 <= d < |days| && 0 <= k < |TasksOf(days[d])|
    && p == TaskCount(days[..d]) + k
    && p < |PlanRows(days, start)|
    && PlanRows(days, start)[p] == RowOf(DayDate(days[d], start), TasksOf(days[d])[k])
  }

  /** Every row comes from some task, and carries its day's date. */
  lemma {:induction false} PlanRowsOrigin(days: seq<Json>, start: int, p: nat)
    requires ShapedDays(days)
    requires p < |PlanRows(days, start)|
    ensures exists d, k :: RowSource(days, start, p, d, k)
  {
    var init, last := days[..|days| - 1], days[|days| - 1];
    PlanRowsCount(init, start);
    if p < |PlanRows(init, start)| {
      PlanRowsOrigin(init, start, p);
      var d, k :| RowSource(init, start, p, d, k);
      assert init[..d] == days[..d];
      assert init[d] == days[d];
      assert RowSource(days, start, p, d, k);
    } else {
      var k := p - |PlanRows(init, start)|;
      assert days[..|days| - 1] == init;
      assert RowSource(days, start, p, |days| - 1, k);
    }
  }

  // ---------------------------------------------------------------------
  // Grouping the rows by date.

  /** How many rows fall on `date`. */
  function CountOn(rows: seq<Row>, date: int): nat {
    if rows == [] then 0
    else (if rows[0].date == date then 1 else 0) + CountOn(rows[1..], date)
  }

  lemma {:induction false} CountOnAppend(a: seq<Row>, b: seq<Row>, date: int)
    ensures CountOn(a + b, date) == CountOn(a, date) + CountOn(b, date)
  {
    if a != [] {
      assert (a + b)[1..] == a[1..] + b;
      CountOnAppend(a[1..], b, date);
    } else {
      assert a + b == b;
    }
  }

  lemma {:induction false} CountOnSameDate(rows: seq<Row>, x: int, date: int)
    requires forall r :: r in rows ==> r.date == x
    ensures CountOn(rows, date) == if x == date then |rows| else 0
  {
    if rows != [] {
      CountOnSameDate(rows[1..], x, date);
    }
  }

  /** Tasks of the days whose date is `date`. */
  function TasksOn(days: seq<Json>, start: int, date: int): nat
    requires ShapedDays(days)
  {
    if days == [] then 0
    else
      var last := days[|days| - 1];
      TasksOn(days[..|days| - 1], start, date) + (if DayDate(last, start) == date then |TasksOf(last)| else 0)
  }

  lemma {:induction false} CountOnPlanRows(days: seq<Json>, start: int, date: int)
    requires ShapedDays(days)
    ensures CountOn(PlanRows(days, start), date) == TasksOn(days, start, date)
  {
    if days != [] {
      var init, last := days[..|days| - 1], days[|days| - 1];
      CountOnPlanRows(init, start, date);
      CountOnAppend(PlanRows(init, start), DayRows(last, start), date);
      CountOnSameDate(DayRows(last, start), DayDate(last, start), date);
    }
  }

  predicate DistinctDayIndices(days: seq<Json>)
    requires ShapedDays(days)
  {
    forall i, j :: 0 <= i < j < |days| ==> IntValue(days[i].fields["day"]) != IntValue(days[j].fields["day"])
  }

  lemma {:induction false} TasksOnDistinct(days: seq<Json>, start: int, d: nat, n: nat)
    requires ShapedDays(days) && DistinctDayIndices(days)
    requires d < |days| && n <= |days|
    ensures TasksOn(days[..n], start, DayDate(days[d], start)) == if d < n then |TasksOf(days[d])| else 0
  {
    if n > 0 {
      var prefix := days[..n];
      assert prefix[..n - 1] == days[..n - 1];
      TasksOnDistinct(days, start, d, n - 1);
    }
  }

  /**
   * With pairwise distinct day indices, grouping the rows by date gives back
   * each day's number of tasks.
   */
  lemma GroupingByDate(days: seq<Json>, start: int, d: nat)
    requires ShapedDays(days) && DistinctDayIndices(days)
    requires d < |days|
    ensures CountOn(PlanRows(days, start), start + IntValue(days[d].fields["day"]) - 1) == |TasksOf(days[d])|
  {
    CountOnPlanRows(days, start, DayDate(days[d], start));
    TasksOnDistinct(days, start, d, |days|);
    assert days[..|days|] == days;
  }

  /** Every plan the validator accepts can be flattened. */
  lemma AcceptedPlanIsShaped(doc: Json, daysLeft: int, hoursPerDay: real,
                             strToFloat: string -> Result<real, string>)
    requires PlanChecks.AcceptablePlan(doc, daysLeft, hoursPerDay, strToFloat)
    ensures ShapedPlan(doc)
  {
  }
}
