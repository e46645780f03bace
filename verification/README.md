# Exam study planner — verified model of its core

The planner asks a text-generation model for a day-by-day study schedule, checks the returned
JSON document, turns it into one stored task row per study task, and shows progress: a weekly
calendar strip, the "active" day with Previous/Next navigation, completion percentage and the
current and best streaks of fully completed days.

This project models the parts of that program that compute something:

- `Fences` — the clean-up of the model's raw reply before parsing: every "```json" and "```"
  is deleted, then surrounding white space is stripped (Python's `str.strip`).
- `PyJson` — a parsed JSON value and the Python operations the validator applies to it:
  `in`, subscripting with a string key, `float()`, and the texts of the `TypeError`, `KeyError`,
  `ValueError` and `OverflowError` messages those raise.
- `PlanChecks` — the validator's rules as a first-failure function (`CheckDoc`: which check fails
  first, and with which cause) and as a declarative predicate (`AcceptablePlan`). The two are
  proved to agree.
- `Validator` — `validate_plan` itself as imperative methods with the source's nested loops. Each
  method is proved equal to the first-failure function. `ValidatePlan` returns the document or
  the message `"Invalid plan structure: " + detail`.
- `PlanRules` — one lemma per rule of the validator: which input produces which message.
- `Parser` — `flatten_plan`: the nested loop that emits one row per task, with the date
  `start + day - 1`. The proofs cover row count, position and content of every row, the origin of
  every row, and regrouping rows by date.
- `Streak` — `calculate_streak`: per-date "all tasks completed" flags in date order, the best run
  of completed task dates, and the run ending at the last day not after the active date.
- `Calendar` — `get_week_dates`, the choice of the initial active date, and the Previous/Next
  navigation over the sorted distinct dates.
- `Stats` — `completion_stats`: the share of completed tasks, as a percentage.

Where the program calls into code outside the model, the model takes that code as a parameter.
`json.loads` becomes `parse: string -> Result<Json, string>`, where the error string is the
decoder's message. `float()` applied to a string becomes `strToFloat: string -> Result<real, string>`.
`date.today()` becomes the `start` parameter of `FlattenPlan`. Calendar dates are day ordinals,
with Monday at `(d + 6) % 7 == 0`.

Behaviour worth knowing:

- A document that does not parse is reported with the decoder's own message after the prefix, not
  with a fixed "malformed document" text.
- Task hours are only passed through `float()`. Negative hours are accepted.
- Python's `bool` is a subclass of `int`, so `"day": true` passes the day-index check as day 1.
- The day-count check compares the number of day entries with `days_left + 2`. It does not look
  at the span of the day indices.
- Repeated day indices are accepted, and the flattener then gives those days the same date. The
  date-regrouping property (`Parser.GroupingByDate`) is therefore proved for plans with distinct
  day indices.
- A streak counts consecutive entries among the dates that have tasks, not consecutive calendar
  days. A calendar day without any task neither breaks nor extends a streak.

## Model

| member | source | states |
|---|---|---|
| Fences.RemoveFences | planner/validator.py:50 | deleting the fences never lengthens the text |
| Fences.Clean | planner/validator.py:50 | the cleaned reply holds no "```", neither starts nor ends with white space, and is no longer than the raw reply |
| Fences.Strip | planner/validator.py:50 | the result is a slice of the input with only white space removed at both ends, and it neither starts nor ends with white space |
| Fences.NoFenceLeft | planner/validator.py:50 | after fence removal no "```" remains anywhere in the text |
| Fences.NoBackticksUnchanged | planner/validator.py:50 | text without a backtick passes fence removal unchanged, so cleaning it only strips it |
| Fences.FencedBlockUnwrapped | planner/validator.py:50 | "```json" + body + "```" with a backtick-free body becomes exactly the body |
| PyJson.In | planner/validator.py:53 | Python `in`: key membership on a dict; a TypeError exactly when the value is not a dict, list or str |
| PyJson.Index | planner/validator.py:53 | `v[key]` succeeds exactly on a dict holding the key and yields that value; a dict without the key raises KeyError(key), any other value a TypeError |
| PyJson.Decimal | planner/validator.py:78 | `str(n)` of a non-negative int: non-empty decimal digits, no leading zero for n > 0, denoting exactly n |
| PyJson.DecimalInjective | planner/validator.py:78 | different numbers print as different digit strings |
| PyJson.Float | planner/validator.py:74 | `float()` of a float is its value; of an int its value, except that an int at or beyond ±(2^1024 − 2^970) raises OverflowError "int too large to convert to float"; of a bool 1.0 or 0.0; of a str the number the string conversion reads, or a ValueError carrying the conversion's message; None, list and dict raise a TypeError naming the type |
| PlanChecks.Detail | planner/validator.py:54-88 | the text after "Invalid plan structure: ": the decoder's message for an unparsable reply, the Python exception text for a raised error, and a non-empty rule message otherwise |
| PlanChecks.DetailIdentifiesRule | planner/validator.py:54-83 | no two validation rules share a message, so the reported text tells which rule failed (and, for the hour cap, on which day) |
| PlanChecks.IndexLabel | planner/validator.py:78 | `{day['day']}` in the hour-cap message: for an int index, decimal digits without a leading zero that denote exactly that index; "True" for the bool index |
| PlanChecks.IndexLabelInjective | planner/validator.py:78 | two accepted day indices with the same label are the same index |
| PlanChecks.AllIn | planner/validator.py:71 | `all(k in task for k in keys)` on a dict is exactly "every key is present" |
| PlanChecks.TaskHours | planner/validator.py:71-74 | a task that is no dict, list or str raises; a dict lacking subject, topic or hours fails with "Task missing required fields"; a success means the task is a dict whose `float(task["hours"])` is the value |
| PlanChecks.TasksTotal | planner/validator.py:69-74 | the inner loop succeeds exactly when every task's hours can be read |
| PlanChecks.CheckDay | planner/validator.py:60-79 | a day passes only if it is a dict with "day" and "tasks", a positive int index, a non-empty task list, and a total of at most hours_per_day + 0.5 |
| PlanChecks.CheckDays | planner/validator.py:59-79 | the outer loop passes exactly when every day passes, and a failure is the failure of one of the days |
| PlanChecks.CheckDoc | planner/validator.py:53-85 | a pass returns the document itself, a dict whose "days" is a list of 1 to days_left + 2 entries |
| PlanChecks.TaskHoursOk | planner/validator.py:71-74 | a task's hours are read exactly when the task holds all three fields and its hours convert to a number, and the value is that number |
| PlanChecks.TasksTotalOk | planner/validator.py:69-74 | the running total succeeds exactly when every task is acceptable, and then equals the sum of their hours |
| PlanChecks.CheckDayOk | planner/validator.py:60-79 | one day passes exactly when it is an acceptable day |
| PlanChecks.FirstFailureWins | planner/validator.py:59-79 | once a day fails, later days are not looked at: the loop reports that day's error |
| PlanChecks.CheckDocOk | planner/validator.py:53-85 | the checks pass exactly when the plan is acceptable (days list present and non-empty, every day acceptable, at most days_left + 2 days), and the document is returned unchanged |
| Validator.SumTaskHours | planner/validator.py:69-74 | the task loop yields the hours total exactly when all tasks are acceptable, and that total is the sum of the tasks' hours |
| Validator.CheckDayEntry | planner/validator.py:60-79 | the day body accepts exactly the acceptable days and fails with the first rule the day breaks |
| Validator.CheckDocument | planner/validator.py:53-85 | the day loop and the final count check accept exactly the acceptable plans and return the document itself |
| Validator.Outcome | planner/validator.py:47-88 | an unparsable cleaned reply fails with the decoder's message; otherwise the result is the parsed document exactly when it is an acceptable plan |
| Validator.ValidatePlan | planner/validator.py:47-88 | returns the parsed document exactly when the cleaned text parses to an acceptable plan; otherwise fails with "Invalid plan structure: " followed by the first failure's text |
| PlanRules.NonObjectRejected | planner/validator.py:53 | a top-level document that is not a JSON object is rejected |
| PlanRules.MissingDaysRejected | planner/validator.py:53-54 | an object without a "days" list fails with "Missing or invalid 'days' list" |
| PlanRules.EmptyDaysRejected | planner/validator.py:56-57 | an empty "days" list fails with "Plan contains no days" |
| PlanRules.DayEntryRejected | planner/validator.py:60-67 | a day without "day" or "tasks", with a non-positive or non-int index, or with an empty or non-list task list fails with the matching message, in that order |
| PlanRules.TaskMissingFieldRejected | planner/validator.py:70-72 | in a well-formed day, a task object lacking one of subject, topic or hours, with every earlier task acceptable, fails with "Task missing required fields" |
| PlanRules.TaskHoursRejected | planner/validator.py:74 | in a well-formed day, the first complete task whose `float(task["hours"])` raises (bad string, oversized int, None, list, dict), with every earlier task acceptable, fails the day with that exception |
| PlanRules.HoursRaise | planner/validator.py:71-74 | a complete task whose hours cannot be converted fails with the conversion's exception |
| PlanRules.FailsAt | planner/validator.py:70-74 | after acceptable tasks, the first failing task ends the inner loop with its own cause |
| PlanRules.HourMessageNamesDay | planner/validator.py:77-79 | two accepted day indices whose hour-cap messages read the same are the same index, so the message identifies the day |
| PlanRules.HourCap | planner/validator.py:69-79 | a well-formed day whose tasks are all acceptable fails exactly when its hours exceed hours_per_day + 0.5, with the message naming the day index |
| PlanRules.DayCountCap | planner/validator.py:82-85 | a plan whose days all pass is rejected exactly when it has more than days_left + 2 days |
| PlanRules.FirstBadDayDecides | planner/validator.py:59-83 | if day i fails and all earlier days pass, the whole plan fails with day i's cause |
| Parser.FlattenPlan | planner/parser.py:15-31 | the loop builds exactly the day-then-task sequence of rows, one per task, none completed |
| Parser.PlanRowsCount | planner/parser.py:19-29 | the number of rows is the total number of tasks over all days |
| Parser.PlanRows | planner/parser.py:19-29 | the rows of the nested loop; every row starts not completed |
| Parser.PlanRowsAt | planner/parser.py:19-29 | task k of day d lands at position (tasks in earlier days) + k, with date start + day - 1 and the task's subject, topic and hours |
| Parser.PlanRowsOrigin | planner/parser.py:19-29 | every row comes from some task of some day, dated by that day's index |
| Parser.GroupingByDate | planner/parser.py:19-29 | with distinct day indices, the rows dated start + day - 1 are exactly as many as that day's tasks |
| Parser.AcceptedPlanIsShaped | planner/parser.py:19-27 | every plan the validator accepts has the shape the flattener reads (days list, positive int indices, tasks with the three fields) |
| Streak.DayStatus | app.py:30-34 | one flag per distinct task date, in strictly increasing date order, each true exactly when every task of that date is completed |
| Streak.SortedDatesCount | app.py:30-34 | a strictly date-sorted flag list has as many entries as distinct dates |
| Streak.LongestRun | app.py:37-45 | the loop returns the length of a run of true flags that no other run exceeds |
| Streak.TrailingRun | app.py:53-57 | the reverse loop returns the length of the run of true flags ending at the last entry |
| Streak.Relevant | app.py:51 | keeps exactly the per-date flags dated on or before the active date |
| Streak.RelevantIsPrefix | app.py:51 | on date-sorted flags, the kept entries are a prefix of the list |
| Streak.NoneRelevant | app.py:51 | when every flag is dated after the active date, nothing is kept |
| Streak.TrailingRunWithinLongest | app.py:37-57 | a trailing run of a prefix is never longer than the best run of the whole list |
| Streak.CalculateStreak | app.py:17-59 | no tasks gives (0, 0); otherwise best is the longest run of completed dates, current is the run ending at the last date not after the active date, and current <= best <= number of dates |
| Streak.LongestRunZero | app.py:37-45 | the best streak is 0 exactly when no date is fully completed |
| Streak.TrailingRunZero | app.py:48-57 | the current streak is 0 exactly when there is no relevant date or the last one is not fully completed |
| Calendar.Weekday | app.py:14 | the weekday number is in 0..6 |
| Calendar.WeekDates | app.py:12-15 | seven consecutive dates starting on a Monday and containing the anchor |
| Calendar.WeekIsUnique | app.py:12-15 | any seven consecutive dates starting on a Monday and containing the anchor are exactly that week |
| Calendar.AllDates | app.py:157 | the distinct task dates in strictly increasing order, nothing else |
| Calendar.FirstPendingDate | app.py:161-163 | none exactly when all tasks are completed; otherwise the date of an incomplete task |
| Calendar.InitialActiveDate | app.py:160-164 | always one of the task dates; a remembered date that still exists is kept; otherwise the earliest date with an incomplete task, or the first date when all are done |
| Calendar.PendingIsEarliest | app.py:161-163 | on date-sorted tasks, the first incomplete task's date is a task date that is not fully completed, and every task dated earlier is completed |
| Calendar.FirstDateIsEarliest | app.py:157-164 | the fallback date is the smallest task date |
| Calendar.IndexOf | app.py:167 | the position of the first occurrence of the active date |
| Calendar.Navigate | app.py:173-180 | Previous moves to the next smaller date, Next to the next larger one, and at either end the active date stays |
| Calendar.NavigateIndex | app.py:173-180 | the index moves by exactly one when a neighbour exists and is unchanged otherwise |
| Calendar.NextThenPrevious | app.py:173-180 | when Next moves, pressing Previous afterwards returns to the original date |
| Stats.Done | analytics/stats.py:5 | the number of completed tasks: at most the total, equal to it exactly when all are done, 0 exactly when none are |
| Stats.CompletionPercent | analytics/stats.py:3-6 | 0 for no tasks; otherwise percent * total == done * 100, within 0..100, 100 exactly when all are done, 0 exactly when none are |
| Stats.Percent | analytics/stats.py:6 | done / total * 100 satisfies percent * total == done * 100, lies in 0..100 and reaches its ends exactly at done == 0 and done == total |

## Left out

- `json.loads` is not modelled. It is the `parse` parameter, and any document it returns is checked by the model.
- Converting a string to a float is not modelled. It is the `strToFloat` parameter. `float()` of an int is modelled with its `OverflowError` beyond the double range, but an int below that limit converts to its exact value rather than the nearest double. JSON `NaN`/`Infinity` literals and the strings "nan"/"inf" are outside the model, because hours are exact reals here. In Python a NaN total never exceeds the cap.
- Stats.CompletionPercent: `round(..., 2)` and float division are not modelled. The result is the exact percentage. With rounding, the source's ends are not exact: 99999 of 100000 done gives 99.999, which rounds to 100.0, and 1 of 100000 gives 0.001, which rounds to 0.0. The model's "100 exactly when all are done" and "0 exactly when none are" hold for the exact value only.
- Sums of task hours are exact reals. Binary floating-point rounding in `total_hours` is not modelled.
- The exact wording of Python's `TypeError` messages is modelled as in Python 3.11 and later. Other versions word them differently.
- Calendar dates are integer day ordinals rather than ISO strings. Python's year range 1..9999 and the `OverflowError` raised beyond it are not modelled.
- Parser.FlattenPlan: an accepted plan can still make `flatten_plan` fail. A day index such as 3000000 passes validation, but `start_date + timedelta(days=day - 1)` then lies beyond year 9999 and raises `OverflowError`. The program reports that as a failed generation (app.py:140-141) and stores nothing, while the model yields a row with that date ordinal.
- Parser.FlattenPlan requires the shape that validation guarantees (`Parser.AcceptedPlanIsShaped`). The `KeyError`/`TypeError` that `flatten_plan` would raise on other input is not modelled, because the program only flattens validated plans.
- Parser.FlattenPlan: `isoformat()` of the row date is not modelled. A row keeps the date ordinal, and it keeps subject, topic and hours as the JSON values the plan holds.
- Streak.CalculateStreak: the `completed` column is a bool here, where the table stores 0/1. Grouping with pandas is modelled by the `DayStatus` function.
- The streak's active date and the initial active date take the session state as parameters. `st.session_state`, `st.button` and `st.rerun` themselves are not modelled.
- The per-subject completion means in app.py:284-290, the progress bars in app.py:207-210 and app.py:237-248, and the `int()` truncation at app.py:239 are presentation code and not part of this model.
- Stats.CompletionPercent models `completion_stats`. app.py:273 computes the same formula inline.
- planner/generator.py and planner/prompt.py are not part of this model. They make the network call and build the prompt text.
- The database layer, the SQL statements, the transaction that replaces the plan, and all Streamlit rendering are not part of this model.
- The commented-out earlier versions of `validate_plan` and `flatten_plan` are dead code and not modelled.
