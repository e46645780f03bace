/**
 * The date helpers of app.py: the Monday-to-Sunday week around a date
 * (app.py:12-15), the choice of the initially shown date (app.py:157-164)
 * and the Previous/Next buttons (app.py:166-180).  Dates are day ordinals
 * as `date.toordinal()` counts them; day 1 (0001-01-01) is a Monday.
 */
module Calendar {
  import opened Wrappers
  import opened Streak

  /** `date.weekday()`: 0 is Monday, 6 is Sunday. */
  function Weekday(date: int): (w: int)
    ensures 0 <= w < 7
  {
    (date + 6) % 7
  }

  /** `get_week_dates`: the seven dates of the week holding `anchor`. */
  function WeekDates(anchor: int): (r: seq<int>)
    ensures |r| == 7
    ensures forall i :: 0 <= i < 6 ==> r[i + 1] == r[i] + 1
    ensures Weekday(r[0]) == 0
    ensures anchor in r
  {
    var monday := anchor - Weekday(anchor);
    assert Weekday(monday) == 0 by {
      assert monday + 6 == (anchor + 6) - (anchor + 6) % 7;
    }
    var r := seq(7, i => monday + i);
    assert r[Weekday(anchor)] == anchor;
    r
  }

  /** Any seven consecutive dates that start on a Monday and hold `anchor` are its week. */
  lemma WeekIsUnique(anchor: int, week: seq<int>)
    requires |week| == 7
    requires forall i :: 0 <= i < 6 ==> week[i + 1] == week[i] + 1
    requires Weekday(week[0]) == 0
    requires anchor in week
    ensures week == WeekDates(anchor)
  {
    var monday := week[0];
    forall i | 0 <= i < 7 ensures week[i] == monday + i {
      ConsecutiveFrom(week, i);
    }
    var off := anchor - monday;
    assert 0 <= off < 7;
    var q := (monday + 6) / 7;
    assert monday + 6 == 7 * q;
    assert anchor + 6 == 7 * q + off;
    assert Weekday(anchor) == off;
  }

  // ---------------------------------------------------------------------

  /** Dates in strictly increasing order: sorted, with no repeats. */
  predicate StrictlyIncreasing(dates: seq<int>) {
    forall i, j :: 0 <= i < j < |dates| ==> dates[i] < dates[j]
  }

  /** `sorted(df_all["date"].unique())` (app.py:157). */
  function AllDates(tasks: seq<StoredTask>): (r: seq<int>)
    ensures |r| == |DayStatus(tasks)|
    ensures StrictlyIncreasing(r)
    ensures forall d :: d in r <==> d in TaskDates(tasks)
  {
    var status := DayStatus(tasks);
    var r := seq(|status|, k requires 0 <= k < |status| => status[k].date);
    assert forall d :: d in r <==> d in FlagDates(status) by {
      forall d ensures d in r <==> d in FlagDates(status) {
        if d in FlagDates(status) {
          var k :| 0 <= k < |status| && status[k].date == d;
          assert r[k] == d;
        }
      }
    }
    r
  }

  /** The rows come from the database ordered by date (`ORDER BY date ASC`). */
  predicate SortedByDate(tasks: seq<StoredTask>) {
    forall i, j :: 0 <= i < j < |tasks| ==> tasks[i].date <= tasks[j].date
  }

  /** `incomplete.iloc[0]["date"]`: the date of the first pending task, if any. */
  function FirstPendingDate(tasks: seq<StoredTask>): (r: Option<int>)
    ensures r.None? <==> forall i :: 0 <= i < |tasks| ==> tasks[i].completed
    ensures r.Some? ==> exists i :: 0 <= i < |tasks| && !tasks[i].completed && tasks[i].date == r.value
                                    && forall j :: 0 <= j < i ==> tasks[j].completed
  {
    if tasks == [] then None
    else if !tasks[0].completed then Some(tasks[0].date)
    else
      var rest := FirstPendingDate(tasks[1..]);
      if rest.Some? then
        var i :| 0 <= i < |tasks[1..]| && !tasks[1..][i].completed && tasks[1..][i].date == rest.value
                 && forall j :: 0 <= j < i ==> tasks[1..][j].completed;
        assert !tasks[i + 1].completed && tasks[i + 1].date == rest.value;
        rest
      else
        rest
  }

  /**
   * The active date after app.py:160-164: a remembered date that is still
   * among the task dates is kept; otherwise the date of the first pending
   * task, or the first date when every task is done.
   */
  function InitialActiveDate(remembered: Option<int>, tasks: seq<StoredTask>): (r: int)
    requires tasks != [] && SortedByDate(tasks)
    ensures r in AllDates(tasks)
    ensures remembered.Some? && remembered.value in AllDates(tasks) ==> r == remembered.value
    ensures !(remembered.Some? && remembered.value in AllDates(tasks)) ==>
              && (forall i :: 0 <= i < |tasks| && tasks[i].date < r ==> tasks[i].completed)
              && ((exists i :: 0 <= i < |tasks| && !tasks[i].completed) ==> !AllDoneOn(tasks, r))
              && ((forall i :: 0 <= i < |tasks| ==> tasks[i].completed) ==> forall d :: d in AllDates(tasks) ==> r <= d)
  {
    var dates := AllDates(tasks);
    if remembered.Some? && remembered.value in dates then remembered.value
    else
      var pending := FirstPendingDate(tasks);
      if pending.Some? then
        PendingIsEarliest(tasks);
        pending.value
      else
        FirstDateIsEarliest(tasks);
        dates[0]
  }

  /** With the rows sorted by date, the first pending task sits on the earliest unfinished date. */
  lemma PendingIsEarliest(tasks: seq<StoredTask>)
    requires SortedByDate(tasks) && FirstPendingDate(tasks).Some?
    ensures FirstPendingDate(tasks).value in AllDates(tasks)
    ensures !AllDoneOn(tasks, FirstPendingDate(tasks).value)
    ensures forall i :: 0 <= i < |tasks| && tasks[i].date < FirstPendingDate(tasks).value ==> tasks[i].completed
  {
    var i := PendingIndex(tasks);
    assert tasks[i].date in TaskDates(tasks);
  }

  /** Where the first pending task sits. */
  lemma PendingIndex(tasks: seq<StoredTask>) returns (i: nat)
    requires FirstPendingDate(tasks).Some?
    ensures i < |tasks| && !tasks[i].completed && tasks[i].date == FirstPendingDate(tasks).value
    ensures forall j :: 0 <= j < i ==> tasks[j].completed
  {
    i :| 0 <= i < |tasks| && !tasks[i].completed && tasks[i].date == FirstPendingDate(tasks).value
         && forall j :: 0 <= j < i ==> tasks[j].completed;
  }

  /** The first of the sorted dates is the earliest. */
  lemma FirstDateIsEarliest(tasks: seq<StoredTask>)
    requires tasks != []
    ensures AllDates(tasks) != []
    ensures forall d :: d in AllDates(tasks) ==> AllDates(tasks)[0] <= d
  {
    assert tasks[0].date in TaskDates(tasks);
  }

  /** In a run of consecutive dates, entry `i` lies `i` days after the first. */
  lemma {:induction false} ConsecutiveFrom(week: seq<int>, i: nat)
    requires i < |week|
    requires forall k :: 0 <= k < |week| - 1 ==> week[k + 1] == week[k] + 1
    ensures week[i] == week[0] + i
  {
    if i > 0 {
      ConsecutiveFrom(week, i - 1);
    }
  }

  // ---------------------------------------------------------------------

  datatype Button = Previous | Next

  /** `all_dates.index(active_date)`. */
  function IndexOf(dates: seq<int>, date: int): (i: nat)
    requires date in dates
    ensures i < |dates| && dates[i] == date
    ensures forall k :: 0 <= k < i ==> dates[k] != date
  {
    if dates[0] == date then 0 else 1 + IndexOf(dates[1..], date)
  }

  /**
   * app.py:173-180: Previous moves to the closest earlier date and Next to
   * the closest later date; at the first (last) date the button does nothing.
   */
  function Navigate(dates: seq<int>, active: int, pressed: Button): (r: int)
    requires StrictlyIncreasing(dates) && active in dates
    ensures r in dates
    ensures pressed == Previous ==>
              && (r == active <==> forall d :: d in dates ==> active <= d)
              && (r != active ==> r < active && forall d :: d in dates && d < active ==> d <= r)
    ensures pressed == Next ==>
              && (r == active <==> forall d :: d in dates ==> d <= active)
              && (r != active ==> active < r && forall d :: d in dates && active < d ==> r <= d)
  {
    var idx := IndexOf(dates, active);
    if pressed == Previous && idx > 0 then dates[idx - 1]
    else if pressed == Next && idx < |dates| - 1 then dates[idx + 1]
    else active
  }

  /** The index moves by exactly one, and only while it stays within the dates. */
  lemma NavigateIndex(dates: seq<int>, active: int, pressed: Button)
    requires StrictlyIncreasing(dates) && active in dates
    ensures var i := IndexOf(dates, active);
            var j := IndexOf(dates, Navigate(dates, active, pressed));
            && (pressed == Previous ==> j == if i > 0 then i - 1 else i)
            && (pressed == Next ==> j == if i < |dates| - 1 then i + 1 else i)
  {
    var i := IndexOf(dates, active);
    var r := Navigate(dates, active, pressed);
    var j := IndexOf(dates, r);
    if j != i {
      if j < i - 1 || j > i + 1 {
        assert dates[j] == r;
      }
    }
  }

  /** Next followed by Previous comes back, unless Next was stuck at the last date. */
  lemma NextThenPrevious(dates: seq<int>, active: int)
    requires StrictlyIncreasing(dates) && active in dates
    requires Navigate(dates, active, Next) != active
    ensures Navigate(dates, Navigate(dates, active, Next), Previous) == active
  {
    var n := Navigate(dates, active, Next);
    var p := Navigate(dates, n, Previous);
    assert active < n;
    assert p != n;
  }
}
