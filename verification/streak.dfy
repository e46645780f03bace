/**
 * `calculate_streak` (app.py:17-59): group the stored tasks by date, call a
 * date complete when all its tasks are, and measure the longest run of
 * complete dates and the run that ends at the last date on or before the
 * anchor.  Dates are day ordinals; comparing them as integers agrees with
 * the source's comparison of ISO date strings.
 */
module Streak {

  /** A row of the `tasks` table as the app loads it. */
  datatype StoredTask = StoredTask(id: int, date: int, subject: string, topic: string, hours: real, completed: bool)

  /** One entry of `day_status`: a date and whether all its tasks are done. */
  datatype DayFlag = DayFlag(date: int, complete: bool)

  /** Flags in strictly increasing date order: one flag per date. */
  predicate StrictlySorted(s: seq<DayFlag>) {
    forall i, j :: 0 <= i < j < |s| ==> s[i].date < s[j].date
  }

  ghost function FlagDates(s: seq<DayFlag>): set<int> {
    set k | 0 <= k < |s| :: s[k].date
  }

  ghost function TaskDates(tasks: seq<StoredTask>): set<int> {
    set i | 0 <= i < |tasks| :: tasks[i].date
  }

  /** Every task on `date` is completed (vacuously so when there is none). */
  ghost predicate AllDoneOn(tasks: seq<StoredTask>, date: int) {
    forall i :: 0 <= i < |tasks| && tasks[i].date == date ==> tasks[i].completed
  }

  /** Every entry of `s` on `date` is complete. */
  ghost predicate FlagOn(s: seq<DayFlag>, date: int) {
    forall k :: 0 <= k < |s| && s[k].date == date ==> s[k].complete
  }

  lemma FlagDatesCons(x: DayFlag, s: seq<DayFlag>)
    ensures FlagDates([x] + s) == {x.date} + FlagDates(s)
  {
    var r := [x] + s;
    forall d | d in FlagDates(r) ensures d in {x.date} + FlagDates(s) {
      var k :| 0 <= k < |r| && r[k].date == d;
      if k > 0 {
        assert s[k - 1].date == d;
      }
    }
    forall d | d in FlagDates(s) ensures d in FlagDates(r) {
      var k :| 0 <= k < |s| && s[k].date == d;
      assert r[k + 1].date == d;
    }
    assert r[0].date == x.date;
  }

  lemma FlagOnCons(x: DayFlag, s: seq<DayFlag>)
    ensures forall d :: FlagOn([x] + s, d) == ((x.date == d ==> x.complete) && FlagOn(s, d))
  {
    var r := [x] + s;
    forall d ensures FlagOn(r, d) == ((x.date == d ==> x.complete) && FlagOn(s, d)) {
      if FlagOn(r, d) {
        forall k | 0 <= k < |s| && s[k].date == d ensures s[k].complete {
          assert r[k + 1] == s[k];
        }
        assert r[0] == x;
      }
      if (x.date == d ==> x.complete) && FlagOn(s, d) {
        forall k | 0 <= k < |r| && r[k].date == d ensures r[k].complete {
          if k > 0 {
            assert r[k] == s[k - 1];
          }
        }
      }
    }
  }

  /** Add one task to a date-sorted grouping, and-ing it into its date's flag. */
  function Insert(s: seq<DayFlag>, t: StoredTask): seq<DayFlag>
  {
    if s == [] then [DayFlag(t.date, t.completed)]
    else if t.date < s[0].date then [DayFlag(t.date, t.completed)] + s
    else if t.date == s[0].date then [DayFlag(t.date, s[0].complete && t.completed)] + s[1..]
    else [s[0]] + Insert(s[1..], t)
  }

  /** Insertion adds the task's date to the grouping's dates. */
  lemma {:induction false} InsertDates(s: seq<DayFlag>, t: StoredTask)
    ensures FlagDates(Insert(s, t)) == FlagDates(s) + {t.date}
  {
    var x := DayFlag(t.date, t.completed);
    if s == [] {
      FlagDatesCons(x, []);
    } else if t.date < s[0].date {
      FlagDatesCons(x, s);
    } else {
      assert s == [s[0]] + s[1..];
      FlagDatesCons(s[0], s[1..]);
      if t.date == s[0].date {
        FlagDatesCons(DayFlag(t.date, s[0].complete && t.completed), s[1..]);
      } else {
        InsertDates(s[1..], t);
        FlagDatesCons(s[0], Insert(s[1..], t));
      }
    }
  }

  /** Insertion keeps the grouping sorted by date, without repeats. */
  lemma {:induction false} InsertSorted(s: seq<DayFlag>, t: StoredTask)
    requires StrictlySorted(s)
    ensures StrictlySorted(Insert(s, t))
  {
    if s != [] && t.date > s[0].date {
      var rest := Insert(s[1..], t);
      InsertSorted(s[1..], t);
      InsertDates(s[1..], t);
      forall k | 0 <= k < |rest| ensures s[0].date < rest[k].date {
        assert rest[k].date in FlagDates(rest);
      }
    }
  }

  /** Insertion and-s the task's completion into its date's flag and leaves the others alone. */
  lemma {:induction false} InsertFlags(s: seq<DayFlag>, t: StoredTask)
    requires StrictlySorted(s)
    ensures forall d :: FlagOn(Insert(s, t), d) == (FlagOn(s, d) && (d == t.date ==> t.completed))
  {
    var x := DayFlag(t.date, t.completed);
    if s == [] {
      FlagOnCons(x, []);
    } else if t.date < s[0].date {
      FlagOnCons(x, s);
    } else {
      assert s == [s[0]] + s[1..];
      FlagOnCons(s[0], s[1..]);
      if t.date == s[0].date {
        FlagOnCons(DayFlag(t.date, s[0].complete && t.completed), s[1..]);
      } else {
        InsertFlags(s[1..], t);
        FlagOnCons(s[0], Insert(s[1..], t));
      }
    }
  }

  /**
   * `df.groupby("date")["completed"].apply(all).sort_index()` (app.py:30-34):
   * one entry per distinct date, in ascending order, complete exactly when
   * every task on that date is completed.
   */
  function DayStatus(tasks: seq<StoredTask>): (r: seq<DayFlag>)
    ensures StrictlySorted(r)
    ensures FlagDates(r) == TaskDates(tasks)
    ensures forall d :: FlagOn(r, d) == AllDoneOn(tasks, d)
  {
    if tasks == [] then []
    else
      var init := tasks[..|tasks| - 1];
      var r := Insert(DayStatus(init), tasks[|tasks| - 1]);
      InsertDates(DayStatus(init), tasks[|tasks| - 1]);
      InsertSorted(DayStatus(init), tasks[|tasks| - 1]);
      InsertFlags(DayStatus(init), tasks[|tasks| - 1]);
      assert TaskDates(tasks) == TaskDates(init) + {tasks[|tasks| - 1].date};
      assert forall d :: AllDoneOn(tasks, d)
                         == (AllDoneOn(init, d) && (tasks[|tasks| - 1].date == d ==> tasks[|tasks| - 1].completed));
      r
  }

  /** In a date-sorted grouping the flag of an entry is its date's flag. */
  lemma FlagOnEntry(s: seq<DayFlag>, k: nat)
    requires StrictlySorted(s) && k < |s|
    ensures FlagOn(s, s[k].date) == s[k].complete
  {
  }

  /** Each date's flag says whether all tasks on that date are completed. */
  lemma DayStatusFlags(tasks: seq<StoredTask>, k: nat)
    requires k < |DayStatus(tasks)|
    ensures DayStatus(tasks)[k].date in TaskDates(tasks)
    ensures DayStatus(tasks)[k].complete == AllDoneOn(tasks, DayStatus(tasks)[k].date)
  {
    FlagOnEntry(DayStatus(tasks), k);
  }

  /** A date-sorted grouping has one entry per distinct date. */
  lemma {:induction false} SortedDatesCount(s: seq<DayFlag>)
    requires StrictlySorted(s)
    ensures |FlagDates(s)| == |s|
  {
    if s != [] {
      SortedDatesCount(s[1..]);
      assert FlagDates(s) == {s[0].date} + FlagDates(s[1..]);
      assert s[0].date !in FlagDates(s[1..]);
    }
  }

  function Flags(s: seq<DayFlag>): (f: seq<bool>)
    ensures |f| == |s|
  {
    seq(|s|, k requires 0 <= k < |s| => s[k].complete)
  }

  // ---------------------------------------------------------------------
  // Runs of complete dates.

  /** `f[i..j]` is all true. */
  ghost predicate IsRun(f: seq<bool>, i: int, j: int) {
    0 <= i <= j <= |f| && forall k :: i <= k < j ==> f[k]
  }

  /** `n` is the length of a longest run of true in `f`. */
  ghost predicate IsLongestRun(f: seq<bool>, n: int) {
    && (exists i, j :: IsRun(f, i, j) && j - i == n)
    && (forall i, j :: IsRun(f, i, j) ==> j - i <= n)
  }

  /** `n` is the length of the run of true that ends `f`. */
  ghost predicate IsTrailingRun(f: seq<bool>, n: int) {
    0 <= n <= |f| && IsRun(f, |f| - n, |f|) && (n == |f| || !f[|f| - n - 1])
  }

  /** The best-streak loop (app.py:37-45). */
  method LongestRun(f: seq<bool>) returns (best: nat)
    ensures IsLongestRun(f, best)
  {
    best := 0;
    var running := 0;
    var k := 0;
    assert IsRun(f, 0, 0);
    while k < |f|
      invariant 0 <= running <= k <= |f|
      invariant IsRun(f, k - running, k) && (running < k ==> !f[k - running - 1])
      invariant running <= best
      invariant exists i, j :: IsRun(f, i, j) && j <= k && j - i == best
      invariant forall i, j :: IsRun(f, i, j) && j <= k ==> j - i <= best
    {
      if f[k] {
        running := running + 1;
        best := if best < running then running else best;
        assert IsRun(f, k + 1 - running, k + 1);
      } else {
        running := 0;
      }
      forall i, j | IsRun(f, i, j) && j == k + 1
        ensures j - i <= best
      {
      }
      k := k + 1;
    }
  }

  /** The current-streak loop (app.py:53-57), scanning backwards and stopping at the first incomplete date. */
  method TrailingRun(f: seq<bool>) returns (current: nat)
    ensures IsTrailingRun(f, current)
  {
    current := 0;
    var k := |f|;
    while k > 0
      invariant 0 <= k <= |f| && current == |f| - k
      invariant IsRun(f, k, |f|)
    {
      if f[k - 1] {
        current := current + 1;
        k := k - 1;
      } else {
        break;
      }
    }
  }

  /** `day_status[day_status.index <= active_date]` (app.py:51). */
  function Relevant(s: seq<DayFlag>, anchor: int): (r: seq<DayFlag>)
    ensures forall x :: x in r <==> x in s && x.date <= anchor
  {
    if s == [] then []
    else (if s[0].date <= anchor then [s[0]] else []) + Relevant(s[1..], anchor)
  }

  /** In a date-sorted grouping the dates up to the anchor form a prefix. */
  lemma {:induction false} RelevantIsPrefix(s: seq<DayFlag>, anchor: int)
    requires StrictlySorted(s)
    ensures |Relevant(s, anchor)| <= |s|
    ensures Relevant(s, anchor) == s[..|Relevant(s, anchor)|]
  {
    if s != [] {
      var tail := s[1..];
      assert StrictlySorted(tail) by {
        forall i, j | 0 <= i < j < |tail| ensures tail[i].date < tail[j].date {
          assert tail[i] == s[i + 1] && tail[j] == s[j + 1];
        }
      }
      RelevantIsPrefix(tail, anchor);
      if s[0].date <= anchor {
        PrefixCons(s, Relevant(tail, anchor));
      } else {
        forall k | 0 <= k < |tail| ensures tail[k].date > anchor {
          assert tail[k] == s[k + 1];
        }
        NoneRelevant(tail, anchor);
      }
    }
  }

  /** Putting back the first entry in front of a prefix of the rest gives a prefix. */
  lemma PrefixCons(s: seq<DayFlag>, p: seq<DayFlag>)
    requires s != [] && |p| <= |s| - 1 && p == s[1..][..|p|]
    ensures [s[0]] + p == s[..|p| + 1]
  {
  }

  /** Nothing is kept when every date lies after the anchor. */
  lemma {:induction false} NoneRelevant(s: seq<DayFlag>, anchor: int)
    requires forall k :: 0 <= k < |s| ==> s[k].date > anchor
    ensures Relevant(s, anchor) == []
  {
    if s != [] {
      assert forall k :: 0 <= k < |s| - 1 ==> s[1..][k] == s[k + 1];
      NoneRelevant(s[1..], anchor);
    }
  }

  lemma TrailingRunWithinLongest(f: seq<bool>, n: nat, current: nat, best: nat)
    requires n <= |f|
    requires IsTrailingRun(f[..n], current) && IsLongestRun(f, best)
    ensures current <= best <= |f|
  {
    assert IsRun(f, n - current, n) by {
      forall k | n - current <= k < n ensures f[k] {
        assert f[..n][k] == f[k];
      }
    }
  }

  /**
   * `calculate_streak(df, active_date)`: `best` is the longest run of
   * complete dates over the whole history, `current` the run of complete
   * dates ending at the last date on or before the anchor, and
   * `current <= best <= number of distinct dates`.
   */
  method CalculateStreak(tasks: seq<StoredTask>, anchor: int) returns (current: nat, best: nat)
    ensures tasks == [] ==> current == 0 && best == 0
    ensures IsLongestRun(Flags(DayStatus(tasks)), best)
    ensures IsTrailingRun(Flags(Relevant(DayStatus(tasks), anchor)), current)
    ensures current <= best <= |TaskDates(tasks)|
  {
    if |tasks| == 0 {
      assert IsRun(Flags(DayStatus(tasks)), 0, 0);
      return 0, 0;
    }
    var status := DayStatus(tasks);
    best := LongestRun(Flags(status));
    var relevant := Relevant(status, anchor);
    current := TrailingRun(Flags(relevant));
    RelevantIsPrefix(status, anchor);
    assert Flags(relevant) == Flags(status)[..|relevant|];
    TrailingRunWithinLongest(Flags(status), |relevant|, current, best);
    SortedDatesCount(status);
  }

  /** The best streak is 0 exactly when no date is complete. */
  lemma LongestRunZero(f: seq<bool>, best: int)
    requires IsLongestRun(f, best)
    ensures best == 0 <==> forall k :: 0 <= k < |f| ==> !f[k]
  {
    if exists k :: 0 <= k < |f| && f[k] {
      var k :| 0 <= k < |f| && f[k];
      assert IsRun(f, k, k + 1);
    }
    if best != 0 {
      var i, j :| IsRun(f, i, j) && j - i == best;
      assert f[i];
    }
  }

  /** The current streak is 0 exactly when no date qualifies or the last one is incomplete. */
  lemma TrailingRunZero(f: seq<bool>, current: int)
    requires IsTrailingRun(f, current)
    ensures current == 0 <==> f == [] || !f[|f| - 1]
  {
  }
}
