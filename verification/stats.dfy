/**
 * `completion_stats` (analytics/stats.py:3-6): the share of completed tasks
 * as a percentage, 0 for no tasks.  Computed exactly over `real`.
 */
module Stats {
  import opened Streak

  /** `df["completed"].sum()`: the number of completed tasks. */
  function Done(tasks: seq<StoredTask>): (n: nat)
    ensures n <= |tasks|
    ensures n == |tasks| <==> forall i :: 0 <= i < |tasks| ==> tasks[i].completed
    ensures n == 0 <==> forall i :: 0 <= i < |tasks| ==> !tasks[i].completed
  {
    if tasks == [] then 0
    else
      var rest := Done(tasks[1..]);
      assert forall i :: 1 <= i < |tasks| ==> tasks[i] == tasks[1..][i - 1];
      (if tasks[0].completed then 1 else 0) + rest
  }

  /**
   * `(done / total) * 100` when there are tasks, else 0.  The percentage lies
   * in [0, 100], is 100 exactly when every task is completed and 0 exactly
   * when none is.
   */
  function CompletionPercent(tasks: seq<StoredTask>): (r: real)
    ensures tasks == [] ==> r == 0.0
    ensures tasks != [] ==> r * (|tasks| as real) == (Done(tasks) as real) * 100.0
    ensures 0.0 <= r <= 100.0
    ensures r == 100.0 <==> tasks != [] && forall i :: 0 <= i < |tasks| ==> tasks[i].completed
    ensures r == 0.0 <==> forall i :: 0 <= i < |tasks| ==> !tasks[i].completed
  {
    if tasks == [] then 0.0 else Percent(Done(tasks), |tasks|)
  }

  /** `done / total * 100` for 0 <= done <= total, total > 0. */
  function Percent(done: nat, total: nat): (r: real)
    requires 0 < total && done <= total
    ensures r * (total as real) == (done as real) * 100.0
    ensures 0.0 <= r <= 100.0
    ensures r == 100.0 <==> done == total
    ensures r == 0.0 <==> done == 0
  {
    var q := (done as real) / (total as real);
    QuotientFacts(done as real, total as real);
    assert (q * 100.0) * (total as real) == (q * (total as real)) * 100.0;
    q * 100.0
  }

  /** The share `d / n` of a part `d` of a positive whole `n`. */
  lemma QuotientFacts(d: real, n: real)
    requires 0.0 < n && 0.0 <= d <= n
    ensures (d / n) * n == d
    ensures 0.0 <= d / n <= 1.0
    ensures d / n == 1.0 <==> d == n
    ensures d / n == 0.0 <==> d == 0.0
  {
    var q := d / n;
    assert q * n == d;
    assert q == 1.0 ==> d == n;
    assert q == 0.0 ==> d == 0.0;
  }
}
