/** The query the lookup reply is built from:
    `TodoTasks.OrderByDescending(x => x.TaskID).Take(n)`. */
module TaskOrdering {
  import opened Wrappers
  import opened Entity

  /** Comparer<long?>.Default seen from a descending sort: `a` ranks at
      least as high as `b`, a null identity ranking below every value. */
  predicate IdAtLeast(a: Option<int>, b: Option<int>)
  {
    b.None? || (a.Some? && a.value >= b.value)
  }

  ghost predicate SortedByTaskIdDesc(ts: seq<TodoTask>)
    reads ts
  {
    forall i, j :: 0 <= i < j < |ts| ==> IdAtLeast(ts[i].TaskID, ts[j].TaskID)
  }

  /** Places `t` before the first task it ranks at least as high as, so that
      among equal identities the earlier task stays first. */
  function InsertByTaskIdDesc(t: TodoTask, ts: seq<TodoTask>): (r: seq<TodoTask>)
    reads t, ts
    ensures multiset(r) == multiset(ts) + multiset{t}
  {
    if ts == [] || IdAtLeast(t.TaskID, ts[0].TaskID) then
      [t] + ts
    else
      assert ts == [ts[0]] + ts[1..];
      [ts[0]] + InsertByTaskIdDesc(t, ts[1..])
  }

  /** Every task of the insertion is `t` or a task of `ts`. */
  lemma InsertedFrom(t: TodoTask, ts: seq<TodoTask>, x: TodoTask)
    requires x in InsertByTaskIdDesc(t, ts)
    ensures x == t || x in ts
  {
    assert x in multiset(InsertByTaskIdDesc(t, ts));
  }

  lemma {:induction false} InsertKeepsSorted(t: TodoTask, ts: seq<TodoTask>)
    requires SortedByTaskIdDesc(ts)
    ensures SortedByTaskIdDesc(InsertByTaskIdDesc(t, ts))
  {
    if ts != [] && !IdAtLeast(t.TaskID, ts[0].TaskID) {
      var tail := ts[1..];
      var rest := InsertByTaskIdDesc(t, tail);
      InsertKeepsSorted(t, tail);
      assert forall j :: 0 <= j < |tail| ==> IdAtLeast(ts[0].TaskID, tail[j].TaskID) by {
        forall j | 0 <= j < |tail| ensures IdAtLeast(ts[0].TaskID, tail[j].TaskID) {
          assert tail[j] == ts[j + 1];
        }
      }
      forall x | x in rest ensures IdAtLeast(ts[0].TaskID, x.TaskID) {
        InsertedFrom(t, tail, x);
      }
      var r := [ts[0]] + rest;
      assert r == InsertByTaskIdDesc(t, ts);
      forall i, j | 0 <= i < j < |r| ensures IdAtLeast(r[i].TaskID, r[j].TaskID) {
        if i > 0 {
          assert r[i] == rest[i - 1] && r[j] == rest[j - 1];
        } else {
          assert r[j] in rest;
        }
      }
    }
  }

  lemma SameMembers(a: seq<TodoTask>, b: seq<TodoTask>)
    requires multiset(a) == multiset(b)
    ensures forall x :: x in a ==> x in b
  {
    forall x | x in a ensures x in b {
      assert x in multiset(a);
    }
  }

  /** Enumerable.OrderByDescending on TaskID: a stable insertion sort, so
      the result is a permutation of the input. */
  function OrderByTaskIdDesc(ts: seq<TodoTask>): (r: seq<TodoTask>)
    reads ts
    ensures multiset(r) == multiset(ts)
  {
    if ts == [] then []
    else
      assert ts == [ts[0]] + ts[1..];
      var sorted := OrderByTaskIdDesc(ts[1..]);
      SameMembers(sorted, ts[1..]);
      assert forall i :: 0 <= i < |sorted| ==> sorted[i] in ts;
      InsertByTaskIdDesc(ts[0], sorted)
  }

  lemma {:induction false} OrderByTaskIdDescSorted(ts: seq<TodoTask>)
    ensures SortedByTaskIdDesc(OrderByTaskIdDesc(ts))
  {
    if ts != [] {
      OrderByTaskIdDescSorted(ts[1..]);
      InsertKeepsSorted(ts[0], OrderByTaskIdDesc(ts[1..]));
    }
  }

  /** At most this many reminders are listed in reply to a lookup. */
  const MaxListed := 5

  function Min(a: int, b: int): int { if a < b then a else b }

  /** `OrderByDescending(x => x.TaskID).Take(Math.Min(count, 5))`. */
  function LatestReminders(ts: seq<TodoTask>): (r: seq<TodoTask>)
    reads ts
    ensures |r| == Min(|ts|, MaxListed)
    ensures forall x :: x in r ==> x in ts
  {
    var sorted := OrderByTaskIdDesc(ts);
    var n := Min(|ts|, MaxListed);
    assert |multiset(sorted)| == |sorted|;
    SameMembers(sorted, ts);
    sorted[..n]
  }

  /** The listed reminders are some of the tasks, each occurrence listed at
      most once, highest identity first. */
  lemma LatestRemindersSorted(ts: seq<TodoTask>)
    ensures multiset(LatestReminders(ts)) <= multiset(ts)
    ensures SortedByTaskIdDesc(LatestReminders(ts))
  {
    var sorted := OrderByTaskIdDesc(ts);
    var n := Min(|ts|, MaxListed);
    assert |multiset(sorted)| == |sorted|;
    assert sorted == sorted[..n] + sorted[n..];
    OrderByTaskIdDescSorted(ts);
  }

  /** The listed reminders are the highest-ranked ones: any task left out
      (an occurrence not taken) ranks no higher than every task listed. */
  lemma LatestRemindersAreLargest(ts: seq<TodoTask>, u: TodoTask, x: TodoTask)
    requires u in LatestReminders(ts)
    requires multiset(LatestReminders(ts))[x] < multiset(ts)[x]
    ensures IdAtLeast(u.TaskID, x.TaskID)
  {
    var sorted := OrderByTaskIdDesc(ts);
    var n := Min(|ts|, MaxListed);
    assert sorted == sorted[..n] + sorted[n..];
    assert multiset(sorted[n..])[x] > 0;
    assert x in sorted[n..];
    OrderByTaskIdDescSorted(ts);
    var j :| n <= j < |sorted| && sorted[j] == x;
    var i :| 0 <= i < n && sorted[i] == u;
  }
}
