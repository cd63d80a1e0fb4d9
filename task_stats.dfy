/**
 * The `stats` object the dashboard and the analytics view both compute from
 * the task list: the total, a count per status, the number of high-priority
 * tasks, and the completion percentage guarded against an empty list.
 */
module TaskStats {
  import opened Types

  /** `tasks.filter(t => t.status === s).length` */
  function CountStatus(ts: seq<Task>, s: Status): (n: nat)
    ensures n <= |ts|
  {
    if ts == [] then 0 else (if ts[0].status == s then 1 else 0) + CountStatus(ts[1..], s)
  }

  /** `tasks.filter(t => t.priority === p).length` */
  function CountPriority(ts: seq<Task>, p: Priority): (n: nat)
    ensures n <= |ts|
  {
    if ts == [] then 0 else (if ts[0].priority == p then 1 else 0) + CountPriority(ts[1..], p)
  }

  /** Every task has exactly one status, so the three status counts add up to the total. */
  lemma {:induction false} StatusCountsSum(ts: seq<Task>)
    ensures CountStatus(ts, Completed) + CountStatus(ts, InProgress) + CountStatus(ts, Todo) == |ts|
  {
    if ts != [] {
      StatusCountsSum(ts[1..]);
    }
  }

  /** Every task has exactly one priority, so the three priority counts add up to the total. */
  lemma {:induction false} PriorityCountsSum(ts: seq<Task>)
    ensures CountPriority(ts, High) + CountPriority(ts, Medium) + CountPriority(ts, Low) == |ts|
  {
    if ts != [] {
      PriorityCountsSum(ts[1..]);
    }
  }

  /** Counting distributes over concatenation. */
  lemma {:induction false} CountStatusAppend(a: seq<Task>, b: seq<Task>, s: Status)
    ensures CountStatus(a + b, s) == CountStatus(a, s) + CountStatus(b, s)
  {
    if a == [] {
      assert a + b == b;
    } else {
      assert (a + b)[0] == a[0];
      assert (a + b)[1..] == a[1..] + b;
      CountStatusAppend(a[1..], b, s);
    }
  }

  /** A task appended by `addTask` raises the count of its own status by one and no other. */
  lemma CountAfterAppend(ts: seq<Task>, t: Task, s: Status)
    ensures CountStatus(ts + [t], s) == CountStatus(ts, s) + (if t.status == s then 1 else 0)
  {
    CountStatusAppend(ts, [t], s);
  }

  datatype Stats = Stats(total: nat, completed: nat, inProgress: nat, todo: nat, highPriority: nat)

  /** The `stats` object: each field is the count of its own status or priority. */
  function ComputeStats(ts: seq<Task>): (st: Stats)
    ensures st.total == |ts|
    ensures st.completed == CountStatus(ts, Completed)
    ensures st.inProgress == CountStatus(ts, InProgress)
    ensures st.todo == CountStatus(ts, Todo)
    ensures st.highPriority == CountPriority(ts, High)
    ensures st.completed + st.inProgress + st.todo == st.total
    ensures st.highPriority <= st.total
  {
    StatusCountsSum(ts);
    Stats(|ts|, CountStatus(ts, Completed), CountStatus(ts, InProgress), CountStatus(ts, Todo),
          CountPriority(ts, High))
  }

  /** `stats.total > 0 ? (stats.completed / stats.total) * 100 : 0` */
  function CompletionRate(st: Stats): (rate: real)
    requires st.completed <= st.total
    ensures 0.0 <= rate <= 100.0
    ensures rate == 0.0 <==> st.completed == 0
    ensures rate == 100.0 <==> 0 < st.total && st.completed == st.total
    ensures rate * st.total as real == st.completed as real * 100.0
  {
    if st.total > 0 then
      var q := st.completed as real / st.total as real;
      assert q * st.total as real == st.completed as real;
      assert q <= 1.0;
      assert q == 1.0 ==> st.completed == st.total;
      q * 100.0
    else 0.0
  }

  /** Comparing the percentage with a threshold is comparing the counts, cross-multiplied. */
  lemma RateBelow(st: Stats, x: real)
    requires st.completed <= st.total && 0 < st.total
    ensures CompletionRate(st) < x <==> st.completed as real * 100.0 < x * st.total as real
  {
    var rate, t := CompletionRate(st), st.total as real;
    if rate < x {
      assert rate * t < x * t;
    } else {
      assert rate * t >= x * t;
    }
  }
}
