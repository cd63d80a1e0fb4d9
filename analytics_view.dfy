/**
 * The analytics view: the completion and efficiency percentages, a mock
 * average completion time, one progress bar per status, the priority mix,
 * and the recent-activity list.  The two `Math.random()` draws it makes on
 * every render are parameters.
 */
module AnalyticsView {
  import opened Wrappers
  import opened Types
  import opened TaskStats
  import JsNumber
  import Dashboard

  /** `Math.min(100, completionRate + Math.random() * 20)` */
  function Efficiency(rate: real, draw: real): (e: real)
    ensures e <= 100.0
    ensures 0.0 <= draw < 1.0 && rate <= 100.0 ==> rate <= e < rate + 20.0
  {
    if rate + draw * 20.0 < 100.0 then rate + draw * 20.0 else 100.0
  }

  /** `Math.floor(Math.random() * 5 + 2)`: a whole number of days from 2 to 6. */
  function AvgCompletionDays(draw: real): (d: int)
    ensures 0.0 <= draw < 1.0 ==> 2 <= d <= 6
  {
    (draw * 5.0 + 2.0).Floor
  }

  /**
   * The width of a status bar, `(count / total) * 100` percent; the
   * division is not guarded, so an empty list gives `NaN` (here `None`).
   */
  function BarWidth(count: nat, total: nat): (w: Option<real>)
    ensures w.None? <==> total == 0
    ensures w.Some? ==> w.value * total as real == count as real * 100.0
  {
    if total == 0 then None else Some(count as real / total as real * 100.0)
  }

  datatype Bars = Bars(completed: Option<real>, inProgress: Option<real>, todo: Option<real>)

  function StatusBars(ts: seq<Task>): (b: Bars)
    ensures b.completed.None? <==> ts == []
    ensures b.inProgress.None? <==> ts == []
    ensures b.todo.None? <==> ts == []
    ensures ts != [] ==> b.completed.value + b.inProgress.value + b.todo.value == 100.0
  {
    var st := ComputeStats(ts);
    var b := Bars(BarWidth(st.completed, st.total), BarWidth(st.inProgress, st.total), BarWidth(st.todo, st.total));
    if ts == [] then b
    else
      WidthsSum(st.completed, st.inProgress, st.todo, st.total);
      b
  }

  lemma WidthsSum(a: nat, b: nat, c: nat, t: nat)
    requires 0 < t && a + b + c == t
    ensures BarWidth(a, t).value + BarWidth(b, t).value + BarWidth(c, t).value == 100.0
  {
    var tr := t as real;
    var x, y, z := BarWidth(a, t).value, BarWidth(b, t).value, BarWidth(c, t).value;
    var sum := x + y + z;
    calc {
      sum * tr;
      x * tr + y * tr + z * tr;
      a as real * 100.0 + b as real * 100.0 + c as real * 100.0;
      (a + b + c) as real * 100.0;
      tr * 100.0;
    }
    assert (sum - 100.0) * tr == 0.0;
  }

  datatype PriorityMix = PriorityMix(high: nat, medium: nat, low: nat)

  /** The priority breakdown: each figure is the count of its own priority. */
  function Priorities(ts: seq<Task>): (m: PriorityMix)
    ensures m.high == CountPriority(ts, High) && m.medium == CountPriority(ts, Medium)
    ensures m.low == CountPriority(ts, Low)
    ensures m.high + m.medium + m.low == |ts|
  {
    PriorityCountsSum(ts);
    PriorityMix(CountPriority(ts, High), CountPriority(ts, Medium), CountPriority(ts, Low))
  }

  /** `tasks.slice(0, 5)`: the first five tasks in store order. */
  function RecentActivity(ts: seq<Task>): (r: seq<Task>)
    ensures |r| == if |ts| < 5 then |ts| else 5
    ensures forall i :: 0 <= i < |r| ==> r[i] == ts[i]
  {
    ts[..if |ts| < 5 then |ts| else 5]
  }

  /**
   * The store appends new tasks at the end, so once it holds five tasks the
   * recent-activity list never shows a newly added one.
   */
  lemma RecentIgnoresNewTasks(ts: seq<Task>, t: Task)
    requires 5 <= |ts|
    ensures RecentActivity(ts + [t]) == RecentActivity(ts)
    ensures t !in RecentActivity(ts) ==> t !in RecentActivity(ts + [t])
  {
    assert (ts + [t])[..5] == ts[..5];
  }

  /**
   * The three key-metric cards, with the percentages as `toFixed(0)` prints
   * them.  The completion card shows the same figure as the dashboard's
   * Productivity card (the two roundings agree on these values), so the
   * share lemmas proved there apply to it.
   */
  datatype Cards = Cards(completionPercent: int, efficiencyPercent: int, avgDays: int)

  function ShowCards(ts: seq<Task>, efficiencyDraw: real, daysDraw: real): (c: Cards)
    requires 0.0 <= efficiencyDraw < 1.0 && 0.0 <= daysDraw < 1.0
    ensures 0 <= c.completionPercent <= c.efficiencyPercent <= 100
    ensures 2 <= c.avgDays <= 6
    ensures c.completionPercent == Dashboard.ShowCards(ts).productivity
  {
    var st := ComputeStats(ts);
    var rate := CompletionRate(st);
    var e := Efficiency(rate, efficiencyDraw);
    ToFixedMonotone(rate, e);
    JsNumber.RoundAgreesWithToFixed(rate);
    Cards(JsNumber.ToFixed0(rate), JsNumber.ToFixed0(e), AvgCompletionDays(daysDraw))
  }

  /** The completion card reads 0 exactly when the list is empty or under 0.5% of it is completed. */
  lemma CompletionZeroIff(ts: seq<Task>, efficiencyDraw: real, daysDraw: real)
    requires 0.0 <= efficiencyDraw < 1.0 && 0.0 <= daysDraw < 1.0
    ensures ShowCards(ts, efficiencyDraw, daysDraw).completionPercent == 0
        <==> ts == [] || CountStatus(ts, Completed) * 200 < |ts|
  {
    Dashboard.ProductivityZeroIff(ts);
  }

  lemma ToFixedMonotone(x: real, y: real)
    requires 0.0 <= x <= y <= 100.0
    ensures 0 <= JsNumber.ToFixed0(x) <= JsNumber.ToFixed0(y) <= 100
  {
    JsNumber.RoundAgreesWithToFixed(x);
    JsNumber.RoundAgreesWithToFixed(y);
    assert (x + 0.5).Floor <= (y + 0.5).Floor;
  }
}
