/**
 * The dashboard's six stat cards: the total, the three status counts (the
 * completed card also shows the completion percentage), the high-priority
 * count, and Productivity, the completion percentage rounded.
 */
module Dashboard {
  import opened Types
  import opened TaskStats
  import JsNumber

  datatype Cards = Cards(
    total: nat,
    completed: nat,
    percentDone: int,
    inProgress: nat,
    todo: nat,
    highPriority: nat,
    productivity: int)

  /**
   * Each count card shows its own count; the completed card's percentage
   * and Productivity both show the completed share of the list, rounded to
   * the nearest whole percent (0 for an empty list).
   */
  function ShowCards(ts: seq<Task>): (c: Cards)
    ensures c.total == |ts| && c.completed + c.inProgress + c.todo == c.total
    ensures c.completed == CountStatus(ts, Completed) && c.inProgress == CountStatus(ts, InProgress)
    ensures c.todo == CountStatus(ts, Todo) && c.highPriority == CountPriority(ts, High)
    ensures 0 <= c.productivity <= 100 && c.productivity == c.percentDone
    ensures c.productivity == JsNumber.Round(CompletionRate(ComputeStats(ts)))
  {
    var st := ComputeStats(ts);
    var rate := CompletionRate(st);
    JsNumber.RoundAgreesWithToFixed(rate);
    Cards(st.total, st.completed, JsNumber.ToFixed0(rate), st.inProgress, st.todo, st.highPriority,
          JsNumber.Round(rate))
  }

  /**
   * Productivity is the completed share of the list rounded to the nearest
   * whole percent: within half a percent of `completed / total`, and 0 for
   * an empty list.
   */
  lemma ProductivityIsShare(ts: seq<Task>)
    ensures ts == [] ==> ShowCards(ts).productivity == 0
    ensures ts != [] ==> var st := ComputeStats(ts);
      WithinHalfPercent(ShowCards(ts).productivity, st.completed, st.total)
  {
    if ts == [] {
      EmptyShowsZero();
    } else {
      var st := ComputeStats(ts);
      RoundedShare(CompletionRate(st), ShowCards(ts).productivity, st.completed, st.total);
    }
  }

  /** `n` percent is within half a percent of the share `c / t`, cross-multiplied by `t`. */
  predicate WithinHalfPercent(n: int, c: nat, t: nat) {
    (n as real - 0.5) * t as real <= c as real * 100.0 < (n as real + 0.5) * t as real
  }

  /** A share `c` of `t`, as a percentage `rate`, within half a percent of `n`. */
  lemma RoundedShare(rate: real, n: int, c: nat, t: nat)
    requires 0 < t && rate * t as real == c as real * 100.0
    requires n as real - 0.5 <= rate < n as real + 0.5
    ensures WithinHalfPercent(n, c, t)
  {
    ScaledBelow(rate, n as real + 0.5, t as real, c as real * 100.0);
    ScaledAtMost(n as real - 0.5, rate, t as real, c as real * 100.0);
  }

  /** `x` at most `y` scales to `x * t` at most `y * t`; `p` names the second product. */
  lemma ScaledAtMost(x: real, y: real, t: real, p: real)
    requires x <= y && 0.0 < t && p == y * t
    ensures x * t <= p
  {
    if x < y {
      ScaledBelow(x, y, t, x * t);
    }
  }

  /** `x` below `y` scales to `x * t` below `y * t`; `p` names the first product. */
  lemma ScaledBelow(x: real, y: real, t: real, p: real)
    requires x < y && 0.0 < t && p == x * t
    ensures p < y * t
  {
    PositiveProduct(y - x, t);
    assert (y - x) * t == y * t - x * t;
  }

  lemma PositiveProduct(x: real, y: real)
    requires 0.0 < x && 0.0 < y
    ensures 0.0 < x * y
  {
  }

  /** An empty list shows no tasks and 0% everywhere. */
  lemma EmptyShowsZero()
    ensures ShowCards([]) == Cards(0, 0, 0, 0, 0, 0, 0)
  {
    assert CompletionRate(ComputeStats([])) == 0.0;
    assert JsNumber.Round(0.0) == 0;
  }

  /** How the rounded percentage of `c` out of `t` compares with 0 and 100. */
  lemma RoundedPercent(rate: real, c: nat, t: nat)
    requires 0 < t && c <= t && rate * t as real == c as real * 100.0 && 0.0 <= rate <= 100.0
    ensures JsNumber.Round(rate) == 0 <==> c * 200 < t
    ensures JsNumber.Round(rate) == 100 <==> c * 200 >= t * 199
  {
    RoundEnds(rate);
    PercentBelow(rate, c, t, 0.5, 200, 1);
    PercentBelow(rate, c, t, 99.5, 200, 199);
  }

  lemma RoundEnds(x: real)
    requires 0.0 <= x <= 100.0
    ensures JsNumber.Round(x) == 0 <==> x < 0.5
    ensures JsNumber.Round(x) == 100 <==> x >= 99.5
  {
  }

  /** With `rate * t == c * 100`, comparing `rate` with `a / b * 100` compares `c * b` with `t * a`. */
  lemma PercentBelow(rate: real, c: nat, t: nat, x: real, b: nat, a: nat)
    requires 0 < t && 0 < b && rate * t as real == c as real * 100.0 && x * b as real == a as real * 100.0
    ensures rate < x <==> c * b < t * a
  {
    var cp, xt := c as real * 100.0, x * t as real;
    ScaleCompare(rate, x, t);
    ScaleCompare(cp, xt, b);
    assert cp * b as real == (c * b) as real * 100.0;
    assert xt * b as real == (t * a) as real * 100.0 by {
      assert xt * b as real == (x * b as real) * t as real;
    }
  }

  lemma ScaleCompare(x: real, y: real, t: nat)
    requires 0 < t
    ensures x < y <==> x * t as real < y * t as real
  {
    if x < y {
      assert x * t as real < y * t as real;
    } else {
      assert x * t as real >= y * t as real;
    }
  }

  /** The rounded completion percentage is 0 below 0.5% and 100 from 99.5% on. */
  lemma RoundedRateEnds(st: Stats)
    requires st.completed <= st.total && 0 < st.total
    ensures JsNumber.Round(CompletionRate(st)) == 0 <==> st.completed * 200 < st.total
    ensures JsNumber.Round(CompletionRate(st)) == 100 <==> st.completed * 200 >= st.total * 199
  {
    RoundedPercent(CompletionRate(st), st.completed, st.total);
  }

  /** Productivity reads 0 exactly when the list is empty or fewer than 0.5% of its tasks are completed. */
  lemma ProductivityZeroIff(ts: seq<Task>)
    ensures ShowCards(ts).productivity == 0 <==> ts == [] || CountStatus(ts, Completed) * 200 < |ts|
  {
    if ts == [] {
      EmptyShowsZero();
    } else {
      RoundedRateEnds(ComputeStats(ts));
    }
  }

  /** Productivity reads 100 exactly when at least 99.5% of the tasks are completed. */
  lemma ProductivityFullIff(ts: seq<Task>)
    ensures ShowCards(ts).productivity == 100
        <==> ts != [] && CountStatus(ts, Completed) * 200 >= |ts| * 199
  {
    if ts == [] {
      EmptyShowsZero();
    } else {
      RoundedRateEnds(ComputeStats(ts));
    }
  }
}
