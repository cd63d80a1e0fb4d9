/**
 * The scripted agent timeline.  `startSimulation` marks the run active,
 * empties the feed and sets one timer per script entry; each timer appends
 * that entry's message when it fires, stamped with the time it actually
 * runs, and the last one sets a further timer, 2000 ms after that moment,
 * that clears the active flag.  `clearMessages` empties the feed and clears
 * the flag.  Timers run on a single-threaded event loop: of the pending
 * timers the earliest fires next, the first set among equals.  Nothing ever
 * cancels a timer.
 */
module AgentSimulation {
  import opened Wrappers
  import opened Types
  import Agents
  import Decimal

  /** One line of the script: who speaks, what, what kind of message, and after how many ms. */
  datatype ScriptEntry = ScriptEntry(agentId: string, content: string, kind: MessageType, delay: nat)

  const Script: seq<ScriptEntry> := [
    ScriptEntry("pm",
      "Analyzing requirements for the futuristic task manager. Breaking down into 6 core modules: UI/UX, 3D rendering, authentication, API design, testing, and documentation.",
      Analysis, 1000),
    ScriptEntry("research",
      "Recommending Three.js with @react-three/fiber for 3D components. GSAP for animations. WebGL shaders for neon effects. Performance target: 60fps on mid-range devices.",
      Analysis, 2000),
    ScriptEntry("frontend",
      "Implementing 3D task cubes with hover animations. Using React Suspense for lazy loading. Component architecture: TaskCube, Scene, Dashboard, AgentPanel.",
      Code, 3000),
    ScriptEntry("backend",
      "RESTful API design: /api/tasks (CRUD), /api/auth (JWT), /api/users. MongoDB schema with indexing on status and priority fields for optimal queries.",
      Code, 4000),
    ScriptEntry("qa",
      "Test suite includes: Unit tests for task operations, Integration tests for API endpoints, E2E tests for 3D interactions. Coverage target: 90%+",
      Analysis, 5000),
    ScriptEntry("docs",
      "Documentation structure: README.md, API.md, DEPLOYMENT.md, ARCHITECTURE.md. Including setup instructions, tech stack overview, and contribution guidelines.",
      Completion, 6000),
    ScriptEntry("pm",
      "All agents reporting progress. Estimated completion: Frontend 85%, Backend 70%, Testing 60%, Documentation 80%. Prioritizing core 3D functionality.",
      Discussion, 7000)
  ]

  /** The agent speaking each script line, in order. */
  const ScriptSpeakers: seq<string> := ["pm", "research", "frontend", "backend", "qa", "docs", "pm"]

  /** How long the active flag outlives the last script entry. */
  const SettleDelay: nat := 2000

  /** The delays strictly increase along the script, so its timers fire in script order. */
  ghost predicate Timed(script: seq<ScriptEntry>) {
    forall i, j :: 0 <= i < j < |script| ==> script[i].delay < script[j].delay
  }

  /** Seven entries, one second apart. */
  lemma ScriptDelays()
    ensures |Script| == 7
    ensures forall i :: 0 <= i < |Script| ==> Script[i].delay == 1000 * (i + 1)
    ensures Timed(Script)
  {
    forall i | 0 <= i < |Script|
      ensures Script[i].delay == 1000 * (i + 1)
    {
      if i == 0 {} else if i == 1 {} else if i == 2 {} else if i == 3 {} else if i == 4 {} else if i == 5 {} else {}
    }
  }

  /** The script's speakers, in order, all from the roster. */
  lemma ScriptSpeakersKnown()
    ensures forall i :: 0 <= i < |Script| ==> Script[i].agentId == ScriptSpeakers[i]
    ensures forall i :: 0 <= i < |Script| ==> Agents.OnRoster(Agents.Roster, Script[i].agentId)
  {
    Agents.RosterShape();
    forall i | 0 <= i < |Script|
      ensures Script[i].agentId == ScriptSpeakers[i] && Script[i].agentId in Agents.RosterIds
    {
      if i == 0 {} else if i == 1 {} else if i == 2 {} else if i == 3 {} else if i == 4 {} else if i == 5 {} else {}
    }
  }

  // ---------------------------------------------------------------- messages

  /** `${agentId}-${Date.now()}-${index}` */
  function MessageId(agentId: string, now: Timestamp, index: nat): string {
    DashJoin([agentId, Decimal.IntToString(now), Decimal.NatToString(index)])
  }

  /** The parts joined with dashes, as a template literal `${a}-${b}-${c}` does. */
  function DashJoin(parts: seq<string>): string {
    if |parts| <= 1 then (if parts == [] then "" else parts[0])
    else DashJoin(parts[..|parts| - 1]) + "-" + parts[|parts| - 1]
  }

  lemma DashJoinThree(a: string, b: string, c: string)
    ensures DashJoin([a, b, c]) == a + "-" + b + "-" + c
  {
    assert [a, b][..1] == [a];
    assert DashJoin([a, b]) == a + "-" + b;
    assert [a, b, c][..2] == [a, b];
    assert DashJoin([a, b, c]) == DashJoin([a, b]) + "-" + c;
  }

  /** The text after the last dash is determined by the whole string. */
  lemma SameTailAfterDash(p: string, d: string, q: string, e: string)
    requires '-' !in d && '-' !in e
    requires p + "-" + d == q + "-" + e
    ensures d == e
  {
    var x := p + "-" + d;
    assert x == q + "-" + e;
    assert x[|p|] == '-' && x[|q|] == '-';
    assert forall i :: |p| < i < |x| ==> x[i] == d[i - |p| - 1];
    assert forall i :: |q| < i < |x| ==> x[i] == e[i - |q| - 1];
    assert |p| == |q|;
    assert d == x[|p| + 1..] == e;
  }

  /** Two script positions never share a message id, whatever the clock says. */
  lemma MessageIdsDistinct(a1: string, t1: Timestamp, i1: nat, a2: string, t2: Timestamp, i2: nat)
    requires i1 != i2
    ensures MessageId(a1, t1, i1) != MessageId(a2, t2, i2)
  {
    var d1, d2 := Decimal.NatToString(i1), Decimal.NatToString(i2);
    DashJoinThree(a1, Decimal.IntToString(t1), d1);
    DashJoinThree(a2, Decimal.IntToString(t2), d2);
    if MessageId(a1, t1, i1) == MessageId(a2, t2, i2) {
      SameTailAfterDash(a1 + "-" + Decimal.IntToString(t1), d1, a2 + "-" + Decimal.IntToString(t2), d2);
      Decimal.NatToStringInjective(i1, i2);
    }
  }

  /** The message built by the callback of the timer for entry `e` at position `i`, firing at `at`. */
  function Emitted(i: nat, e: ScriptEntry, at: Timestamp): AgentMessage {
    AgentMessage(MessageId(e.agentId, at, i), e.agentId, e.content, at, e.kind)
  }

  /** The message script entry `i` produces when its timer fires at `at`. */
  function ScriptMessage(script: seq<ScriptEntry>, i: nat, at: Timestamp): AgentMessage
    requires i < |script|
  {
    Emitted(i, script[i], at)
  }

  // ---------------------------------------------------------------- timers and states
  //
  // The timeline is stated for any script; `Script` is the one the hook runs.

  /**
   * A pending setTimeout.  An entry's timer carries what its callback closed
   * over: the entry, its position, and whether that position is the last.
   */
  datatype Timer =
    | Emit(index: nat, entry: ScriptEntry, last: bool, due: Timestamp)
    | Deactivate(due: Timestamp)   // the nested setTimeout that clears isActive

  /** The hook's state plus the event loop's timer queue, in the order the timers were set. */
  datatype SimState = SimState(
    messages: seq<AgentMessage>,
    isActive: bool,
    pending: seq<Timer>,
    clock: Timestamp)

  /** The feed's timestamps are in order and not in the future. */
  ghost predicate Inv(s: SimState) {
    && (forall i, j :: 0 <= i < j < |s.messages| ==> s.messages[i].timestamp <= s.messages[j].timestamp)
    && (forall i :: 0 <= i < |s.messages| ==> s.messages[i].timestamp <= s.clock)
  }

  /** A user action at `now`: the clock has not gone back. */
  ghost predicate CanAct(s: SimState, now: Timestamp) {
    s.clock <= now
  }

  /**
   * Timer `j` is what the event loop runs next: due no later than any other,
   * and set before any other timer with the same due time.
   */
  ghost predicate IsNext(s: SimState, j: nat) {
    && j < |s.pending|
    && (forall i :: 0 <= i < |s.pending| ==> s.pending[j].due <= s.pending[i].due)
    && (forall i :: 0 <= i < j ==> s.pending[i].due != s.pending[j].due)
  }

  /**
   * The event loop may run timer `j` at `at`: it is next, and `at` is no
   * earlier than its due time or the clock.  `setTimeout` promises only
   * that a callback does not run early, so any such `at` can happen.
   */
  ghost predicate FiresAt(s: SimState, j: nat, at: Timestamp) {
    IsNext(s, j) && s.pending[j].due <= at && s.clock <= at
  }

  /** At most one timer is next: the event loop is deterministic. */
  lemma NextIsUnique(s: SimState, j: nat, k: nat)
    requires IsNext(s, j) && IsNext(s, k)
    ensures j == k
  {
    assert s.pending[j].due <= s.pending[k].due <= s.pending[j].due;
  }

  /** The timers one startSimulation call at `start` sets, in the order the forEach sets them. */
  function Schedule(script: seq<ScriptEntry>, start: Timestamp): seq<Timer> {
    seq(|script|, i requires 0 <= i < |script| => Emit(i, script[i], i == |script| - 1, start + script[i].delay))
  }

  /** `startSimulation()` at `now`. */
  function Start(script: seq<ScriptEntry>, s: SimState, now: Timestamp): SimState {
    SimState([], true, s.pending + Schedule(script, now), now)
  }

  /** `clearMessages()`: the pending timers are left alone. */
  function Clear(s: SimState): SimState {
    s.(messages := [], isActive := false)
  }

  /**
   * The event loop runs the callback of pending timer `j` at `at`: the
   * message's id and timestamp read the clock then, and the deactivation
   * is set 2000 ms after that moment.  The callback reads the clock twice,
   * `Date.now()` for the id and `new Date()` for the timestamp; both are
   * taken as the one moment `at`.
   */
  function Fire(s: SimState, j: nat, at: Timestamp): SimState
    requires j < |s.pending|
  {
    var rest := s.pending[..j] + s.pending[j + 1..];
    match s.pending[j]
    case Emit(i, e, last, _) =>
      SimState(s.messages + [Emitted(i, e, at)], s.isActive,
               if last then rest + [Deactivate(at + SettleDelay)] else rest,
               at)
    case Deactivate(_) =>
      SimState(s.messages, false, rest, at)
  }

  lemma StartKeepsInv(script: seq<ScriptEntry>, s: SimState, now: Timestamp)
    requires Inv(s) && CanAct(s, now)
    ensures Inv(Start(script, s, now))
  {
  }

  lemma FireKeepsInv(s: SimState, j: nat, at: Timestamp)
    requires Inv(s) && j < |s.pending| && s.clock <= at
    ensures Inv(Fire(s, j, at))
  {
  }

  /**
   * A firing at `at` appends exactly one message, copied from its entry and
   * stamped with `at`, and leaves the flag alone; only the last entry's
   * timer sets the deactivation timer, due 2000 ms after `at`.
   */
  lemma EmitAppendsOne(s: SimState, j: nat, at: Timestamp)
    requires j < |s.pending| && s.pending[j].Emit?
    ensures var t, r := s.pending[j], Fire(s, j, at);
      && |r.messages| == |s.messages| + 1 && r.messages[..|s.messages|] == s.messages
      && r.messages[|s.messages|].agentId == t.entry.agentId
      && r.messages[|s.messages|].content == t.entry.content
      && r.messages[|s.messages|].kind == t.entry.kind
      && r.messages[|s.messages|].timestamp == at == r.clock
      && r.messages[|s.messages|].id == MessageId(t.entry.agentId, at, t.index)
      && r.isActive == s.isActive
      && |r.pending| == |s.pending| - (if t.last then 0 else 1)
      && (t.last ==> r.pending[|r.pending| - 1] == Deactivate(at + SettleDelay))
  {
    var t := s.pending[j];
    assert Fire(s, j, at).messages == s.messages + [Emitted(t.index, t.entry, at)];
    assert |s.pending[..j] + s.pending[j + 1..]| == |s.pending| - 1;
  }

  /** A deactivation timer clears the flag and leaves the feed alone. */
  lemma DeactivateClearsFlag(s: SimState, j: nat, at: Timestamp)
    requires j < |s.pending| && s.pending[j].Deactivate?
    ensures var r := Fire(s, j, at);
      && !r.isActive && r.messages == s.messages && |r.pending| == |s.pending| - 1
      && r.clock == at
  {
    assert |s.pending[..j] + s.pending[j + 1..]| == |s.pending| - 1;
  }

  // ---------------------------------------------------------------- runs

  /** One turn of the event loop: run the timer at position `index` at time `at`. */
  datatype Firing = Firing(index: nat, at: Timestamp)

  /** Runs the firings one after another, each only if the event loop may run it then. */
  ghost function FireAll(s: SimState, fs: seq<Firing>): Option<SimState> {
    if fs == [] then Some(s)
    else
      match FireAll(s, fs[..|fs| - 1])
      case None => None
      case Some(r) =>
        var f := fs[|fs| - 1];
        if FiresAt(r, f.index, f.at) then Some(Fire(r, f.index, f.at)) else None
  }

  /** Running one more timer after a run is what the event loop does when it may run that timer. */
  lemma FireAllSnoc(s: SimState, fs: seq<Firing>, r: SimState, f: Firing)
    requires FireAll(s, fs) == Some(r)
    requires FiresAt(r, f.index, f.at)
    ensures FireAll(s, fs + [f]) == Some(Fire(r, f.index, f.at))
  {
    assert (fs + [f])[..|fs|] == fs;
  }

  /** Firings of the timer at the head of the queue, at the times `ats`. */
  function Heads(ats: seq<Timestamp>): seq<Firing> {
    seq(|ats|, i requires 0 <= i < |ats| => Firing(0, ats[i]))
  }

  lemma HeadsSnoc(ats: seq<Timestamp>, k: nat)
    requires k < |ats|
    ensures Heads(ats[..k]) + [Firing(0, ats[k])] == Heads(ats[..k + 1])
  {
  }

  /**
   * Times at which the entries of a run started at `start` may fire, one per
   * entry: none before its entry is due, and in order.
   */
  ghost predicate FireTimes(script: seq<ScriptEntry>, start: Timestamp, ats: seq<Timestamp>) {
    && |ats| == |script|
    && (forall i :: 0 <= i < |ats| ==> start + script[i].delay <= ats[i])
    && (forall i, j :: 0 <= i < j < |ats| ==> ats[i] <= ats[j])
  }

  /** Every timer firing exactly when it is due. */
  function OnTime(script: seq<ScriptEntry>, start: Timestamp): (ats: seq<Timestamp>)
    ensures |ats| == |script|
    ensures forall i :: 0 <= i < |ats| ==> ats[i] == start + script[i].delay
  {
    seq(|script|, i requires 0 <= i < |script| => start + script[i].delay)
  }

  /** With increasing delays, the due times themselves are fire times. */
  lemma OnTimeFireTimes(script: seq<ScriptEntry>, start: Timestamp)
    requires Timed(script)
    ensures FireTimes(script, start, OnTime(script, start))
  {
  }

  /** The feed after the first `k` entries have fired at the times `ats`. */
  function ExpectedFeed(script: seq<ScriptEntry>, ats: seq<Timestamp>, k: nat): seq<AgentMessage>
    requires k <= |script| && k <= |ats|
  {
    if k == 0 then []
    else ExpectedFeed(script, ats, k - 1) + [ScriptMessage(script, k - 1, ats[k - 1])]
  }

  /** Message `i` of the feed is script entry `i`, stamped with the time its timer fired. */
  lemma {:induction false} ExpectedFeedEntries(script: seq<ScriptEntry>, ats: seq<Timestamp>, k: nat)
    requires k <= |script| && k <= |ats|
    ensures |ExpectedFeed(script, ats, k)| == k
    ensures forall i :: 0 <= i < k ==> ExpectedFeed(script, ats, k)[i] == ScriptMessage(script, i, ats[i])
  {
    if k > 0 {
      ExpectedFeedEntries(script, ats, k - 1);
      var f, m := ExpectedFeed(script, ats, k - 1), ScriptMessage(script, k - 1, ats[k - 1]);
      assert ExpectedFeed(script, ats, k) == f + [m];
      assert forall i :: 0 <= i < k - 1 ==> (f + [m])[i] == f[i];
    }
  }

  /** The deactivation timer queued once all `k` entries have fired. */
  function Settling(script: seq<ScriptEntry>, ats: seq<Timestamp>, k: nat): seq<Timer>
    requires k <= |script| && k <= |ats|
  {
    if 0 < k == |script| then [Deactivate(ats[k - 1] + SettleDelay)] else []
  }

  lemma AppendAssoc<T>(a: seq<T>, b: seq<T>, c: seq<T>)
    ensures a + b + c == a + (b + c)
  {
  }

  /**
   * With the timers of entries `k..` at the head of the queue (followed by
   * `extra` ones due no earlier), entry `k` is the next to fire, and firing
   * it at `at` appends its message.
   */
  lemma FireNextEntry(script: seq<ScriptEntry>, s: SimState, start: Timestamp, ats: seq<Timestamp>, k: nat,
                      extra: seq<Timer>)
    requires Timed(script) && k < |script| == |ats|
    requires s.pending == Schedule(script, start)[k..] + extra
    requires forall i :: 0 <= i < |extra| ==> start + script[k].delay <= extra[i].due
    ensures IsNext(s, 0) && s.pending[0] == Schedule(script, start)[k]
    ensures Fire(s, 0, ats[k]) ==
      SimState(s.messages + [ScriptMessage(script, k, ats[k])], s.isActive,
               Schedule(script, start)[k + 1..] + extra + Settling(script, ats, k + 1),
               ats[k])
  {
    var sched := Schedule(script, start);
    assert s.pending[0] == sched[k];
    forall i | 0 <= i < |s.pending|
      ensures s.pending[0].due <= s.pending[i].due
    {
      if i < |sched| - k {
        assert s.pending[i] == sched[k + i];
      }
    }
    assert s.pending[1..] == sched[k + 1..] + extra;
  }

  /**
   * The state after the first `k` entries of a run started at `start` from
   * `s` have fired at the times `ats`: the feed extended by their messages,
   * the flag as it was, the rest of the run queued.
   */
  function RunState(script: seq<ScriptEntry>, s: SimState, start: Timestamp, ats: seq<Timestamp>, k: nat): SimState
    requires k <= |script| && k <= |ats|
  {
    SimState(s.messages + ExpectedFeed(script, ats, k), s.isActive,
             Schedule(script, start)[k..] + Settling(script, ats, k),
             if k == 0 then s.clock else ats[k - 1])
  }

  lemma FeedGrows(script: seq<ScriptEntry>, msgs: seq<AgentMessage>, ats: seq<Timestamp>, k: nat)
    requires 0 < k <= |script| && k <= |ats|
    ensures msgs + ExpectedFeed(script, ats, k - 1) + [ScriptMessage(script, k - 1, ats[k - 1])]
         == msgs + ExpectedFeed(script, ats, k)
  {
    AppendAssoc(msgs, ExpectedFeed(script, ats, k - 1), [ScriptMessage(script, k - 1, ats[k - 1])]);
  }

  /**
   * One step of a run: the head of the queue is entry `k - 1`, the event
   * loop may run it at its fire time, and doing so gives the next run state.
   */
  lemma RunStep(script: seq<ScriptEntry>, s: SimState, start: Timestamp, ats: seq<Timestamp>, k: nat)
    requires Timed(script) && FireTimes(script, start, ats) && 0 < k <= |script|
    requires s.clock <= start
    ensures var r := RunState(script, s, start, ats, k - 1);
      && FiresAt(r, 0, ats[k - 1]) && r.pending[0] == Schedule(script, start)[k - 1]
      && Fire(r, 0, ats[k - 1]) == RunState(script, s, start, ats, k)
  {
    var sched := Schedule(script, start);
    var r := RunState(script, s, start, ats, k - 1);
    assert r.pending == sched[k - 1..] + [];
    FireNextEntry(script, r, start, ats, k - 1, []);
    FeedGrows(script, s.messages, ats, k);
    assert sched[k..] + [] == sched[k..];
    assert r.clock <= ats[k - 1] by {
      if k > 1 {
        assert ats[k - 2] <= ats[k - 1];
      } else {
        assert start + script[0].delay <= ats[0];
      }
    }
  }

  /** Before any firing, the run state is the state the run started from. */
  lemma RunStateZero(script: seq<ScriptEntry>, s: SimState, start: Timestamp, ats: seq<Timestamp>)
    requires s.pending == Schedule(script, start)
    ensures RunState(script, s, start, ats, 0) == s
  {
    assert s.messages + [] == s.messages;
    assert Schedule(script, start)[0..] + [] == s.pending;
  }

  /** A run that has reached entry `k - 1` goes on to entry `k`. */
  lemma RunExtends(script: seq<ScriptEntry>, s: SimState, start: Timestamp, ats: seq<Timestamp>, k: nat)
    requires Timed(script) && FireTimes(script, start, ats) && 0 < k <= |script|
    requires s.clock <= start
    requires FireAll(s, Heads(ats[..k - 1])) == Some(RunState(script, s, start, ats, k - 1))
    ensures FireAll(s, Heads(ats[..k])) == Some(RunState(script, s, start, ats, k))
  {
    RunStep(script, s, start, ats, k);
    FireAllSnoc(s, Heads(ats[..k - 1]), RunState(script, s, start, ats, k - 1), Firing(0, ats[k - 1]));
    HeadsSnoc(ats, k - 1);
  }

  /**
   * From a state whose queue is exactly one run's timers, the first `k`
   * firings each take the head of the queue, whenever at or after their
   * due times they run, and they leave the feed extended by the first `k`
   * script messages with the flag untouched.
   */
  lemma {:induction false} RunEntries(script: seq<ScriptEntry>, s: SimState, start: Timestamp,
                                      ats: seq<Timestamp>, k: nat)
    requires Timed(script) && FireTimes(script, start, ats) && k <= |script|
    requires s.pending == Schedule(script, start) && s.clock <= start
    ensures FireAll(s, Heads(ats[..k])) == Some(RunState(script, s, start, ats, k))
  {
    if k == 0 {
      RunStateZero(script, s, start, ats);
    } else {
      RunEntries(script, s, start, ats, k - 1);
      RunExtends(script, s, start, ats, k);
    }
  }

  /** Once every entry has fired, only the deactivation timer is left. */
  lemma RunFinished(script: seq<ScriptEntry>, s: SimState, start: Timestamp, ats: seq<Timestamp>)
    requires |script| > 0 && |ats| == |script|
    ensures var n, last := |script|, ats[|script| - 1];
      RunState(script, s, start, ats, n)
        == SimState(s.messages + ExpectedFeed(script, ats, n), s.isActive, [Deactivate(last + SettleDelay)], last)
  {
    var n := |script|;
    var sched := Schedule(script, start);
    assert |sched| == n;
    var tail := Settling(script, ats, n);
    assert sched[n..] + tail == tail;
  }

  /**
   * An undisturbed run of a script, its timers firing at the times `ats`
   * and the deactivation at `d`: once its last entry has fired, the feed is
   * the script's messages in script order and the flag is still set; the
   * only timer left is the deactivation, due 2000 ms after the last entry
   * actually fired, which clears the flag.
   */
  lemma UndisturbedRun(script: seq<ScriptEntry>, s: SimState, start: Timestamp, ats: seq<Timestamp>, d: Timestamp)
    requires Timed(script) && |script| > 0 && FireTimes(script, start, ats)
    requires s.pending == []
    requires ats[|ats| - 1] + SettleDelay <= d
    ensures var n, last := |script|, ats[|script| - 1];
      && FireAll(Start(script, s, start), Heads(ats))
         == Some(SimState(ExpectedFeed(script, ats, n), true, [Deactivate(last + SettleDelay)], last))
      && FireAll(Start(script, s, start), Heads(ats) + [Firing(0, d)])
         == Some(SimState(ExpectedFeed(script, ats, n), false, [], d))
  {
    var n, last := |script|, ats[|script| - 1];
    var s1 := Start(script, s, start);
    var r := SimState(ExpectedFeed(script, ats, n), true, [Deactivate(last + SettleDelay)], last);
    RunReachesSettle(script, s, start, ats);
    assert FiresAt(r, 0, d);
    assert r.pending[..0] + r.pending[1..] == [];
    FireAllSnoc(s1, Heads(ats), r, Firing(0, d));
  }

  /** The first half of `UndisturbedRun`: every entry fires and the deactivation is queued. */
  lemma RunReachesSettle(script: seq<ScriptEntry>, s: SimState, start: Timestamp, ats: seq<Timestamp>)
    requires Timed(script) && |script| > 0 && FireTimes(script, start, ats)
    requires s.pending == []
    ensures var n, last := |script|, ats[|script| - 1];
      FireAll(Start(script, s, start), Heads(ats))
        == Some(SimState(ExpectedFeed(script, ats, n), true, [Deactivate(last + SettleDelay)], last))
  {
    var n := |script|;
    var s1 := Start(script, s, start);
    assert s1.pending == Schedule(script, start);
    RunEntries(script, s1, start, ats, n);
    RunFinished(script, s1, start, ats);
    assert [] + ExpectedFeed(script, ats, n) == ExpectedFeed(script, ats, n);
    assert ats[..n] == ats;
  }

  /**
   * The hook's own script: seven messages, the flag still set after the
   * last, then cleared by a deactivation due 2000 ms after the last message
   * actually arrived.
   */
  lemma UndisturbedScriptRun(s: SimState, start: Timestamp, ats: seq<Timestamp>, d: Timestamp)
    requires s.pending == [] && FireTimes(Script, start, ats) && ats[6] + 2000 <= d
    ensures FireAll(Start(Script, s, start), Heads(ats))
         == Some(SimState(ExpectedFeed(Script, ats, 7), true, [Deactivate(ats[6] + 2000)], ats[6]))
    ensures FireAll(Start(Script, s, start), Heads(ats) + [Firing(0, d)])
         == Some(SimState(ExpectedFeed(Script, ats, 7), false, [], d))
  {
    ScriptTimed();
    UndisturbedRun(Script, s, start, ats, d);
  }

  /** Seven entries in delay order. */
  lemma ScriptTimed()
    ensures |Script| == 7 && Timed(Script)
  {
    ScriptDelays();
  }

  /** The due times of the hook's script, one second apart from start + 1000. */
  lemma ScriptOnTime(start: Timestamp)
    ensures OnTime(Script, start) == [start + 1000, start + 2000, start + 3000, start + 4000,
                                      start + 5000, start + 6000, start + 7000]
  {
    ScriptDelays();
  }

  /**
   * When every timer fires exactly when due, the hook's script posts one
   * message a second from start + 1000 to start + 7000 and clears the flag
   * at start + 9000.
   */
  lemma OnTimeScriptRun(s: SimState, start: Timestamp)
    requires s.pending == []
    ensures OnTime(Script, start) == [start + 1000, start + 2000, start + 3000, start + 4000,
                                      start + 5000, start + 6000, start + 7000]
    ensures FireAll(Start(Script, s, start), Heads(OnTime(Script, start)) + [Firing(0, start + 9000)])
         == Some(SimState(ExpectedFeed(Script, OnTime(Script, start), 7), false, [], start + 9000))
  {
    ScriptOnTime(start);
    ScriptTimed();
    OnTimeFireTimes(Script, start);
    UndisturbedScriptRun(s, start, OnTime(Script, start), start + 9000);
  }

  /**
   * Clearing does not cancel: cleared right after starting, the run still
   * fills the feed with every script message while the flag stays false.
   */
  lemma ClearDoesNotCancel(script: seq<ScriptEntry>, s: SimState, start: Timestamp, ats: seq<Timestamp>)
    requires Timed(script) && |script| > 0 && FireTimes(script, start, ats)
    requires s.pending == []
    ensures FireAll(Clear(Start(script, s, start)), Heads(ats))
         == Some(SimState(ExpectedFeed(script, ats, |script|), false,
                          Settling(script, ats, |script|), ats[|script| - 1]))
  {
    var s1 := Clear(Start(script, s, start));
    assert s1.pending == Schedule(script, start);
    RunEntries(script, s1, start, ats, |script|);
    assert ats[..|script|] == ats;
    assert [] + ExpectedFeed(script, ats, |script|) == ExpectedFeed(script, ats, |script|);
    assert Schedule(script, start)[|script|..] + Settling(script, ats, |script|) == Settling(script, ats, |script|);
  }

  /**
   * Restarting does not cancel either: when a finished run's deactivation
   * timer (due at `d`) is still queued and a new run starts at `t1` whose
   * first entry is due before `d` and second entry not before, the new run
   * emits its first message (at `a1`) and then the old timer (at `a2`)
   * clears the flag while the rest of the new run is still queued.
   */
  lemma StaleDeactivation(script: seq<ScriptEntry>, done: SimState, t1: Timestamp, d: Timestamp,
                          a1: Timestamp, a2: Timestamp)
    requires Timed(script) && |script| >= 2
    requires done.pending == [Deactivate(d)]
    requires t1 + script[0].delay < d <= t1 + script[1].delay
    requires t1 + script[0].delay <= a1 && d <= a2 && a1 <= a2
    ensures FireAll(Start(script, done, t1), [Firing(1, a1), Firing(0, a2)])
         == Some(SimState([ScriptMessage(script, 0, a1)], false, Schedule(script, t1)[1..], a2))
  {
    var sched := Schedule(script, t1);
    var s1 := Start(script, done, t1);
    var s2 := SimState([ScriptMessage(script, 0, a1)], true, [Deactivate(d)] + sched[1..], a1);
    RestartFiresFirst(script, done, t1, d, a1);
    StaleTimerNext(script, t1, d, s2);
    FireAllSnoc(s1, [], s1, Firing(1, a1));
    FireAllSnoc(s1, [Firing(1, a1)], s2, Firing(0, a2));
    assert [Firing(1, a1)] + [Firing(0, a2)] == [Firing(1, a1), Firing(0, a2)];
    assert s2.pending[..0] + s2.pending[1..] == sched[1..];
  }

  /** After a restart the new run's first entry is next, ahead of the old deactivation. */
  lemma RestartFiresFirst(script: seq<ScriptEntry>, done: SimState, t1: Timestamp, d: Timestamp, a1: Timestamp)
    requires Timed(script) && |script| >= 2
    requires done.pending == [Deactivate(d)]
    requires t1 + script[0].delay < d
    ensures var s1 := Start(script, done, t1);
      && IsNext(s1, 1)
      && Fire(s1, 1, a1) == SimState([ScriptMessage(script, 0, a1)], true, [Deactivate(d)] + Schedule(script, t1)[1..], a1)
  {
    var sched := Schedule(script, t1);
    var s1 := Start(script, done, t1);
    assert s1.pending == [Deactivate(d)] + sched;
    forall i | 0 <= i < |s1.pending|
      ensures s1.pending[1].due <= s1.pending[i].due
    {
      if i > 0 {
        assert s1.pending[i] == sched[i - 1];
      }
    }
    assert s1.pending[1] == sched[0] == Emit(0, script[0], false, t1 + script[0].delay);
    assert s1.pending[..1] + s1.pending[2..] == [Deactivate(d)] + sched[1..];
  }

  /** The old deactivation, due no later than the rest of the new run, is next. */
  lemma StaleTimerNext(script: seq<ScriptEntry>, t1: Timestamp, d: Timestamp, s2: SimState)
    requires Timed(script) && |script| >= 2
    requires d <= t1 + script[1].delay
    requires s2.pending == [Deactivate(d)] + Schedule(script, t1)[1..]
    ensures IsNext(s2, 0)
  {
    var sched := Schedule(script, t1);
    forall i | 0 <= i < |s2.pending|
      ensures d <= s2.pending[i].due
    {
      if i > 0 {
        assert s2.pending[i] == sched[i];
      }
    }
  }

  /**
   * The hook's own script: a run started at 0 whose timers fired on time
   * has finished (the flag still set, the deactivation due at 9000).  A
   * restart at 7500 has its first new message at 8500 or later, then the
   * old run's deactivation clears the flag while six entries of the new run
   * are still queued.
   */
  lemma StaleDeactivationEndsRestartedRun(done: SimState, a1: Timestamp, a2: Timestamp)
    requires done.pending == [Deactivate(9000)] && done.clock == 7000
    requires 8500 <= a1 <= a2 && 9000 <= a2
    ensures CanAct(done, 7500)
    ensures FireAll(Start(Script, done, 7500), [Firing(1, a1), Firing(0, a2)])
         == Some(SimState([ScriptMessage(Script, 0, a1)], false, Schedule(Script, 7500)[1..], a2))
  {
    ScriptDelays();
    StaleDeactivation(Script, done, 7500, 9000, a1, a2);
  }

  // ---------------------------------------------------------------- the hook

  /** useAgentSimulation's state, with the timer queue and the clock made explicit. */
  class Simulation {
    const script: seq<ScriptEntry>
    var messages: seq<AgentMessage>
    var isActive: bool
    var pending: seq<Timer>
    var clock: Timestamp

    function State(): SimState
      reads this
    {
      SimState(messages, isActive, pending, clock)
    }

    constructor (now: Timestamp)
      ensures script == Script
      ensures State() == SimState([], false, [], now) && Inv(State())
    {
      script := Script;
      messages := [];
      isActive := false;
      pending := [];
      clock := now;
    }

    method StartSimulation(now: Timestamp)
      requires Inv(State()) && CanAct(State(), now)
      modifies this
      ensures State() == Start(script, old(State()), now) && Inv(State())
    {
      var timers := pending;
      for i := 0 to |script|
        invariant timers == pending + Schedule(script, now)[..i]
      {
        timers := timers + [Emit(i, script[i], i == |script| - 1, now + script[i].delay)];
      }
      assert Schedule(script, now)[..|script|] == Schedule(script, now);
      StartKeepsInv(script, State(), now);
      // React batches the state updates of one call into one render.
      isActive := true;
      messages := [];
      pending := timers;
      clock := now;
    }

    method ClearMessages()
      requires Inv(State())
      modifies this
      ensures State() == Clear(old(State())) && Inv(State())
    {
      messages := [];
      isActive := false;
    }

    /** The event loop runs the callback of the next pending timer at `at`. */
    method RunTimer(j: nat, at: Timestamp)
      requires Inv(State()) && FiresAt(State(), j, at)
      modifies this
      ensures State() == Fire(old(State()), j, at) && Inv(State())
    {
      FireKeepsInv(State(), j, at);
      var t := pending[j];
      pending := pending[..j] + pending[j + 1..];
      clock := at;
      match t
      case Emit(i, e, last, _) =>
        messages := messages + [Emitted(i, e, at)];
        if last {
          pending := pending + [Deactivate(at + SettleDelay)];
        }
      case Deactivate(_) =>
        isActive := false;
    }
  }
}
