/**
 * What the agent panel shows for the simulation's `messages` and
 * `isActive`: one avatar per roster agent, lit while that agent has spoken
 * in an active run; a feed bubble for each message whose speaker is on the
 * roster; a Start button that is disabled while a run is active; and a
 * placeholder when the feed is empty and nothing is running.
 *
 * The feed and avatar functions take the roster as a parameter; the panel
 * itself always passes `Agents.Roster`.
 */
module AgentPanel {
  import opened Wrappers
  import opened Types
  import Agents
  import AgentSimulation

  /** `agents.find(a => a.id === id)`: the first agent carrying `id`, if any. */
  function FindAgent(roster: seq<Agent>, id: string): (r: Option<Agent>)
    ensures r.None? <==> !Agents.OnRoster(roster, id)
    ensures r.Some? ==> exists i :: 0 <= i < |roster| && roster[i] == r.value && r.value.id == id
                                    && forall j :: 0 <= j < i ==> roster[j].id != id
  {
    if roster == [] then None
    else if roster[0].id == id then Some(roster[0])
    else
      var r := FindAgent(roster[1..], id);
      assert forall i :: 1 <= i < |roster| ==> roster[i] == roster[1..][i - 1];
      if r.Some? then
        var i :| 0 <= i < |roster[1..]| && roster[1..][i] == r.value && r.value.id == id
                 && forall j :: 0 <= j < i ==> roster[1..][j].id != id;
        assert roster[i + 1] == r.value;
        r
      else r
  }

  /** One rendered feed entry: the message and the roster agent who said it. */
  datatype Bubble = Bubble(message: AgentMessage, agent: Agent)

  /** The feed: `messages.map(...)` where a message of an unknown agent renders as `null`. */
  function Bubbles(roster: seq<Agent>, messages: seq<AgentMessage>): (r: seq<Bubble>)
    ensures |r| <= |messages|
    ensures forall k :: 0 <= k < |r| ==> r[k].agent in roster && r[k].agent.id == r[k].message.agentId
  {
    if messages == [] then []
    else
      match FindAgent(roster, messages[0].agentId)
      case Some(a) => [Bubble(messages[0], a)] + Bubbles(roster, messages[1..])
      case None => Bubbles(roster, messages[1..])
  }

  function BubbleMessages(bs: seq<Bubble>): (r: seq<AgentMessage>)
    ensures |r| == |bs| && forall k :: 0 <= k < |bs| ==> r[k] == bs[k].message
  {
    seq(|bs|, k requires 0 <= k < |bs| => bs[k].message)
  }

  /** The messages of roster speakers, in feed order: a reference for `Bubbles`. */
  function KnownSpeakers(roster: seq<Agent>, messages: seq<AgentMessage>): seq<AgentMessage> {
    if messages == [] then []
    else if Agents.OnRoster(roster, messages[0].agentId) then [messages[0]] + KnownSpeakers(roster, messages[1..])
    else KnownSpeakers(roster, messages[1..])
  }

  /** The feed shows exactly the messages of roster agents, in their original order. */
  lemma {:induction false} BubblesShowKnownSpeakers(roster: seq<Agent>, messages: seq<AgentMessage>)
    ensures BubbleMessages(Bubbles(roster, messages)) == KnownSpeakers(roster, messages)
  {
    if messages != [] {
      BubblesShowKnownSpeakers(roster, messages[1..]);
      var rest := Bubbles(roster, messages[1..]);
      match FindAgent(roster, messages[0].agentId)
      case Some(a) =>
        assert BubbleMessages([Bubble(messages[0], a)] + rest) == [messages[0]] + BubbleMessages(rest);
      case None =>
    }
  }

  /** When every speaker is on the roster, no message is dropped. */
  lemma {:induction false} AllKnownKept(roster: seq<Agent>, messages: seq<AgentMessage>)
    requires forall k :: 0 <= k < |messages| ==> Agents.OnRoster(roster, messages[k].agentId)
    ensures KnownSpeakers(roster, messages) == messages
  {
    if messages != [] {
      assert Agents.OnRoster(roster, messages[0].agentId);
      assert forall k :: 0 <= k < |messages[1..]| ==> messages[1..][k] == messages[k + 1];
      AllKnownKept(roster, messages[1..]);
      assert [messages[0]] + messages[1..] == messages;
    }
  }

  /** When every speaker is on the roster, every message gets its bubble, in order. */
  lemma AllKnownAllShown(roster: seq<Agent>, messages: seq<AgentMessage>)
    requires forall k :: 0 <= k < |messages| ==> Agents.OnRoster(roster, messages[k].agentId)
    ensures BubbleMessages(Bubbles(roster, messages)) == messages
  {
    BubblesShowKnownSpeakers(roster, messages);
    AllKnownKept(roster, messages);
  }

  /** The feed of a concatenation is the concatenation of the feeds. */
  lemma {:induction false} BubblesAppend(roster: seq<Agent>, a: seq<AgentMessage>, b: seq<AgentMessage>)
    ensures Bubbles(roster, a + b) == Bubbles(roster, a) + Bubbles(roster, b)
  {
    if a == [] {
      assert a + b == b;
    } else {
      assert (a + b)[0] == a[0];
      assert (a + b)[1..] == a[1..] + b;
      BubblesAppend(roster, a[1..], b);
    }
  }

  /** A message from an unknown agent is skipped and nothing else changes. */
  lemma UnknownSpeakerSkipped(roster: seq<Agent>, messages: seq<AgentMessage>, m: AgentMessage)
    requires !Agents.OnRoster(roster, m.agentId)
    ensures Bubbles(roster, messages + [m]) == Bubbles(roster, messages)
  {
    BubblesAppend(roster, messages, [m]);
    assert Bubbles(roster, [m]) == Bubbles(roster, []);
  }

  /** A message from a roster agent gets exactly one bubble, at the end of the feed. */
  lemma KnownSpeakerShown(roster: seq<Agent>, messages: seq<AgentMessage>, m: AgentMessage)
    requires Agents.OnRoster(roster, m.agentId)
    ensures exists a :: a in roster && a.id == m.agentId
                        && Bubbles(roster, messages + [m]) == Bubbles(roster, messages) + [Bubble(m, a)]
  {
    BubblesAppend(roster, messages, [m]);
    var a := FindAgent(roster, m.agentId).value;
    assert Bubbles(roster, [m]) == [Bubble(m, a)] + Bubbles(roster, []);
  }

  /** `messages.some(m => m.agentId === id)` */
  predicate HasSpoken(messages: seq<AgentMessage>, id: string) {
    exists k :: 0 <= k < |messages| && messages[k].agentId == id
  }

  /** An agent on the roster has spoken exactly when the feed holds a bubble of theirs. */
  lemma {:induction false} SpokeIffBubble(roster: seq<Agent>, messages: seq<AgentMessage>, id: string)
    requires Agents.OnRoster(roster, id)
    ensures HasSpoken(messages, id) <==> exists b :: b in Bubbles(roster, messages) && b.agent.id == id
  {
    if messages != [] {
      SpokeIffBubble(roster, messages[1..], id);
      var m := messages[0];
      var rest := Bubbles(roster, messages[1..]);
      assert HasSpoken(messages, id) <==> m.agentId == id || HasSpoken(messages[1..], id) by {
        if HasSpoken(messages, id) {
          var k :| 0 <= k < |messages| && messages[k].agentId == id;
          if k > 0 {
            assert messages[1..][k - 1].agentId == id;
          }
        }
        if HasSpoken(messages[1..], id) {
          var k :| 0 <= k < |messages[1..]| && messages[1..][k].agentId == id;
          assert messages[k + 1].agentId == id;
        }
      }
      match FindAgent(roster, m.agentId)
      case Some(a) =>
        assert Bubbles(roster, messages) == [Bubble(m, a)] + rest;
      case None =>
        assert m.agentId != id;
    }
  }

  datatype Avatar = Avatar(agent: Agent, active: bool)

  /** One avatar per roster agent, in roster order, lit while the run is active and the agent has spoken. */
  function Avatars(roster: seq<Agent>, isActive: bool, messages: seq<AgentMessage>): (r: seq<Avatar>)
    ensures |r| == |roster|
    ensures forall i :: 0 <= i < |r| ==> r[i].agent == roster[i]
  {
    seq(|roster|, i requires 0 <= i < |roster| =>
      Avatar(roster[i], isActive && HasSpoken(messages, roster[i].id)))
  }

  /** An avatar is lit exactly when the run is active and the feed holds a bubble of that agent. */
  lemma AvatarLitIffBubble(roster: seq<Agent>, isActive: bool, messages: seq<AgentMessage>, i: nat)
    requires i < |roster|
    ensures Avatars(roster, isActive, messages)[i].active
        <==> isActive && exists b :: b in Bubbles(roster, messages) && b.agent.id == roster[i].id
  {
    SpokeIffBubble(roster, messages, roster[i].id);
  }

  /** The parts of the panel that depend on the simulation state. */
  datatype PanelView = PanelView(
    startDisabled: bool,
    startLabel: string,
    avatars: seq<Avatar>,
    feed: seq<Bubble>,
    placeholder: bool)

  function Render(isActive: bool, messages: seq<AgentMessage>): (v: PanelView)
    ensures v.startDisabled <==> isActive
    ensures v.placeholder <==> messages == [] && !isActive
    ensures BubbleMessages(v.feed) == KnownSpeakers(Agents.Roster, messages)
    ensures |v.avatars| == |Agents.Roster|
  {
    BubblesShowKnownSpeakers(Agents.Roster, messages);
    PanelView(isActive, if isActive then "Running" else "Start",
              Avatars(Agents.Roster, isActive, messages), Bubbles(Agents.Roster, messages),
              messages == [] && !isActive)
  }

  function RenderState(s: AgentSimulation.SimState): PanelView {
    Render(s.isActive, s.messages)
  }

  /** Right after Start the button is disabled, the feed is empty, no avatar is lit and the placeholder is hidden. */
  lemma StartLocksButton(script: seq<AgentSimulation.ScriptEntry>, s: AgentSimulation.SimState, now: Timestamp)
    ensures var v := RenderState(AgentSimulation.Start(script, s, now));
      v.startDisabled && !v.placeholder && v.feed == []
      && forall i :: 0 <= i < |v.avatars| ==> !v.avatars[i].active
  {
  }

  /**
   * Clearing shows the placeholder and enables Start, but the next timer of
   * the cleared run, when it fires, brings a bubble back while Start stays
   * enabled and every avatar stays dark.
   */
  lemma StaleFiringAfterClear(s: AgentSimulation.SimState, j: nat, at: Timestamp)
    requires AgentSimulation.FiresAt(AgentSimulation.Clear(s), j, at)
    requires s.pending[j].Emit?
    requires Agents.OnRoster(Agents.Roster, s.pending[j].entry.agentId)
    ensures RenderState(AgentSimulation.Clear(s)).placeholder
    ensures var v := RenderState(AgentSimulation.Fire(AgentSimulation.Clear(s), j, at));
      !v.startDisabled && !v.placeholder && |v.feed| == 1
      && forall i :: 0 <= i < |v.avatars| ==> !v.avatars[i].active
  {
    var r := AgentSimulation.Fire(AgentSimulation.Clear(s), j, at);
    assert r.messages == [] + [r.messages[0]];
    KnownSpeakerShown(Agents.Roster, [], r.messages[0]);
  }

  /**
   * In an undisturbed run every one of the seven script messages gets its
   * bubble, in script order, whenever their timers fire.
   */
  lemma ScriptFeedFullyShown(ats: seq<Timestamp>)
    requires |ats| == 7
    ensures BubbleMessages(Bubbles(Agents.Roster, AgentSimulation.ExpectedFeed(AgentSimulation.Script, ats, 7)))
         == AgentSimulation.ExpectedFeed(AgentSimulation.Script, ats, 7)
  {
    var feed := AgentSimulation.ExpectedFeed(AgentSimulation.Script, ats, 7);
    AgentSimulation.ScriptSpeakersKnown();
    AgentSimulation.ExpectedFeedEntries(AgentSimulation.Script, ats, 7);
    forall k | 0 <= k < |feed|
      ensures Agents.OnRoster(Agents.Roster, feed[k].agentId)
    {
      assert feed[k].agentId == AgentSimulation.Script[k].agentId;
    }
    AllKnownAllShown(Agents.Roster, feed);
  }
}
