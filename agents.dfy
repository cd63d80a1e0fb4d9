/** The fixed roster of simulated agents; nothing reassigns it. */
module Agents {
  import opened Types

  const Roster: seq<Agent> := [
    Agent("pm", "Alex Chen", "Project Manager", "\U{1F468}\U{200D}\U{1F4BC}", "#00D9FF", Working),
    Agent("research", "Sara Kim", "Research Agent", "\U{1F50D}", "#FF6B9D", Working),
    Agent("frontend", "Marcus Johnson", "Frontend Developer", "\U{1F468}\U{200D}\U{1F4BB}", "#00FF94", Working),
    Agent("backend", "Emily Rodriguez", "Backend Developer", "\U{1F9D1}\U{200D}\U{1F4BB}", "#FFB800", Working),
    Agent("qa", "David Park", "QA Engineer", "\U{1F9EA}", "#9B59B6", Working),
    Agent("docs", "Lisa Wong", "Documentation Writer", "\U{1F4DA}", "#E74C3C", Working)
  ]

  const RosterIds: seq<string> := ["pm", "research", "frontend", "backend", "qa", "docs"]

  /** Some agent of `roster` carries `id`. */
  predicate OnRoster(roster: seq<Agent>, id: string) {
    exists i :: 0 <= i < |roster| && roster[i].id == id
  }

  /** Six agents with pairwise distinct ids, all of them marked working. */
  lemma RosterShape()
    ensures |Roster| == 6
    ensures forall i, j :: 0 <= i < j < |Roster| ==> Roster[i].id != Roster[j].id
    ensures forall i :: 0 <= i < |Roster| ==> Roster[i].status == Working
    ensures forall i :: 0 <= i < |Roster| ==> Roster[i].id == RosterIds[i]
    ensures forall id :: OnRoster(Roster, id) <==> id in RosterIds
  {
    assert forall i :: 0 <= i < |Roster| ==> Roster[i].id == RosterIds[i];
    forall id | id in RosterIds
      ensures OnRoster(Roster, id)
    {
      var i :| 0 <= i < |RosterIds| && RosterIds[i] == id;
      assert Roster[i].id == id;
    }
  }
}
