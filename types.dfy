/** The records shared by the task store, the agent timeline and the views. */
module Types {
  import opened Wrappers

  /** A `Date`, as milliseconds since the epoch. */
  type Timestamp = int

  datatype Status = Todo | InProgress | Completed

  datatype Priority = Low | Medium | High

  /** Three coordinates used only by the 3D scene. */
  type Position = (real, real, real)

  datatype Task = Task(
    id: string,
    title: string,
    description: string,
    status: Status,
    priority: Priority,
    createdAt: Timestamp,
    completedAt: Option<Timestamp>,
    position: Position)

  datatype AgentStatus = Idle | Working | Discussing

  datatype Agent = Agent(
    id: string,
    name: string,
    role: string,
    avatar: string,
    color: string,
    status: AgentStatus)

  datatype MessageType = Analysis | Code | Discussion | Completion

  datatype AgentMessage = AgentMessage(
    id: string,
    agentId: string,
    content: string,
    timestamp: Timestamp,
    kind: MessageType)

  /** The string literal a status is written as. */
  function StatusName(s: Status): string {
    match s
    case Todo => "todo"
    case InProgress => "in-progress"
    case Completed => "completed"
  }

  /** Reads a status literal back; any other string is not a status. */
  function ParseStatus(name: string): (r: Option<Status>)
    ensures r.Some? ==> StatusName(r.value) == name
  {
    if name == "todo" then Some(Todo)
    else if name == "in-progress" then Some(InProgress)
    else if name == "completed" then Some(Completed)
    else None
  }

  lemma StatusNameRoundTrip(s: Status)
    ensures ParseStatus(StatusName(s)) == Some(s)
  {
  }

  function PriorityName(p: Priority): string {
    match p
    case Low => "low"
    case Medium => "medium"
    case High => "high"
  }

  function ParsePriority(name: string): (r: Option<Priority>)
    ensures r.Some? ==> PriorityName(r.value) == name
  {
    if name == "low" then Some(Low)
    else if name == "medium" then Some(Medium)
    else if name == "high" then Some(High)
    else None
  }

  lemma PriorityNameRoundTrip(p: Priority)
    ensures ParsePriority(PriorityName(p)) == Some(p)
  {
  }
}
