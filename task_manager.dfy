/**
 * The task store: an ordered list of tasks, created, patched and removed by
 * the UI, mirrored after every change into the `autodev-tasks` entry of
 * local storage, and rebuilt from that entry (or seeded with three demo
 * tasks) when the store mounts.
 */
module TaskManager {
  import opened Wrappers
  import opened Types
  import opened JsonValue
  import Decimal

  const StorageKey: string := "autodev-tasks"
  const DayMs: int := 86400000
  const HalfDayMs: int := 43200000

  /** What `addTask` receives: a task without id, createdAt and position. */
  datatype TaskData = TaskData(
    title: string,
    description: string,
    status: Status,
    priority: Priority,
    completedAt: Option<Timestamp>)

  /** A `Partial<Task>`: every present field overrides the task's own. */
  datatype Patch = Patch(
    id: Option<string>,
    title: Option<string>,
    description: Option<string>,
    status: Option<Status>,
    priority: Option<Priority>,
    createdAt: Option<Timestamp>,
    completedAt: Option<Timestamp>,
    position: Option<Position>)

  const EmptyPatch: Patch := Patch(None, None, None, None, None, None, None, None)

  /** The only patch the application sends: `{ status }`. */
  function StatusPatch(s: Status): Patch {
    EmptyPatch.(status := Some(s))
  }

  // ---------------------------------------------------------------- creation

  /** A `Math.random()` draw. */
  predicate InUnit(r: real) {
    0.0 <= r < 1.0
  }

  /** The box new tasks are placed in. */
  predicate InBox(p: Position) {
    -2.0 <= p.0 < 2.0 && 1.0 <= p.1 < 3.0 && -1.0 <= p.2 < 1.0
  }

  function NewPosition(r1: real, r2: real, r3: real): (p: Position)
    ensures InUnit(r1) && InUnit(r2) && InUnit(r3) ==> InBox(p)
  {
    (r1 * 4.0 - 2.0, r2 * 2.0 + 1.0, r3 * 2.0 - 1.0)
  }

  /** The record `addTask` builds from the caller's fields, the clock and three draws. */
  function NewTask(data: TaskData, now: Timestamp, r1: real, r2: real, r3: real): Task {
    Task(Decimal.IntToString(now), data.title, data.description, data.status, data.priority,
         now, data.completedAt, NewPosition(r1, r2, r3))
  }

  /** Caller fields are copied verbatim; id and createdAt come from the clock. */
  lemma NewTaskFields(data: TaskData, now: Timestamp, r1: real, r2: real, r3: real)
    requires InUnit(r1) && InUnit(r2) && InUnit(r3)
    ensures var t := NewTask(data, now, r1, r2, r3);
      && t.id == Decimal.IntToString(now) && t.createdAt == now
      && TaskData(t.title, t.description, t.status, t.priority, t.completedAt) == data
      && InBox(t.position)
  {
  }

  /** Ids drawn from the clock are distinct exactly when the clock readings are. */
  lemma NewTaskIdsCollideIff(d1: TaskData, n1: Timestamp, d2: TaskData, n2: Timestamp, r: real)
    ensures NewTask(d1, n1, r, r, r).id == NewTask(d2, n2, r, r, r).id <==> n1 == n2
  {
    Decimal.IntToStringInjective(n1, n2);
  }

  // ---------------------------------------------------------------- update

  function Pick<T>(v: Option<T>, current: T): T {
    if v.Some? then v.value else current
  }

  /**
   * `{ ...task, ...updates, completedAt: ... }`: the patch's fields win,
   * except completedAt, which is the clock when the patch sets status
   * completed and the task's own value otherwise.
   */
  function ApplyPatch(t: Task, p: Patch, now: Timestamp): Task {
    Task(Pick(p.id, t.id), Pick(p.title, t.title), Pick(p.description, t.description),
         Pick(p.status, t.status), Pick(p.priority, t.priority), Pick(p.createdAt, t.createdAt),
         if p.status == Some(Completed) then Some(now) else t.completedAt,
         Pick(p.position, t.position))
  }

  /** A completedAt supplied in the patch never reaches the task. */
  lemma PatchCompletedAtIgnored(t: Task, p: Patch, now: Timestamp, c: Option<Timestamp>)
    ensures ApplyPatch(t, p.(completedAt := c), now) == ApplyPatch(t, p, now)
  {
  }

  /** A `{ status }` patch changes the status and nothing else, apart from completedAt. */
  lemma StatusPatchEffect(t: Task, s: Status, now: Timestamp)
    ensures ApplyPatch(t, StatusPatch(s), now)
         == t.(status := s, completedAt := if s == Completed then Some(now) else t.completedAt)
  {
  }

  /** Once set, completedAt stays set through any later patch. */
  lemma CompletedAtNeverCleared(t: Task, p: Patch, now: Timestamp)
    requires t.completedAt.Some?
    ensures ApplyPatch(t, p, now).completedAt.Some?
  {
  }

  /** `prev.map(task => task.id === id ? patched : task)` */
  function UpdateTasks(ts: seq<Task>, id: string, p: Patch, now: Timestamp): (r: seq<Task>)
    ensures |r| == |ts|
    ensures forall i :: 0 <= i < |ts| ==>
      r[i] == if ts[i].id == id then ApplyPatch(ts[i], p, now) else ts[i]
  {
    if ts == [] then []
    else [if ts[0].id == id then ApplyPatch(ts[0], p, now) else ts[0]] + UpdateTasks(ts[1..], id, p, now)
  }

  predicate HasId(ts: seq<Task>, id: string) {
    exists i :: 0 <= i < |ts| && ts[i].id == id
  }

  /** An unknown id leaves the list exactly as it was. */
  lemma UpdateUnknownIdIsNoop(ts: seq<Task>, id: string, p: Patch, now: Timestamp)
    requires !HasId(ts, id)
    ensures UpdateTasks(ts, id, p, now) == ts
  {
  }

  // ---------------------------------------------------------------- removal

  function CountId(ts: seq<Task>, id: string): (n: nat)
    ensures n <= |ts|
    ensures n == 0 <==> !HasId(ts, id)
  {
    if ts == [] then 0
    else
      assert forall i :: 1 <= i < |ts| ==> ts[1..][i - 1] == ts[i];
      (if ts[0].id == id then 1 else 0) + CountId(ts[1..], id)
  }

  /** `prev.filter(task => task.id !== id)` */
  function RemoveTasks(ts: seq<Task>, id: string): (r: seq<Task>)
    ensures forall t :: t in r <==> t in ts && t.id != id
    ensures |r| == |ts| - CountId(ts, id)
  {
    if ts == [] then []
    else (if ts[0].id == id then [] else [ts[0]]) + RemoveTasks(ts[1..], id)
  }

  /** Filtering commutes with concatenation, so the survivors keep their order. */
  lemma {:induction false} RemoveConcat(a: seq<Task>, b: seq<Task>, id: string)
    ensures RemoveTasks(a + b, id) == RemoveTasks(a, id) + RemoveTasks(b, id)
  {
    if a != [] {
      assert (a + b)[0] == a[0];
      assert (a + b)[1..] == a[1..] + b;
      RemoveConcat(a[1..], b, id);
    } else {
      assert a + b == b;
    }
  }

  /** Deleting an unknown id leaves the list exactly as it was. */
  lemma {:induction false} RemoveUnknownIdIsNoop(ts: seq<Task>, id: string)
    requires !HasId(ts, id)
    ensures RemoveTasks(ts, id) == ts
  {
    if ts != [] {
      assert ts[0].id != id;
      assert CountId(ts[1..], id) == 0;
      RemoveUnknownIdIsNoop(ts[1..], id);
    }
  }

  // ---------------------------------------------------------------- seed

  /** The three demonstration tasks used when nothing is stored. */
  function Seed(now: Timestamp): seq<Task> {
    [ Task("1", "Setup 3D Environment", "Initialize Three.js scene with camera and lighting",
           Completed, High, now - DayMs, Some(now - HalfDayMs), (-2.0, 1.0, 0.0)),
      Task("2", "Implement Task CRUD", "Create, read, update, delete operations for tasks",
           InProgress, High, now - HalfDayMs, None, (0.0, 1.0, 0.0)),
      Task("3", "Design Authentication UI", "Create login and signup forms with validation",
           Todo, Medium, now, None, (2.0, 1.0, 0.0)) ]
  }

  lemma SeedShape(now: Timestamp)
    ensures var s := Seed(now);
      && |s| == 3
      && s[0].id == "1" && s[1].id == "2" && s[2].id == "3"
      && s[0].status == Completed && s[1].status == InProgress && s[2].status == Todo
      && (forall i :: 0 <= i < 3 ==> (s[i].completedAt.Some? <==> s[i].status == Completed))
  {
  }

  // ---------------------------------------------------------------- snapshot codec

  function TimeToJson(t: Timestamp): Json {
    JStr(Decimal.IntToString(t))
  }

  function TimeFromJson(j: Json): Option<Timestamp> {
    if j.JStr? then Decimal.ParseInt(j.s) else None
  }

  function PositionToJson(p: Position): Json {
    JArr([JNum(p.0), JNum(p.1), JNum(p.2)])
  }

  function PositionFromJson(j: Json): Option<Position> {
    if j.JArr? && |j.items| == 3 && j.items[0].JNum? && j.items[1].JNum? && j.items[2].JNum?
    then Some((j.items[0].n, j.items[1].n, j.items[2].n))
    else None
  }

  /** `JSON.stringify` of one task; an absent completedAt is left out. */
  function TaskToJson(t: Task): Json {
    var fields := map[
      "id" := JStr(t.id),
      "title" := JStr(t.title),
      "description" := JStr(t.description),
      "status" := JStr(StatusName(t.status)),
      "priority" := JStr(PriorityName(t.priority)),
      "createdAt" := TimeToJson(t.createdAt),
      "position" := PositionToJson(t.position)];
    if t.completedAt.Some? then JObj(fields["completedAt" := TimeToJson(t.completedAt.value)])
    else JObj(fields)
  }

  /**
   * One element of the parsed snapshot rehydrated: stored fields are kept,
   * createdAt is rebuilt from its text, and completedAt is rebuilt when the
   * stored value is truthy and absent otherwise.
   */
  function TaskFromJson(j: Json): (r: Option<Task>)
    ensures r.Some? ==> j.JObj?
    ensures r.Some? ==>
      && StrField(j.fields, "id") == Some(r.value.id)
      && StrField(j.fields, "title") == Some(r.value.title)
      && StrField(j.fields, "description") == Some(r.value.description)
      && StrField(j.fields, "status") == Some(StatusName(r.value.status))
      && StrField(j.fields, "priority") == Some(PriorityName(r.value.priority))
      && "createdAt" in j.fields && TimeFromJson(j.fields["createdAt"]) == Some(r.value.createdAt)
      && (r.value.completedAt.Some? <==> "completedAt" in j.fields && Truthy(j.fields["completedAt"]))
      && (r.value.completedAt.Some? ==> TimeFromJson(j.fields["completedAt"]) == r.value.completedAt)
      && "position" in j.fields && PositionFromJson(j.fields["position"]) == Some(r.value.position)
  {
    if !j.JObj? then None
    else
      var f := j.fields;
      var id := StrField(f, "id");
      var title := StrField(f, "title");
      var description := StrField(f, "description");
      var status := if StrField(f, "status").Some? then ParseStatus(StrField(f, "status").value) else None;
      var priority := if StrField(f, "priority").Some? then ParsePriority(StrField(f, "priority").value) else None;
      var createdAt := if "createdAt" in f then TimeFromJson(f["createdAt"]) else None;
      var position := if "position" in f then PositionFromJson(f["position"]) else None;
      var hasCompleted := "completedAt" in f && Truthy(f["completedAt"]);
      var completedAt := if hasCompleted then TimeFromJson(f["completedAt"]) else None;
      if id.None? || title.None? || description.None? || status.None? || priority.None?
         || createdAt.None? || position.None? || (hasCompleted && completedAt.None?)
      then None
      else Some(Task(id.value, title.value, description.value, status.value, priority.value,
                     createdAt.value, completedAt, position.value))
  }

  /** Where each field of a task lands in its JSON object. */
  lemma TaskToJsonFields(t: Task)
    ensures var f := TaskToJson(t).fields;
      && StrField(f, "id") == Some(t.id)
      && StrField(f, "title") == Some(t.title)
      && StrField(f, "description") == Some(t.description)
      && StrField(f, "status") == Some(StatusName(t.status))
      && StrField(f, "priority") == Some(PriorityName(t.priority))
      && "createdAt" in f && f["createdAt"] == TimeToJson(t.createdAt)
      && "position" in f && f["position"] == PositionToJson(t.position)
      && ("completedAt" in f <==> t.completedAt.Some?)
      && (t.completedAt.Some? ==> f["completedAt"] == TimeToJson(t.completedAt.value))
  {
  }

  lemma TimeJsonRoundTrip(t: Timestamp)
    ensures TimeFromJson(TimeToJson(t)) == Some(t) && Truthy(TimeToJson(t))
  {
    Decimal.ParseIntToString(t);
  }

  /**
   * The converse of `TaskFromJson`'s contract: an object whose fields hold
   * a task's values, as that contract reads them, decodes to that task.
   */
  lemma DecodesTo(j: Json, t: Task)
    requires j.JObj?
    requires StrField(j.fields, "id") == Some(t.id)
    requires StrField(j.fields, "title") == Some(t.title)
    requires StrField(j.fields, "description") == Some(t.description)
    requires StrField(j.fields, "status") == Some(StatusName(t.status))
    requires StrField(j.fields, "priority") == Some(PriorityName(t.priority))
    requires "createdAt" in j.fields && TimeFromJson(j.fields["createdAt"]) == Some(t.createdAt)
    requires "position" in j.fields && PositionFromJson(j.fields["position"]) == Some(t.position)
    requires t.completedAt.Some? <==> "completedAt" in j.fields && Truthy(j.fields["completedAt"])
    requires t.completedAt.Some? ==> TimeFromJson(j.fields["completedAt"]) == t.completedAt
    ensures TaskFromJson(j) == Some(t)
  {
    StatusNameRoundTrip(t.status);
    PriorityNameRoundTrip(t.priority);
  }

  lemma TaskJsonRoundTrip(t: Task)
    ensures TaskFromJson(TaskToJson(t)) == Some(t)
  {
    TaskToJsonFields(t);
    TimeJsonRoundTrip(t.createdAt);
    if t.completedAt.Some? {
      TimeJsonRoundTrip(t.completedAt.value);
    }
    DecodesTo(TaskToJson(t), t);
  }

  function TasksToItems(ts: seq<Task>): (items: seq<Json>)
    ensures |items| == |ts|
  {
    if ts == [] then [] else [TaskToJson(ts[0])] + TasksToItems(ts[1..])
  }

  /** `JSON.stringify(tasks)` */
  function TasksToJson(ts: seq<Task>): Json {
    JArr(TasksToItems(ts))
  }

  function ItemsToTasks(items: seq<Json>): (r: Option<seq<Task>>)
    ensures r.Some? ==> |r.value| == |items|
  {
    if items == [] then Some([])
    else
      match TaskFromJson(items[0])
      case None => None
      case Some(t) =>
        match ItemsToTasks(items[1..])
        case None => None
        case Some(rest) => Some([t] + rest)
  }

  /** `JSON.parse(saved).map(...)`: anything but an array of task records fails. */
  function TasksFromJson(j: Json): Option<seq<Task>> {
    if j.JArr? then ItemsToTasks(j.items) else None
  }

  /** Decoding an array whose head and tail decode on their own. */
  lemma ItemsToTasksCons(j: Json, rest: seq<Json>, t: Task, ts: seq<Task>)
    requires TaskFromJson(j) == Some(t) && ItemsToTasks(rest) == Some(ts)
    ensures ItemsToTasks([j] + rest) == Some([t] + ts)
  {
    assert ([j] + rest)[0] == j;
    assert ([j] + rest)[1..] == rest;
  }

  lemma {:induction false} ItemsRoundTrip(ts: seq<Task>)
    ensures ItemsToTasks(TasksToItems(ts)) == Some(ts)
  {
    if ts != [] {
      var j, rest := TaskToJson(ts[0]), TasksToItems(ts[1..]);
      TaskJsonRoundTrip(ts[0]);
      ItemsRoundTrip(ts[1..]);
      assert TasksToItems(ts) == [j] + rest;
      ItemsToTasksCons(j, rest, ts[0], ts[1..]);
      assert [ts[0]] + ts[1..] == ts;
    }
  }

  lemma TasksJsonRoundTrip(ts: seq<Task>)
    ensures TasksFromJson(TasksToJson(ts)) == Some(ts)
  {
    ItemsRoundTrip(ts);
  }

  /**
   * What mounting makes of local storage: the seed when the entry is absent
   * or empty, the rehydrated list when it holds a task array, and failure
   * (JSON.parse or .map throws) otherwise.
   */
  function Rehydrate(stored: map<string, StoredText>, now: Timestamp): Option<seq<Task>> {
    if StorageKey !in stored || IsFalsyText(stored[StorageKey]) then Some(Seed(now))
    else
      match stored[StorageKey]
      case Text(j) => TasksFromJson(j)
      case Unparsable(_) => None
  }

  /**
   * The model checks the shape of every stored element, where the source
   * spreads whatever the parsed array holds: an array holding an object
   * without a title (`[{}]` among them), which the source loads as a task
   * with no title and an invalid date, is refused here, and so is one whose
   * status is not one of the three names, which the source loads as it is.
   */
  lemma ShapeCheckedOnMount(stored: map<string, StoredText>, item: Json, now: Timestamp)
    requires StorageKey in stored && stored[StorageKey] == Text(JArr([item]))
    requires item.JObj? && ("title" !in item.fields || StrField(item.fields, "status") == Some("done"))
    ensures Rehydrate(stored, now) == None
  {
  }

  /** A snapshot written by the store is read back as the same list on the next mount. */
  lemma ReloadRestoresTasks(stored: map<string, StoredText>, ts: seq<Task>, now: Timestamp)
    ensures Rehydrate(stored[StorageKey := Text(TasksToJson(ts))], now) == Some(ts)
  {
    TasksJsonRoundTrip(ts);
  }

  /** With nothing stored the store starts from the seed. */
  lemma FirstRunSeeds(stored: map<string, StoredText>, now: Timestamp)
    requires StorageKey !in stored
    ensures Rehydrate(stored, now) == Some(Seed(now))
  {
  }

  // ---------------------------------------------------------------- the store

  class TaskStore {
    var tasks: seq<Task>
    var storage: map<string, StoredText>

    /** The snapshot under StorageKey is the serialisation of the whole list. */
    predicate Persisted()
      reads this
    {
      StorageKey in storage && storage[StorageKey] == Text(TasksToJson(tasks))
    }

    constructor (stored: map<string, StoredText>)
      ensures tasks == [] && storage == stored
    {
      tasks := [];
      storage := stored;
    }

    /** The effect that runs whenever `tasks` changes. */
    method Persist()
      modifies this`storage
      ensures storage == old(storage)[StorageKey := Text(TasksToJson(tasks))]
      ensures Persisted()
    {
      storage := storage[StorageKey := Text(TasksToJson(tasks))];
    }

    /** The mount effect followed by the persistence effect. */
    method Mount(now: Timestamp) returns (ok: bool)
      modifies this
      ensures ok == Rehydrate(old(storage), now).Some?
      ensures ok ==> tasks == Rehydrate(old(storage), now).value && Persisted()
      ensures ok ==> storage == old(storage)[StorageKey := Text(TasksToJson(tasks))]
      ensures !ok ==> tasks == old(tasks) && storage == old(storage)
    {
      if StorageKey in storage && !IsFalsyText(storage[StorageKey]) {
        match storage[StorageKey]
        case Unparsable(_) =>
          return false;
        case Text(j) =>
          var parsed := TasksFromJson(j);
          if parsed.None? {
            return false;
          }
          tasks := parsed.value;
      } else {
        tasks := Seed(now);
      }
      Persist();
      ok := true;
    }

    method AddTask(data: TaskData, now: Timestamp, r1: real, r2: real, r3: real) returns (t: Task)
      modifies this
      ensures t == NewTask(data, now, r1, r2, r3)
      ensures tasks == old(tasks) + [t]
      ensures storage == old(storage)[StorageKey := Text(TasksToJson(tasks))]
    {
      t := NewTask(data, now, r1, r2, r3);
      tasks := tasks + [t];
      Persist();
    }

    method UpdateTask(id: string, p: Patch, now: Timestamp)
      modifies this
      ensures tasks == UpdateTasks(old(tasks), id, p, now)
      ensures storage == old(storage)[StorageKey := Text(TasksToJson(tasks))]
    {
      tasks := UpdateTasks(tasks, id, p, now);
      Persist();
    }

    method DeleteTask(id: string)
      modifies this
      ensures tasks == RemoveTasks(old(tasks), id)
      ensures storage == old(storage)[StorageKey := Text(TasksToJson(tasks))]
    {
      tasks := RemoveTasks(tasks, id);
      Persist();
    }
  }
}
