/**
 * Dispatch tasks: creation with its validation, field updates, the
 * unconstrained status change that stamps or clears the completion time,
 * reassignment and deletion.
 */
module Tasks {
  import opened Tables
  import opened Models
  import opened Store
  import opened Statistics

  /**
   * A due date as the request carries it: the key is missing, present but
   * empty (null or ""), an ISO date the parser accepted, or text it refused.
   */
  datatype DateInput = NoDate | BlankDate | ParsedDate(at: int) | BadDate

  predicate ValidPriority(p: string) { p == PriorityHigh || p == PriorityMedium || p == PriorityLow }

  predicate ValidTaskStatus(s: string) { s == TaskPending || s == TaskInProgress || s == TaskCompleted }

  function UserExists(users: seq<User>, id: int): bool
  {
    UserIndex(users, id).Some?
  }

  /**
   * A creation request; the ids are 0 when absent, the optional fields None
   * when absent; the priority tells a missing key from an explicit null.
   */
  datatype TaskRequest = TaskRequest(
    title: Option<string>,
    description: Option<string>,
    assigneeId: int,
    creatorId: int,
    status: Option<string>,
    priority: Field<string>,
    dueDate: DateInput)

  /** The priority the handler reads: medium for a missing key, None for an explicit null. */
  function RequestedPriority(req: TaskRequest): Option<string>
  {
    GetOr(req.priority, PriorityMedium)
  }

  /** The requested priority is one of the three levels; an explicit null is not. */
  predicate AcceptedPriority(req: TaskRequest)
  {
    RequestedPriority(req).Some? && ValidPriority(RequestedPriority(req).value)
  }

  /** The refusal a creation request meets, in the order the handler tests, or Ok. */
  function CreateTaskGuard(users: seq<User>, req: TaskRequest): Outcome
  {
    if !Truthy(req.title) || req.assigneeId == 0 || req.creatorId == 0 then Invalid
    else if !UserExists(users, req.assigneeId) then NotFound
    else if !UserExists(users, req.creatorId) then NotFound
    else if !AcceptedPriority(req) then Invalid
    else if req.dueDate.BadDate? then Invalid
    else Ok
  }

  /**
   * The task a request creates: the status is stored as sent ("pending"
   * when absent) without validation, the priority defaults to medium, a
   * blank due date means none, and no completion time is set.
   */
  function NewTask(tasks: seq<DispatchTask>, req: TaskRequest, now: int): DispatchTask
    requires StrictlyIncreasing(tasks, TaskKey) && Truthy(req.title) && RequestedPriority(req).Some?
  {
    DispatchTask(NextKey(tasks, TaskKey), req.title.value, req.description, req.assigneeId, req.creatorId,
                 if req.status.Some? then req.status.value else TaskPending,
                 RequestedPriority(req).value,
                 if req.dueDate.ParsedDate? then Some(req.dueDate.at) else None,
                 now, None)
  }

  /** An accepted task names existing people, carries a valid priority and has not been completed. */
  lemma CreatedTaskIsSound(users: seq<User>, tasks: seq<DispatchTask>, req: TaskRequest, now: int)
    requires StrictlyIncreasing(tasks, TaskKey) && CreateTaskGuard(users, req) == Ok
    ensures var t := NewTask(tasks, req, now);
      && (exists k :: 0 <= k < |users| && users[k].id == t.assigneeId)
      && (exists k :: 0 <= k < |users| && users[k].id == t.creatorId)
      && ValidPriority(t.priority) && t.completedAt.None? && TaskWellFormed(t)
      && (req.priority.Absent? ==> t.priority == PriorityMedium)
      && (req.priority.Given? ==> t.priority == req.priority.value)
      && (req.status.None? ==> t.status == TaskPending)
      && (forall i :: 0 <= i < |tasks| ==> tasks[i].id < t.id)
  {
    var t := NewTask(tasks, req, now);
    var a := UserIndex(users, req.assigneeId).value;
    var c := UserIndex(users, req.creatorId).value;
    assert users[a].id == t.assigneeId && users[c].id == t.creatorId;
  }

  /**
   * An explicit null priority is refused: the handler reads None, which is
   * not one of the three levels, so no such request creates a task.
   */
  lemma ExplicitNullPriorityIsRefused(users: seq<User>, req: TaskRequest)
    requires req.priority.Null?
    ensures CreateTaskGuard(users, req) in {Invalid, NotFound}
    ensures (Truthy(req.title) && req.assigneeId != 0 && req.creatorId != 0
             && UserExists(users, req.assigneeId) && UserExists(users, req.creatorId))
            ==> CreateTaskGuard(users, req) == Invalid
  {
  }

  /** POST /api/tasks: an accepted request appends one task; a refusal changes nothing. */
  method CreateTask(w: Warehouse, req: TaskRequest, now: int) returns (o: Outcome)
    requires w.Valid()
    modifies w
    ensures w.Valid()
    ensures o == CreateTaskGuard(old(w.users), req)
    ensures o != Ok ==> w.State() == old(w.State())
    ensures o == Ok ==> w.State() == old(w.State()).(tasks := old(w.tasks) + [NewTask(old(w.tasks), req, now)])
  {
    if !Truthy(req.title) || req.assigneeId == 0 || req.creatorId == 0 {
      return Invalid;
    }
    if UserIndex(w.users, req.assigneeId).None? {
      return NotFound;
    }
    if UserIndex(w.users, req.creatorId).None? {
      return NotFound;
    }
    var priority := GetOr(req.priority, PriorityMedium);
    if priority.None? || !(priority.value == PriorityHigh || priority.value == PriorityMedium
                           || priority.value == PriorityLow) {
      return Invalid;
    }
    if req.dueDate.BadDate? {
      return Invalid;
    }
    var task := NewTask(w.tasks, req, now);
    ValidAfterTaskAppend(w.State(), task);
    w.tasks := w.tasks + [task];
    return Ok;
  }

  /**
   * The fields of an update request: title and priority count only when
   * non-empty; description counts whenever its key is present, null
   * included.
   */
  datatype TaskPatch = TaskPatch(
    title: Option<string>,
    description: Option<Option<string>>,
    priority: Option<string>,
    dueDate: DateInput)

  /** The refusal an update meets once the task is found, or Ok. */
  function PatchGuard(patch: TaskPatch): Outcome
  {
    if Truthy(patch.priority) && !ValidPriority(patch.priority.value) then Invalid
    else if patch.dueDate.BadDate? then Invalid
    else Ok
  }

  /** The task with an update applied. */
  function Patched(t: DispatchTask, patch: TaskPatch): DispatchTask
  {
    t.(title := if Truthy(patch.title) then patch.title.value else t.title,
       description := if patch.description.Some? then patch.description.value else t.description,
       priority := if Truthy(patch.priority) then patch.priority.value else t.priority,
       dueDate := match patch.dueDate
                  case NoDate => t.dueDate
                  case BlankDate => None
                  case ParsedDate(at) => Some(at)
                  case BadDate => t.dueDate)
  }

  /**
   * An update never touches the status, the completion time, the people or
   * the creation time; an absent due date is kept and a blank one clears
   * it; a valid task keeps a valid priority.
   */
  lemma PatchedSpec(t: DispatchTask, patch: TaskPatch)
    requires PatchGuard(patch) == Ok
    ensures var u := Patched(t, patch);
      && u.id == t.id && u.status == t.status && u.completedAt == t.completedAt
      && u.assigneeId == t.assigneeId && u.creatorId == t.creatorId && u.createdAt == t.createdAt
      && (patch.dueDate.NoDate? ==> u.dueDate == t.dueDate)
      && (patch.dueDate.BlankDate? ==> u.dueDate.None?)
      && (!Truthy(patch.title) ==> u.title == t.title)
      && (ValidPriority(t.priority) ==> ValidPriority(u.priority))
      && (TaskWellFormed(t) ==> TaskWellFormed(u))
  {
  }

  /**
   * PUT /api/tasks/<id>: an existing task with a non-empty body takes the
   * update; a missing task, an empty body, an unknown priority or a
   * malformed due date changes nothing.
   */
  method UpdateTask(w: Warehouse, taskId: int, body: Option<TaskPatch>) returns (o: Outcome)
    requires w.Valid()
    modifies w
    ensures w.Valid()
    ensures TaskIndex(old(w.tasks), taskId).None? ==> o == NotFound
    ensures TaskIndex(old(w.tasks), taskId).Some? ==>
      o == (if body.None? then Invalid else PatchGuard(body.value))
    ensures o != Ok ==> w.State() == old(w.State())
    ensures o == Ok ==>
      var k := TaskIndex(old(w.tasks), taskId).value;
      w.State() == old(w.State()).(tasks := old(w.tasks)[k := Patched(old(w.tasks)[k], body.value)])
  {
    var found := TaskIndex(w.tasks, taskId);
    if found.None? {
      return NotFound;
    }
    if body.None? {
      return Invalid;
    }
    var patch := body.value;
    if Truthy(patch.priority) && !(patch.priority.value == PriorityHigh || patch.priority.value == PriorityMedium
                                   || patch.priority.value == PriorityLow) {
      return Invalid;
    }
    if patch.dueDate.BadDate? {
      return Invalid;
    }
    var k := found.value;
    var task := Patched(w.tasks[k], patch);
    ValidAfterTaskUpdate(w.State(), k, task);
    w.tasks := w.tasks[k := task];
    return Ok;
  }

  /** The task after a status change: completed stamps the time, any other status clears it. */
  function WithStatus(t: DispatchTask, status: string, now: int): DispatchTask
  {
    t.(status := status, completedAt := if status == TaskCompleted then Some(now) else None)
  }

  /**
   * PUT /api/tasks/<id>/status: any of the three statuses may follow any
   * other; the completion time is set exactly when the new status is
   * completed.
   */
  method UpdateTaskStatus(w: Warehouse, taskId: int, status: Option<string>, now: int) returns (o: Outcome)
    requires w.Valid()
    modifies w
    ensures w.Valid()
    ensures o in {Ok, NotFound, Invalid}
    ensures o == NotFound <==> TaskIndex(old(w.tasks), taskId).None?
    ensures o == Ok <==> TaskIndex(old(w.tasks), taskId).Some? && status.Some? && ValidTaskStatus(status.value)
    ensures o != Ok ==> w.State() == old(w.State())
    ensures o == Ok ==>
      var k := TaskIndex(old(w.tasks), taskId).value;
      && w.State() == old(w.State()).(tasks := old(w.tasks)[k := WithStatus(old(w.tasks)[k], status.value, now)])
      && w.tasks[k].status == status.value
      && (w.tasks[k].completedAt.Some? <==> status.value == TaskCompleted)
  {
    var found := TaskIndex(w.tasks, taskId);
    if found.None? {
      return NotFound;
    }
    if !Truthy(status) {
      return Invalid;
    }
    var s := status.value;
    if !(s == TaskPending || s == TaskInProgress || s == TaskCompleted) {
      return Invalid;
    }
    var k := found.value;
    var task := WithStatus(w.tasks[k], s, now);
    ValidAfterTaskUpdate(w.State(), k, task);
    w.tasks := w.tasks[k := task];
    return Ok;
  }

  /**
   * Completing an open task takes it off the dashboard's open-task count;
   * reopening a completed one puts it back.
   */
  lemma StatusChangeMovesOpenCount(tasks: seq<DispatchTask>, k: nat, status: string, now: int)
    requires k < |tasks| && ValidTaskStatus(status)
    ensures var after := CountOf(tasks[k := WithStatus(tasks[k], status, now)], IsOpenTask);
      && (IsOpenTask(tasks[k]) && status == TaskCompleted ==> after + 1 == CountOf(tasks, IsOpenTask))
      && (!IsOpenTask(tasks[k]) && status != TaskCompleted ==> after == CountOf(tasks, IsOpenTask) + 1)
      && (IsOpenTask(tasks[k]) == (status != TaskCompleted) ==> after == CountOf(tasks, IsOpenTask))
  {
    CountUpdate(tasks, IsOpenTask, k, WithStatus(tasks[k], status, now));
  }

  /**
   * PUT /api/tasks/<id>/assign: an existing task handed to an existing
   * user changes its assignee and nothing else.
   */
  method AssignTask(w: Warehouse, taskId: int, assigneeId: int) returns (o: Outcome)
    requires w.Valid()
    modifies w
    ensures w.Valid()
    ensures o in {Ok, NotFound, Invalid}
    ensures o == Invalid <==> TaskIndex(old(w.tasks), taskId).Some? && assigneeId == 0
    ensures o == NotFound <==>
      TaskIndex(old(w.tasks), taskId).None? || (assigneeId != 0 && !UserExists(old(w.users), assigneeId))
    ensures o != Ok ==> w.State() == old(w.State())
    ensures o == Ok ==>
      var k := TaskIndex(old(w.tasks), taskId).value;
      && w.State() == old(w.State()).(tasks := old(w.tasks)[k := old(w.tasks)[k].(assigneeId := assigneeId)])
      && exists u :: 0 <= u < |w.users| && w.users[u].id == w.tasks[k].assigneeId
  {
    var found := TaskIndex(w.tasks, taskId);
    if found.None? {
      return NotFound;
    }
    if assigneeId == 0 {
      return Invalid;
    }
    var user := UserIndex(w.users, assigneeId);
    if user.None? {
      return NotFound;
    }
    var k := found.value;
    var task := w.tasks[k].(assigneeId := assigneeId);
    ValidAfterTaskUpdate(w.State(), k, task);
    w.tasks := w.tasks[k := task];
    assert w.users[user.value].id == w.tasks[k].assigneeId;
    return Ok;
  }

  /** DELETE /api/tasks/<id>: removes exactly that task; an unknown id changes nothing. */
  method DeleteTask(w: Warehouse, taskId: int) returns (o: Outcome)
    requires w.Valid()
    modifies w
    ensures w.Valid()
    ensures o in {Ok, NotFound}
    ensures o == NotFound <==> TaskIndex(old(w.tasks), taskId).None?
    ensures o != Ok ==> w.State() == old(w.State())
    ensures o == Ok ==>
      && w.State() == old(w.State()).(tasks := RemoveAt(old(w.tasks), TaskIndex(old(w.tasks), taskId).value))
      && TaskIndex(w.tasks, taskId).None?
  {
    var found := TaskIndex(w.tasks, taskId);
    if found.None? {
      return NotFound;
    }
    ghost var s := w.State();
    var k := found.value;
    ValidAfterTaskRemove(w.State(), k);
    w.tasks := RemoveAt(w.tasks, k);
    forall j | 0 <= j < |w.tasks| ensures w.tasks[j].id != taskId {
      if j < k {
        assert s.tasks[j].id < s.tasks[k].id;
      } else {
        assert w.tasks[j] == s.tasks[j + 1];
        assert s.tasks[k].id < s.tasks[j + 1].id;
      }
    }
    return Ok;
  }
}
