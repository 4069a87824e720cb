/** `TaskServiceAsync`: creates tasks through the repository and reads them back. */
module Service {
  import opened Wrappers
  import opened Uuids
  import opened Json
  import opened Models
  import opened Repository

  const TasksStream: string := "tasks:events"
  const TaskCreatedType: string := "task.created"

  /**
   * `DomainTask(id=uuid4(), name=name, payload=payload)` with the dataclass
   * defaults; `createdAt` and `updatedAt` are what the two separate
   * `utcnow()` default factories return.
   */
  function NewTask(id: Uuid, name: string, payload: Dict, createdAt: Time, updatedAt: Time): (t: Task)
    ensures t.id == id && t.name == name && t.payload == payload
    ensures t.state == PendingState && t.attempts == 0 && t.lastError == None
    ensures t.createdAt == createdAt && t.updatedAt == updatedAt
  {
    Task(id, name, payload, PendingState, 0, None, createdAt, updatedAt)
  }

  /** The `outbox_event` create_task hands to the repository. */
  function TaskCreatedEvent(name: string, payload: Dict): (e: OutboxEvent)
    ensures e.stream == "tasks:events" && e.eventType == "task.created"
  {
    OutboxEvent(TasksStream, TaskCreatedType, map["name" := Str(name), "payload" := Obj(payload)])
  }

  /** The event's own payload never reaches the outbox: the row's payload depends on the task alone. */
  lemma EventPayloadIgnored(t: Task, name: string, payload: Dict)
    ensures OutboxPayload(t) == map["task_id" := Str(UuidString(t.id)), "name" := Str(t.name), "payload" := Obj(t.payload)]
    ensures TaskCreatedEvent(name, payload).payload != OutboxPayload(t)
  {
    assert "task_id" !in TaskCreatedEvent(name, payload).payload;
  }

  class TaskServiceAsync {
    const repo: Database

    constructor (repo: Database)
      ensures this.repo == repo
    {
      this.repo := repo;
    }

    /**
     * `create_task(name, payload)`: `id` is the value `uuid4()` returns,
     * `createdAt` and `updatedAt` the values of the domain task's two
     * `utcnow()` defaults, `dbNow` the database's `now()` at commit. The
     * repository's error propagates.
     */
    method CreateTask(name: string, payload: Dict, id: Uuid, createdAt: Time, updatedAt: Time, dbNow: Time, reachable: bool)
      returns (r: Result<Task, Error>)
      requires repo.Valid()
      modifies repo
      ensures repo.Valid()
      ensures r.Ok? <==> reachable && id !in old(repo.tasks) && SerializableDict(payload)
      ensures r.Err? ==>
        && r.error == PersistenceError
        && repo.tasks == old(repo.tasks) && repo.outbox == old(repo.outbox) && repo.nextId == old(repo.nextId)
      ensures r.Ok? ==>
        && r.value == NewTask(id, name, payload, createdAt, updatedAt)
        && repo.tasks == old(repo.tasks)[id := TaskRow(id, name, payload, PendingState, 0, None, dbNow, dbNow)]
        && repo.outbox == old(repo.outbox)
           + [OutboxRow(old(repo.nextId), TasksStream, TaskCreatedType, Some(OutboxPayload(r.value)), dbNow, false, None, None)]
        && repo.nextId == old(repo.nextId) + 1
      ensures r.Ok? ==> repo.GetTask(UuidObj(id), true) == Ok(r.value.(createdAt := dbNow, updatedAt := dbNow))
    {
      var task := NewTask(id, name, payload, createdAt, updatedAt);
      var added := repo.AddTaskWithOutbox(task, TaskCreatedEvent(name, payload), dbNow, reachable);
      if added.Err? {
        return Err(added.error);
      }
      assert repo.outbox == repo.outbox[..|old(repo.outbox)|] + [repo.outbox[|old(repo.outbox)|]];
      r := Ok(task);
    }

    /** `get_task(task_id)`: the repository's lookup, with the id as the caller passes it. */
    function GetTask(taskId: Value, reachable: bool): (r: Result<Task, Error>)
      reads this, repo
      ensures r.Ok? <==> reachable && TaskKey(taskId).Some? && TaskKey(taskId).value in repo.tasks
      ensures !reachable || (TaskKey(taskId).None? && !taskId.Null?) ==> r == Err(PersistenceError)
      ensures reachable && (taskId.Null? || (TaskKey(taskId).Some? && TaskKey(taskId).value !in repo.tasks)) ==>
        r == Err(TaskNotFoundError(taskId))
      ensures r.Ok? ==>
        var row := repo.tasks[TaskKey(taskId).value];
        r.value == Task(row.id, row.name, row.payload, row.state, row.attempts, row.lastError, row.createdAt, row.updatedAt)
    {
      repo.GetTask(taskId, reachable)
    }
  }

  /** The HTTP route passes the id as text: the text form of a task's UUID finds the same task as the UUID. */
  lemma TextIdFindsSameTask(s: TaskServiceAsync, u: Uuid, reachable: bool)
    ensures s.GetTask(Str(UuidString(u)), reachable).Ok? <==> s.GetTask(UuidObj(u), reachable).Ok?
    ensures s.GetTask(Str(UuidString(u)), reachable).Ok? ==> s.GetTask(Str(UuidString(u)), reachable) == s.GetTask(UuidObj(u), reachable)
  {
    ParseString(u);
  }
}
