/**
 * The worker's `handle`: resolves the task id of a delivered event, marks
 * that task processed, counts what happened, and releases a lock named
 * after the event's `task_id`.
 */
module Worker {
  import opened Wrappers
  import opened Uuids
  import opened Json
  import opened Models
  import opened Repository
  import opened Kv
  import opened Lock

  /** `f"task-lock:{data.get('task_id')}"`: built from the data, not from the resolved id. */
  function LockKey(data: Dict): (key: string)
    ensures |key| >= 10 && key[..10] == "task-lock:"
    ensures "task_id" !in data ==> key == "task-lock:None"
  {
    "task-lock:" + FormatValue(Get(data, "task_id"))
  }

  /** `task_id or data.get("task_id")`. */
  function EffectiveTaskId(taskId: string, data: Dict): (r: Option<Value>)
    ensures taskId != "" ==> r == Some(Str(taskId))
    ensures taskId == "" ==> (r.Some? <==> "task_id" in data)
    ensures taskId == "" && r.Some? ==> r.value == data["task_id"]
  {
    if taskId != "" then Some(Str(taskId)) else Get(data, "task_id")
  }

  /** `if not task_id: return`. */
  predicate Skips(taskId: string, data: Dict) {
    var t := EffectiveTaskId(taskId, data);
    t.None? || !Truthy(t.value)
  }

  /** A non-empty argument is never skipped; an empty one defers to the data. */
  lemma SkipIff(taskId: string, data: Dict)
    ensures taskId != "" ==> !Skips(taskId, data)
    ensures taskId == "" ==> (Skips(taskId, data) <==> "task_id" !in data || !Truthy(data["task_id"]))
  {
  }

  /** `UPDATE tasks SET state = 'processed' WHERE id = key`, with `updated_at` set by its `onupdate` default. */
  function ProcessedTasks(tasks: map<Uuid, TaskRow>, key: Uuid, now: Time): (r: map<Uuid, TaskRow>)
    ensures r.Keys == tasks.Keys
    ensures forall k :: k in tasks && k != key ==> r[k] == tasks[k]
    ensures key in tasks ==> r[key].state == ProcessedState && r[key].updatedAt == now
  {
    if key in tasks then tasks[key := tasks[key].(state := ProcessedState, updatedAt := now)] else tasks
  }

  /** Besides the timestamp only `state` changes, and an unknown id changes nothing. */
  lemma ProcessedOnlyState(tasks: map<Uuid, TaskRow>, key: Uuid, now: Time)
    ensures key !in tasks ==> ProcessedTasks(tasks, key, now) == tasks
    ensures key in tasks ==>
      var a := tasks[key];
      var b := ProcessedTasks(tasks, key, now)[key];
      b.id == a.id && b.name == a.name && b.payload == a.payload && b.attempts == a.attempts
      && b.lastError == a.lastError && b.createdAt == a.createdAt
  {
  }

  /** Processing the same task again only moves `updated_at`. */
  lemma ProcessedTwice(tasks: map<Uuid, TaskRow>, key: Uuid, t1: Time, t2: Time)
    ensures ProcessedTasks(ProcessedTasks(tasks, key, t1), key, t2) == ProcessedTasks(tasks, key, t2)
  {
  }

  /** Releasing with a token no key holds deletes nothing. */
  lemma FreshTokenReleaseKeepsStore(m: Store, key: string, token: string)
    requires forall k :: k in m ==> m[k].value != token
    ensures ReleaseScript(m, key, token).0 == m
  {
    var r := ReleaseScript(m, key, token).0;
    assert r.Keys == m.Keys;
  }

  class Worker {
    const db: Database
    const redis: KvStore
    /** `settings.lock_ttl`, in milliseconds. */
    const lockTtl: int
    /** `samurai_events_consumed_total`. */
    var consumed: nat
    /** `samurai_events_process_errors_total`. */
    var processErrors: nat

    constructor (db: Database, redis: KvStore, lockTtl: int)
      ensures this.db == db && this.redis == redis && this.lockTtl == lockTtl
      ensures consumed == 0 && processErrors == 0
    {
      this.db := db;
      this.redis := redis;
      this.lockTtl := lockTtl;
      consumed, processErrors := 0, 0;
    }

    /**
     * `handle(event_type, task_id, data, redis)`; `raised` says whether it
     * raised. Data that is not a dict raises at once (`data.get`). A missing
     * or falsy task id returns before the `try`. Otherwise the update's
     * failure is counted and swallowed, and the lock, made with the fresh
     * `token` and never acquired, is released.
     */
    method Handle(eventType: string, taskId: string, data: Value, token: string, now: Time, dbReachable: bool, kvReachable: bool)
      returns (raised: bool)
      requires db.Valid()
      modifies this, db, redis
      ensures db.Valid()
      ensures raised <==> !data.Obj?
      ensures db.outbox == old(db.outbox) && db.nextId == old(db.nextId)
      ensures !data.Obj? || Skips(taskId, data.fields) ==>
        && db.tasks == old(db.tasks) && redis.entries == old(redis.entries)
        && consumed == old(consumed) && processErrors == old(processErrors)
      ensures data.Obj? && !Skips(taskId, data.fields) ==>
        var key := TaskKey(EffectiveTaskId(taskId, data.fields).value);
        var updated := dbReachable && key.Some?;
        && consumed == old(consumed) + 1
        && processErrors == old(processErrors) + (if updated then 0 else 1)
        && db.tasks == (if updated then ProcessedTasks(old(db.tasks), key.value, now) else old(db.tasks))
        && redis.entries == if kvReachable then ReleaseScript(old(redis.entries), LockKey(data.fields), token).0 else old(redis.entries)
    {
      if !data.Obj? {
        return true;
      }
      var lock := new RedisLock(redis, LockKey(data.fields), lockTtl, token);
      var tid := EffectiveTaskId(taskId, data.fields);
      if tid.None? || !Truthy(tid.value) {
        return false;
      }
      consumed := consumed + 1;
      var key := TaskKey(tid.value);
      if dbReachable && key.Some? {
        db.tasks := ProcessedTasks(db.tasks, key.value, now);
      } else {
        processErrors := processErrors + 1;
      }
      lock.Release(kvReachable);
      raised := false;
    }
  }
}
