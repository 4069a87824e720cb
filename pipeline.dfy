/**
 * How the components fit together: an entry the flusher appends decodes,
 * on the consumer side, to the event it came from, and `handle` resolves
 * it to the task that produced it. The scenario methods run the whole path
 * on fresh objects.
 */
module Pipeline {
  import opened Wrappers
  import opened Uuids
  import opened Json
  import opened Models
  import opened Repository
  import opened Streams
  import opened Kv
  import opened Flusher
  import opened Consumer
  import opened Worker
  import opened Service

  /** A row with a JSON-safe payload always encodes, and the consumer reads its entry back as the row's event, with no `task_id` field. */
  lemma FlusherEntryDecodes(row: OutboxRow, codec: Codec)
    requires Lawful(codec)
    requires row.payload.Some? && SerializableDict(row.payload.value)
    ensures Dumps(codec, Obj(Normalized(row.payload))).Some?
    ensures DecodeMessage(EntryFor(row, Dumps(codec, Obj(Normalized(row.payload))).value), codec)
            == Some(Delivery(row.eventType, "", Obj(row.payload.value)))
  {
    NormalizeSerializable(row.payload);
    DumpsRoundTrip(codec, Obj(row.payload.value));
    var text := Dumps(codec, Obj(Normalized(row.payload))).value;
    var raw := EntryFor(row, text);
    assert raw["payload"] == Text(text) && text != "";
    assert "task_id" !in raw;
  }

  /** `handle` falls back to the payload's `task_id`, which names the created task, and the lock key uses the same text. */
  lemma HandleResolvesCreatedTask(t: Task)
    ensures EffectiveTaskId("", OutboxPayload(t)) == Some(Str(UuidString(t.id)))
    ensures !Skips("", OutboxPayload(t))
    ensures TaskKey(Str(UuidString(t.id))) == Some(t.id)
    ensures LockKey(OutboxPayload(t)) == "task-lock:" + UuidString(t.id)
  {
    ParseString(t.id);
  }

  /**
   * The integration test: create task "itest" with payload {"a": 1}, run
   * the flusher once with the database and Redis answering, and the stream
   * `tasks:events` holds at least one entry.
   */
  method OutboxFlowScenario(codec: Codec, id: Uuid, createdAt: Time, updatedAt: Time, dbNow: Time,
                            conn: Connection, xaddMs: nat, markedAt: Time)
    returns (taskName: string, entries: nat)
    requires Lawful(codec)
    ensures taskName == "itest"
    ensures entries >= 1
  {
    var db, server, task := CreateAndFlush(codec, id, createdAt, updatedAt, dbNow, conn, xaddMs, markedAt);
    taskName := task.name;
    entries := |Log(server.streams, TasksStream)|;
  }

  /** Creating a task and flushing once leaves exactly its entry in `tasks:events`. */
  method CreateAndFlush(codec: Codec, id: Uuid, createdAt: Time, updatedAt: Time, dbNow: Time,
                        conn: Connection, xaddMs: nat, markedAt: Time)
    returns (db: Database, server: StreamStore, task: Task)
    requires Lawful(codec)
    ensures fresh(db) && fresh(server)
    ensures db.Valid() && server.Valid()
    ensures task == NewTask(id, "itest", map["a" := Num(1)], createdAt, updatedAt)
    ensures id in db.tasks && db.tasks[id].state == PendingState
    ensures TasksStream in server.streams && |server.streams[TasksStream]| == 1
    ensures Before(ZeroId, server.streams[TasksStream][0].id) && server.groups == map[]
    ensures DecodeMessage(server.streams[TasksStream][0].fields, codec) == Some(Delivery(TaskCreatedType, "", Obj(OutboxPayload(task))))
  {
    db := new Database();
    var service := new TaskServiceAsync(db);
    var created := service.CreateTask("itest", map["a" := Num(1)], id, createdAt, updatedAt, dbNow, true);
    assert created.Ok?;
    task := created.value;
    var row := db.outbox[0];
    assert db.outbox == [row];
    server := new StreamStore();
    var flusher := new OutboxFlusher(db, "redis://localhost:6379/0");
    ghost var w0 := World(db.outbox, server.streams, flusher.publishedTotal, flusher.errorsTotal);
    assert PendingBatch(db.outbox, BatchLimit) == [row];
    var o := RowOutcome(true, xaddMs, true, markedAt);
    NormalizeSerializable(row.payload);
    ProcessRowStreams(w0, row, o, codec, TasksStream);
    flusher.RunLoop(server, codec, true, conn, [o]);
    FlusherEntryDecodes(row, codec);
  }

  /** A fresh group on a stream holding one entry delivers that entry's decoding, once. */
  method ConsumeOnce(server: StreamStore, codec: Codec, conn: Connection) returns (calls: seq<Delivery>)
    requires server.Valid()
    requires TasksStream in server.streams && |server.streams[TasksStream]| == 1
    requires Before(ZeroId, server.streams[TasksStream][0].id)
    requires (TasksStream, DefaultGroup) !in server.groups
    requires DecodeMessage(server.streams[TasksStream][0].fields, codec).Some?
    modifies server
    ensures calls == [DecodeMessage(old(server.streams[TasksStream][0].fields), codec).value]
  {
    var e := server.streams[TasksStream][0];
    assert server.streams[TasksStream] == [e];
    var consumer := new RedisStreamConsumer(TasksStream, DefaultGroup, DefaultConsumerName, "redis://localhost:6379/0");
    consumer.EnsureGroup(server, conn, true);
    assert server.streams[TasksStream] == [e];
    assert NewEntries([e], ZeroId) == [e];
    calls := consumer.Poll(server, codec, 5, true, [MessageOutcome(true, true)]);
  }

  /**
   * The whole path: a created task is flushed to `tasks:events`, read by a
   * worker consumer, and handled; reading the task back then gives state
   * "processed".
   */
  method EndToEndScenario(codec: Codec, id: Uuid, createdAt: Time, updatedAt: Time, dbNow: Time,
                          conn: Connection, xaddMs: nat, markedAt: Time,
                          token: string, handledAt: Time)
    returns (delivered: nat, state: string)
    requires Lawful(codec)
    ensures delivered == 1
    ensures state == ProcessedState
  {
    var db, server, task := CreateAndFlush(codec, id, createdAt, updatedAt, dbNow, conn, xaddMs, markedAt);
    var calls := ConsumeOnce(server, codec, conn);
    delivered := |calls|;
    state := HandleCreated(db, task, calls[0], token, handledAt);
  }

  /** A worker handling the `task.created` delivery of a stored task leaves it "processed". */
  method HandleCreated(db: Database, task: Task, call: Delivery, token: string, handledAt: Time)
    returns (state: string)
    requires db.Valid() && task.id in db.tasks
    requires call == Delivery(TaskCreatedType, "", Obj(OutboxPayload(task)))
    modifies db
    ensures state == ProcessedState
  {
    var kv := new KvStore();
    var worker := new Worker(db, kv, 5000);
    HandleResolvesCreatedTask(task);
    var _ := worker.Handle(call.eventType, call.taskId, call.data, token, handledAt, true, true);
    var service := new TaskServiceAsync(db);
    var got := service.GetTask(UuidObj(task.id), true);
    state := got.value.state;
  }
}
