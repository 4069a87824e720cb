# samurai-tasks event pipeline, modelled in Dafny

This project models the event pipeline of samurai-tasks, a task service.
Creating a task writes the task row and an outbox row in one database
transaction. An outbox flusher moves pending outbox rows onto a Redis stream.
A stream consumer reads the stream as a member of a consumer group and hands
each message to the worker's `handle`. That marks the task "processed" and
releases a per-task Redis lock.

Postgres and Redis are replaced by in-memory stand-ins:
- `Repository.Database` holds a task map and an outbox sequence with an id counter.
- `Kv.KvStore` holds keys with values and abstract TTLs.
- `Streams.StreamStore` holds append-only logs and consumer groups. Each group has a cursor and a pending-entries map.

Each long-running loop is modelled one iteration at a time:
- `Flusher.OutboxFlusher.RunLoop`;
- `Consumer.RedisStreamConsumer.Poll`;
- `Lock.RedisLock.RenewOnce`, and `AutoRenew` for a run of wake-ups.

Everything the environment decides is a parameter:
- Whether each remote call reaches its server: `reachable`, where false means the call raises and the server is untouched.
- The server clocks: `xaddMs`, `now`, `markedAt`.
- The value `uuid4()` returns, the lock token, and what `from_url` returns (a `Connection`).
- Whether the handler returns normally: `MessageOutcome.handlerOk`.

Python's `json` is a `Json.Codec` parameter made of two total functions. `Json.Lawful` states the one law the pipeline relies on: a rendered value parses back to itself, and no rendering is empty. `json.dumps` raising on a UUID object is modelled by `Json.Serializable`.

Inside a batch, the flusher's state is a `Flusher.World`: the outbox table, the streams and the two counters. A batch is specified by folding `Flusher.ProcessRow` over the rows (`Flusher.FlushPrefix`). The imperative `PublishBatch`/`PublishRow` methods are proved equal to that fold. The properties of a batch are lemmas about the fold.

The consumer works the same way. `Consumer.Delivered` lists the handler calls of a batch. `Consumer.AckedIds` gives the ids a batch acknowledges. `Consumer.RedisStreamConsumer.Dispatch` is proved against both.

Notes on the code:
- The lock's renewal period is `ttl / 3000` seconds with `ttl` in milliseconds, which is one third of the TTL (`Lock.RenewalPeriodSeconds`).
- `ensure_group` swallows every error, not only "group already exists".
- The worker never acquires its lock. It only releases a lock built with a fresh token.
- The worker's update sets `state`, but `updated_at` also changes, through the column's `onupdate` default (app/infra/db/sqlalchemy_models.py:20-22).
- The flusher records `str()` of the bytes XADD replies with as the row's stream id (see Findings). `Flusher.ProcessRowAsWritten` models that step as written. The flusher's operations use the corrected step `Flusher.ProcessRow`, which records the id's own text.

## Model

| member | source | states |
|---|---|---|
| Kv.SetNx | app/infra/redis/lock.py:35 | SET NX PX sets the key only when it is absent, and reports whether it did; a non-positive PX is a response error and changes nothing |
| Kv.PExpireSpec | app/infra/redis/lock.py:58 | PEXPIRE gives an existing key the new TTL and keeps its value, deletes it when the TTL is non-positive, leaves a missing key missing and every other key untouched |
| Kv.KvStore.Set | app/infra/redis/lock.py:35 | the store becomes SetNx's result and the reply is whether the key was set; an unreachable server raises and the store is unchanged |
| Kv.KvStore.Eval | app/infra/redis/lock.py:48 | the server runs the script atomically on its store and answers its reply; unreachable: raises, store unchanged |
| Kv.KvStore.PExpire | app/infra/redis/lock.py:58 | the store becomes PExpireSpec's result; unreachable: raises, store unchanged |
| Kv.KvStore.Expire | app/infra/redis/lock.py:35 | a key's TTL running out removes exactly that key |
| Lock.ReleaseScript | app/infra/redis/lock.py:17-23 | the script answers 1 and deletes the key iff the key stores the caller's token, otherwise answers 0; no other key changes |
| Lock.RenewalPeriodSeconds | app/infra/redis/lock.py:57 | the sleep is ttl/3000 seconds, i.e. ttl/3 milliseconds, strictly between 0 and the TTL for any positive TTL |
| Lock.RedisLock.constructor | app/infra/redis/lock.py:25-31 | a lock holds its store, key, configured TTL and token, with no renewal task |
| Lock.RedisLock.Acquire | app/infra/redis/lock.py:33-41 | returns true iff the key was absent (reachable, positive TTL); then the key holds this token with the TTL and renewal is running; otherwise store and renewal state are unchanged; Redis errors propagate |
| Lock.RedisLock.Release | app/infra/redis/lock.py:43-51 | a running renewal task is cancelled; the store becomes the release script's result with this token, or stays unchanged when Redis is unreachable, and the error is swallowed |
| Lock.RedisLock.RenewOnce | app/infra/redis/lock.py:56-58 | one wake-up PEXPIREs the key with the TTL while the task runs; a Redis error ends the task; a cancelled task does nothing |
| Lock.RedisLock.AutoRenew | app/infra/redis/lock.py:53-60 | over any run of wake-ups, renewal never changes a stored value, never touches another key, never revives a deleted key and, with a positive TTL, deletes nothing |
| Lock.MutualExclusion | app/infra/redis/lock.py:35 | while one token holds the key, an acquisition with any token fails |
| Lock.ReleaseThenAcquire | app/infra/redis/lock.py:17-35 | after the holder's release, the next acquisition by another token succeeds |
| Lock.StaleReleaseKeepsNewHolder | app/infra/redis/lock.py:17-23 | a holder whose key expired and was re-acquired by another token deletes nothing with its stale token, and the new holder keeps the key |
| Json.Get | app/workers/consumer_entrypoint.py:28 | `d.get(k)` is Some exactly when the key is present, with its value |
| Json.FormatValue | app/workers/consumer_entrypoint.py:26 | formatting a missing value gives "None", and a string formats as itself |
| Json.Dumps | app/infra/outbox/flusher.py:71 | `json.dumps` succeeds exactly when the value holds no UUID object |
| Json.DumpsRoundTrip | app/infra/event_bus/consumer.py:70 | under a lawful codec, what `json.dumps` renders is non-empty and `json.loads` gives the value back |
| Uuids.UuidString | app/infra/db/repo_async.py:47 | `str(uuid)` is 36 characters |
| Uuids.ParseUuid | app/infra/db/sqlalchemy_models.py:13 | a string is accepted as a UUID exactly when it has the hyphenated 8-4-4-4-12 hex layout |
| Uuids.ParseString | app/infra/db/repo_async.py:47 | parsing `str(u)` gives back `u` |
| Uuids.ParseCanonical | app/infra/db/repo_async.py:47 | a string parses to `u` and has no upper-case digit iff it is exactly `str(u)` |
| Uuids.UuidStringInjective | app/infra/db/repo_async.py:47 | distinct UUIDs print differently |
| Repository.Unpublished | app/infra/db/repo_async.py:86 | the WHERE clause keeps exactly the unpublished rows and adds none |
| Repository.InsertByCreated | app/infra/db/repo_async.py:87 | inserting a row into the ordering adds exactly that row |
| Repository.InsertKeepsOrder | app/infra/db/repo_async.py:87 | inserting into a sequence ordered by `created_at` keeps it ordered |
| Repository.SortByCreated | app/infra/db/repo_async.py:87 | ORDER BY created_at returns a permutation of its input in which each row is created no later than the next |
| Repository.ChainedIsSorted | app/infra/db/repo_async.py:87 | adjacent ordering implies every earlier row is created no later than every later row |
| Repository.MarkRows | app/infra/db/repo_async.py:98-106 | the UPDATE keeps the table's length, marks every row with that id published with the given stream id and time, and leaves every other row as it was |
| Repository.MarkTwice | app/infra/db/repo_async.py:101-104 | marking the same id twice equals marking it once with the second call's stream id and time |
| Repository.MarkUnknownId | app/infra/db/repo_async.py:98-106 | an id no row has leaves the table unchanged |
| Repository.PendingInOrderHoldsPending | app/infra/db/repo_async.py:84-92 | a row is in the full ordered pending list iff it is in the table and unpublished |
| Repository.PendingBatchSpec | app/infra/db/repo_async.py:84-92 | the bounded query returns min(limit, pending count) rows, every one unpublished and from the table, ordered by `created_at`, and they are a prefix of the full ordered pending list |
| Repository.BatchIdsDistinct | app/infra/db/repo_async.py:84-92 | with auto-increment ids, no two rows of a fetched batch share an id |
| Repository.Database.constructor | app/infra/db/sqlalchemy_models.py:25-34 | empty tables, with the id sequence at 1, satisfy the table invariant (increasing ids below the counter, JSON-safe payloads) |
| Repository.Database.AddTaskWithOutbox | app/infra/db/repo_async.py:28-59 | either nothing changes (unreachable, duplicate id, or a payload JSON refuses; PersistenceError) or exactly the task row and one outbox row are added; that row has payload {task_id: str(id), name, payload}, the event's stream and type, `created_at` now, is unpublished with no stream id, and has an id above every existing one |
| Repository.TaskKey | app/infra/db/repo_async.py:63 | `TaskORM.id == value` matches a UUID, or a string iff it has UUID form; `None` gives no key (its `IS NULL` matches no row); anything else fails the statement |
| Repository.OutboxPayload | app/infra/db/repo_async.py:46-50 | the outbox payload has exactly the keys task_id, name and payload, and is JSON-safe when the task's payload is; its values are its body's: str(id), the name and the task's payload |
| Repository.Database.GetTask | app/infra/db/repo_async.py:61-77 | takes the id as the caller passes it; succeeds iff reachable and the id is a UUID (or UUID text) of a stored task, returning every field of that row; a value the UUID column cannot take fails the statement; a missing id, and `None`, is TaskNotFoundError carrying the value passed |
| Repository.Database.FetchPendingOutbox | app/infra/db/repo_async.py:79-93 | fails iff the database is unreachable or the limit is negative; otherwise returns the bounded pending batch, and the table is not changed |
| Repository.Database.MarkOutboxPublished | app/infra/db/repo_async.py:95-107 | when reachable, the outbox becomes MarkRows of the old one with that id; tasks and the id sequence are untouched; unreachable: error, nothing changes |
| Streams.NextId | app/infra/outbox/flusher.py:76 | the id XADD assigns is after the stream's last id |
| Streams.IdText | app/infra/outbox/flusher.py:78 | an id's text starts with a decimal digit |
| Streams.Appended | app/infra/outbox/flusher.py:76 | XADD appends exactly one entry with those fields and the next id to the named stream, creating it if needed, and leaves other streams unchanged |
| Streams.AppendKeepsAscending | app/infra/outbox/flusher.py:76 | appending an entry after the last id keeps a stream's ids ascending |
| Streams.FirstAfter | app/infra/event_bus/consumer.py:51 | finds the first entry after the cursor; every entry before it is at or before the cursor |
| Streams.NewEntries | app/infra/event_bus/consumer.py:51 | the `>` read returns a suffix of the log holding exactly the entries after the group's cursor, ascending |
| Streams.Take | app/infra/event_bus/consumer.py:52 | COUNT returns the first min(count, available) entries |
| Streams.ReadInto | app/infra/event_bus/consumer.py:48-53 | a non-empty read moves the group's cursor to the batch's last id and adds every read id to the pending list under this consumer, keeping the other pending ids; an empty read leaves the group as it was |
| Streams.StreamStore.XAdd | app/infra/outbox/flusher.py:76 | the streams become Appended's result and the reply is the new id; groups untouched; unreachable: raises, nothing changes |
| Streams.StreamStore.XGroupCreate | app/infra/event_bus/consumer.py:37 | succeeds iff reachable and the group is new; then the group starts at id 0 with nothing pending and the stream exists; otherwise nothing changes |
| Streams.StreamStore.XReadGroup | app/infra/event_bus/consumer.py:48-53 | fails iff count < 1, unreachable, or no such group; otherwise returns up to `count` undelivered entries in log order, which join the pending list under this consumer while the cursor moves past them |
| Streams.StreamStore.XAck | app/infra/event_bus/consumer.py:74 | removes the id from the group's pending list and answers 1 if it was there; unreachable: raises, nothing changes |
| Flusher.NormalizedSpec | app/infra/outbox/flusher.py:64-68 | a None payload becomes {}; keys are kept; each top-level UUID becomes its string form; every other value is unchanged; no top-level UUID remains |
| Flusher.NormalizePayload | app/infra/outbox/flusher.py:64-68 | the in-place loop over the payload's items yields exactly the normalised payload |
| Flusher.NormalizeSerializable | app/infra/outbox/flusher.py:64-71 | a payload JSON already accepts is left as it is (None becomes {}) and stays JSON-safe |
| Flusher.EntryFor | app/infra/outbox/flusher.py:69-73 | the entry has exactly the fields type, payload and created_at, with the row's event type and the payload's JSON text; created_at is the row's `isoformat()` text |
| Flusher.ProcessRow | app/infra/outbox/flusher.py:62-92 | the per-row step with its handler, recording the entry id's own text (the corrected half of the Findings row); its meaning is its body, and the ProcessRow* and Flush* lemmas state its effects |
| Flusher.ProcessRowCounts | app/infra/outbox/flusher.py:62-92 | one row adds 1 to the published counter when encoding, append and marking all succeed, and 1 to the error counter otherwise |
| Flusher.ProcessRowOutbox | app/infra/outbox/flusher.py:76-79 | one row changes the table only by marking that row's id published with a stream id, and only when it succeeds |
| Flusher.ProcessRowStreams | app/infra/outbox/flusher.py:69-76 | one row appends to its own stream exactly the entry {type, payload JSON, created_at} with the next id when encoding and XADD succeed, and appends nothing otherwise |
| Flusher.ProcessRowFields | app/infra/outbox/flusher.py:69-76 | the field maps of a stream grow by exactly the row's entry, if it appends to that stream |
| Flusher.FlushCounts | app/infra/outbox/flusher.py:62-92 | over a batch, published increments equal the rows that succeed and error increments equal the rest, so together they equal the batch size |
| Flusher.FlushOutbox | app/infra/outbox/flusher.py:62-92 | a batch keeps the table's length and every row's event; rows whose id no successful row carries are unchanged; the others are published with a stream id |
| Flusher.FlushAppends | app/infra/outbox/flusher.py:62-76 | each stream receives exactly the entries of the batch's rows for it whose XADD went through, in batch order, after what it held |
| Flusher.FailedRowNotMarked | app/infra/outbox/flusher.py:88-92 | with distinct ids, a failing row's id is never among the marked ids |
| Flusher.AtLeastOnce | app/infra/outbox/flusher.py:76-92 | a pending row whose encoding, append or marking fails is still in the table unpublished after the batch, so the next fetch's pending list holds it again |
| Flusher.MarkFailureRepublishes | app/infra/outbox/flusher.py:76-92 | when the append succeeds but marking fails, the entry is in the stream, the table is unchanged and the error is counted |
| Flusher.ProcessRowRecordsEntryId | app/infra/outbox/flusher.py:76-79 | a marked row records the text of the id its new entry got, which is after the stream's previous last id |
| Flusher.PyStrOfBytes | app/infra/outbox/flusher.py:78 | `str()` of a bytes id: its text wrapped in `b'…'`; its meaning is its body |
| Flusher.RecordedIdAsWritten | app/infra/outbox/flusher.py:77-79 | `str()` of the bytes reply is the id text wrapped in `b'…'`, which is not the text of any stream id |
| Flusher.ProcessRowAsWritten | app/infra/outbox/flusher.py:62-92 | the per-row step as written, marking the row with `str()` of the bytes reply; its meaning is its body, and AsWrittenRecordsBytes states how it differs from ProcessRow |
| Flusher.AsWrittenRecordsBytes | app/infra/outbox/flusher.py:76-79 | for a successful row in the table, the step as written has the same streams and counters as the corrected step, but the row records `b'<id>'`, which is the text of no stream id, where the corrected step records the id |
| Flusher.OutboxFlusher.constructor | app/infra/outbox/flusher.py:28-38 | a new flusher has no client, is not running, and its counters and gauge are 0 |
| Flusher.OutboxFlusher.Client | app/infra/outbox/flusher.py:40-44 | the client is created on first use and reused afterwards |
| Flusher.OutboxFlusher.RunLoop | app/infra/outbox/flusher.py:46-98 | sets running; a failed fetch changes nothing else; otherwise the gauge is the size of the pending batch of at most 50 rows, the client is created only for a non-empty batch, and table, streams and counters are the fold of the per-row step over that batch in fetch order |
| Flusher.OutboxFlusher.PublishFetched | app/infra/outbox/flusher.py:53-62 | sets the gauge to the batch size; an empty batch appends and marks nothing; otherwise the client exists and the batch is published |
| Flusher.OutboxFlusher.PublishBatch | app/infra/outbox/flusher.py:62-92 | the loop over the batch leaves table, streams and counters equal to the fold of the per-row step over all rows |
| Flusher.OutboxFlusher.PublishRow | app/infra/outbox/flusher.py:62-92 | one row's normalise, encode, XADD and mark, with the per-row handler, has exactly the effect of the per-row step |
| Flusher.OutboxFlusher.Stop | app/infra/outbox/flusher.py:100-105 | clears the running flag and drops the client, counters untouched |
| Consumer.TaskIdOf | app/infra/event_bus/consumer.py:61-65 | the handler's task id is the decoded `task_id` field, "" when it is absent or empty, and an undecodable one raises |
| Consumer.PayloadOf | app/infra/event_bus/consumer.py:66-72 | the data is the parsed payload when it is present, non-empty, decodable and valid JSON, and {} otherwise |
| Consumer.DecodeMessage | app/infra/event_bus/consumer.py:60-72 | decoding succeeds iff there is a decodable `type` field and the task id decodes, and then yields (type, task id, data) |
| Consumer.MalformedPayloadIsEmpty | app/infra/event_bus/consumer.py:66-72 | a message with a missing or non-JSON payload is still delivered, with "" as task id and {} as data |
| Consumer.AckedIdsOnlyAcks | app/infra/event_bus/consumer.py:73-78 | an id is acknowledged by a batch iff some message with that id decoded, was handled normally and its XACK was answered |
| Consumer.AckIff | app/infra/event_bus/consumer.py:73-78 | in an ascending batch, a message is acknowledged iff it decodes, its handler returns normally and XACK is answered |
| Consumer.UnackedStaysPending | app/infra/event_bus/consumer.py:73-78 | after a batch, a delivered message stays in the group's pending list iff it was not acknowledged |
| Consumer.DeliveredInOrder | app/infra/event_bus/consumer.py:57-73 | when every message decodes, the handler is called once per message, in log order |
| Consumer.ReadIsAscending | app/infra/event_bus/consumer.py:51-52 | a read returns entries in log order, all after the group's cursor |
| Consumer.RedisStreamConsumer.constructor | app/infra/event_bus/consumer.py:13-24 | a consumer holds its stream, group, name and URL, with no client and not stopped |
| Consumer.RedisStreamConsumer.GetClient | app/infra/event_bus/consumer.py:26-32 | the client is created on first use and reused afterwards |
| Consumer.RedisStreamConsumer.EnsureGroup | app/infra/event_bus/consumer.py:34-39 | creates the group at id 0 (and the stream) when reachable and new; any error, including an existing group, is swallowed and changes nothing |
| Consumer.RedisStreamConsumer.Poll | app/infra/event_bus/consumer.py:46-81 | stopped, a failed read or a missing group: no handler call and no change; otherwise the handler calls are the decodings of the up-to-`count` new entries in order, and the group is the read's group minus the acknowledged ids; an empty read changes nothing |
| Consumer.RedisStreamConsumer.Dispatch | app/infra/event_bus/consumer.py:57-78 | the nested loops call the handler on every decodable message in order, acknowledge exactly the ids AckedIds names, and isolate each message's failure |
| Consumer.RedisStreamConsumer.Deliver | app/infra/event_bus/consumer.py:59-78 | one message: a decoding failure skips the handler; otherwise one handler call, and the id leaves the pending list iff the handler returns and XACK is answered |
| Consumer.RedisStreamConsumer.Run | app/infra/event_bus/consumer.py:41-81 | after the client and group setup, the group exists whenever it existed or its creation was answered; a stopped consumer with no group creation changes nothing |
| Consumer.RedisStreamConsumer.Stop | app/infra/event_bus/consumer.py:83-87 | sets the stopped flag and drops the client |
| Worker.LockKey | app/workers/consumer_entrypoint.py:26 | the lock key is "task-lock:" followed by the data's `task_id` as formatted, "None" when it is absent |
| Worker.EffectiveTaskId | app/workers/consumer_entrypoint.py:28 | the argument when non-empty, else the data's `task_id`, absent when the data has none |
| Worker.Skips | app/workers/consumer_entrypoint.py:29-31 | `if not task_id: return` on the resolved id; its meaning is its body, and SkipIff states it in terms of the arguments |
| Worker.SkipIff | app/workers/consumer_entrypoint.py:29-31 | a non-empty id argument never skips; an empty one skips iff the data's `task_id` is absent or falsy |
| Worker.ProcessedTasks | app/workers/consumer_entrypoint.py:42-49 | the UPDATE keeps the keys, leaves every other task unchanged, and sets the matched task's state to "processed" and `updated_at` to now |
| Worker.ProcessedOnlyState | app/workers/consumer_entrypoint.py:42-49 | an unknown id changes nothing; otherwise only state and `updated_at` change |
| Worker.ProcessedTwice | app/workers/consumer_entrypoint.py:42-49 | processing a task again only moves `updated_at` |
| Worker.FreshTokenReleaseKeepsStore | app/workers/consumer_entrypoint.py:56-57 | releasing with a token no key holds deletes nothing, so `handle`'s release never removes another holder's lock |
| Worker.Worker.constructor | app/workers/consumer_entrypoint.py:14-17 | both counters start at 0 |
| Worker.Worker.Handle | app/workers/consumer_entrypoint.py:25-57 | raises iff the data is not a dict; a skip changes nothing (no update, no count, no release); otherwise the consumed count goes up, the task is processed or the error is counted and swallowed, and the never-acquired lock, keyed by the data's `task_id`, is released with its fresh token |
| Service.NewTask | app/domain/services_async.py:17 | the new task has the given id, name and payload, state "pending", 0 attempts and no error, and its two timestamps are the two separate `utcnow()` values |
| Service.TaskCreatedEvent | app/domain/services_async.py:18-22 | the event goes to stream "tasks:events" with type "task.created" |
| Service.EventPayloadIgnored | app/infra/db/repo_async.py:46-56 | the outbox row's payload is built from the task alone and is never the event's own payload |
| Service.TaskServiceAsync.CreateTask | app/domain/services_async.py:16-24 | succeeds iff the single repository call does; then it returns the new pending task, the task map gains exactly its row (every other row unchanged), the outbox gains exactly one unpublished `task.created` row on `tasks:events` with the next id, created at commit and with no stream id, and reading the task back gives it with the database's timestamps; a failure propagates and changes nothing |
| Service.TaskServiceAsync.GetTask | app/domain/services_async.py:26-27 | the repository's lookup with the id as passed: a found task carries every stored field, a missing id or `None` is TaskNotFoundError, a non-UUID value fails |
| Service.TextIdFindsSameTask | app/api/v1/samurai_queries.py:26-28 | the route passes the id as text; the text form of a task's UUID finds the same task as the UUID itself |
| Pipeline.FlusherEntryDecodes | app/infra/outbox/flusher.py:69-73 | an entry the flusher appends for a JSON-safe row has no `task_id` field, and the consumer decodes it to the row's type, task id "", and the row's payload |
| Pipeline.HandleResolvesCreatedTask | app/workers/consumer_entrypoint.py:26-28 | for a created task's payload, `handle` falls back to the payload's `task_id`, which parses to the task's id, and the lock key uses the same text |
| Pipeline.OutboxFlowScenario | tests/test_integration_outbox.py:33-52 | creating task "itest" and running the flusher once leaves at least one entry in `tasks:events` |
| Pipeline.CreateAndFlush | tests/test_integration_outbox.py:33-41 | after create and one flush, the task is pending, `tasks:events` holds exactly one entry, and it decodes to the task's `task.created` event |
| Pipeline.ConsumeOnce | app/infra/event_bus/consumer.py:41-78 | a new group on a stream holding one entry reads that entry and calls the handler exactly once, with its decoding |
| Pipeline.EndToEndScenario | app/workers/consumer_entrypoint.py:25-57 | a created task, flushed, read once by a fresh consumer group and handled, reads back with state "processed", after exactly one handler call |
| Pipeline.HandleCreated | app/workers/consumer_entrypoint.py:25-57 | `handle` given the `task.created` delivery of a stored task (empty id argument, id taken from the payload) updates that task, which then reads back with state "processed" |

## Left out

- Row locking: `FOR UPDATE SKIP LOCKED` (app/infra/db/repo_async.py:89) and races between processes are not modelled. Every step runs alone.
- Time: sleeps, poll intervals and real TTL expiry are not modelled. A TTL is a number on the key, and its running out is the separate step `Kv.KvStore.Expire`. Instants are opaque naturals, and `isoformat()` is modelled as their decimal text.
- Transport and engines: Redis, SQLAlchemy, sessions and connections are not modelled. `from_url`, `aclose` and `close` only set or clear a client field.
- Observability: logging is not modelled. The Prometheus counters and gauges are plain `nat` fields.
- Floating-point JSON numbers are not modelled, and neither is the text `json.dumps` produces. The codec is a parameter.
- app/infra/event_bus/producer.py, the HTTP layer, the process entrypoints and app/settings.py are not part of this model. `lock_ttl` (5000 ms) appears only as the worker's constructor argument.
- Flusher.OutboxFlusher.RunLoop: models one iteration of the `while` loop. The loop-level handler's sleep and retry are not modelled. A failed fetch is that handler's case and changes nothing.
- Consumer.RedisStreamConsumer.Run: models the setup and the first loop iteration only. The handler is an oracle (`MessageOutcome.handlerOk`). The worker's `handle` is linked to it only in `Pipeline.EndToEndScenario`. `Run` states only the client and group facts; `Poll` is where the iteration itself is specified.
- Repository.SortByCreated: rows with equal `created_at` keep table order. Postgres does not promise any order among them.
- Repository.Database.AddTaskWithOutbox: a rolled-back insert leaves the id counter unchanged. Postgres may consume a sequence value on rollback; the model only promises increasing ids.
- Uuids.ParseUuid: accepts only the hyphenated 36-character form, in either case. Other spellings Python's `uuid.UUID` accepts (no hyphens, braces, `urn:uuid:`) are treated as not a UUID.
- Json.FormatValue: the f-string text of a list or dict `task_id` is a fixed marker, not Python's repr.
- Lock.RedisLock.Acquire: re-acquiring after expiry while the old renewal task still runs leaks that task in the source. The model has one task slot and does not show the leak.
- Repository.Database.GetTask: a value the UUID column cannot take is modelled as `PersistenceError`. The source raises a driver error whose class is not modelled.
- Flusher.ProcessRow: records the entry id's own text, the corrected behaviour of the Findings row. The source records `b'<id>'`, as `Flusher.ProcessRowAsWritten` does.
- Flusher.OutboxFlusher.PublishRow: marks the row through the corrected step `Flusher.ProcessRow`, so it records the id's text and not the source's `b'<id>'`.
- Flusher.OutboxFlusher.PublishBatch: is the fold of the corrected step, so the stream ids it records are the ids' text and not the source's `b'<id>'`.
- Flusher.OutboxFlusher.PublishFetched: publishes through `PublishBatch`, with the same corrected stream ids.
- Flusher.OutboxFlusher.RunLoop: publishes through `PublishBatch`, with the same corrected stream ids.

## Findings

| source | as written | input that shows it | evidently intended | confidence | as-written member | corrected member |
|---|---|---|---|---|---|---|
| app/infra/outbox/flusher.py:77-79 | the flusher's client is made without `decode_responses`, so XADD replies with bytes, and `str()` of those bytes is what gets stored as the row's stream id | an entry appended with id 1700000000000-0 makes the row record `b'1700000000000-0'` | the row records the entry id's own text, `1700000000000-0` | not executed; high (redis-py returns bytes unless responses are decoded) | Flusher.AsWrittenRecordsBytes | Flusher.ProcessRowRecordsEntryId |
