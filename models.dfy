/**
 * Record shapes: the domain `Task` dataclass and the two database tables,
 * `tasks` and `outbox_events`.
 */
module Models {
  import opened Wrappers
  import opened Uuids
  import opened Json
  import Texts

  /** An instant, as returned by `datetime.utcnow()` or the database's `now()`. */
  type Time = nat

  const PendingState: string := "pending"
  const ProcessedState: string := "processed"

  /** The domain entity. */
  datatype Task = Task(
    id: Uuid,
    name: string,
    payload: Dict,
    state: string,
    attempts: int,
    lastError: Option<string>,
    createdAt: Time,
    updatedAt: Time)

  /** A row of `tasks`; its timestamps come from the server default `now()`. */
  datatype TaskRow = TaskRow(
    id: Uuid,
    name: string,
    payload: Dict,
    state: string,
    attempts: int,
    lastError: Option<string>,
    createdAt: Time,
    updatedAt: Time)

  /** A row of `outbox_events`; `id` comes from the auto-increment sequence. */
  datatype OutboxRow = OutboxRow(
    id: nat,
    stream: string,
    eventType: string,
    payload: Option<Dict>,
    createdAt: Time,
    published: bool,
    publishedAt: Option<Time>,
    streamId: Option<string>)

  /** The `outbox_event` dict handed to the repository. */
  datatype OutboxEvent = OutboxEvent(stream: string, eventType: string, payload: Dict)

  /** `TaskNotFoundError` carries the id value exactly as the caller passed it. */
  datatype Error = PersistenceError | TaskNotFoundError(taskId: Value)

  /** The `created_at` timestamp's `isoformat()` text; here the instant's decimal digits. */
  function IsoFormat(t: Time): string {
    Texts.NatText(t)
  }
}
