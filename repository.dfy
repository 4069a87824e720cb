/**
 * `AsyncTaskRepository` over an in-memory stand-in for the two tables. Each
 * call is one transaction; `reachable` says whether the database answered it
 * (false: the call raises and nothing changes).
 */
module Repository {
  import opened Wrappers
  import opened Uuids
  import opened Json
  import opened Models

  /** The dict the repository stores as the outbox row's payload. */
  function OutboxPayload(task: Task): (d: Dict)
    ensures d.Keys == {"task_id", "name", "payload"}
    ensures SerializableDict(task.payload) ==> SerializableDict(d)
  {
    map["task_id" := Str(UuidString(task.id)), "name" := Str(task.name), "payload" := Obj(task.payload)]
  }

  /**
   * The key `TaskORM.id == value` compares with: a UUID, or a string in UUID
   * form. `None` gives no key because it renders as `IS NULL`, which no
   * primary key matches; any other value gives none because the statement fails.
   */
  function TaskKey(v: Value): (r: Option<Uuid>)
    ensures v.UuidObj? ==> r == Some(v.u)
    ensures v.Str? ==> (r.Some? <==> WellFormed(v.s))
    ensures !v.UuidObj? && !v.Str? ==> r == None
  {
    match v
    case UuidObj(u) => Some(u)
    case Str(s) => ParseUuid(s)
    case _ => None
  }

  function Min(a: int, b: int): int {
    if a <= b then a else b
  }

  predicate SortedByCreated(s: seq<OutboxRow>) {
    forall i, j :: 0 <= i < j < |s| ==> s[i].createdAt <= s[j].createdAt
  }

  predicate IdsIncreasing(s: seq<OutboxRow>) {
    forall i, j :: 0 <= i < j < |s| ==> s[i].id < s[j].id
  }

  /** `WHERE published == False`, keeping table order. */
  function Unpublished(rows: seq<OutboxRow>): (r: seq<OutboxRow>)
    ensures forall x :: x in r <==> x in rows && !x.published
    ensures multiset(r) <= multiset(rows)
  {
    if rows == [] then []
    else
      assert rows == [rows[0]] + rows[1..];
      if rows[0].published then Unpublished(rows[1..])
    else [rows[0]] + Unpublished(rows[1..])
  }

  /** Each row is created no later than the next one. */
  predicate Chained(s: seq<OutboxRow>) {
    forall i :: 0 <= i < |s| - 1 ==> s[i].createdAt <= s[i + 1].createdAt
  }

  lemma {:induction false} ChainedIsSorted(s: seq<OutboxRow>)
    requires Chained(s)
    ensures SortedByCreated(s)
  {
    if |s| > 1 {
      ChainedIsSorted(s[1..]);
      forall j | 1 <= j < |s| ensures s[0].createdAt <= s[j].createdAt {
        assert s[1..][0] == s[1];
        if j > 1 {
          assert s[1..][j - 1] == s[j];
        }
      }
      forall i, j | 0 <= i < j < |s| ensures s[i].createdAt <= s[j].createdAt {
        if i > 0 {
          assert s[1..][i - 1] == s[i] && s[1..][j - 1] == s[j];
        }
      }
    }
  }

  /**
   * Places `x` before the first row that is not created earlier than it, so
   * `x` goes ahead of any row with the same `created_at`.
   */
  function InsertByCreated(x: OutboxRow, s: seq<OutboxRow>): (r: seq<OutboxRow>)
    ensures multiset(r) == multiset(s) + multiset{x}
    ensures |r| == |s| + 1
    ensures r[0] == x || (s != [] && r[0] == s[0])
  {
    if s == [] || x.createdAt <= s[0].createdAt then [x] + s
    else
      assert s == [s[0]] + s[1..];
      [s[0]] + InsertByCreated(x, s[1..])
  }

  /** Inserting into an ordered sequence keeps it ordered. */
  lemma {:induction false} InsertKeepsOrder(x: OutboxRow, s: seq<OutboxRow>)
    requires Chained(s)
    ensures Chained(InsertByCreated(x, s))
  {
    if s != [] && s[0].createdAt < x.createdAt {
      InsertKeepsOrder(x, s[1..]);
      var t := InsertByCreated(x, s[1..]);
      assert InsertByCreated(x, s) == [s[0]] + t;
      assert t[0] == x || t[0] == s[1];
    }
  }

  /**
   * `ORDER BY created_at`: a stable sort, so rows created at the same instant
   * keep table order.
   */
  function SortByCreated(s: seq<OutboxRow>): (r: seq<OutboxRow>)
    ensures Chained(r)
    ensures multiset(r) == multiset(s)
  {
    if s == [] then []
    else
      assert s == [s[0]] + s[1..];
      InsertKeepsOrder(s[0], SortByCreated(s[1..]));
      InsertByCreated(s[0], SortByCreated(s[1..]))
  }

  /** Every pending row, in the order the query returns them. */
  function PendingInOrder(rows: seq<OutboxRow>): seq<OutboxRow> {
    SortByCreated(Unpublished(rows))
  }

  function Marked(row: OutboxRow, streamId: Option<string>, now: Time): OutboxRow {
    row.(published := true, publishedAt := Some(now), streamId := streamId)
  }

  /** `UPDATE outbox_events SET published, published_at, stream_id WHERE id = outboxId`. */
  function MarkRows(rows: seq<OutboxRow>, outboxId: int, streamId: Option<string>, now: Time): (r: seq<OutboxRow>)
    ensures |r| == |rows|
    ensures forall i :: 0 <= i < |rows| ==>
      r[i] == if rows[i].id == outboxId then Marked(rows[i], streamId, now) else rows[i]
  {
    if rows == [] then []
    else
      [if rows[0].id == outboxId then Marked(rows[0], streamId, now) else rows[0]]
        + MarkRows(rows[1..], outboxId, streamId, now)
  }

  /** Marking the same row twice leaves it published, with the second call's stream id and time. */
  lemma {:induction false} MarkTwice(rows: seq<OutboxRow>, outboxId: int, first: Option<string>, t1: Time, second: Option<string>, t2: Time)
    ensures MarkRows(MarkRows(rows, outboxId, first, t1), outboxId, second, t2) == MarkRows(rows, outboxId, second, t2)
  {
    if rows != [] {
      MarkTwice(rows[1..], outboxId, first, t1, second, t2);
    }
  }

  /** An id no row has leaves the table as it was. */
  lemma {:induction false} MarkUnknownId(rows: seq<OutboxRow>, outboxId: int, streamId: Option<string>, now: Time)
    requires forall i :: 0 <= i < |rows| ==> rows[i].id != outboxId
    ensures MarkRows(rows, outboxId, streamId, now) == rows
  {
    if rows != [] {
      MarkUnknownId(rows[1..], outboxId, streamId, now);
    }
  }

  /** Every pending row is in the query's full result, and nothing else is. */
  lemma PendingInOrderHoldsPending(rows: seq<OutboxRow>, x: OutboxRow)
    ensures x in PendingInOrder(rows) <==> x in rows && !x.published
  {
    assert x in PendingInOrder(rows) <==> x in multiset(PendingInOrder(rows));
    assert x in Unpublished(rows) <==> x in multiset(Unpublished(rows));
  }

  /** `WHERE published = false ORDER BY created_at LIMIT limit`. */
  function PendingBatch(outbox: seq<OutboxRow>, limit: nat): seq<OutboxRow> {
    var pending := PendingInOrder(outbox);
    pending[..Min(limit, |pending|)]
  }

  /**
   * At most `limit` rows, all pending and all from the table, ordered by
   * creation time, and the first ones of the whole pending list.
   */
  lemma PendingBatchSpec(outbox: seq<OutboxRow>, limit: nat)
    ensures var r := PendingBatch(outbox, limit);
      && |r| == Min(limit, |Unpublished(outbox)|)
      && r == PendingInOrder(outbox)[..|r|]
      && SortedByCreated(r)
      && (forall i :: 0 <= i < |r| ==> !r[i].published && r[i] in outbox)
  {
    var pending := PendingInOrder(outbox);
    var u := Unpublished(outbox);
    assert multiset(pending) == multiset(u);
    ChainedIsSorted(pending);
    assert |pending| == |u| by {
      assert |multiset(pending)| == |multiset(u)|;
    }
    var batch := pending[..Min(limit, |pending|)];
    forall i | 0 <= i < |batch| ensures !batch[i].published && batch[i] in outbox {
      assert batch[i] == pending[i];
      assert pending[i] in multiset(pending);
      assert batch[i] in u;
    }
  }

  predicate IdsDistinct(s: seq<OutboxRow>) {
    forall i, j :: 0 <= i < j < |s| ==> s[i].id != s[j].id
  }

  lemma Twice<T>(s: seq<T>, i: nat, j: nat)
    requires i < j < |s| && s[i] == s[j]
    ensures multiset(s)[s[i]] >= 2
  {
    assert s == s[..j] + [s[j]] + s[j + 1..];
    assert s[i] in s[..j];
  }

  lemma {:induction false} AtMostOnce(s: seq<OutboxRow>, x: OutboxRow)
    requires IdsIncreasing(s)
    ensures multiset(s)[x] <= 1
  {
    if s != [] {
      assert s == [s[0]] + s[1..];
      AtMostOnce(s[1..], x);
      if x == s[0] {
        assert x !in s[1..];
      }
    }
  }

  /** Rows drawn without repetition from a table with increasing ids have distinct ids. */
  lemma SubmultisetIdsDistinct(batch: seq<OutboxRow>, outbox: seq<OutboxRow>)
    requires IdsIncreasing(outbox)
    requires multiset(batch) <= multiset(outbox)
    ensures IdsDistinct(batch)
  {
    forall i, j | 0 <= i < j < |batch| ensures batch[i].id != batch[j].id {
      if batch[i].id == batch[j].id {
        assert batch[i] in multiset(outbox) && batch[j] in multiset(outbox);
        var a :| 0 <= a < |outbox| && outbox[a] == batch[i];
        var b :| 0 <= b < |outbox| && outbox[b] == batch[j];
        assert a == b;
        Twice(batch, i, j);
        AtMostOnce(outbox, batch[i]);
        assert false;
      }
    }
  }

  lemma PrefixSubmultiset<T>(s: seq<T>, k: nat)
    requires k <= |s|
    ensures multiset(s[..k]) <= multiset(s)
  {
    assert s == s[..k] + s[k..];
  }

  /** Any prefix of the pending rows has no two rows with the same id. */
  lemma BatchIdsDistinct(outbox: seq<OutboxRow>, limit: nat)
    requires IdsIncreasing(outbox)
    ensures IdsDistinct(PendingBatch(outbox, limit))
  {
    var u := Unpublished(outbox);
    var p := PendingInOrder(outbox);
    var k := Min(limit, |p|);
    assert multiset(p) == multiset(u);
    PrefixSubmultiset(p, k);
    SubmultisetIdsDistinct(p[..k], outbox);
  }

  class Database {
    var tasks: map<Uuid, TaskRow>
    var outbox: seq<OutboxRow>
    /** The next value of the `outbox_events.id` sequence. */
    var nextId: nat

    ghost predicate Valid()
      reads this
    {
      && (forall k :: k in tasks ==> tasks[k].id == k && SerializableDict(tasks[k].payload))
      && 1 <= nextId
      && IdsIncreasing(outbox)
      && (forall i :: 0 <= i < |outbox| ==> 1 <= outbox[i].id < nextId)
      && (forall i :: 0 <= i < |outbox| && outbox[i].payload.Some? ==> SerializableDict(outbox[i].payload.value))
    }

    constructor ()
      ensures Valid()
      ensures tasks == map[] && outbox == [] && nextId == 1
    {
      tasks, outbox, nextId := map[], [], 1;
    }

    /**
     * Inserts the task row and its outbox row in one transaction. The insert
     * fails on a duplicate primary key and on a payload `json.dumps` rejects;
     * then the transaction rolls back.
     */
    method AddTaskWithOutbox(task: Task, event: OutboxEvent, now: Time, reachable: bool)
      returns (r: Result<(), Error>)
      requires Valid()
      modifies this
      ensures Valid()
      ensures r.Ok? <==> reachable && task.id !in old(tasks) && SerializableDict(task.payload)
      ensures r.Err? ==> r.error == PersistenceError && tasks == old(tasks) && outbox == old(outbox) && nextId == old(nextId)
      ensures r.Ok? ==>
        && tasks == old(tasks)[task.id := TaskRow(task.id, task.name, task.payload, task.state, task.attempts, task.lastError, now, now)]
        && |outbox| == |old(outbox)| + 1
        && outbox[..|old(outbox)|] == old(outbox)
        && nextId == old(nextId) + 1
      ensures r.Ok? ==>
        var row := outbox[|old(outbox)|];
        && row.stream == event.stream
        && row.eventType == event.eventType
        && row.payload == Some(OutboxPayload(task))
        && row.createdAt == now
        && !row.published && row.publishedAt == None && row.streamId == None
        && row.id == old(nextId)
        && (forall i :: 0 <= i < |old(outbox)| ==> old(outbox)[i].id < row.id)
    {
      if !reachable || task.id in tasks || !SerializableDict(task.payload) {
        return Err(PersistenceError);
      }
      var taskRow := TaskRow(task.id, task.name, task.payload, task.state, task.attempts, task.lastError, now, now);
      var row := OutboxRow(nextId, event.stream, event.eventType, Some(OutboxPayload(task)), now, false, None, None);
      tasks := tasks[task.id := taskRow];
      outbox := outbox + [row];
      nextId := nextId + 1;
      r := Ok(());
    }

    /**
     * A point lookup by primary key. The id is whatever the caller passes; a
     * value the UUID column cannot take makes the statement fail, and an id
     * no row has, `None` included, raises `TaskNotFoundError`.
     */
    function GetTask(taskId: Value, reachable: bool): (r: Result<Task, Error>)
      reads this
      ensures r.Ok? <==> reachable && TaskKey(taskId).Some? && TaskKey(taskId).value in tasks
      ensures !reachable || (TaskKey(taskId).None? && !taskId.Null?) ==> r == Err(PersistenceError)
      ensures reachable && taskId.Null? ==> r == Err(TaskNotFoundError(taskId))
      ensures reachable && TaskKey(taskId).Some? && TaskKey(taskId).value !in tasks ==> r == Err(TaskNotFoundError(taskId))
      ensures r.Ok? ==>
        var row := tasks[TaskKey(taskId).value];
        && r.value.id == row.id && r.value.name == row.name && r.value.payload == row.payload
        && r.value.state == row.state && r.value.attempts == row.attempts && r.value.lastError == row.lastError
        && r.value.createdAt == row.createdAt && r.value.updatedAt == row.updatedAt
    {
      if !reachable then Err(PersistenceError)
      else if taskId.Null? then Err(TaskNotFoundError(taskId))
      else match TaskKey(taskId)
        case None => Err(PersistenceError)
        case Some(key) =>
          if key !in tasks then Err(TaskNotFoundError(taskId))
          else
            var row := tasks[key];
            Ok(Task(row.id, row.name, row.payload, row.state, row.attempts, row.lastError, row.createdAt, row.updatedAt))
    }

    /**
     * `SELECT ... WHERE published == False ORDER BY created_at LIMIT limit`.
     * A negative limit is refused by the database.
     */
    function FetchPendingOutbox(limit: int, reachable: bool): (r: Result<seq<OutboxRow>, Error>)
      reads this
      ensures r.Err? <==> !reachable || limit < 0
      ensures r.Err? ==> r.error == PersistenceError
      ensures r.Ok? ==> r.value == PendingBatch(outbox, limit)
    {
      if !reachable || limit < 0 then Err(PersistenceError)
      else Ok(PendingBatch(outbox, limit))
    }

    /** Sets `published`, `published_at` and `stream_id` on the row with that id; other rows keep theirs. */
    method MarkOutboxPublished(outboxId: int, streamId: Option<string>, now: Time, reachable: bool)
      returns (r: Result<(), Error>)
      requires Valid()
      modifies this
      ensures Valid()
      ensures r.Ok? <==> reachable
      ensures r.Err? ==> r.error == PersistenceError
      ensures tasks == old(tasks) && nextId == old(nextId)
      ensures outbox == if reachable then MarkRows(old(outbox), outboxId, streamId, now) else old(outbox)
    {
      if !reachable {
        return Err(PersistenceError);
      }
      var marked := MarkRows(outbox, outboxId, streamId, now);
      assert forall i :: 0 <= i < |marked| ==> marked[i].id == outbox[i].id && marked[i].payload == outbox[i].payload;
      outbox := marked;
      r := Ok(());
    }
  }
}
