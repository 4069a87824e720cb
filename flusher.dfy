/**
 * `OutboxFlusher`: moves pending outbox rows to their Redis streams. One call
 * of `RunLoop` is one iteration of the `while self._running` loop: fetch up
 * to 50 pending rows, then for each row normalise its payload, append the
 * entry, and mark the row published. A failing row is counted and the batch
 * goes on.
 */
module Flusher {
  import opened Wrappers
  import opened Uuids
  import opened Json
  import opened Models
  import opened Repository
  import opened Streams

  const BatchLimit: nat := 50

  function NormalizedValue(v: Value): Value {
    if v.UuidObj? then Str(UuidString(v.u)) else v
  }

  /** `ev.payload or {}`, with each top-level UUID value replaced by its string form. */
  function Normalized(p: Option<Dict>): Dict {
    var d := p.GetOr(map[]);
    map k | k in d :: NormalizedValue(d[k])
  }

  /** `None` becomes `{}`; keys stay; only top-level UUID values change, into their text. */
  lemma NormalizedSpec(p: Option<Dict>)
    ensures p.None? ==> Normalized(p) == map[]
    ensures Normalized(p).Keys == p.GetOr(map[]).Keys
    ensures forall k :: k in Normalized(p) ==> !Normalized(p)[k].UuidObj?
    ensures forall k :: k in Normalized(p) && !p.value[k].UuidObj? ==> Normalized(p)[k] == p.value[k]
    ensures forall k :: k in Normalized(p) && p.value[k].UuidObj? ==> Normalized(p)[k] == Str(UuidString(p.value[k].u))
  {
  }

  /** The in-place loop over `payload.items()`. */
  method NormalizePayload(payload: Option<Dict>) returns (q: Dict)
    ensures q == Normalized(payload)
  {
    q := payload.GetOr(map[]);
    ghost var original := q;
    var todo := q.Keys;
    while todo != {}
      invariant todo <= q.Keys && q.Keys == original.Keys
      invariant forall k :: k in q ==> q[k] == if k in todo then original[k] else NormalizedValue(original[k])
      decreases todo
    {
      var k :| k in todo;
      if q[k].UuidObj? {
        q := q[k := Str(UuidString(q[k].u))];
      }
      todo := todo - {k};
    }
  }

  /** Normalising a payload `json.dumps` already accepts changes nothing but `None` into `{}`. */
  lemma NormalizeSerializable(p: Option<Dict>)
    requires p.Some? ==> SerializableDict(p.value)
    ensures Normalized(p) == p.GetOr(map[])
    ensures SerializableDict(Normalized(p))
  {
  }

  /** The entry appended for a row: its event type, the JSON text of its payload, and its creation time. */
  function EntryFor(row: OutboxRow, payloadText: string): (e: Fields)
    ensures e.Keys == {"type", "payload", "created_at"}
    ensures e["payload"] == Text(payloadText) && e["type"] == Text(row.eventType)
  {
    map["type" := Text(row.eventType), "payload" := Text(payloadText), "created_at" := Text(IsoFormat(row.createdAt))]
  }

  /**
   * What the environment does with one row: whether the XADD reaches Redis
   * and the server's clock then, and whether the marking transaction reaches
   * the database and `utcnow()` then.
   */
  datatype RowOutcome = RowOutcome(xaddReachable: bool, xaddMs: nat, markReachable: bool, markedAt: Time)

  /** The outcome for batch position `i`; positions past the end fail. */
  function OutcomeAt(outcomes: seq<RowOutcome>, i: nat): RowOutcome {
    if i < |outcomes| then outcomes[i] else RowOutcome(false, 0, false, 0)
  }

  /** The part of the system a batch touches: the outbox table, the streams and the two counters. */
  datatype World = World(outbox: seq<OutboxRow>, streams: map<string, seq<StreamEntry>>, published: nat, errors: nat)

  /** Whether a row's processing gets as far as being marked published. */
  predicate RowSucceeds(row: OutboxRow, o: RowOutcome, codec: Codec) {
    Dumps(codec, Obj(Normalized(row.payload))).Some? && o.xaddReachable && o.markReachable
  }

  /** Whether a row's entry gets appended to its stream. */
  predicate RowAppends(row: OutboxRow, o: RowOutcome, codec: Codec) {
    Dumps(codec, Obj(Normalized(row.payload))).Some? && o.xaddReachable
  }

  /** The body of `for ev in pending`, with the exception handler. */
  function ProcessRow(w: World, row: OutboxRow, o: RowOutcome, codec: Codec): World {
    match Dumps(codec, Obj(Normalized(row.payload)))
    case None => w.(errors := w.errors + 1)
    case Some(text) =>
      if !o.xaddReachable then w.(errors := w.errors + 1)
      else
        var (streams, id) := Appended(w.streams, row.stream, EntryFor(row, text), o.xaddMs);
        if !o.markReachable then w.(streams := streams, errors := w.errors + 1)
        else w.(streams := streams, outbox := MarkRows(w.outbox, row.id, Some(IdText(id)), o.markedAt), published := w.published + 1)
  }

  /** The world after the first `n` rows of the batch. */
  function FlushPrefix(w: World, rows: seq<OutboxRow>, outcomes: seq<RowOutcome>, codec: Codec, n: nat): World
    requires n <= |rows|
  {
    if n == 0 then w
    else ProcessRow(FlushPrefix(w, rows, outcomes, codec, n - 1), rows[n - 1], OutcomeAt(outcomes, n - 1), codec)
  }

  /** How many of the first `n` rows get marked published. */
  function Successes(rows: seq<OutboxRow>, outcomes: seq<RowOutcome>, codec: Codec, n: nat): nat
    requires n <= |rows|
  {
    if n == 0 then 0
    else Successes(rows, outcomes, codec, n - 1) + (if RowSucceeds(rows[n - 1], OutcomeAt(outcomes, n - 1), codec) then 1 else 0)
  }

  /** The ids of the first `n` rows that get marked published. */
  function MarkedIds(rows: seq<OutboxRow>, outcomes: seq<RowOutcome>, codec: Codec, n: nat): set<int>
    requires n <= |rows|
  {
    if n == 0 then {}
    else MarkedIds(rows, outcomes, codec, n - 1) + (if RowSucceeds(rows[n - 1], OutcomeAt(outcomes, n - 1), codec) then {rows[n - 1].id} else {})
  }

  /** The entry one row appends to stream `name`, if any. */
  function SentBy(row: OutboxRow, o: RowOutcome, codec: Codec, name: string): seq<Fields> {
    if row.stream == name && RowAppends(row, o, codec)
    then [EntryFor(row, Dumps(codec, Obj(Normalized(row.payload))).value)] else []
  }

  /** The entries the first `n` rows append to stream `name`, in batch order. */
  function Sent(rows: seq<OutboxRow>, outcomes: seq<RowOutcome>, codec: Codec, name: string, n: nat): seq<Fields>
    requires n <= |rows|
  {
    if n == 0 then []
    else Sent(rows, outcomes, codec, name, n - 1) + SentBy(rows[n - 1], OutcomeAt(outcomes, n - 1), codec, name)
  }

  /** Helper for the append lemmas: the field maps of a stream's entries, in stream order. */
  function FieldsOf(log: seq<StreamEntry>): (r: seq<Fields>)
    ensures |r| == |log|
  {
    if log == [] then [] else FieldsOf(log[..|log| - 1]) + [log[|log| - 1].fields]
  }

  lemma FieldsOfSnoc(log: seq<StreamEntry>, e: StreamEntry)
    ensures FieldsOf(log + [e]) == FieldsOf(log) + [e.fields]
  {
    assert (log + [e])[..|log|] == log;
  }

  /** A row and its marked form: the same event. */
  predicate SameEvent(a: OutboxRow, b: OutboxRow) {
    a.id == b.id && a.stream == b.stream && a.eventType == b.eventType && a.payload == b.payload && a.createdAt == b.createdAt
  }

  lemma ProcessRowCounts(w: World, row: OutboxRow, o: RowOutcome, codec: Codec)
    ensures ProcessRow(w, row, o, codec).published == w.published + (if RowSucceeds(row, o, codec) then 1 else 0)
    ensures ProcessRow(w, row, o, codec).errors == w.errors + (if RowSucceeds(row, o, codec) then 0 else 1)
  {
  }

  lemma ProcessRowOutbox(w: World, row: OutboxRow, o: RowOutcome, codec: Codec)
    ensures var r := ProcessRow(w, row, o, codec).outbox;
      && |r| == |w.outbox|
      && (forall j :: 0 <= j < |r| ==> SameEvent(r[j], w.outbox[j]))
      && (forall j :: 0 <= j < |r| && (w.outbox[j].id != row.id || !RowSucceeds(row, o, codec)) ==> r[j] == w.outbox[j])
      && (forall j :: 0 <= j < |r| && w.outbox[j].id == row.id && RowSucceeds(row, o, codec) ==> r[j].published && r[j].streamId.Some?)
  {
  }

  lemma ProcessRowStreams(w: World, row: OutboxRow, o: RowOutcome, codec: Codec, name: string)
    ensures Log(ProcessRow(w, row, o, codec).streams, name)
            == Log(w.streams, name)
               + (if row.stream == name && RowAppends(row, o, codec)
                  then [StreamEntry(NextId(LastId(Log(w.streams, name)), o.xaddMs), EntryFor(row, Dumps(codec, Obj(Normalized(row.payload))).value))]
                  else [])
  {
  }

  /** Every row of the batch is counted once: as published when it is marked, as an error otherwise. */
  lemma {:induction false} FlushCounts(w: World, rows: seq<OutboxRow>, outcomes: seq<RowOutcome>, codec: Codec, n: nat)
    requires n <= |rows|
    ensures FlushPrefix(w, rows, outcomes, codec, n).published == w.published + Successes(rows, outcomes, codec, n)
    ensures FlushPrefix(w, rows, outcomes, codec, n).errors == w.errors + n - Successes(rows, outcomes, codec, n)
  {
    if n > 0 {
      FlushCounts(w, rows, outcomes, codec, n - 1);
      ProcessRowCounts(FlushPrefix(w, rows, outcomes, codec, n - 1), rows[n - 1], OutcomeAt(outcomes, n - 1), codec);
    }
  }

  /**
   * The batch only marks rows: the table keeps its length and every event;
   * a row whose id no successful row carries is left exactly as it was; a
   * row whose id one does is published with a stream id.
   */
  lemma {:induction false} FlushOutbox(w: World, rows: seq<OutboxRow>, outcomes: seq<RowOutcome>, codec: Codec, n: nat)
    requires n <= |rows|
    ensures var r := FlushPrefix(w, rows, outcomes, codec, n).outbox;
      && |r| == |w.outbox|
      && (forall j :: 0 <= j < |r| ==> SameEvent(r[j], w.outbox[j]))
      && (forall j :: 0 <= j < |r| && w.outbox[j].id !in MarkedIds(rows, outcomes, codec, n) ==> r[j] == w.outbox[j])
      && (forall j :: 0 <= j < |r| && w.outbox[j].id in MarkedIds(rows, outcomes, codec, n) ==> r[j].published && r[j].streamId.Some?)
  {
    if n > 0 {
      FlushOutbox(w, rows, outcomes, codec, n - 1);
      ProcessRowOutbox(FlushPrefix(w, rows, outcomes, codec, n - 1), rows[n - 1], OutcomeAt(outcomes, n - 1), codec);
    }
  }

  lemma ProcessRowFields(w: World, row: OutboxRow, o: RowOutcome, codec: Codec, name: string)
    ensures FieldsOf(Log(ProcessRow(w, row, o, codec).streams, name)) == FieldsOf(Log(w.streams, name)) + SentBy(row, o, codec, name)
  {
    var log := Log(w.streams, name);
    ProcessRowStreams(w, row, o, codec, name);
    if row.stream == name && RowAppends(row, o, codec) {
      FieldsOfSnoc(log, StreamEntry(NextId(LastId(log), o.xaddMs), EntryFor(row, Dumps(codec, Obj(Normalized(row.payload))).value)));
    } else {
      assert log + [] == log;
      assert FieldsOf(log) + [] == FieldsOf(log);
    }
  }

  lemma ChainStep<T>(before: seq<T>, mid: seq<T>, after: seq<T>, sent: seq<T>, sentNext: seq<T>, step: seq<T>)
    requires mid == before + sent && after == mid + step && sentNext == sent + step
    ensures after == before + sentNext
  {
  }

  /** Each stream receives exactly the entries of the batch's rows for it whose XADD went through, in batch order. */
  lemma {:induction false} FlushAppends(w: World, rows: seq<OutboxRow>, outcomes: seq<RowOutcome>, codec: Codec, name: string, n: nat)
    requires n <= |rows|
    ensures FieldsOf(Log(FlushPrefix(w, rows, outcomes, codec, n).streams, name))
            == FieldsOf(Log(w.streams, name)) + Sent(rows, outcomes, codec, name, n)
  {
    if n > 0 {
      var mid := FlushPrefix(w, rows, outcomes, codec, n - 1);
      var step := SentBy(rows[n - 1], OutcomeAt(outcomes, n - 1), codec, name);
      FlushAppends(w, rows, outcomes, codec, name, n - 1);
      ProcessRowFields(mid, rows[n - 1], OutcomeAt(outcomes, n - 1), codec, name);
      ChainStep(FieldsOf(Log(w.streams, name)), FieldsOf(Log(mid.streams, name)),
                FieldsOf(Log(FlushPrefix(w, rows, outcomes, codec, n).streams, name)),
                Sent(rows, outcomes, codec, name, n - 1), Sent(rows, outcomes, codec, name, n), step);
    }
  }

  lemma {:induction false} FailedRowNotMarked(rows: seq<OutboxRow>, outcomes: seq<RowOutcome>, codec: Codec, n: nat, k: nat)
    requires n <= |rows| && k < |rows|
    requires IdsDistinct(rows)
    requires !RowSucceeds(rows[k], OutcomeAt(outcomes, k), codec)
    ensures rows[k].id !in MarkedIds(rows, outcomes, codec, n)
  {
    if n > 0 {
      FailedRowNotMarked(rows, outcomes, codec, n - 1, k);
    }
  }

  /**
   * At least once: a row of the batch whose encoding, append or marking
   * fails is still in the table, unpublished, after the batch, so a later
   * fetch returns it again.
   */
  lemma AtLeastOnce(w: World, rows: seq<OutboxRow>, outcomes: seq<RowOutcome>, codec: Codec, k: nat)
    requires k < |rows|
    requires IdsDistinct(rows)
    requires rows[k] in w.outbox && !rows[k].published
    requires !RowSucceeds(rows[k], OutcomeAt(outcomes, k), codec)
    ensures rows[k] in FlushPrefix(w, rows, outcomes, codec, |rows|).outbox
    ensures rows[k] in PendingInOrder(FlushPrefix(w, rows, outcomes, codec, |rows|).outbox)
  {
    FailedRowNotMarked(rows, outcomes, codec, |rows|, k);
    FlushOutbox(w, rows, outcomes, codec, |rows|);
    var j :| 0 <= j < |w.outbox| && w.outbox[j] == rows[k];
    var r := FlushPrefix(w, rows, outcomes, codec, |rows|).outbox;
    assert r[j] == rows[k];
    PendingInOrderHoldsPending(r, rows[k]);
  }

  /**
   * When the append succeeds and the marking fails, the entry is in the
   * stream and the row is unchanged in the table: the next batch sends it
   * again.
   */
  lemma MarkFailureRepublishes(w: World, row: OutboxRow, o: RowOutcome, codec: Codec)
    requires RowAppends(row, o, codec) && !o.markReachable
    ensures ProcessRow(w, row, o, codec).outbox == w.outbox
    ensures |Log(ProcessRow(w, row, o, codec).streams, row.stream)| == |Log(w.streams, row.stream)| + 1
    ensures ProcessRow(w, row, o, codec).errors == w.errors + 1
  {
  }

  /** A marked row records the text of the id its entry got, the last id of its stream. */
  lemma ProcessRowRecordsEntryId(w: World, row: OutboxRow, o: RowOutcome, codec: Codec)
    requires RowSucceeds(row, o, codec)
    ensures var r := ProcessRow(w, row, o, codec);
      var id := LastId(Log(r.streams, row.stream));
      && Before(LastId(Log(w.streams, row.stream)), id)
      && r.outbox == MarkRows(w.outbox, row.id, Some(IdText(id)), o.markedAt)
  {
  }

  /** `str(b"...")`: what the source records as the stream id, since its client returns bytes. */
  function PyStrOfBytes(id: StreamId): string {
    "b'" + IdText(id) + "'"
  }

  /**
   * The per-row step as the source writes it: the same as `ProcessRow`,
   * except that the mark records `str()` of the bytes reply.
   */
  function ProcessRowAsWritten(w: World, row: OutboxRow, o: RowOutcome, codec: Codec): World {
    match Dumps(codec, Obj(Normalized(row.payload)))
    case None => w.(errors := w.errors + 1)
    case Some(text) =>
      if !o.xaddReachable then w.(errors := w.errors + 1)
      else
        var (streams, id) := Appended(w.streams, row.stream, EntryFor(row, text), o.xaddMs);
        if !o.markReachable then w.(streams := streams, errors := w.errors + 1)
        else w.(streams := streams, outbox := MarkRows(w.outbox, row.id, Some(PyStrOfBytes(id)), o.markedAt), published := w.published + 1)
  }

  /** The recorded text is not the text of any stream id. */
  lemma RecordedIdAsWritten(id: StreamId)
    ensures forall other :: IdText(other) != PyStrOfBytes(id)
    ensures PyStrOfBytes(id) == "b'" + IdText(id) + "'"
  {
    forall other ensures IdText(other) != PyStrOfBytes(id) {
      assert PyStrOfBytes(id)[0] == 'b';
    }
  }

  /**
   * The step as written differs from the intended one only in the text the
   * marked row records: there, for a successful row found in the table, it
   * is `b'<id>'`, which names no stream id, where the intended step records
   * the entry's id.
   */
  lemma AsWrittenRecordsBytes(w: World, row: OutboxRow, o: RowOutcome, codec: Codec, j: nat)
    requires RowSucceeds(row, o, codec)
    requires j < |w.outbox| && w.outbox[j].id == row.id
    ensures var fixed := ProcessRow(w, row, o, codec);
      var written := ProcessRowAsWritten(w, row, o, codec);
      var id := LastId(Log(fixed.streams, row.stream));
      && written.streams == fixed.streams && written.published == fixed.published && written.errors == fixed.errors
      && |written.outbox| == |fixed.outbox| == |w.outbox|
      && fixed.outbox[j].streamId == Some(IdText(id))
      && written.outbox[j].streamId == Some(PyStrOfBytes(id))
      && (forall other :: written.outbox[j].streamId != Some(IdText(other)))
  {
    RecordedIdAsWritten(LastId(Log(ProcessRow(w, row, o, codec).streams, row.stream)));
  }

  class OutboxFlusher {
    const repo: Database
    const redisUrl: string
    var client: Option<Connection>
    var running: bool
    /** `samurai_outbox_published_total`. */
    var publishedTotal: nat
    /** `samurai_outbox_publish_errors_total`. */
    var errorsTotal: nat
    /** `samurai_outbox_pending`. */
    var pendingGauge: nat

    constructor (repo: Database, redisUrl: string)
      ensures this.repo == repo && this.redisUrl == redisUrl
      ensures client == None && !running
      ensures publishedTotal == 0 && errorsTotal == 0 && pendingGauge == 0
    {
      this.repo := repo;
      this.redisUrl := redisUrl;
      client := None;
      running := false;
      publishedTotal, errorsTotal, pendingGauge := 0, 0, 0;
    }

    /** The lazily made client: `conn` is what `from_url` would return; an existing client is reused. */
    method Client(conn: Connection) returns (c: Connection)
      modifies this`client
      ensures old(client).Some? ==> c == old(client).value && client == old(client)
      ensures old(client).None? ==> c == conn && client == Some(conn)
    {
      if client.None? {
        client := Some(conn);
      }
      c := client.value;
    }

    /**
     * One iteration of `run_loop`. A failed fetch is the loop-level handler's
     * case: nothing changes. An empty fetch sets the gauge to 0 and does not
     * even create the client. The source sets `running` once, before its
     * `while`; setting it again at the start of each modelled iteration
     * changes nothing, since an iteration only runs while the flag is set.
     */
    method RunLoop(server: StreamStore, codec: Codec, dbReachable: bool, conn: Connection, outcomes: seq<RowOutcome>)
      requires repo.Valid() && server.Valid()
      modifies this`running, this`pendingGauge, this`client, this`publishedTotal, this`errorsTotal, repo, server
      ensures repo.Valid() && server.Valid()
      ensures running
      ensures repo.tasks == old(repo.tasks) && repo.nextId == old(repo.nextId) && server.groups == old(server.groups)
      ensures !dbReachable ==>
        && repo.outbox == old(repo.outbox) && server.streams == old(server.streams)
        && publishedTotal == old(publishedTotal) && errorsTotal == old(errorsTotal)
        && pendingGauge == old(pendingGauge) && client == old(client)
      ensures dbReachable ==>
        var batch := PendingBatch(old(repo.outbox), BatchLimit);
        && pendingGauge == |batch|
        && client == (if batch == [] || old(client).Some? then old(client) else Some(conn))
        && World(repo.outbox, server.streams, publishedTotal, errorsTotal)
           == FlushPrefix(old(World(repo.outbox, server.streams, publishedTotal, errorsTotal)), batch, outcomes, codec, |batch|)
    {
      running := true;
      var fetched := repo.FetchPendingOutbox(BatchLimit, dbReachable);
      if fetched.Ok? {
        PublishFetched(server, codec, conn, fetched.value, outcomes);
      }
    }

    /** The rest of the iteration once the fetch has answered. */
    method PublishFetched(server: StreamStore, codec: Codec, conn: Connection, pending: seq<OutboxRow>, outcomes: seq<RowOutcome>)
      requires repo.Valid() && server.Valid()
      modifies this`pendingGauge, this`client, this`publishedTotal, this`errorsTotal, repo, server
      ensures repo.Valid() && server.Valid()
      ensures repo.tasks == old(repo.tasks) && repo.nextId == old(repo.nextId) && server.groups == old(server.groups)
      ensures pendingGauge == |pending|
      ensures client == (if pending == [] || old(client).Some? then old(client) else Some(conn))
      ensures World(repo.outbox, server.streams, publishedTotal, errorsTotal)
              == FlushPrefix(old(World(repo.outbox, server.streams, publishedTotal, errorsTotal)), pending, outcomes, codec, |pending|)
    {
      pendingGauge := |pending|;
      if pending == [] {
        return;
      }
      var _ := Client(conn);
      PublishBatch(server, pending, outcomes, codec);
    }

    /** The `for ev in pending` loop. */
    method PublishBatch(server: StreamStore, pending: seq<OutboxRow>, outcomes: seq<RowOutcome>, codec: Codec)
      requires repo.Valid() && server.Valid()
      modifies this`publishedTotal, this`errorsTotal, repo, server
      ensures repo.Valid() && server.Valid()
      ensures repo.tasks == old(repo.tasks) && repo.nextId == old(repo.nextId) && server.groups == old(server.groups)
      ensures World(repo.outbox, server.streams, publishedTotal, errorsTotal)
              == FlushPrefix(old(World(repo.outbox, server.streams, publishedTotal, errorsTotal)), pending, outcomes, codec, |pending|)
    {
      ghost var w0 := World(repo.outbox, server.streams, publishedTotal, errorsTotal);
      var i := 0;
      while i < |pending|
        invariant 0 <= i <= |pending|
        invariant repo.Valid() && server.Valid()
        invariant repo.tasks == old(repo.tasks) && repo.nextId == old(repo.nextId) && server.groups == old(server.groups)
        invariant World(repo.outbox, server.streams, publishedTotal, errorsTotal) == FlushPrefix(w0, pending, outcomes, codec, i)
      {
        PublishRow(server, pending[i], OutcomeAt(outcomes, i), codec);
        i := i + 1;
      }
    }

    /** One row of the batch, with the per-row exception handler counting the failure. */
    method PublishRow(server: StreamStore, ev: OutboxRow, o: RowOutcome, codec: Codec)
      requires repo.Valid() && server.Valid()
      modifies this`publishedTotal, this`errorsTotal, repo, server
      ensures repo.Valid() && server.Valid()
      ensures repo.tasks == old(repo.tasks) && repo.nextId == old(repo.nextId) && server.groups == old(server.groups)
      ensures World(repo.outbox, server.streams, publishedTotal, errorsTotal)
              == ProcessRow(old(World(repo.outbox, server.streams, publishedTotal, errorsTotal)), ev, o, codec)
    {
      ghost var w := World(repo.outbox, server.streams, publishedTotal, errorsTotal);
      var payload := NormalizePayload(ev.payload);
      var text := Dumps(codec, Obj(payload));
      if text.None? {
        errorsTotal := errorsTotal + 1;
        assert ProcessRow(w, ev, o, codec) == w.(errors := w.errors + 1);
        return;
      }
      var added := server.XAdd(ev.stream, EntryFor(ev, text.value), o.xaddMs, o.xaddReachable);
      if added.Err? {
        errorsTotal := errorsTotal + 1;
        assert ProcessRow(w, ev, o, codec) == w.(errors := w.errors + 1);
        return;
      }
      ghost var (streams, id) := Appended(w.streams, ev.stream, EntryFor(ev, text.value), o.xaddMs);
      assert server.streams == streams && added.value == id;
      var marked := repo.MarkOutboxPublished(ev.id, Some(IdText(added.value)), o.markedAt, o.markReachable);
      if marked.Err? {
        errorsTotal := errorsTotal + 1;
        assert ProcessRow(w, ev, o, codec) == w.(streams := streams, errors := w.errors + 1);
      } else {
        publishedTotal := publishedTotal + 1;
        assert ProcessRow(w, ev, o, codec)
            == w.(streams := streams, outbox := MarkRows(w.outbox, ev.id, Some(IdText(id)), o.markedAt), published := w.published + 1);
      }
    }

    /** Clears the running flag and closes and drops the client. */
    method Stop()
      modifies this
      ensures !running && client == None
      ensures publishedTotal == old(publishedTotal) && errorsTotal == old(errorsTotal) && pendingGauge == old(pendingGauge)
    {
      running := false;
      client := None;
    }
  }
}
