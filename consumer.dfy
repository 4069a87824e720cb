/**
 * `RedisStreamConsumer`: reads new entries of one stream as a member of a
 * consumer group, decodes each entry into the handler's three arguments,
 * and acknowledges the entry once the handler returns. `Poll` is one
 * iteration of the `while not self._stopped` loop.
 */
module Consumer {
  import opened Wrappers
  import opened Json
  import opened Streams

  const DefaultGroup: string := "samurai-workers"
  const DefaultConsumerName: string := "consumer-1"

  /** The arguments one handler call receives. */
  datatype Delivery = Delivery(eventType: string, taskId: string, data: Value)

  /** `raw.get(b"task_id").decode() if raw.get(b"task_id") else ""`; an undecodable id raises. */
  function TaskIdOf(raw: Fields): (r: Option<string>)
    ensures ("task_id" !in raw || raw["task_id"] == Text("")) ==> r == Some("")
    ensures "task_id" in raw && raw["task_id"].Text? ==> r == Some(raw["task_id"].s)
    ensures "task_id" in raw && raw["task_id"].NonUtf8? ==> r == None
  {
    if "task_id" in raw && NonEmpty(raw["task_id"]) then
      match raw["task_id"]
      case Text(s) => Some(s)
      case NonUtf8 => None
    else Some("")
  }

  /** The handler's `data`: `{}` unless the payload field is present, non-empty, decodable and valid JSON. */
  function PayloadOf(raw: Fields, codec: Codec): (data: Value)
    ensures "payload" in raw && raw["payload"].Text? && raw["payload"].s != "" && codec.loads(raw["payload"].s).Some?
            ==> data == codec.loads(raw["payload"].s).value
    ensures "payload" !in raw || raw["payload"].NonUtf8? || raw["payload"] == Text("") || codec.loads(raw["payload"].s).None?
            ==> data == Obj(map[])
  {
    if "payload" in raw && NonEmpty(raw["payload"]) then
      match raw["payload"]
      case Text(s) => codec.loads(s).GetOr(Obj(map[]))
      case NonUtf8 => Obj(map[])
    else Obj(map[])
  }

  /**
   * The decoding inside the per-message `try`: `None` when it raises (no
   * `type` field, or a `type` or `task_id` that is not UTF-8), and then the
   * handler is not called.
   */
  function DecodeMessage(raw: Fields, codec: Codec): (r: Option<Delivery>)
    ensures r.Some? <==> "type" in raw && raw["type"].Text? && TaskIdOf(raw).Some?
    ensures r.Some? ==> r.value == Delivery(raw["type"].s, TaskIdOf(raw).value, PayloadOf(raw, codec))
  {
    if "type" in raw && raw["type"].Text? then
      match TaskIdOf(raw)
      case Some(taskId) => Some(Delivery(raw["type"].s, taskId, PayloadOf(raw, codec)))
      case None => None
    else None
  }

  /** A message whose payload is missing or is not JSON is still delivered, with `{}` as its data. */
  lemma MalformedPayloadIsEmpty(raw: Fields, codec: Codec, eventType: string)
    requires "type" in raw && raw["type"] == Text(eventType) && "task_id" !in raw
    requires "payload" !in raw || (raw["payload"].Text? && codec.loads(raw["payload"].s).None?)
    ensures DecodeMessage(raw, codec) == Some(Delivery(eventType, "", Obj(map[])))
  {
  }

  /** What happens to the message at one batch position: whether the handler returns normally and whether XACK reaches Redis. */
  datatype MessageOutcome = MessageOutcome(handlerOk: bool, ackReachable: bool)

  function OutcomeAt(outcomes: seq<MessageOutcome>, i: nat): MessageOutcome {
    if i < |outcomes| then outcomes[i] else MessageOutcome(false, false)
  }

  /** Whether the message gets acknowledged: decoded, handled without an exception, and XACK answered. */
  predicate Acks(e: StreamEntry, o: MessageOutcome, codec: Codec) {
    DecodeMessage(e.fields, codec).Some? && o.handlerOk && o.ackReachable
  }

  /** The handler calls for the first `n` messages, in order. */
  function Delivered(batch: seq<StreamEntry>, codec: Codec, n: nat): seq<Delivery>
    requires n <= |batch|
  {
    if n == 0 then []
    else
      Delivered(batch, codec, n - 1)
        + match DecodeMessage(batch[n - 1].fields, codec) case Some(d) => [d] case None => []
  }

  /** The ids the first `n` messages acknowledge. */
  function AckedIds(batch: seq<StreamEntry>, codec: Codec, outcomes: seq<MessageOutcome>, n: nat): set<StreamId>
    requires n <= |batch|
  {
    if n == 0 then {}
    else AckedIds(batch, codec, outcomes, n - 1) + AckOf(batch[n - 1], OutcomeAt(outcomes, n - 1), codec)
  }

  /** The id one message acknowledges, if any. */
  function AckOf(e: StreamEntry, o: MessageOutcome, codec: Codec): set<StreamId> {
    if Acks(e, o, codec) then {e.id} else {}
  }

  function Acknowledged(g: Group, ids: set<StreamId>): Group {
    g.(pending := g.pending - ids)
  }

  lemma AcknowledgeMore(g: Group, ids: set<StreamId>, more: set<StreamId>)
    ensures Acknowledged(Acknowledged(g, ids), more) == Acknowledged(g, ids + more)
  {
    assert g.pending - (ids + more) == (g.pending - ids) - more;
  }

  lemma UpdateTwice<K, V>(m: map<K, V>, k: K, a: V, b: V)
    ensures m[k := a][k := b] == m[k := b]
  {
  }

  /** Every acknowledged id is the id of a message that was acknowledged. */
  lemma {:induction false} AckedIdsOnlyAcks(batch: seq<StreamEntry>, codec: Codec, outcomes: seq<MessageOutcome>, n: nat, id: StreamId)
    requires n <= |batch|
    ensures id in AckedIds(batch, codec, outcomes, n) <==>
      exists i :: 0 <= i < n && batch[i].id == id && Acks(batch[i], OutcomeAt(outcomes, i), codec)
  {
    if n > 0 {
      AckedIdsOnlyAcks(batch, codec, outcomes, n - 1, id);
    }
  }

  /** A message is acknowledged iff it decodes, its handler returns normally and XACK is answered. */
  lemma AckIff(batch: seq<StreamEntry>, codec: Codec, outcomes: seq<MessageOutcome>, k: nat)
    requires IdsAscending(batch) && k < |batch|
    ensures batch[k].id in AckedIds(batch, codec, outcomes, |batch|) <==> Acks(batch[k], OutcomeAt(outcomes, k), codec)
  {
    AckedIdsOnlyAcks(batch, codec, outcomes, |batch|, batch[k].id);
    if batch[k].id in AckedIds(batch, codec, outcomes, |batch|) {
      var i :| 0 <= i < |batch| && batch[i].id == batch[k].id && Acks(batch[i], OutcomeAt(outcomes, i), codec);
      assert !(i < k) && !(k < i);
    }
  }

  /**
   * After the batch, a delivered message stays in the group's pending list
   * exactly when it was not acknowledged, so it can be claimed again.
   */
  lemma UnackedStaysPending(g: Group, batch: seq<StreamEntry>, consumer: string, codec: Codec, outcomes: seq<MessageOutcome>, k: nat)
    requires IdsAscending(batch) && k < |batch|
    ensures var after := Acknowledged(ReadInto(g, batch, consumer), AckedIds(batch, codec, outcomes, |batch|));
      batch[k].id in after.pending <==> !Acks(batch[k], OutcomeAt(outcomes, k), codec)
  {
    AckIff(batch, codec, outcomes, k);
    assert batch[k].id in IdsOf(batch);
  }

  /** When every message decodes, the handler sees each one, in log order. */
  lemma {:induction false} DeliveredInOrder(batch: seq<StreamEntry>, codec: Codec, n: nat)
    requires n <= |batch|
    requires forall i :: 0 <= i < n ==> DecodeMessage(batch[i].fields, codec).Some?
    ensures |Delivered(batch, codec, n)| == n
    ensures forall i :: 0 <= i < n ==> Delivered(batch, codec, n)[i] == DecodeMessage(batch[i].fields, codec).value
  {
    if n > 0 {
      DeliveredInOrder(batch, codec, n - 1);
    }
  }

  /** A read returns entries in log order, all after the group's cursor. */
  lemma ReadIsAscending(log: seq<StreamEntry>, cursor: StreamId, count: nat)
    requires IdsAscending(log)
    ensures IdsAscending(Take(NewEntries(log, cursor), count))
    ensures forall e :: e in Take(NewEntries(log, cursor), count) ==> Before(cursor, e.id)
  {
    var unread := NewEntries(log, cursor);
    var r := Take(unread, count);
    assert forall i :: 0 <= i < |r| ==> r[i] == unread[i];
  }

  class RedisStreamConsumer {
    const stream: string
    const group: string
    const consumerName: string
    const redisUrl: string
    var client: Option<Connection>
    var stopped: bool

    constructor (stream: string, group: string, consumerName: string, redisUrl: string)
      ensures this.stream == stream && this.group == group && this.consumerName == consumerName && this.redisUrl == redisUrl
      ensures client == None && !stopped
    {
      this.stream := stream;
      this.group := group;
      this.consumerName := consumerName;
      this.redisUrl := redisUrl;
      client := None;
      stopped := false;
    }

    /** `_get_client`: `conn` is what `from_url` would return; an existing client is reused. */
    method GetClient(conn: Connection) returns (c: Connection)
      modifies this`client
      ensures old(client).Some? ==> c == old(client).value && client == old(client)
      ensures old(client).None? ==> c == conn && client == Some(conn)
    {
      if client.None? {
        client := Some(conn);
      }
      c := client.value;
    }

    /** Creates the group at id 0 with MKSTREAM; every error, not only BUSYGROUP, is swallowed. */
    method EnsureGroup(server: StreamStore, conn: Connection, reachable: bool)
      requires server.Valid()
      modifies this`client, server
      ensures server.Valid()
      ensures client == if old(client).Some? then old(client) else Some(conn)
      ensures reachable && (stream, group) !in old(server.groups) ==>
        && server.groups == old(server.groups)[(stream, group) := Group(ZeroId, map[])]
        && server.streams == old(server.streams)[stream := Log(old(server.streams), stream)]
      ensures !reachable || (stream, group) in old(server.groups) ==>
        server.groups == old(server.groups) && server.streams == old(server.streams)
    {
      var _ := GetClient(conn);
      var _ := server.XGroupCreate(stream, group, reachable);
    }

    /**
     * One iteration of the loop in `run`: nothing when stopped or when the
     * read raises; otherwise each message of the batch is decoded, handed to
     * the handler and acknowledged when the handler returns. `delivered` is
     * the sequence of handler calls.
     */
    method Poll(server: StreamStore, codec: Codec, count: int, readReachable: bool, outcomes: seq<MessageOutcome>)
      returns (delivered: seq<Delivery>)
      requires server.Valid()
      modifies server
      ensures server.Valid() && server.streams == old(server.streams)
      ensures stopped || !readReachable || count < 1 || (stream, group) !in old(server.groups) ==>
        server.groups == old(server.groups) && delivered == []
      ensures !stopped && readReachable && count >= 1 && (stream, group) in old(server.groups) ==>
        var g := old(server.groups)[(stream, group)];
        var batch := Take(NewEntries(old(server.streams)[stream], g.lastDelivered), count);
        && delivered == Delivered(batch, codec, |batch|)
        && server.groups == if batch == [] then old(server.groups)
           else old(server.groups)[(stream, group) := Acknowledged(ReadInto(g, batch, consumerName), AckedIds(batch, codec, outcomes, |batch|))]
    {
      delivered := [];
      if stopped {
        return;
      }
      var resp := server.XReadGroup(stream, group, consumerName, count, readReachable);
      if resp.Err? {
        return;
      }
      var batch := resp.value;
      if batch == [] {
        return;
      }
      delivered := Dispatch(server, batch, codec, outcomes);
    }

    /** The two nested `for` loops over the messages of one read. */
    method Dispatch(server: StreamStore, batch: seq<StreamEntry>, codec: Codec, outcomes: seq<MessageOutcome>)
      returns (delivered: seq<Delivery>)
      requires server.Valid() && (stream, group) in server.groups
      modifies server
      ensures server.Valid() && server.streams == old(server.streams)
      ensures delivered == Delivered(batch, codec, |batch|)
      ensures server.groups == old(server.groups)[(stream, group) :=
        Acknowledged(old(server.groups)[(stream, group)], AckedIds(batch, codec, outcomes, |batch|))]
    {
      delivered := [];
      ghost var g := server.groups[(stream, group)];
      assert g.pending - {} == g.pending;
      assert Acknowledged(g, {}) == g;
      assert server.groups == server.groups[(stream, group) := g];
      var i := 0;
      while i < |batch|
        invariant 0 <= i <= |batch|
        invariant server.Valid() && server.streams == old(server.streams)
        invariant (stream, group) in server.groups
        invariant server.groups == old(server.groups)[(stream, group) := Acknowledged(g, AckedIds(batch, codec, outcomes, i))]
        invariant delivered == Delivered(batch, codec, i)
      {
        ghost var acked := AckedIds(batch, codec, outcomes, i);
        ghost var more := AckOf(batch[i], OutcomeAt(outcomes, i), codec);
        var call := Deliver(server, batch[i], OutcomeAt(outcomes, i), codec);
        AcknowledgeMore(g, acked, more);
        UpdateTwice(old(server.groups), (stream, group), Acknowledged(g, acked), Acknowledged(g, acked + more));
        delivered := delivered + call;
        i := i + 1;
      }
    }

    /** The body of the inner `for`: decode, call the handler, acknowledge; any exception skips the rest. */
    method Deliver(server: StreamStore, msg: StreamEntry, o: MessageOutcome, codec: Codec) returns (call: seq<Delivery>)
      requires server.Valid() && (stream, group) in server.groups
      modifies server
      ensures server.Valid() && server.streams == old(server.streams) && (stream, group) in server.groups
      ensures call == match DecodeMessage(msg.fields, codec) case Some(d) => [d] case None => []
      ensures server.groups == old(server.groups)[(stream, group) := Acknowledged(old(server.groups)[(stream, group)], AckOf(msg, o, codec))]
    {
      var decoded := DecodeMessage(msg.fields, codec);
      ghost var g := server.groups[(stream, group)];
      assert g.pending - {} == g.pending;
      assert server.groups == server.groups[(stream, group) := g];
      if decoded.None? {
        return [];
      }
      call := [decoded.value];
      if o.handlerOk {
        var _ := server.XAck(stream, group, msg.id, o.ackReachable);
      }
    }

    /** `run` up to its first loop iteration: client, group, then one poll. */
    method Run(server: StreamStore, codec: Codec, conn: Connection, groupReachable: bool, count: int, readReachable: bool,
               outcomes: seq<MessageOutcome>)
      returns (delivered: seq<Delivery>)
      requires server.Valid()
      modifies this`client, server
      ensures server.Valid()
      ensures client == if old(client).Some? then old(client) else Some(conn)
      ensures (stream, group) in old(server.groups) || groupReachable ==> (stream, group) in server.groups
      ensures stopped && !groupReachable ==> server.groups == old(server.groups) && delivered == []
    {
      var _ := GetClient(conn);
      EnsureGroup(server, conn, groupReachable);
      delivered := Poll(server, codec, count, readReachable, outcomes);
    }

    /** Sets the stop flag, closes the client and drops it; the loop ends at its next head check. */
    method Stop()
      modifies this`stopped, this`client
      ensures stopped && client == None
    {
      stopped := true;
      client := None;
    }
  }
}
