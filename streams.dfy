/**
 * The Redis stream side: append-only logs addressed by name, and consumer
 * groups, each with a delivery cursor and a pending-entries list. Every
 * command takes `reachable`: false means it raises a connection error and
 * the server is untouched.
 */
module Streams {
  import opened Wrappers
  import opened Texts

  /** A stream entry id, `<ms>-<seq>`. */
  datatype StreamId = StreamId(ms: nat, sq: nat)

  predicate Before(a: StreamId, b: StreamId) {
    a.ms < b.ms || (a.ms == b.ms && a.sq < b.sq)
  }

  /** The id's text, `<ms>-<seq>`. */
  function IdText(id: StreamId): (s: string)
    ensures |s| >= 3 && IsDigit(s[0])
  {
    NatText(id.ms) + "-" + NatText(id.sq)
  }

  /** A field value: UTF-8 text, or a byte string that is not valid UTF-8 (and so not empty). */
  datatype Blob = Text(s: string) | NonUtf8

  /** A field's bytes are non-empty. */
  predicate NonEmpty(b: Blob) {
    b != Text("")
  }

  type Fields = map<string, Blob>

  datatype StreamEntry = StreamEntry(id: StreamId, fields: Fields)

  /** A consumer group: the last id delivered, and the pending entries with the consumer that holds each. */
  datatype Group = Group(lastDelivered: StreamId, pending: map<StreamId, string>)

  /** A client object made by `from_url`; `serial` tells one connection from another. */
  datatype Connection = Connection(url: string, serial: nat)

  datatype StreamError = ConnectionError | BusyGroup | NoGroup | DataError

  const ZeroId := StreamId(0, 0)

  predicate IdsAscending(log: seq<StreamEntry>) {
    forall i, j :: 0 <= i < j < |log| ==> Before(log[i].id, log[j].id)
  }

  function LastId(log: seq<StreamEntry>): StreamId {
    if log == [] then ZeroId else log[|log| - 1].id
  }

  /** The id `XADD key *` assigns: the clock's millisecond when it is past the last id, else the next sequence number. */
  function NextId(last: StreamId, nowMs: nat): (id: StreamId)
    ensures Before(last, id)
  {
    if nowMs > last.ms then StreamId(nowMs, 0) else StreamId(last.ms, last.sq + 1)
  }

  /** The entries of a stream; a missing key reads as an empty stream. */
  function Log(streams: map<string, seq<StreamEntry>>, name: string): seq<StreamEntry> {
    if name in streams then streams[name] else []
  }

  /** `XADD name * fields`: appends one entry, creating the stream if needed. */
  function Appended(streams: map<string, seq<StreamEntry>>, name: string, fields: Fields, nowMs: nat)
    : (r: (map<string, seq<StreamEntry>>, StreamId))
    ensures Log(r.0, name) == Log(streams, name) + [StreamEntry(r.1, fields)]
    ensures r.1 == NextId(LastId(Log(streams, name)), nowMs)
    ensures r.0.Keys == streams.Keys + {name}
    ensures forall s :: s != name && s in streams ==> r.0[s] == streams[s]
  {
    var id := NextId(LastId(Log(streams, name)), nowMs);
    (streams[name := Log(streams, name) + [StreamEntry(id, fields)]], id)
  }

  lemma AppendKeepsAscending(log: seq<StreamEntry>, e: StreamEntry)
    requires IdsAscending(log)
    requires Before(LastId(log), e.id)
    ensures IdsAscending(log + [e])
  {
    var r := log + [e];
    forall i, j | 0 <= i < j < |r| ensures Before(r[i].id, r[j].id) {
      if j == |log| && i < |log| - 1 {
        assert Before(log[i].id, log[|log| - 1].id);
      }
    }
  }

  /** Index of the first entry after `cursor` (`|log|` when there is none). */
  function FirstAfter(log: seq<StreamEntry>, cursor: StreamId): (k: nat)
    ensures k <= |log|
    ensures forall i :: 0 <= i < k ==> !Before(cursor, log[i].id)
    ensures k < |log| ==> Before(cursor, log[k].id)
  {
    if log == [] || Before(cursor, log[0].id) then 0
    else
      var k := FirstAfter(log[1..], cursor);
      assert forall i :: 1 <= i < k + 1 ==> log[i] == log[1..][i - 1];
      k + 1
  }

  /** The entries a group has not delivered yet (`>`), in log order. */
  function NewEntries(log: seq<StreamEntry>, cursor: StreamId): (r: seq<StreamEntry>)
    requires IdsAscending(log)
    ensures IdsAscending(r)
    ensures forall i :: 0 <= i < |r| ==> Before(cursor, r[i].id)
    ensures forall e :: e in log && Before(cursor, e.id) ==> e in r
    ensures exists k :: 0 <= k <= |log| && r == log[k..]
  {
    var k := FirstAfter(log, cursor);
    forall i | k <= i < |log| ensures Before(cursor, log[i].id) {
      if i > k {
        assert Before(log[k].id, log[i].id);
      }
    }
    log[k..]
  }

  function Take<T>(s: seq<T>, count: nat): (r: seq<T>)
    ensures |r| <= count && |r| <= |s| && r == s[..|r|]
    ensures |r| == if count <= |s| then count else |s|
  {
    if count <= |s| then s[..count] else s
  }

  function IdsOf(batch: seq<StreamEntry>): set<StreamId> {
    set e | e in batch :: e.id
  }

  /** A group after a read that delivered `batch` to `consumer`. */
  function ReadInto(g: Group, batch: seq<StreamEntry>, consumer: string): (r: Group)
    ensures batch == [] ==> r == g
    ensures batch != [] ==> r.lastDelivered == batch[|batch| - 1].id && r.pending.Keys == g.pending.Keys + IdsOf(batch)
    ensures forall e :: e in batch ==> r.pending[e.id] == consumer
    ensures forall id :: id in g.pending && id !in IdsOf(batch) ==> r.pending[id] == g.pending[id]
  {
    if batch == [] then g else Group(LastId(batch), g.pending + map id | id in IdsOf(batch) :: consumer)
  }

  class StreamStore {
    var streams: map<string, seq<StreamEntry>>
    /** Consumer groups by (stream, group name). */
    var groups: map<(string, string), Group>

    ghost predicate Valid()
      reads this
    {
      && (forall s :: s in streams ==> IdsAscending(streams[s]))
      && (forall g :: g in groups ==> g.0 in streams)
    }

    constructor ()
      ensures Valid() && streams == map[] && groups == map[]
    {
      streams, groups := map[], map[];
    }

    /** `XADD stream * fields`, with `nowMs` the server's clock. */
    method XAdd(stream: string, fields: Fields, nowMs: nat, reachable: bool) returns (r: Result<StreamId, StreamError>)
      requires Valid()
      modifies this
      ensures Valid()
      ensures groups == old(groups)
      ensures !reachable ==> r == Err(ConnectionError) && streams == old(streams)
      ensures reachable ==>
        var (s, id) := Appended(old(streams), stream, fields, nowMs);
        r == Ok(id) && streams == s
    {
      if !reachable {
        return Err(ConnectionError);
      }
      var (s, id) := Appended(streams, stream, fields, nowMs);
      AppendKeepsAscending(Log(streams, stream), StreamEntry(id, fields));
      streams := s;
      r := Ok(id);
    }

    /** `XGROUP CREATE stream group 0 MKSTREAM`: a new group starts before the first entry. */
    method XGroupCreate(stream: string, group: string, reachable: bool) returns (r: Result<(), StreamError>)
      requires Valid()
      modifies this
      ensures Valid()
      ensures !reachable ==> r == Err(ConnectionError)
      ensures reachable && (stream, group) in old(groups) ==> r == Err(BusyGroup)
      ensures r.Err? ==> streams == old(streams) && groups == old(groups)
      ensures r.Ok? <==> reachable && (stream, group) !in old(groups)
      ensures r.Ok? ==>
        && streams == old(streams)[stream := Log(old(streams), stream)]
        && groups == old(groups)[(stream, group) := Group(ZeroId, map[])]
    {
      if !reachable {
        return Err(ConnectionError);
      }
      if (stream, group) in groups {
        return Err(BusyGroup);
      }
      streams := streams[stream := Log(streams, stream)];
      groups := groups[(stream, group) := Group(ZeroId, map[])];
      r := Ok(());
    }

    /**
     * `XREADGROUP GROUP group consumer COUNT count STREAMS stream >`: up to
     * `count` entries the group has not delivered, in log order; they join the
     * pending list under `consumer` and the cursor moves past them. The client
     * library refuses a count below 1.
     */
    method XReadGroup(stream: string, group: string, consumer: string, count: int, reachable: bool)
      returns (r: Result<seq<StreamEntry>, StreamError>)
      requires Valid()
      modifies this
      ensures Valid()
      ensures streams == old(streams)
      ensures r.Err? <==> count < 1 || !reachable || (stream, group) !in old(groups)
      ensures r.Err? ==> groups == old(groups)
      ensures r.Ok? ==>
        var g := old(groups)[(stream, group)];
        var unread := NewEntries(old(streams)[stream], g.lastDelivered);
        && r.value == Take(unread, count)
        && groups == old(groups)[(stream, group) := ReadInto(g, r.value, consumer)]
    {
      if count < 1 {
        return Err(DataError);
      }
      if !reachable {
        return Err(ConnectionError);
      }
      if (stream, group) !in groups {
        return Err(NoGroup);
      }
      var g := groups[(stream, group)];
      var batch := Take(NewEntries(streams[stream], g.lastDelivered), count);
      if batch != [] {
        groups := groups[(stream, group) := ReadInto(g, batch, consumer)];
      }
      r := Ok(batch);
    }

    /** `XACK stream group id`: the entry leaves the pending list; answers how many entries left it. */
    method XAck(stream: string, group: string, id: StreamId, reachable: bool) returns (r: Result<nat, StreamError>)
      requires Valid()
      modifies this
      ensures Valid()
      ensures streams == old(streams)
      ensures !reachable ==> r == Err(ConnectionError) && groups == old(groups)
      ensures reachable && (stream, group) !in old(groups) ==> r == Ok(0) && groups == old(groups)
      ensures reachable && (stream, group) in old(groups) ==>
        var g := old(groups)[(stream, group)];
        && r == Ok(if id in g.pending then 1 else 0)
        && groups == old(groups)[(stream, group) := g.(pending := g.pending - {id})]
    {
      if !reachable {
        return Err(ConnectionError);
      }
      if (stream, group) !in groups {
        return Ok(0);
      }
      var g := groups[(stream, group)];
      r := Ok(if id in g.pending then 1 else 0);
      groups := groups[(stream, group) := g.(pending := g.pending - {id})];
    }
  }
}
