/**
 * The key/value side of the Redis server the lock talks to. A key carries a
 * value and a time-to-live in milliseconds; the TTL is an abstract number
 * (no clock runs it down), and its running out is the separate step `Expire`.
 * Every command takes `reachable`: false means the command raises a
 * connection error and the server is untouched.
 */
module Kv {
  import opened Wrappers

  datatype Entry = Entry(value: string, ttl: int)

  type Store = map<string, Entry>

  datatype KvError = ConnectionError | ResponseError

  /** `SET key value PX px NX`: sets the key only when it is absent; a non-positive PX is refused. */
  function SetNx(m: Store, key: string, value: string, px: int): (r: Result<(Store, bool), KvError>)
    ensures px <= 0 <==> r.Err?
    ensures r.Err? ==> r.error == ResponseError
    ensures r.Ok? ==> (r.value.1 <==> key !in m)
    ensures r.Ok? && r.value.1 ==> r.value.0 == m[key := Entry(value, px)]
    ensures r.Ok? && !r.value.1 ==> r.value.0 == m
  {
    if px <= 0 then Err(ResponseError)
    else if key in m then Ok((m, false))
    else Ok((m[key := Entry(value, px)], true))
  }

  /**
   * `PEXPIRE key px`: gives an existing key a new TTL, whatever its value;
   * a non-positive TTL deletes it; a missing key is left missing.
   */
  function PExpireSpec(m: Store, key: string, px: int): (r: (Store, bool))
    ensures r.1 <==> key in m
    ensures forall k :: k in r.0 ==> k in m && r.0[k].value == m[k].value
    ensures forall k :: k != key ==> (k in r.0 <==> k in m) && (k in m ==> r.0[k] == m[k])
    ensures key in m && px > 0 ==> key in r.0 && r.0[key].ttl == px
    ensures key in m && px <= 0 ==> key !in r.0
  {
    if key !in m then (m, false)
    else if px <= 0 then (m - {key}, true)
    else (m[key := Entry(m[key].value, px)], true)
  }

  /** A Lua script over one key and one argument, which the server runs atomically. */
  type Script = (Store, string, string) -> (Store, int)

  class KvStore {
    var entries: Store

    constructor ()
      ensures entries == map[]
    {
      entries := map[];
    }

    method Set(key: string, value: string, px: int, reachable: bool) returns (r: Result<bool, KvError>)
      modifies this
      ensures !reachable ==> r == Err(ConnectionError) && entries == old(entries)
      ensures reachable ==> match SetNx(old(entries), key, value, px)
        case Ok((m, added)) => r == Ok(added) && entries == m
        case Err(e) => r == Err(e) && entries == old(entries)
    {
      if !reachable {
        return Err(ConnectionError);
      }
      match SetNx(entries, key, value, px)
      case Ok((m, added)) =>
        entries := m;
        r := Ok(added);
      case Err(e) =>
        r := Err(e);
    }

    /** `EVAL script 1 key arg`. */
    method Eval(script: Script, key: string, arg: string, reachable: bool) returns (r: Result<int, KvError>)
      modifies this
      ensures !reachable ==> r == Err(ConnectionError) && entries == old(entries)
      ensures reachable ==> r == Ok(script(old(entries), key, arg).1) && entries == script(old(entries), key, arg).0
    {
      if !reachable {
        return Err(ConnectionError);
      }
      var (m, n) := script(entries, key, arg);
      entries := m;
      r := Ok(n);
    }

    method PExpire(key: string, px: int, reachable: bool) returns (r: Result<bool, KvError>)
      modifies this
      ensures !reachable ==> r == Err(ConnectionError) && entries == old(entries)
      ensures reachable ==> r == Ok(PExpireSpec(old(entries), key, px).1) && entries == PExpireSpec(old(entries), key, px).0
    {
      if !reachable {
        return Err(ConnectionError);
      }
      var (m, found) := PExpireSpec(entries, key, px);
      entries := m;
      r := Ok(found);
    }

    /** The key's TTL runs out and the server deletes it. */
    method Expire(key: string)
      modifies this
      ensures entries == old(entries) - {key}
    {
      entries := entries - {key};
    }
  }
}
