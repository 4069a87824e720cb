/**
 * `RedisLock`: a lock on one key of the key/value store, held by whoever's
 * token the key stores. Acquire is set-if-absent, release is the
 * compare-and-delete script, renewal extends the TTL without looking at the
 * value.
 */
module Lock {
  import opened Wrappers
  import opened Kv

  /**
   * `LUA_RELEASE_SCRIPT`: deletes KEYS[1] only when it stores ARGV[1], and
   * answers the number of keys it deleted. No other key is touched.
   */
  function ReleaseScript(m: Store, key: string, token: string): (r: (Store, int))
    ensures r.1 == 1 <==> key in m && m[key].value == token
    ensures r.1 == 0 || r.1 == 1
    ensures r.0.Keys == if r.1 == 1 then m.Keys - {key} else m.Keys
    ensures forall k :: k in r.0 ==> r.0[k] == m[k]
  {
    if key in m && m[key].value == token then (m - {key}, 1) else (m, 0)
  }

  /** How long `_auto_renew` sleeps between renewals, in seconds: `ttl / 3000` with `ttl` in milliseconds. */
  function RenewalPeriodSeconds(ttl: int): (s: real)
    ensures s * 3000.0 == ttl as real
    ensures ttl > 0 ==> 0.0 < s * 1000.0 < ttl as real
  {
    ttl as real / 3000.0
  }

  /** The state of the lock's `_renew_task`. */
  datatype RenewTask =
    | NoTask      // never started (`None`)
    | Running     // sleeping or renewing
    | Cancelled   // `cancel()` was called; the task ends at its next await
    | Crashed     // a Redis error other than cancellation ended the loop

  class RedisLock {
    const redis: KvStore
    const key: string
    /** `settings.lock_ttl`, in milliseconds. */
    const ttl: int
    /** The holder token, `str(uuid4())`. */
    const value: string
    var renewTask: RenewTask

    constructor (redis: KvStore, key: string, ttl: int, token: string)
      ensures this.redis == redis && this.key == key && this.ttl == ttl && this.value == token
      ensures renewTask == NoTask
    {
      this.redis := redis;
      this.key := key;
      this.ttl := ttl;
      this.value := token;
      renewTask := NoTask;
    }

    /** Tries once, without waiting; on success starts the renewal task. Redis errors propagate. */
    method Acquire(reachable: bool) returns (r: Result<bool, KvError>)
      modifies redis, this
      ensures r == Ok(true) <==> reachable && ttl > 0 && key !in old(redis.entries)
      ensures r.Err? <==> !reachable || ttl <= 0
      ensures r == Ok(true) ==> redis.entries == old(redis.entries)[key := Entry(value, ttl)] && renewTask == Running
      ensures r != Ok(true) ==> redis.entries == old(redis.entries) && renewTask == old(renewTask)
    {
      var result := redis.Set(key, value, ttl, reachable);
      match result
      case Ok(true) =>
        renewTask := Running;
        r := Ok(true);
      case Ok(false) =>
        r := Ok(false);
      case Err(e) =>
        r := Err(e);
    }

    /**
     * Cancels the renewal task if one was started, then runs the release
     * script with this lock's token. A Redis error is logged and swallowed.
     */
    method Release(reachable: bool)
      modifies redis, this
      ensures renewTask == if old(renewTask) == Running then Cancelled else old(renewTask)
      ensures redis.entries == if reachable then ReleaseScript(old(redis.entries), key, value).0 else old(redis.entries)
    {
      if renewTask == Running {
        renewTask := Cancelled;
      }
      var _ := redis.Eval(ReleaseScript, key, value, reachable);
    }

    /** One wake-up of `_auto_renew`'s loop: `PEXPIRE key ttl`; a Redis error ends the task. */
    method RenewOnce(reachable: bool)
      modifies redis, this
      ensures old(renewTask) != Running ==> renewTask == old(renewTask) && redis.entries == old(redis.entries)
      ensures old(renewTask) == Running && reachable ==>
        renewTask == Running && redis.entries == PExpireSpec(old(redis.entries), key, ttl).0
      ensures old(renewTask) == Running && !reachable ==>
        renewTask == Crashed && redis.entries == old(redis.entries)
    {
      if renewTask != Running {
        return;
      }
      var r := redis.PExpire(key, ttl, reachable);
      if r.Err? {
        renewTask := Crashed;
      }
    }

    /**
     * `_auto_renew`, for as many wake-ups as the scheduler delivers before
     * cancellation; `wakeups[i]` says whether the i-th PEXPIRE reached Redis.
     * Renewal never changes a stored value, never touches another key, and
     * never brings back a deleted key.
     */
    method AutoRenew(wakeups: seq<bool>)
      modifies redis, this
      ensures forall k :: k in redis.entries ==> k in old(redis.entries) && redis.entries[k].value == old(redis.entries)[k].value
      ensures forall k :: k != key ==> (k in redis.entries <==> k in old(redis.entries))
      ensures forall k :: k != key && k in redis.entries ==> redis.entries[k] == old(redis.entries)[k]
      ensures ttl > 0 ==> redis.entries.Keys == old(redis.entries.Keys)
      ensures renewTask == old(renewTask) || (old(renewTask) == Running && renewTask == Crashed)
    {
      var i := 0;
      while i < |wakeups| && renewTask == Running
        invariant 0 <= i <= |wakeups|
        invariant forall k :: k in redis.entries ==> k in old(redis.entries) && redis.entries[k].value == old(redis.entries)[k].value
        invariant forall k :: k != key ==> (k in redis.entries <==> k in old(redis.entries))
        invariant forall k :: k != key && k in redis.entries ==> redis.entries[k] == old(redis.entries)[k]
        invariant ttl > 0 ==> redis.entries.Keys == old(redis.entries.Keys)
        invariant renewTask == old(renewTask) || (old(renewTask) == Running && renewTask == Crashed)
      {
        RenewOnce(wakeups[i]);
        i := i + 1;
      }
    }
  }

  /** While one token holds the key, no other acquisition can succeed. */
  lemma MutualExclusion(m: Store, key: string, mine: string, theirs: string, px: int, px': int)
    requires SetNx(m, key, mine, px).Ok? && SetNx(m, key, mine, px).value.1
    ensures forall m' :: SetNx(SetNx(m, key, mine, px).value.0, key, theirs, px') != Ok((m', true))
  {
  }

  /** After the holder releases, the next acquisition by anyone succeeds. */
  lemma ReleaseThenAcquire(m: Store, key: string, mine: string, theirs: string, px: int)
    requires SetNx(m, key, mine, px).Ok? && SetNx(m, key, mine, px).value.1
    ensures SetNx(ReleaseScript(SetNx(m, key, mine, px).value.0, key, mine).0, key, theirs, px).Ok?
    ensures SetNx(ReleaseScript(SetNx(m, key, mine, px).value.0, key, mine).0, key, theirs, px).value.1
  {
  }

  /**
   * A holder whose key expired and was taken by another token cannot delete
   * the new holder's key with its stale token.
   */
  lemma StaleReleaseKeepsNewHolder(m: Store, key: string, stale: string, current: string, px: int)
    requires SetNx(m, key, stale, px).Ok? && SetNx(m, key, stale, px).value.1
    requires stale != current
    ensures var expired := SetNx(m, key, stale, px).value.0 - {key};
      var retaken := SetNx(expired, key, current, px).value.0;
      ReleaseScript(retaken, key, stale) == (retaken, 0) && retaken[key].value == current
  {
  }
}
