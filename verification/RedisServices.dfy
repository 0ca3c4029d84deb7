/** The Redis client wrapper: the plain calls swallow failures, the strict ones pass them on. */
module RedisServices {
  import opened Options
  import opened RedisKeys

  datatype Result<+T> = Success(value: T) | Failure

  class RedisService<V> {
    var store: map<string, Entry<V>>
    var now: nat

    constructor ()
      ensures store == map[] && now == 0
    {
      store, now := map[], 0;
    }

    /** The key as a client sees it now. */
    function Key(key: string): Entry<V>
      reads this
    {
      if key in store then Visible(store[key], now) else Nothing
    }

    method Wait(d: nat)
      modifies this
      ensures now == old(now) + d && store == old(store)
      ensures forall k :: Key(k) == Visible(old(Key(k)), now)
    {
      now := now + d;
    }

    method GetStrict(key: string, reply: Reply) returns (r: Result<Option<V>>)
      ensures r.Failure? <==> reply.LostReply?
      ensures r.Success? ==> r.value == (if Key(key).Entry? then Some(Key(key).value) else None)
    {
      if reply.LostReply? {
        r := Failure;
      } else if key in store && Visible(store[key], now).Entry? {
        r := Success(Some(store[key].value));
      } else {
        r := Success(None);
      }
    }

    /** A failed read looks like a missing key. */
    method Get(key: string, reply: Reply) returns (r: Option<V>)
      ensures r.Some? <==> reply.Replied? && Key(key).Entry?
      ensures r.Some? ==> r.value == Key(key).value
    {
      var strict := GetStrict(key, reply);
      r := if strict.Success? then strict.value else None;
    }

    /** The caller is not told whether the value was stored. */
    method Set(key: string, value: V, ttlSeconds: nat, reply: Reply)
      modifies this
      ensures now == old(now)
      ensures Key(key) == if Applied(reply) then Put(value, ttlSeconds, now) else old(Key(key))
      ensures forall k :: k != key ==> Key(k) == old(Key(k))
    {
      if Applied(reply) {
        store := store[key := Put(value, ttlSeconds, now)];
      }
    }

    method Del(key: string, reply: Reply)
      modifies this
      ensures now == old(now)
      ensures Key(key) == if Applied(reply) then Nothing else old(Key(key))
      ensures forall k :: k != key ==> Key(k) == old(Key(k))
    {
      if Applied(reply) {
        store := store - {key};
      }
    }

    /** SET NX: stores exactly when the key is free, and a failed call may have stored all the same. */
    method SetIfAbsentStrict(key: string, value: V, ttlSeconds: nat, reply: Reply) returns (r: Result<bool>)
      modifies this
      ensures now == old(now)
      ensures r == if reply.LostReply? then Failure else Success(old(Key(key)).Nothing?)
      ensures Key(key) ==
              if Applied(reply) && old(Key(key)).Nothing? then Put(value, ttlSeconds, now) else old(Key(key))
      ensures forall k :: k != key ==> Key(k) == old(Key(k))
    {
      var free := !(key in store && Visible(store[key], now).Entry?);
      if Applied(reply) && free {
        store := store[key := Put(value, ttlSeconds, now)];
      }
      r := if reply.LostReply? then Failure else Success(free);
    }
  }
}
