/** One Redis key with an expiry time, and what SET, SET NX and DEL do to it. */
module RedisKeys {
  /** Nothing stored, or a value that stays visible up to and including expiresAt (milliseconds). */
  datatype Entry<+V> = Nothing | Entry(value: V, expiresAt: nat)

  /** How a command ended for its caller: answered, or failed with or without having been applied. */
  datatype Reply = Replied | LostReply(applied: bool)

  predicate Applied(reply: Reply) {
    reply.Replied? || reply.applied
  }

  /** The key as a reader sees it when the clock shows now. */
  function Visible<V>(e: Entry<V>, now: nat): Entry<V> {
    if e.Entry? && e.expiresAt < now then Nothing else e
  }

  /** A key that was set at `now` is visible for exactly its seconds. */
  lemma Lifetime<V>(v: V, ttlSeconds: nat, now: nat, t: nat)
    ensures Visible(Put(v, ttlSeconds, now), t) ==
            if t <= now + 1000 * ttlSeconds then Entry(v, now + 1000 * ttlSeconds) else Nothing
  {
  }

  /** SET key v EX ttlSeconds. */
  function Put<V>(v: V, ttlSeconds: nat, now: nat): Entry<V> {
    Entry(v, now + 1000 * ttlSeconds)
  }
}
