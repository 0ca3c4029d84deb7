/** What each step does to the cache of a product and to its row, in the terms of the source. */
module CacheSteps {
  import opened RedisKeys
  import opened ProductCache

  predicate SameRow(s: State, s': State) {
    s'.versions == s.versions && s'.updates == s.updates && s'.nextUpdate == s.nextUpdate && s'.now == s.now
  }

  /** Everything can happen at any time, and the two Redis calls may fail with or without effect. */
  lemma CanStep(s: State, e: Event)
    requires s.versions != []
    ensures Can(s, e) <==>
            match e
            case Store(f, _) => f in s.fills
            case Delete(u, _) => u in s.updates
            case _ => true
  {
  }

  /** A fill reads the present row, and nobody has overtaken it yet. */
  lemma ReadStep(s: State)
    requires Can(s, Read)
    ensures var s' := Do(s, Read);
            var row := s.versions[|s.versions| - 1].value;
            && SameRow(s, s') && s'.cache == s.cache && s'.nextFill == s.nextFill + 1
            && s'.fills == s.fills[s.nextFill := Fill(row, s.now, {}, false)]
  {
  }

  /** It stores what it has read for sixty seconds, whatever is cached, or fails silently. */
  lemma StoreStep(s: State, f: FillId, applied: bool)
    requires Can(s, Store(f, applied))
    ensures var s' := Do(s, Store(f, applied));
            && SameRow(s, s') && s'.nextFill == s.nextFill && s'.fills == s.fills - {f}
            && s'.cache == (if applied then Entry(Cached(s.fills[f].value, s.fills[f].readAt), s.now + 60_000)
                            else s.cache)
  {
  }

  /** An update writes the row first; every fill that has read before is overtaken by it from now on. */
  lemma WriteStep(s: State, v: Value)
    requires Can(s, Write(v))
    ensures var s' := Do(s, Write(v));
            && s'.versions == s.versions + [Version(v, s.now)] && s'.cache == s.cache && s'.now == s.now
            && s'.updates == s.updates + {s.nextUpdate} && s'.nextUpdate == s.nextUpdate + 1
            && s'.nextFill == s.nextFill && s'.fills.Keys == s.fills.Keys
            && forall f :: f in s.fills ==>
                 s'.fills[f] == s.fills[f].(overtaking := s.fills[f].overtaking + {s.nextUpdate})
  {
  }

  /** Then it deletes the key, or fails silently; the fills that it has overtaken are too late. */
  lemma DeleteStep(s: State, u: UpdateId, applied: bool)
    requires Can(s, Delete(u, applied))
    ensures var s' := Do(s, Delete(u, applied));
            && s'.versions == s.versions && s'.now == s.now && s'.nextUpdate == s.nextUpdate
            && s'.updates == s.updates - {u} && s'.cache == (if applied then Nothing else s.cache)
            && s'.nextFill == s.nextFill && s'.fills.Keys == s.fills.Keys
            && forall f :: f in s.fills ==>
                 s'.fills[f] == s.fills[f].(overtaken := s.fills[f].overtaken || u in s.fills[f].overtaking)
  {
  }

  lemma TickStep(s: State, d: nat)
    requires Can(s, Tick(d))
    ensures var s' := Do(s, Tick(d));
            && s'.now == s.now + d && s'.versions == s.versions && s'.updates == s.updates
            && s'.nextUpdate == s.nextUpdate && s'.fills == s.fills && s'.nextFill == s.nextFill
            && s'.cache == if s.cache.Entry? && s.cache.expiresAt < s.now + d then Nothing else s.cache
  {
  }

  /** Which events spoil the cache. */
  lemma SpoilStep(s: State, e: Event)
    requires Can(s, e)
    ensures SpoilAt(s, e) ==
            match e
            case Delete(_, applied) => if applied then [] else [LostDeletion]
            case Store(f, applied) => if applied && s.fills[f].overtaken then [LateStore] else []
            case _ => []
  {
  }
}
