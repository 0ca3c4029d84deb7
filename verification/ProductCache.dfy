/** The cache of one product: cache-aside fills that race with updates, each update a database write
    followed by a deletion of the key. */
module ProductCache {
  import opened Options
  import opened RedisKeys

  const CACHE_TTL := 60   // seconds

  type Value = int
  type FillId = nat
  type UpdateId = nat

  /** A value the database has held since a point in time. */
  datatype Version = Version(value: Value, since: nat)

  /** A cached value; readAt is history: when it was read from the database. */
  datatype Cached = Cached(value: Value, readAt: nat)

  /** A fill between its database read and its cache write.  Which updates have written since the read,
      and whether one of them has also deleted the key since, is history. */
  datatype Fill = Fill(value: Value, readAt: nat, overtaking: set<UpdateId>, overtaken: bool)

  datatype State = State(
    now: nat,
    versions: seq<Version>,
    cache: Entry<Cached>,
    fills: map<FillId, Fill>, nextFill: FillId,
    updates: set<UpdateId>, nextUpdate: UpdateId)

  function Init(value: Value, t: nat): State {
    State(t, [Version(value, t)], Nothing, map[], 0, {}, 0)
  }

  function Current(s: State): Value
    requires s.versions != []
  {
    s.versions[|s.versions| - 1].value
  }

  datatype Event =
    | Read                                  // a miss, or a failed read: the database is read
    | Store(f: FillId, applied: bool)       // the SET of the fill
    | Write(value: Value)                   // the update of the database row
    | Delete(u: UpdateId, applied: bool)    // the DEL of the update
    | Tick(d: nat)

  predicate Can(s: State, e: Event) {
    && s.versions != []
    && match e
       case Store(f, _) => f in s.fills
       case Delete(u, _) => u in s.updates
       case _ => true
  }

  function AfterWrite(f: Fill, u: UpdateId): Fill {
    f.(overtaking := f.overtaking + {u})
  }

  function AfterDelete(f: Fill, u: UpdateId): Fill {
    if u in f.overtaking then f.(overtaken := true) else f
  }

  function Do(s: State, e: Event): State
    requires Can(s, e)
  {
    match e
    case Read =>
      s.(fills := s.fills[s.nextFill := Fill(Current(s), s.now, {}, false)], nextFill := s.nextFill + 1)
    case Store(f, applied) =>
      var x := s.fills[f];
      s.(fills := s.fills - {f},
         cache := if applied then Put(Cached(x.value, x.readAt), CACHE_TTL, s.now) else s.cache)
    case Write(v) =>
      s.(versions := s.versions + [Version(v, s.now)],
         fills := map f | f in s.fills :: AfterWrite(s.fills[f], s.nextUpdate),
         updates := s.updates + {s.nextUpdate}, nextUpdate := s.nextUpdate + 1)
    case Delete(u, applied) =>
      s.(fills := map f | f in s.fills :: AfterDelete(s.fills[f], u),
         cache := if applied then Nothing else s.cache,
         updates := s.updates - {u})
    case Tick(d) => s.(now := s.now + d, cache := Visible(s.cache, s.now + d))
  }

  function Run(s: State, es: seq<Event>): Option<State> {
    if es == [] then Some(s)
    else
      var r := Run(s, es[..|es| - 1]);
      if r.Some? && Can(r.value, es[|es| - 1]) then Some(Do(r.value, es[|es| - 1])) else None
  }

  // ----- staleness -----

  /** The database held v at instant t: some version with that value began at or before t and no later
      version had begun before t. */
  predicate Held(versions: seq<Version>, v: Value, t: nat) {
    exists i :: 0 <= i < |versions| && HeldBy(versions, i, v, t)
  }

  predicate HeldBy(versions: seq<Version>, i: nat, v: Value, t: nat)
    requires i < |versions|
  {
    versions[i].value == v && versions[i].since <= t && (i + 1 < |versions| ==> t <= versions[i + 1].since)
  }

  /** Every fill stores within d of its read. */
  predicate Punctual(s: State, d: nat) {
    forall f :: f in s.fills ==> s.now <= s.fills[f].readAt + d
  }

  predicate StaleInv(s: State, d: nat) {
    && s.versions != []
    && (forall i :: 0 <= i < |s.versions| ==> s.versions[i].since <= s.now)
    && (forall f :: f in s.fills ==>
          s.fills[f].readAt <= s.now && Held(s.versions, s.fills[f].value, s.fills[f].readAt))
    && (s.cache.Entry? ==>
          && s.cache.value.readAt <= s.now <= s.cache.expiresAt
          && s.cache.expiresAt <= s.cache.value.readAt + d + 1000 * CACHE_TTL
          && Held(s.versions, s.cache.value.value, s.cache.value.readAt))
  }

  lemma HeldStays(versions: seq<Version>, x: Version, v: Value, t: nat)
    requires Held(versions, v, t) && t <= x.since
    ensures Held(versions + [x], v, t)
  {
    var i :| 0 <= i < |versions| && HeldBy(versions, i, v, t);
    assert HeldBy(versions + [x], i, v, t);
  }

  lemma StepKeepsStale(s: State, e: Event, d: nat)
    requires StaleInv(s, d) && Can(s, e) && Punctual(s, d)
    ensures StaleInv(Do(s, e), d)
  {
    var s' := Do(s, e);
    match e {
      case Read => assert HeldBy(s.versions, |s.versions| - 1, Current(s), s.now);
      case Write(v) =>
        forall f | f in s'.fills ensures Held(s'.versions, s'.fills[f].value, s'.fills[f].readAt) {
          HeldStays(s.versions, Version(v, s.now), s.fills[f].value, s.fills[f].readAt);
        }
        if s.cache.Entry? {
          HeldStays(s.versions, Version(v, s.now), s.cache.value.value, s.cache.value.readAt);
        }
      case _ =>
    }
  }

  predicate PunctualRun(s: State, es: seq<Event>, d: nat) {
    && (es == [] || PunctualRun(s, es[..|es| - 1], d))
    && Run(s, es).Some? && Punctual(Run(s, es).value, d)
  }

  lemma {:induction false} RunKeepsStale(v: Value, t: nat, es: seq<Event>, d: nat)
    requires PunctualRun(Init(v, t), es, d)
    ensures StaleInv(Run(Init(v, t), es).value, d)
  {
    if es != [] {
      RunKeepsStale(v, t, es[..|es| - 1], d);
      StepKeepsStale(Run(Init(v, t), es[..|es| - 1]).value, es[|es| - 1], d);
    }
  }

  /** A value served from the cache was the database's value at some instant of the last sixty seconds
      and the fill delay d. */
  lemma StalenessIsBounded(v: Value, t: nat, es: seq<Event>, d: nat)
    requires PunctualRun(Init(v, t), es, d) && Run(Init(v, t), es).value.cache.Entry?
    ensures var s := Run(Init(v, t), es).value;
            exists u: nat :: s.now <= u + 60_000 + d && u <= s.now && Held(s.versions, s.cache.value.value, u)
  {
    RunKeepsStale(v, t, es, d);
    var s := Run(Init(v, t), es).value;
    var u := s.cache.value.readAt;
    assert Held(s.versions, s.cache.value.value, u);
  }

  // ----- coherence -----

  /** The two ways to a stale cache: a lost deletion, and a fill whose read-to-store interval encloses an
      update's write-to-delete interval. */
  datatype Spoil = LostDeletion | LateStore

  function SpoilAt(s: State, e: Event): seq<Spoil>
    requires Can(s, e)
  {
    if e.Delete? && !e.applied then [LostDeletion]
    else if e.Store? && e.applied && s.fills[e.f].overtaken then [LateStore]
    else []
  }

  function SpoilsOf(s: State, es: seq<Event>): seq<Spoil>
    requires Run(s, es).Some?
  {
    if es == [] then []
    else SpoilsOf(s, es[..|es| - 1]) + SpoilAt(Run(s, es[..|es| - 1]).value, es[|es| - 1])
  }

  /** Outside update windows, the cache is empty or up to date, and so is every fill not overtaken. */
  predicate Coherent(s: State) {
    && s.versions != []
    && (s.cache.Entry? ==> s.cache.value.value == Current(s) || s.updates != {})
    && (forall u :: u in s.updates ==> u < s.nextUpdate)
    && (forall f :: f in s.fills && !s.fills[f].overtaken ==>
          s.fills[f].value == Current(s) || s.fills[f].overtaking * s.updates != {})
    && (forall f :: f in s.fills && !s.fills[f].overtaken ==> s.fills[f].overtaking <= s.updates)
  }

  lemma StepKeepsCoherent(s: State, e: Event)
    requires Coherent(s) && Can(s, e) && SpoilAt(s, e) == []
    ensures Coherent(Do(s, e))
  {
    var s' := Do(s, e);
    match e {
      case Write(v) =>
        assert s.nextUpdate in s'.updates;
        forall f | f in s'.fills ensures s'.fills[f].overtaking * s'.updates != {} {
          assert s.nextUpdate in s'.fills[f].overtaking * s'.updates;
        }
      case Delete(u, _) =>
        forall f | f in s'.fills && !s'.fills[f].overtaken
          ensures s'.fills[f].value == Current(s') || s'.fills[f].overtaking * s'.updates != {}
        {
          assert s'.fills[f].overtaking * s'.updates == s.fills[f].overtaking * s.updates;
        }
      case _ =>
    }
  }

  lemma {:induction false} RunKeepsCoherent(v: Value, t: nat, es: seq<Event>)
    requires Run(Init(v, t), es).Some? && SpoilsOf(Init(v, t), es) == []
    ensures Coherent(Run(Init(v, t), es).value)
  {
    if es != [] {
      RunKeepsCoherent(v, t, es[..|es| - 1]);
      StepKeepsCoherent(Run(Init(v, t), es[..|es| - 1]).value, es[|es| - 1]);
    }
  }

  predicate UpToDate(s: State) {
    s.updates == {} && s.cache.Entry? ==> s.versions != [] && s.cache.value.value == Current(s)
  }

  /** When deletions succeed and no fill encloses an update, the cache is empty or equal to the database
      whenever no update is between its write and its deletion. */
  lemma CacheIsCoherent(v: Value, t: nat, es: seq<Event>)
    requires Run(Init(v, t), es).Some? && SpoilsOf(Init(v, t), es) == []
    ensures UpToDate(Run(Init(v, t), es).value)
  {
    RunKeepsCoherent(v, t, es);
  }

  // ----- every way of spoiling ends stale -----

  /** Between updates, with at least one version. */
  predicate Settled(s: State) {
    s.versions != [] && s.updates == {}
  }

  predicate Stale(s: State) {
    Settled(s) && s.cache.Entry? && s.cache.value.value != Current(s)
  }

  lemma Next(s: State, es: seq<Event>, e: Event) returns (fs: seq<Event>, s': State)
    requires Run(s, es).Some? && Can(Run(s, es).value, e)
    ensures fs == es + [e] && s' == Do(Run(s, es).value, e) && Run(s, fs) == Some(s')
    ensures SpoilsOf(s, fs) == SpoilsOf(s, es) + SpoilAt(Run(s, es).value, e)
  {
    fs, s' := es + [e], Do(Run(s, es).value, e);
    assert fs[..|fs| - 1] == es;
  }

  lemma FreshStore(s: State, f: FillId)
    requires Settled(s) && f in s.fills && s.fills[f].value == Current(s) && !s.fills[f].overtaken
    ensures var s' := Do(s, Store(f, true));
            SpoilAt(s, Store(f, true)) == [] && Settled(s') && s'.cache.Entry? && s'.cache.value.value == Current(s')
  {
  }

  lemma LossStep(s: State)
    requires Settled(s) && s.cache.Entry? && s.cache.value.value == Current(s)
    ensures var w, d := Write(Current(s) + 1), Delete(s.nextUpdate, false);
            && SpoilAt(s, w) == [] && Can(Do(s, w), d) && SpoilAt(Do(s, w), d) == [LostDeletion]
            && Stale(Do(Do(s, w), d))
  {
    assert Do(Do(s, Write(Current(s) + 1)), Delete(s.nextUpdate, false)).updates == {};
  }

  /** An update whose deletion is lost, just after a fill. */
  lemma LoseDeletion(i: State, es: seq<Event>) returns (fs: seq<Event>, s: State)
    requires Run(i, es).Some? && Settled(Run(i, es).value)
    ensures Run(i, fs) == Some(s) && Stale(s) && SpoilsOf(i, fs) == SpoilsOf(i, es) + [LostDeletion]
  {
    s := Run(i, es).value;
    var f := s.nextFill;
    fs, s := Next(i, es, Read);
    FreshStore(s, f);
    fs, s := Next(i, fs, Store(f, true));
    LossStep(s);
    var u := s.nextUpdate;
    fs, s := Next(i, fs, Write(Current(s) + 1));
    fs, s := Next(i, fs, Delete(u, false));
  }

  /** A fill has read the value that an update has meanwhile replaced. */
  predicate Overtaken(s: State, f: FillId, u: UpdateId) {
    && s.versions != [] && s.updates == {u}
    && f in s.fills && u in s.fills[f].overtaking && s.fills[f].value != Current(s)
  }

  lemma ReadAndWrite(i: State, es: seq<Event>) returns (fs: seq<Event>, s: State, f: FillId, u: UpdateId)
    requires Run(i, es).Some? && Settled(Run(i, es).value)
    ensures Run(i, fs) == Some(s) && Overtaken(s, f, u) && SpoilsOf(i, fs) == SpoilsOf(i, es)
  {
    s := Run(i, es).value;
    f, u := s.nextFill, s.nextUpdate;
    fs, s := Next(i, es, Read);
    fs, s := Next(i, fs, Write(Current(s) + 1));
  }

  lemma LateStep(s: State, f: FillId, u: UpdateId)
    requires Overtaken(s, f, u)
    ensures var s1 := Do(s, Delete(u, true));
            && SpoilAt(s, Delete(u, true)) == []
            && Can(s1, Store(f, true)) && SpoilAt(s1, Store(f, true)) == [LateStore]
            && Stale(Do(s1, Store(f, true)))
  {
    var s1 := Do(s, Delete(u, true));
    assert s1.fills[f] == s.fills[f].(overtaken := true);
    assert s1.updates == {};
  }

  /** A fill that encloses a whole update. */
  lemma StoreLate(i: State, es: seq<Event>) returns (fs: seq<Event>, s: State)
    requires Run(i, es).Some? && Settled(Run(i, es).value)
    ensures Run(i, fs) == Some(s) && Stale(s) && SpoilsOf(i, fs) == SpoilsOf(i, es) + [LateStore]
  {
    var f, u;
    fs, s, f, u := ReadAndWrite(i, es);
    LateStep(s, f, u);
    fs, s := Next(i, fs, Delete(u, true));
    fs, s := Next(i, fs, Store(f, true));
  }

  lemma SpoilOnce(i: State, es: seq<Event>, x: Spoil) returns (fs: seq<Event>, s: State)
    requires Run(i, es).Some? && Settled(Run(i, es).value)
    ensures Run(i, fs) == Some(s) && Stale(s) && SpoilsOf(i, fs) == SpoilsOf(i, es) + [x]
  {
    if x.LostDeletion? {
      fs, s := LoseDeletion(i, es);
    } else {
      fs, s := StoreLate(i, es);
    }
  }

  lemma {:induction false} Spoilt(i: State, xs: seq<Spoil>) returns (es: seq<Event>, s: State)
    requires Settled(i)
    ensures Run(i, es) == Some(s) && SpoilsOf(i, es) == xs && Settled(s)
    ensures xs != [] ==> Stale(s)
  {
    if xs == [] {
      es, s := [], i;
    } else {
      var n := |xs| - 1;
      es, s := Spoilt(i, xs[..n]);
      es, s := SpoilOnce(i, es, xs[n]);
      assert xs == xs[..n] + [xs[n]];
    }
  }

  predicate EndsStale(v: Value, t: nat, es: seq<Event>, xs: seq<Spoil>) {
    Run(Init(v, t), es).Some? && SpoilsOf(Init(v, t), es) == xs && Stale(Run(Init(v, t), es).value)
  }

  /** Some run with exactly the spoiling events xs ends with a stale cache and no update open if and only if
      there are any: either kind suffices, and nothing else does. */
  lemma StaleExactly(v: Value, t: nat, xs: seq<Spoil>)
    ensures (exists es :: EndsStale(v, t, es, xs)) <==> xs != []
  {
    var es, s := Spoilt(Init(v, t), xs);
    if xs != [] {
      assert EndsStale(v, t, es, xs);
    } else {
      forall fs | EndsStale(v, t, fs, xs) ensures false {
        CacheIsCoherent(v, t, fs);
      }
    }
  }
}
