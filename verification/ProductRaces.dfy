/** The reads and updates of one product, statement by statement, while others read and update it too. */
module ProductRaces {
  import opened Options
  import opened ProductCache

  /** What others can do while we wait: anything but finishing our fill or our update. */
  predicate Foreign(e: Event, fill: Option<FillId>, update: Option<UpdateId>) {
    && (e.Store? ==> fill != Some(e.f))
    && (e.Delete? ==> update != Some(e.u))
  }

  function Meanwhile(s: State, others: seq<Event>, fill: Option<FillId>, update: Option<UpdateId>): State {
    if others == [] then s
    else
      var t, e := Meanwhile(s, others[..|others| - 1], fill, update), others[|others| - 1];
      if Can(t, e) && Foreign(e, fill, update) then Do(t, e) else t
  }

  /** The identifiers of fills and updates are below the next ones. */
  predicate NumbersOk(s: State) {
    && s.versions != []
    && (forall f :: f in s.fills ==> f < s.nextFill) && (forall u :: u in s.updates ==> u < s.nextUpdate)
  }

  lemma StepKeepsNumbers(s: State, e: Event)
    requires NumbersOk(s) && Can(s, e)
    ensures NumbersOk(Do(s, e))
  {
  }

  /** Our fill or update is still under way afterwards, with what it has read. */
  lemma OwnStays(s: State, e: Event, fill: Option<FillId>, update: Option<UpdateId>)
    requires NumbersOk(s) && Can(s, e) && Foreign(e, fill, update)
    requires (fill.Some? ==> fill.value in s.fills) && (update.Some? ==> update.value in s.updates)
    ensures var s' := Do(s, e);
            && (fill.Some? ==> fill.value in s'.fills && s'.fills[fill.value].value == s.fills[fill.value].value)
            && (update.Some? ==> update.value in s'.updates)
  {
  }

  /** The cache key and the row of one product. */
  class CachedProduct {
    const first: Value
    const start: nat
    var s: State
    ghost var history: seq<Event>

    /** They are the outcome of a run, so staleness and coherence hold of them as of every run. */
    ghost predicate Valid()
      reads this
    {
      Run(Init(first, start), history) == Some(s) && NumbersOk(s)
    }

    constructor (value: Value, t: nat)
      ensures Valid() && s == Init(value, t) && history == [] && first == value && start == t
    {
      first, start, s, history := value, t, Init(value, t), [];
    }

    method Step(e: Event)
      requires Valid() && Can(s, e)
      modifies this`s, this`history
      ensures Valid() && s == Do(old(s), e) && history == old(history) + [e]
    {
      ghost var fs, after := Next(Init(first, start), history, e);
      StepKeepsNumbers(s, e);
      assert (history + [e])[..|history|] == history;
      s, history := Do(s, e), history + [e];
    }

    method Await(others: seq<Event>, fill: Option<FillId>, update: Option<UpdateId>)
      requires Valid()
      requires (fill.Some? ==> fill.value in s.fills) && (update.Some? ==> update.value in s.updates)
      modifies this`s, this`history
      ensures Valid() && old(history) <= history && s == Meanwhile(old(s), others, fill, update)
      ensures fill.Some? ==> fill.value in s.fills && s.fills[fill.value].value == old(s).fills[fill.value].value
      ensures update.Some? ==> update.value in s.updates
    {
      var i := 0;
      while i < |others|
        invariant 0 <= i <= |others| && Valid() && old(history) <= history
        invariant s == Meanwhile(old(s), others[..i], fill, update)
        invariant fill.Some? ==> fill.value in s.fills && s.fills[fill.value].value == old(s).fills[fill.value].value
        invariant update.Some? ==> update.value in s.updates
      {
        assert others[..i + 1][..i] == others[..i];
        if Can(s, others[i]) && Foreign(others[i], fill, update) {
          OwnStays(s, others[i], fill, update);
          Step(others[i]);
        }
        i := i + 1;
      }
      assert others[..i] == others;
    }

    /** Serves a cached value when the cache answers.  Otherwise the row is read, others go on meanwhile, and
        then what was read is stored and served, out of date or not. */
    method FindById(answers: bool, stored: bool, others: seq<Event>) returns (value: Value)
      requires Valid()
      modifies this`s, this`history
      ensures Valid() && old(history) <= history
      ensures answers && old(s).cache.Entry? ==> s == old(s) && value == old(s).cache.value.value
      ensures !(answers && old(s).cache.Entry?) ==>
                var f := old(s).nextFill;
                var t := Meanwhile(Do(old(s), Read), others, Some(f), None);
                value == Current(old(s)) && Can(t, Store(f, stored)) && s == Do(t, Store(f, stored))
    {
      if answers && s.cache.Entry? {
        return s.cache.value.value;
      }
      var f := s.nextFill;
      value := Current(s);
      Step(Read);
      Await(others, Some(f), None);
      Step(Store(f, stored));
    }

    /** Writes the row, others go on meanwhile, and then the key is deleted. */
    method UpdatePrice(value: Value, deleted: bool, others: seq<Event>)
      requires Valid()
      modifies this`s, this`history
      ensures Valid() && old(history) <= history
      ensures var u := old(s).nextUpdate;
              var t := Meanwhile(Do(old(s), Write(value)), others, None, Some(u));
              Can(t, Delete(u, deleted)) && s == Do(t, Delete(u, deleted))
      ensures others == [] ==> Current(s) == value && (deleted ==> s.cache.Nothing?)
    {
      var u := s.nextUpdate;
      Step(Write(value));
      Await(others, None, Some(u));
      Step(Delete(u, deleted));
    }
  }
}
