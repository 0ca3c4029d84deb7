/** The processing lock excludes, provided that no handler outstays its thirty seconds. */
module MutualExclusion {
  import opened Delivery

  /** Between acquiring the lock and releasing it. */
  predicate InSection(pc: Pc) {
    pc.Acquired? || pc.Notified? || pc.Marked? || pc == Failed(false)
  }

  /** No handler has been in its section for thirty seconds, and none is back in the catch block
      because its acknowledgement threw after the release. */
  predicate Timely(l: Lane) {
    forall h :: h in l.handlers ==>
      && l.handlers[h].pc != Failed(true)
      && (InSection(l.handlers[h].pc) ==>
            h in l.account.acquired && l.now < l.account.acquired[h] + 30_000)
  }

  predicate Inv(l: Lane) {
    && l.account.foreignDeletes == 0
    && (l.account.lock.Entry? ==>
          var lock := l.account.lock.value;
          && lock.owner < l.nextHandler && lock.owner in l.account.acquired
          && l.account.lock.expiresAt == l.account.acquired[lock.owner] + LOCK_MILLIS)
    && (forall h :: h in l.handlers ==>
          && h < l.nextHandler
          && (InSection(l.handlers[h].pc) ==> l.account.lock.Entry? && l.account.lock.value.owner == h))
  }

  lemma HandlerKeepsInv(l: Lane, h: HandlerId, a: HandlerAction)
    requires Inv(l) && CanHandler(l, h, a) && Timely(l)
    ensures Inv(DoHandler(l, h, a))
  {
    assert a.Release? || a.Cleanup? ==> InSection(l.handlers[h].pc);
  }

  lemma StepKeepsInv(l: Lane, e: Event)
    requires Inv(l) && Can(l, e) && Timely(l) && Timely(Do(l, e))
    ensures Inv(Do(l, e))
  {
    if e.ByHandler? {
      HandlerKeepsInv(l, e.h, e.act);
    }
  }

  predicate TimelyAt(t: nat, es: seq<Event>) {
    Run(Start(t), es).Some? && Timely(Run(Start(t), es).value)
  }

  /** Every state of the run is timely. */
  predicate TimelyRun(t: nat, es: seq<Event>) {
    forall n :: 0 <= n <= |es| ==> TimelyAt(t, es[..n])
  }

  lemma {:induction false} RunKeepsInv(t: nat, es: seq<Event>)
    requires TimelyRun(t, es)
    ensures Run(Start(t), es).Some? && Inv(Run(Start(t), es).value)
  {
    var n := |es|;
    assert es[..n] == es;
    if n > 0 {
      var before := es[..n - 1];
      forall k | 0 <= k <= |before| ensures TimelyAt(t, before[..k]) {
        assert before[..k] == es[..k];
      }
      assert TimelyAt(t, before);
      RunKeepsInv(t, before);
      StepKeepsInv(Run(Start(t), before).value, es[n - 1]);
    }
  }

  predicate Exclusive(l: Lane) {
    && (forall g, h ::
          g in l.handlers && InSection(l.handlers[g].pc) && h in l.handlers && InSection(l.handlers[h].pc) ==> g == h)
    && (forall h :: h in l.handlers && InSection(l.handlers[h].pc) ==>
          l.account.lock.Entry? && l.account.lock.value.owner == h)
    && l.account.foreignDeletes == 0
  }

  /** In a timely run at most one handler is in its section, it owns the lock, and no DEL has ever
      removed a lock that belonged to another handler. */
  lemma AtMostOneInSection(t: nat, es: seq<Event>)
    requires TimelyRun(t, es)
    ensures Run(Start(t), es).Some?
    ensures Exclusive(Run(Start(t), es).value)
  {
    RunKeepsInv(t, es);
  }
}
