/** Which locks can turn a message away: those left behind, and those of handlings that overlap. */
module LeftLocks {
  import opened RedisKeys
  import opened Delivery
  import opened Lineage

  /** The handlers that left a lock behind: it is still theirs after they crashed, after their DEL had no
      effect, or after they set it without being told. */
  function LeftBehind(t: nat, es: seq<Event>): set<HandlerId>
    requires Run(Start(t), es).Some?
  {
    if es == [] then {}
    else LeftBehind(t, es[..|es| - 1]) + LeftBy(Run(Start(t), es[..|es| - 1]).value, es[|es| - 1])
  }

  function LeftBy(l: Lane, e: Event): set<HandlerId>
    requires Can(l, e)
  {
    var lock := Do(l, e).account.lock;
    if e.ByHandler? && lock.Entry? && lock.value.owner == e.h
       && (e.act.Crash? || e.act == Release(false) || e.act == Cleanup(false)
           || (e.act.TryLock? && e.act.reply.LostReply? && e.act.reply.applied))
    then {e.h} else {}
  }

  /** The handlers that were still at work when their lock turned another one away. */
  function StillWorking(t: nat, es: seq<Event>): set<HandlerId>
    requires Run(Start(t), es).Some?
  {
    if es == [] then {}
    else StillWorking(t, es[..|es| - 1]) + WorkingAt(Run(Start(t), es[..|es| - 1]).value, es[|es| - 1])
  }

  function WorkingAt(l: Lane, e: Event): set<HandlerId> {
    if e.ByHandler? && e.act == TryLock(Replied) && l.account.lock.Entry? && l.account.lock.value.owner in l.handlers
    then {l.account.lock.value.owner} else {}
  }

  /** Between setting the lock and its DEL. */
  predicate Deletes(pc: Pc) {
    pc.Acquired? || pc.Notified? || pc.Marked? || pc.Failed?
  }

  /** The lock is left behind or still to be deleted by its owner. */
  predicate LockAccounted(l: Lane, left: set<HandlerId>) {
    && (forall h :: h in l.handlers ==> h < l.nextHandler)
    && (l.account.lock.Entry? ==>
          var owner := l.account.lock.value.owner;
          owner in left || (owner in l.handlers && Deletes(l.handlers[owner].pc)))
  }

  predicate Explains(owners: set<HandlerId>, m: Message) {
    forall i :: 0 <= i < |m.blockers| ==> m.blockers[i].owner in owners
  }

  predicate HandlerExplained(owners: set<HandlerId>, x: Handler) {
    Explains(owners, x.message) && (x.pc.Blocked? ==> x.pc.blocker.owner in owners)
  }

  predicate Explained(l: Lane, owners: set<HandlerId>) {
    && (forall c :: c in l.broker.copies ==> Explains(owners, l.broker.copies[c].message))
    && (forall h :: h in l.handlers ==> HandlerExplained(owners, l.handlers[h]))
  }

  lemma StepKeepsLock(l: Lane, e: Event, left: set<HandlerId>)
    requires LockAccounted(l, left) && Can(l, e)
    ensures LockAccounted(Do(l, e), left + LeftBy(l, e))
  {
  }

  /** What a handler republishes is explained by what it carries and by the lock that has turned it away. */
  lemma StepKeepsCopies(l: Lane, e: Event, owners: set<HandlerId>)
    requires Explained(l, owners) && Can(l, e)
    ensures var l' := Do(l, e); forall c :: c in l'.broker.copies ==> Explains(owners, l'.broker.copies[c].message)
  {
    if e.ByHandler? {
      assert HandlerExplained(owners, l.handlers[e.h]);
    }
  }

  lemma StepKeepsHandlers(l: Lane, e: Event, left: set<HandlerId>, owners: set<HandlerId>)
    requires LockAccounted(l, left) && Explained(l, owners) && Can(l, e) && left <= owners
    ensures var l' := Do(l, e);
            forall h :: h in l'.handlers ==> HandlerExplained(owners + WorkingAt(l, e), l'.handlers[h])
  {
    var l' := Do(l, e);
    forall h | h in l'.handlers ensures HandlerExplained(owners + WorkingAt(l, e), l'.handlers[h]) {
      if h in l.handlers {
        assert HandlerExplained(owners, l.handlers[h]);
      } else {
        assert Explains(owners, l.broker.copies[e.c].message);
      }
    }
  }

  lemma MoreExplains(l: Lane, owners: set<HandlerId>, more: set<HandlerId>)
    requires Explained(l, owners) && owners <= more
    ensures Explained(l, more)
  {
    forall h | h in l.handlers ensures HandlerExplained(more, l.handlers[h]) {
      assert HandlerExplained(owners, l.handlers[h]);
    }
  }

  lemma {:induction false} RunIsExplained(t: nat, es: seq<Event>)
    requires Run(Start(t), es).Some?
    ensures var l := Run(Start(t), es).value;
            LockAccounted(l, LeftBehind(t, es)) && Explained(l, LeftBehind(t, es) + StillWorking(t, es))
  {
    if es != [] {
      var n := |es| - 1;
      RunIsExplained(t, es[..n]);
      var l, e, left := Run(Start(t), es[..n]).value, es[n], LeftBehind(t, es[..n]);
      var owners := left + StillWorking(t, es[..n]);
      StepKeepsLock(l, e, left);
      MoreExplains(l, owners, owners + WorkingAt(l, e));
      StepKeepsCopies(l, e, owners + WorkingAt(l, e));
      StepKeepsHandlers(l, e, left, owners);
      MoreExplains(Do(l, e), owners + WorkingAt(l, e), LeftBehind(t, es) + StillWorking(t, es));
    }
  }

  /** Every lock that turned a lineage away was left behind by its handler or belonged to one still at work,
      so the processing-retry-count is at most the number of such handlers. */
  lemma HopsAreExplained(t: nat, es: seq<Event>, c: CopyId)
    requires Run(Start(t), es).Some? && c in Run(Start(t), es).value.broker.copies
    ensures var m := Run(Start(t), es).value.broker.copies[c].message;
            var owners := LeftBehind(t, es) + StillWorking(t, es);
            Explains(owners, m) && m.processingRetryCount <= |m.blockers| <= |owners|
  {
    RunIsExplained(t, es);
    Lineage.RunKeepsInv(t, es);
    var l := Run(Start(t), es).value;
    assert CopyOk(l, l.broker.copies[c]);
    var m := l.broker.copies[c].message;
    BlockersAreDistinct(l.account, m, |m.blockers|);
    SubsetSize(set i | 0 <= i < |m.blockers| :: m.blockers[i].owner, LeftBehind(t, es) + StillWorking(t, es));
  }

  /** When handlings do not overlap and only one of them, say a crashed one, has left its lock behind, one
      hop is enough, however many locks are set and deleted besides. */
  lemma OneCrashCostsOneHop(t: nat, es: seq<Event>, c: CopyId)
    requires Run(Start(t), es).Some? && c in Run(Start(t), es).value.broker.copies
    requires StillWorking(t, es) == {} && |LeftBehind(t, es)| <= 1
    ensures var m := Run(Start(t), es).value.broker.copies[c].message;
            m.processingRetryCount <= 1 && !m.exhausted
  {
    HopsAreExplained(t, es, c);
    assert LeftBehind(t, es) + StillWorking(t, es) == LeftBehind(t, es);
    LockExhaustion(t, es, c);
  }
}
