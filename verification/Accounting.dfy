/** How often one order can be notified: at most once more than there were excusing events. */
module Accounting {
  import opened RedisKeys
  import opened Delivery

  /** Handlers that hold the right to notify and have not used it. */
  function Armed(hs: map<HandlerId, Handler>): set<HandlerId> {
    set h | h in hs && hs[h].pc.Acquired?
  }

  /** One notification is still allowed without an excuse exactly when this is zero. */
  function Slack(k: Account): nat {
    if k.processed.Entry? || (k.lock.Entry? && k.lock.value.open) then 1 else 0
  }

  /** An open lock belongs to a handler that is about to notify or has just notified, or to a dead one. */
  predicate OpenLockOk(l: Lane) {
    && (forall h :: h in l.handlers ==> h < l.nextHandler)
    && (l.account.lock.Entry? ==>
          var owner := l.account.lock.value.owner;
          && owner < l.nextHandler
          && (l.account.lock.value.open && owner in l.handlers ==>
                l.handlers[owner].pc.Acquired? || l.handlers[owner].pc.Notified?))
  }

  predicate Inv(l: Lane) {
    && OpenLockOk(l)
    && l.account.notified + |Armed(l.handlers)| <= |l.account.excuses| + Slack(l.account)
  }

  lemma ArmedUpdate(hs: map<HandlerId, Handler>, h: HandlerId, x: Handler)
    ensures Armed(hs[h := x]) == if x.pc.Acquired? then Armed(hs) + {h} else Armed(hs) - {h}
    ensures Armed(hs - {h}) == Armed(hs) - {h}
    ensures h in Armed(hs) <==> h in hs && hs[h].pc.Acquired?
  {
  }

  lemma HandlerKeepsLockOk(l: Lane, h: HandlerId, a: HandlerAction)
    requires OpenLockOk(l) && CanHandler(l, h, a)
    ensures OpenLockOk(DoHandler(l, h, a))
  {
  }

  predicate Arms(k: Account, a: HandlerAction) {
    a == TryLock(Replied) && k.lock.Nothing?
  }

  predicate Disarms(pc: Pc, a: HandlerAction) {
    a.Notify? || (a.Crash? && pc.Acquired?)
  }

  /** A step arms its handler by taking the free lock, and disarms it by notifying or dying. */
  lemma NextPcArms(k: Account, b: Broker, pc: Pc, a: HandlerAction, now: nat)
    requires Fits(pc, a)
    ensures var next := NextPc(k, b, pc, a, now);
            && (next.Some? && next.value.Acquired? <==> Arms(k, a))
            && (pc.Acquired? <==> Disarms(pc, a))
  {
  }

  lemma ArmedStep(l: Lane, h: HandlerId, a: HandlerAction)
    requires CanHandler(l, h, a)
    ensures var armed, armed' := Armed(l.handlers), Armed(DoHandler(l, h, a).handlers);
            && armed' == (if Arms(l.account, a) then armed + {h} else armed - {h})
            && (h in armed <==> Disarms(l.handlers[h].pc, a))
  {
    var pc := NextPc(l.account, l.broker, l.handlers[h].pc, a, l.now);
    NextPcArms(l.account, l.broker, l.handlers[h].pc, a, l.now);
    ArmedUpdate(l.handlers, h, if pc.Some? then l.handlers[h].(pc := pc.value) else l.handlers[h]);
  }

  /** The account pays for every newly armed handler, and loses its slack only with an excuse or a
      handler that is disarmed. */
  lemma AccountStep(l: Lane, h: HandlerId, a: HandlerAction)
    requires OpenLockOk(l) && CanHandler(l, h, a)
    ensures var k, k' := l.account, HandlerAccount(l.account, h, l.handlers[h].pc, a, l.now);
            var due := if Arms(k, a) then 1 else if Disarms(l.handlers[h].pc, a) then -1 else 0;
            k'.notified + due - |k'.excuses| - Slack(k') <= k.notified - |k.excuses| - Slack(k)
  {
  }

  lemma HandlerKeepsInv(l: Lane, h: HandlerId, a: HandlerAction)
    requires Inv(l) && CanHandler(l, h, a)
    ensures Inv(DoHandler(l, h, a))
  {
    HandlerKeepsLockOk(l, h, a);
    ArmedStep(l, h, a);
    AccountStep(l, h, a);
  }

  lemma BrokerKeepsInv(l: Lane, c: CopyId, a: BrokerAction)
    requires Inv(l) && CanBroker(l.broker, l.now, c, a)
    ensures Inv(DoBroker(l, c, a))
  {
    if a.Deliver? {
      ArmedUpdate(l.handlers, l.nextHandler, Handler(c, l.broker.copies[c].message, Received));
    }
  }

  lemma StepKeepsInv(l: Lane, e: Event)
    requires Inv(l) && Can(l, e)
    ensures Inv(Do(l, e))
  {
    match e {
      case ByHandler(h, a) => HandlerKeepsInv(l, h, a);
      case ByBroker(c, a) => BrokerKeepsInv(l, c, a);
      case _ =>
    }
  }

  lemma {:induction false} RunKeepsInv(t: nat, es: seq<Event>)
    requires Run(Start(t), es).Some?
    ensures Inv(Run(Start(t), es).value)
  {
    if es == [] {
      assert Armed(map[]) == {};
    } else {
      RunKeepsInv(t, es[..|es| - 1]);
      StepKeepsInv(Run(Start(t), es[..|es| - 1]).value, es[|es| - 1]);
    }
  }

  /** In every run an order is notified at most once more than there were excusing events. */
  lemma NotificationAccounting(t: nat, es: seq<Event>)
    requires Run(Start(t), es).Some?
    ensures var k := Run(Start(t), es).value.account; k.notified <= 1 + |k.excuses|
  {
    RunKeepsInv(t, es);
  }
}
