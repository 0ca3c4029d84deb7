/** A committed order is never lost: its row is unsent, or a copy exists, or it has been notified. */
module NoLoss {
  import opened Delivery

  /** The steps a handler can only be in after some handler has notified. */
  predicate AfterNotification(pc: Pc) {
    pc.SkipAck? || pc.Notified? || pc.Marked? || pc.Released? || pc == Failed(true)
  }

  /** A handler's copy is older than any copy it has published. */
  predicate HandlerOk(l: Lane, x: Handler) {
    && x.copy < l.broker.next
    && (x.pc.Confirming? && x.pc.child.Some? ==> x.copy < x.pc.child.value < l.broker.next)
    && (x.pc.Settled? ==> x.copy < x.pc.heir < l.broker.next)
    && (AfterNotification(x.pc) ==> l.account.notified > 0)
  }

  predicate PublishersOk(l: Lane) {
    && (forall p :: p in l.outbox.working && l.outbox.working[p].Sending? && l.outbox.working[p].sent
          ==> l.broker.next > 0)
    && (l.outbox.marking != map[] || l.outbox.row.status.Sent? ==> l.broker.next > 0)
  }

  /** Until the order is notified, the newest copy ever published is still there. */
  predicate Inv(l: Lane) {
    && (forall c :: c in l.broker.copies ==> c < l.broker.next)
    && (forall h :: h in l.handlers ==> HandlerOk(l, l.handlers[h]))
    && PublishersOk(l)
    && (l.account.processed.Entry? ==> l.account.notified > 0)
    && (l.broker.next > 0 && l.account.notified == 0 ==> l.broker.next - 1 in l.broker.copies)
  }

  /** An acknowledgement removes a copy only when the order is notified or a younger copy exists. */
  lemma NewestCopyStays(l: Lane, h: HandlerId, a: HandlerAction)
    requires Inv(l) && CanHandler(l, h, a)
    ensures var l' := DoHandler(l, h, a);
            && (l'.broker.next > 0 && l'.account.notified == 0 ==> l'.broker.next - 1 in l'.broker.copies)
            && (forall c :: c in l'.broker.copies ==> c < l'.broker.next)
            && l.broker.next <= l'.broker.next && l.account.notified <= l'.account.notified
            && (l'.account.processed.Entry? ==> l'.account.notified > 0)
  {
    assert HandlerOk(l, l.handlers[h]);
  }

  lemma HandlersStayOk(l: Lane, h: HandlerId, a: HandlerAction)
    requires Inv(l) && CanHandler(l, h, a)
    ensures var l' := DoHandler(l, h, a);
            forall g :: g in l'.handlers ==> HandlerOk(l', l'.handlers[g])
  {
    var l' := DoHandler(l, h, a);
    NewestCopyStays(l, h, a);
    forall g | g in l'.handlers ensures HandlerOk(l', l'.handlers[g]) {
      assert HandlerOk(l, l.handlers[g]);
    }
  }

  lemma HandlerKeepsInv(l: Lane, h: HandlerId, a: HandlerAction)
    requires Inv(l) && CanHandler(l, h, a)
    ensures Inv(DoHandler(l, h, a))
  {
    NewestCopyStays(l, h, a);
    HandlersStayOk(l, h, a);
  }

  lemma PublisherKeepsInv(l: Lane, p: PublisherId, a: PublisherAction)
    requires Inv(l) && CanPublisher(l.outbox, l.now, p, a)
    ensures Inv(DoPublisher(l, p, a))
  {
    var l' := DoPublisher(l, p, a);
    forall h | h in l'.handlers ensures HandlerOk(l', l'.handlers[h]) {
      assert HandlerOk(l, l.handlers[h]);
    }
  }

  lemma StepKeepsInv(l: Lane, e: Event)
    requires Inv(l) && Can(l, e)
    ensures Inv(Do(l, e))
  {
    match e {
      case ByHandler(h, a) => HandlerKeepsInv(l, h, a);
      case ByPublisher(p, a) => PublisherKeepsInv(l, p, a);
      case _ =>
        var l' := Do(l, e);
        forall h | h in l'.handlers && h in l.handlers ensures HandlerOk(l', l'.handlers[h]) {
          assert HandlerOk(l, l.handlers[h]);
        }
    }
  }

  lemma {:induction false} RunKeepsInv(t: nat, es: seq<Event>)
    requires Run(Start(t), es).Some?
    ensures Inv(Run(Start(t), es).value)
  {
    if es != [] {
      RunKeepsInv(t, es[..|es| - 1]);
      StepKeepsInv(Run(Start(t), es[..|es| - 1]).value, es[|es| - 1]);
    }
  }

  /** No run loses an order, whatever crashes, redeliveries, failed confirms and requeues it contains. */
  lemma NoOrderIsLost(t: nat, es: seq<Event>)
    requires Run(Start(t), es).Some?
    ensures var l := Run(Start(t), es).value;
            || !l.outbox.row.status.Sent?
            || (exists c :: c in l.broker.copies)
            || l.account.notified > 0
  {
    RunKeepsInv(t, es);
  }
}
