/** What each step of a create call does to the database, in the terms of the source: an independent
    reference for the steps of the order machine. */
module OrderSteps {
  import opened OrderStore

  /** Every other call is where it was, and call c has come to pc with the same request. */
  predicate At(s: State, s': State, c: CallId, pc: Pc)
    requires c < |s.calls|
  {
    s'.calls == s.calls[c := Call(s.calls[c].request, pc)]
  }

  predicate SameIds(s: State, s': State) {
    s'.nextOrder == s.nextOrder && s'.nextEvent == s.nextEvent
  }

  predicate Enough(s: State, r: Request) {
    r.productId in s.shop.stock && s.shop.stock[r.productId] >= r.quantity
  }

  /** At every point the call may go on or fail for the infrastructure's sake; a decrement that would update
      the row waits while another call has locked it, and nothing else ever waits. */
  lemma CallCan(s: State, e: Event)
    requires !e.Arrive?
    ensures Can(s, e) <==>
            && e.c < |s.calls|
            && var r := s.calls[e.c].request;
               match s.calls[e.c].pc
               case Arrived => e.Precheck? || e.Fail?
               case Prechecked => e.InsertOrder? || e.Fail?
               case Inserted(_) => e.InsertOutbox? || e.Fail?
               case Logged(_, _) => (e.Decrease? && !(Enough(s, r) && r.productId in s.locks)) || e.Fail?
               case Holding(_, _, _) => e.Commit? || e.Fail?
               case Conflicting => e.Rollback? || e.Fail?
               case _ => false
  {
  }

  lemma ArriveStep(s: State, r: Request)
    ensures Can(s, Arrive(r)) <==> r.quantity >= 1
    ensures Can(s, Arrive(r)) ==> Do(s, Arrive(r)) == s.(calls := s.calls + [Call(r, Arrived)])
  {
  }

  /** The precheck reads committed stock and writes nothing. */
  lemma PrecheckStep(s: State, c: CallId)
    requires Can(s, Precheck(c))
    ensures var s' := Do(s, Precheck(c));
            && s'.shop == s.shop && s'.locks == s.locks && SameIds(s, s')
            && At(s, s', c, if Enough(s, s.calls[c].request) then Prechecked else Rejected)
  {
  }

  /** The inserts take identifiers nobody else gets, and nobody else sees their rows. */
  lemma InsertStep(s: State, c: CallId)
    ensures Can(s, InsertOrder(c)) ==>
              var s' := Do(s, InsertOrder(c));
              && s'.shop == s.shop && s'.locks == s.locks
              && At(s, s', c, Inserted(s.nextOrder))
              && s'.nextOrder == s.nextOrder + 1 && s'.nextEvent == s.nextEvent
    ensures Can(s, InsertOutbox(c)) ==>
              var s' := Do(s, InsertOutbox(c));
              && s'.shop == s.shop && s'.locks == s.locks
              && At(s, s', c, Logged(s.calls[c].pc.orderId, s.nextEvent))
              && s'.nextOrder == s.nextOrder && s'.nextEvent == s.nextEvent + 1
  {
  }

  /** The conditional update takes the lock exactly when the committed stock suffices, and computes what is
      left; nobody else sees it yet. */
  lemma DecreaseStep(s: State, c: CallId)
    requires Can(s, Decrease(c))
    ensures var s' := Do(s, Decrease(c));
            var r, pc := s.calls[c].request, s.calls[c].pc;
            && s'.shop == s.shop && SameIds(s, s')
            && if Enough(s, r) then
                 && s'.locks == s.locks[r.productId := c]
                 && At(s, s', c, Holding(pc.orderId, pc.eventId, s.shop.stock[r.productId] - r.quantity))
               else
                 s'.locks == s.locks && At(s, s', c, Conflicting)
  {
  }

  /** A commit makes the new stock, the order row and the outbox row visible together and releases the lock,
      whether or not its answer arrives. */
  lemma CommitStep(s: State, c: CallId, answered: bool)
    requires Can(s, Commit(c, answered))
    ensures var s' := Do(s, Commit(c, answered));
            var r, pc := s.calls[c].request, s.calls[c].pc;
            && s'.shop.stock == s.shop.stock[r.productId := pc.left]
            && s'.shop.orders == s.shop.orders + [OrderRow(pc.orderId, r)]
            && s'.shop.outbox == s.shop.outbox + [OutboxEntry(pc.eventId, pc.orderId, c)]
            && s'.locks == s.locks - {r.productId} && SameIds(s, s')
            && At(s, s', c, if answered then Done(pc.orderId) else Unanswered(pc.orderId))
  {
  }

  /** A rollback, on the conflict or for the infrastructure, changes no row and releases the lock it held. */
  lemma RollbackStep(s: State, c: CallId, e: Event)
    requires (e == Rollback(c) || e == Fail(c)) && Can(s, e)
    ensures var s' := Do(s, e);
            && s'.shop == s.shop && SameIds(s, s')
            && s'.locks == (if s.calls[c].pc.Holding? then s.locks - {s.calls[c].request.productId} else s.locks)
            && At(s, s', c, if e.Rollback? then Rejected else RolledBack)
  {
  }
}
