/** Which orders can still be notified: all but those that have only copies in the DLQ left. */
module Recovery {
  import opened Options
  import opened RedisKeys
  import opened OutboxRow
  import opened Delivery
  import NoLoss
  import OutboxLaws

  /** A run that goes on with the events of es after the run so far. */
  predicate Continues(t: nat, so: seq<Event>, es: seq<Event>) {
    so <= es && Run(Start(t), es).Some?
  }

  lemma Next(t: nat, es: seq<Event>, e: Event) returns (fs: seq<Event>, l: Lane)
    requires Run(Start(t), es).Some? && Can(Run(Start(t), es).value, e)
    ensures fs == es + [e] && Run(Start(t), fs) == Some(l) && l == Do(Run(Start(t), es).value, e)
  {
    Extend(Start(t), es, e);
    fs, l := es + [e], Do(Run(Start(t), es).value, e);
  }

  predicate Waiting(l: Lane, c: CopyId, q: Queue) {
    c in l.broker.copies && l.broker.copies[c].place == Queued(q)
  }

  /** Unsent, notified or not: after the recovery delay the event is claimed and a new copy is published. */
  lemma RepublishFromRow(t: nat, es: seq<Event>) returns (fs: seq<Event>, c: CopyId)
    requires Run(Start(t), es).Some?
    requires !Run(Start(t), es).value.outbox.row.status.Sent?
    ensures Continues(t, es, fs) && Waiting(Run(Start(t), fs).value, c, Main)
    ensures c == Run(Start(t), es).value.broker.next
    ensures Run(Start(t), fs).value.account.notified == Run(Start(t), es).value.account.notified
  {
    OutboxLaws.RunKeepsInv(t, es);
    var l := Run(Start(t), es).value;
    fs := es;
    if l.outbox.row.status.Processing? {
      fs, l := Next(t, fs, Tick(l.outbox.row.startedAt.value + STUCK_AFTER + 1));
      fs, l := Next(t, fs, Recover(l.now));
    }
    var p := FreshPublisher(l.outbox);
    fs, l := Next(t, fs, ByPublisher(p, Claim(l.now)));
    c := l.broker.next;
    fs, l := Next(t, fs, ByPublisher(p, Publish(true)));
  }

  lemma FreshPublisher(o: Outbox) returns (p: PublisherId)
    ensures p !in o.working && p !in o.marking
  {
    p := FreshNat(o.working.Keys + o.marking.Keys);
  }

  lemma {:induction false} FreshNat(s: set<nat>) returns (n: nat)
    ensures forall m :: m in s ==> m < n
  {
    if s == {} {
      n := 0;
    } else {
      var x :| x in s;
      var r := FreshNat(s - {x});
      n := if x < r then r else x + 1;
      assert forall m :: m in s ==> m == x || m in s - {x};
    }
  }

  /** A copy outside the DLQ can get back to the main queue. */
  lemma BackToMain(t: nat, es: seq<Event>, c: CopyId) returns (fs: seq<Event>)
    requires Run(Start(t), es).Some?
    requires var l := Run(Start(t), es).value; c in l.broker.copies && !Waiting(l, c, Dlq)
    ensures Continues(t, es, fs) && Waiting(Run(Start(t), fs).value, c, Main)
    ensures Run(Start(t), fs).value.account.notified == Run(Start(t), es).value.account.notified
  {
    var l := Run(Start(t), es).value;
    fs := es;
    if l.broker.copies[c].place.Unacked? {
      fs, l := Next(t, fs, ByBroker(c, ChannelLoss));
    } else if !Waiting(l, c, Main) {
      var q := l.broker.copies[c].place.queue;
      assert q.Retry? || q.ProcessingRetry?;
      fs, l := Next(t, fs, Tick(l.broker.copies[c].message.readyAt));
      fs, l := Next(t, fs, ByBroker(c, DeadLetter));
    }
  }

  /** From the main queue, once any lock has expired, a new handler notifies. */
  lemma NotifyFromMain(t: nat, es: seq<Event>, c: CopyId) returns (fs: seq<Event>)
    requires Run(Start(t), es).Some?
    requires var l := Run(Start(t), es).value; Waiting(l, c, Main) && l.account.notified == 0
    ensures Continues(t, es, fs) && Run(Start(t), fs).value.account.notified > 0
  {
    NoLoss.RunKeepsInv(t, es);
    var l := Run(Start(t), es).value;
    fs, l := Next(t, es, Tick(if l.account.lock.Entry? then l.account.lock.expiresAt + 1 else 0));
    var h := l.nextHandler;
    fs, l := Next(t, fs, ByBroker(c, Deliver));
    fs, l := Next(t, fs, ByHandler(h, CheckProcessed(false)));
    fs, l := Next(t, fs, ByHandler(h, TryLock(Replied)));
    fs, l := Next(t, fs, ByHandler(h, Notify(Done)));
  }

  /** A handler that has not got to the lock yet, or holds it, can notify. */
  lemma NotifyByHandler(t: nat, es: seq<Event>, h: HandlerId) returns (fs: seq<Event>)
    requires Run(Start(t), es).Some?
    requires var l := Run(Start(t), es).value;
             && l.account.notified == 0 && h in l.handlers
             && (l.handlers[h].pc.Received? || l.handlers[h].pc.Checked? || l.handlers[h].pc.Acquired?)
    ensures Continues(t, es, fs) && Run(Start(t), fs).value.account.notified > 0
  {
    NoLoss.RunKeepsInv(t, es);
    var l := Run(Start(t), es).value;
    fs, l := Next(t, es, Tick(if l.account.lock.Entry? then l.account.lock.expiresAt + 1 else 0));
    if l.handlers[h].pc.Received? {
      fs, l := Next(t, fs, ByHandler(h, CheckProcessed(false)));
    }
    if l.handlers[h].pc.Checked? {
      fs, l := Next(t, fs, ByHandler(h, TryLock(Replied)));
    }
    fs, l := Next(t, fs, ByHandler(h, Notify(Done)));
  }

  /** A handler about to republish its message to a queue other than the DLQ; with a failure, after its DEL. */
  predicate WillRepublish(x: Handler) {
    match x.pc
    case RedisFailed => x.message.retryCount < MAX_RETRIES
    case Blocked(_) => x.message.processingRetryCount < MAX_PROCESSING_RETRIES
    case Failed(_) => x.message.retryCount < MAX_REPROCESSES
    case Cleaned => x.message.retryCount < MAX_REPROCESSES
    case _ => false
  }

  lemma RepublishByHandler(t: nat, es: seq<Event>, h: HandlerId) returns (fs: seq<Event>)
    requires Run(Start(t), es).Some?
    requires var l := Run(Start(t), es).value;
             l.account.notified == 0 && h in l.handlers && WillRepublish(l.handlers[h])
    ensures Continues(t, es, fs) && Run(Start(t), fs).value.account.notified > 0
  {
    var l := Run(Start(t), es).value;
    fs := es;
    if l.handlers[h].pc.Failed? {
      fs, l := Next(t, fs, ByHandler(h, Cleanup(true)));
    }
    var c := l.broker.next;
    fs, l := Next(t, fs, ByHandler(h, Republish(true)));
    fs := BackToMain(t, fs, c);
    fs := NotifyFromMain(t, fs, c);
  }

  predicate MayNotify(x: Handler) {
    x.pc.Received? || x.pc.Checked? || x.pc.Acquired? || WillRepublish(x)
  }

  /** Nothing is left that could lead to a notification: the row is SENT, no publisher is about to publish,
      every copy is in the DLQ, and no handler will notify or republish elsewhere. */
  predicate DeadEnd(l: Lane) {
    && l.account.notified == 0
    && l.outbox.row.status.Sent?
    && (forall p :: p in l.outbox.working ==> !l.outbox.working[p].Holding?)
    && (forall c :: c in l.broker.copies ==> Waiting(l, c, Dlq))
    && (forall h :: h in l.handlers ==> !MayNotify(l.handlers[h]))
  }

  lemma NoOtherDeadEnd(t: nat, es: seq<Event>) returns (fs: seq<Event>)
    requires Run(Start(t), es).Some? && !DeadEnd(Run(Start(t), es).value)
    ensures Continues(t, es, fs) && Run(Start(t), fs).value.account.notified > 0
  {
    var l := Run(Start(t), es).value;
    if l.account.notified > 0 {
      fs := es;
    } else if !l.outbox.row.status.Sent? {
      var c;
      fs, c := RepublishFromRow(t, es);
      fs := NotifyFromMain(t, fs, c);
    } else if p :| p in l.outbox.working && l.outbox.working[p].Holding? {
      var c := l.broker.next;
      fs, l := Next(t, es, ByPublisher(p, Publish(true)));
      fs := NotifyFromMain(t, fs, c);
    } else if c :| c in l.broker.copies && !Waiting(l, c, Dlq) {
      fs := BackToMain(t, es, c);
      fs := NotifyFromMain(t, fs, c);
    } else {
      var h :| h in l.handlers && MayNotify(l.handlers[h]);
      if WillRepublish(l.handlers[h]) {
        fs := RepublishByHandler(t, es, h);
      } else {
        fs := NotifyByHandler(t, es, h);
      }
    }
  }

  lemma StepKeepsDeadEnd(l: Lane, e: Event)
    requires NoLoss.Inv(l) && DeadEnd(l) && Can(l, e)
    ensures DeadEnd(Do(l, e))
  {
    if e.ByHandler? {
      assert NoLoss.HandlerOk(l, l.handlers[e.h]) && !MayNotify(l.handlers[e.h]);
    }
  }

  lemma {:induction false} DeadEndStays(t: nat, es: seq<Event>, fs: seq<Event>)
    requires Continues(t, es, fs) && Run(Start(t), es).Some? && DeadEnd(Run(Start(t), es).value)
    ensures DeadEnd(Run(Start(t), fs).value)
  {
    if fs != es {
      var n := |fs| - 1;
      assert es <= fs[..n];
      DeadEndStays(t, es, fs[..n]);
      NoLoss.RunKeepsInv(t, fs[..n]);
      StepKeepsDeadEnd(Run(Start(t), fs[..n]).value, fs[n]);
    }
  }

  /** Published and marked; the only copy is in queue q, no handler is there, and nothing has been notified. */
  predicate Lone(l: Lane, c: CopyId, q: Queue) {
    && l.outbox.row.status.Sent? && l.outbox.working == map[]
    && l.broker.copies.Keys == {c} && Waiting(l, c, q) && c < l.broker.next
    && l.handlers == map[]
    && l.account.processed.Nothing? && l.account.lock.Nothing? && l.account.notified == 0
  }

  /** The only handler, with the only copy, has failed and cleaned up. */
  predicate LoneCleaned(l: Lane, c: CopyId, h: HandlerId) {
    && l.outbox.row.status.Sent? && l.outbox.working == map[]
    && l.broker.copies.Keys == {c} && HoldsCopy(l.broker, h, c) && c < l.broker.next
    && l.handlers.Keys == {h} && l.handlers[h].pc.Cleaned? && l.handlers[h].copy == c
    && l.account.processed.Nothing? && l.account.lock.Nothing? && l.account.notified == 0
  }

  /** The notification call fails without having gone out. */
  lemma FailOnce(t: nat, es: seq<Event>, c: CopyId) returns (fs: seq<Event>, l: Lane, h: HandlerId)
    requires Run(Start(t), es).Some? && Lone(Run(Start(t), es).value, c, Main)
    ensures Run(Start(t), fs) == Some(l) && LoneCleaned(l, c, h)
    ensures l.handlers[h].message == Run(Start(t), es).value.broker.copies[c].message
  {
    h := Run(Start(t), es).value.nextHandler;
    fs, l := Next(t, es, ByBroker(c, Deliver));
    fs, l := Next(t, fs, ByHandler(h, CheckProcessed(false)));
    fs, l := Next(t, fs, ByHandler(h, TryLock(Replied)));
    fs, l := Next(t, fs, ByHandler(h, Notify(FailedUnsent)));
    fs, l := Next(t, fs, ByHandler(h, Cleanup(true)));
  }

  /** And its message goes on, to the main queue the first time and to the DLQ the second time. */
  lemma PassOn(t: nat, es: seq<Event>, c: CopyId, h: HandlerId) returns (fs: seq<Event>, l: Lane, c': CopyId)
    requires Run(Start(t), es).Some? && LoneCleaned(Run(Start(t), es).value, c, h)
    ensures Run(Start(t), fs) == Some(l)
    ensures var m := Run(Start(t), es).value.handlers[h].message;
            && Lone(l, c', if m.retryCount == 0 then Main else Dlq)
            && (m.retryCount == 0 ==> l.broker.copies[c'].message.retryCount == 1)
  {
    c' := Run(Start(t), es).value.broker.next;
    fs, l := Next(t, es, ByHandler(h, Republish(true)));
    fs, l := Next(t, fs, ByHandler(h, ConfirmHop(true)));
    fs, l := Next(t, fs, ByHandler(h, AckHop(Delivered)));
  }

  lemma PublishAndMark(t: nat) returns (es: seq<Event>, l: Lane)
    ensures Run(Start(t), es) == Some(l) && Lone(l, 0, Main) && l.broker.copies[0].message.retryCount == 0
  {
    es, l := Next(t, [], ByPublisher(0, Claim(t)));
    es, l := Next(t, es, ByPublisher(0, Publish(true)));
    es, l := Next(t, es, ByPublisher(0, Confirm));
    es, l := Next(t, es, ByPublisher(0, MarkSent));
  }

  /** Dead ends do happen: two failed notification calls are enough. */
  lemma DeadEndHappens(t: nat) returns (es: seq<Event>)
    ensures Run(Start(t), es).Some? && DeadEnd(Run(Start(t), es).value)
  {
    var l, h, c;
    es, l := PublishAndMark(t);
    es, l, h := FailOnce(t, es, 0);
    es, l, c := PassOn(t, es, 0, h);
    es, l, h := FailOnce(t, es, c);
    es, l, c := PassOn(t, es, c, h);
  }

  /** An order can still be notified, or has been, in exactly the states that are no dead ends. */
  lemma NotifiableExactly(t: nat, es: seq<Event>)
    requires Run(Start(t), es).Some?
    ensures (exists fs :: Continues(t, es, fs) && Run(Start(t), fs).value.account.notified > 0) <==>
            !DeadEnd(Run(Start(t), es).value)
  {
    if !DeadEnd(Run(Start(t), es).value) {
      var fs := NoOtherDeadEnd(t, es);
    } else {
      forall fs | Continues(t, es, fs) ensures Run(Start(t), fs).value.account.notified == 0 {
        DeadEndStays(t, es, fs);
      }
    }
  }
}
