/** What each step does to a lane, in the terms of the source: keys and their lifetimes, queues and delays,
    headers, rows.  An independent reference for the steps of the delivery machine. */
module DeliverySteps {
  import opened Options
  import opened RedisKeys
  import opened OutboxRow
  import opened Delivery

  // ----- what does not change -----

  predicate SameOutbox(l: Lane, l': Lane) {
    l'.outbox == l.outbox && l'.now == l.now
  }

  /** No key and no notification, apart from the history of the account. */
  predicate SameKeys(l: Lane, l': Lane) {
    && l'.account.processed == l.account.processed
    && LockOf(l') == LockOf(l)
    && l'.account.notified == l.account.notified
  }

  predicate OthersStay(l: Lane, l': Lane, h: HandlerId) {
    && l'.handlers - {h} == l.handlers - {h} && l'.nextHandler == l.nextHandler
  }

  /** Owner and expiry of the lock key, None when it is free. */
  function LockOf(l: Lane): Option<(HandlerId, nat)> {
    if l.account.lock.Entry? then Some((l.account.lock.value.owner, l.account.lock.expiresAt)) else None
  }

  /** The handler goes on at pc with the same message, or has ended. */
  predicate At(l: Lane, l': Lane, h: HandlerId, pc: Option<Pc>)
    requires h in l.handlers
  {
    && OthersStay(l, l', h)
    && (h in l'.handlers <==> pc.Some?)
    && (pc.Some? ==> l'.handlers[h] == l.handlers[h].(pc := pc.value))
  }

  /** Nothing but the handler's own position. */
  predicate OnlyAt(l: Lane, l': Lane, h: HandlerId, pc: Option<Pc>)
    requires h in l.handlers
  {
    At(l, l', h, pc) && SameOutbox(l, l') && SameKeys(l, l') && l'.broker == l.broker
  }

  predicate Holds(l: Lane, h: HandlerId)
    requires h in l.handlers
  {
    var c := l.handlers[h].copy;
    c in l.broker.copies && l.broker.copies[c].place == Unacked(h)
  }

  // ----- the beginning -----

  /** A committed order starts with its PENDING row and nothing else. */
  lemma StartsFresh(t: nat)
    ensures var l := Start(t);
            && l.now == t && l.outbox.row == Row(Pending, None, None)
            && l.outbox.working == map[] && l.outbox.marking == map[]
            && l.broker.copies == map[] && l.handlers == map[]
            && l.account.processed == Nothing && l.account.lock == Nothing
            && l.account.notified == 0 && l.account.excuses == []
  {
  }

  // ----- which steps there are -----

  /** At every await the call may end in any way and the process may stop; nothing else can happen next.  An
      acknowledgement reaches the broker only on the channel that holds the copy. */
  lemma HandlerCan(l: Lane, h: HandlerId, a: HandlerAction)
    requires h in l.handlers
    ensures Can(l, ByHandler(h, a)) <==>
            || a.Crash?
            || match l.handlers[h].pc
               case Received => a.CheckProcessed?
               case SkipAck => a.AckSkip? && (a.ack.Delivered? ==> Holds(l, h))
               case Checked => a.TryLock?
               case RedisFailed => a.Republish?
               case Blocked(_) => a.Republish?
               case Acquired => a.Notify?
               case Notified => a.MarkProcessed?
               case Marked => a.Release?
               case Released => a.AckDone? && (a.ack.Delivered? ==> Holds(l, h))
               case Failed(_) => a.Cleanup?
               case Cleaned => a.Republish?
               case Confirming(child) => a.ConfirmHop? && (a.ok ==> child.Some?)
               case Settled(_) => a.AckHop? && (a.ack.Delivered? ==> Holds(l, h))
               case Nacking => a.Nack? && (a.applied ==> Holds(l, h))
  {
  }

  /** A delivery takes a copy from the main queue only; a copy comes back from a retry queue once its delay is
      over, and from an unacknowledged delivery at any time. */
  lemma BrokerCan(l: Lane, c: CopyId, a: BrokerAction)
    ensures Can(l, ByBroker(c, a)) <==>
            && c in l.broker.copies
            && match l.broker.copies[c].place
               case Queued(Main) => a.Deliver?
               case Queued(Dlq) => false
               case Queued(_) => a.DeadLetter? && l.broker.copies[c].message.readyAt <= l.now
               case Unacked(_) => a.ChannelLoss?
  {
  }

  /** An idle publisher claims a PENDING row by a clock that is not ahead; then it publishes, which may fail
      with or without effect, awaits the confirm of a copy that was sent, and marks; it may stop anywhere. */
  lemma PublisherCan(l: Lane, p: PublisherId, a: PublisherAction)
    ensures Can(l, ByPublisher(p, a)) <==>
            var o := l.outbox;
            match a
            case Claim(stamp) => p !in o.working && p !in o.marking && o.row.status == Pending && stamp <= l.now
            case Publish(_) => p in o.working && o.working[p].Holding?
            case Confirm => p in o.working && o.working[p].Sending? && o.working[p].sent
            case MarkSent => p in o.marking
            case Stop => p in o.working || p in o.marking
  {
  }

  /** Time may always pass, and the recovery job may run at any time, by a clock that is not ahead. */
  lemma ClockCan(l: Lane, clock: nat, d: nat)
    ensures Can(l, Tick(d)) && (Can(l, Recover(clock)) <==> clock <= l.now)
  {
  }

  // ----- a handler's steps -----

  /** A failed read is a Redis failure; a set processed key means a duplicate. */
  lemma CheckStep(l: Lane, h: HandlerId, throws: bool)
    requires Can(l, ByHandler(h, CheckProcessed(throws)))
    ensures OnlyAt(l, Do(l, ByHandler(h, CheckProcessed(throws))), h,
                   Some(if throws then RedisFailed else if l.account.processed.Entry? then SkipAck else Checked))
  {
  }

  /** SET NX EX 30: it takes effect on a free key only, for thirty seconds, and possibly although the caller
      sees a failure, in which case nobody knows that it holds the lock. */
  lemma LockStep(l: Lane, h: HandlerId, reply: Reply)
    requires Can(l, ByHandler(h, TryLock(reply)))
    ensures var l' := Do(l, ByHandler(h, TryLock(reply)));
            var lock := l.account.lock;
            && SameOutbox(l, l') && l'.broker == l.broker
            && l'.account.processed == l.account.processed && l'.account.notified == l.account.notified
            && At(l, l', h, Some(if reply.LostReply? then RedisFailed
                                 else if lock.Nothing? then Acquired
                                 else Blocked(Blocker(lock.value.owner, lock.value.acquiredAt, l.now))))
            && LockOf(l') == (if lock.Nothing? && (reply.Replied? || reply.applied) then Some((h, l.now + 30_000))
                              else LockOf(l))
            && l'.account.acquired == (if lock.Nothing? && (reply.Replied? || reply.applied)
                                       then l.account.acquired[h := l.now] else l.account.acquired)
  {
  }

  /** The notification goes out once, and at most once when the call fails. */
  lemma NotifyStep(l: Lane, h: HandlerId, outcome: NotifyOutcome)
    requires Can(l, ByHandler(h, Notify(outcome)))
    ensures var l' := Do(l, ByHandler(h, Notify(outcome)));
            && SameOutbox(l, l') && l'.broker == l.broker
            && l'.account.processed == l.account.processed && LockOf(l') == LockOf(l)
            && l'.account.notified == l.account.notified + (if outcome.FailedUnsent? then 0 else 1)
            && At(l, l', h, Some(if outcome.Done? then Notified else Failed(false)))
  {
  }

  /** SET EX 86400, whose failure nobody sees. */
  lemma MarkStep(l: Lane, h: HandlerId, applied: bool)
    requires Can(l, ByHandler(h, MarkProcessed(applied)))
    ensures var l' := Do(l, ByHandler(h, MarkProcessed(applied)));
            && SameOutbox(l, l') && l'.broker == l.broker
            && LockOf(l') == LockOf(l) && l'.account.notified == l.account.notified
            && l'.account.processed == (if applied then Entry(true, l.now + 86_400_000) else l.account.processed)
            && At(l, l', h, Some(Marked))
  {
  }

  /** DEL, after success and in the catch alike: it removes the lock whoever owns it, or silently nothing. */
  lemma DeleteStep(l: Lane, h: HandlerId, applied: bool, inCatch: bool)
    requires Can(l, ByHandler(h, if inCatch then Cleanup(applied) else Release(applied)))
    ensures var l' := Do(l, ByHandler(h, if inCatch then Cleanup(applied) else Release(applied)));
            && SameOutbox(l, l') && l'.broker == l.broker
            && l'.account.processed == l.account.processed && l'.account.notified == l.account.notified
            && l'.account.lock == (if applied then Nothing else l.account.lock)
            && At(l, l', h, Some(if inCatch then Cleaned else Released))
  {
  }

  predicate Acks(a: HandlerAction) {
    a.AckSkip? || a.AckDone? || a.AckHop?
  }

  /** An acknowledgement that reaches the broker removes exactly the handler's copy; one that throws leads to
      the Redis path, to the catch of the processing block, or to the put-back. */
  lemma AckStep(l: Lane, h: HandlerId, a: HandlerAction)
    requires Can(l, ByHandler(h, a)) && Acks(a)
    ensures var l' := Do(l, ByHandler(h, a));
            && SameOutbox(l, l') && SameKeys(l, l')
            && l'.broker == l.broker.(copies := if a.ack.Delivered? then l.broker.copies - {l.handlers[h].copy}
                                                else l.broker.copies)
            && At(l, l', h, if !a.ack.Threw? then None
                            else Some(if a.AckSkip? then RedisFailed else if a.AckDone? then Failed(true) else Nacking))
  {
  }

  /** The copy that a republish puts into a queue: where to, when it is ready, and its headers.  After a Redis
      failure it goes to the 5 s retry queue three times, while the lock is taken to the 35 s one three times, and
      after a processing failure straight back once; then to the DLQ. */
  predicate Republished(m: Message, pc: Pc, now: nat, c: Copy) {
    match pc
    case RedisFailed =>
      && c.message.processingRetryCount == m.processingRetryCount && SameMark(m, c.message)
      && if m.retryCount < 3 then
           && c.place == Queued(Retry) && Delayed(m, now, c.message, 5_000)
           && c.message.retryCount == m.retryCount + 1
         else
           c.place == Queued(Dlq) && SameTravel(m, c.message) && c.message.retryCount == m.retryCount
    case Blocked(blocker) =>
      && c.message.retryCount == m.retryCount && c.message.blockers == m.blockers + [blocker]
      && if m.processingRetryCount < 3 then
           && c.place == Queued(ProcessingRetry) && Delayed(m, now, c.message, 35_000)
           && c.message.processingRetryCount == m.processingRetryCount + 1 && c.message.exhausted == m.exhausted
         else
           && c.place == Queued(Dlq) && SameTravel(m, c.message)
           && c.message.processingRetryCount == m.processingRetryCount && c.message.exhausted
    case Cleaned =>
      && c.message.processingRetryCount == m.processingRetryCount && SameMark(m, c.message)
      && if m.retryCount < 1 then
           && c.place == Queued(Main) && c.message.hops == m.hops + 1 && c.message.delay == m.delay
           && c.message.retryCount == m.retryCount + 1 && c.message.readyAt == m.readyAt
         else
           c.place == Queued(Dlq) && SameTravel(m, c.message) && c.message.retryCount == m.retryCount
    case _ => false
  }

  predicate SameMark(m: Message, m': Message) {
    m'.exhausted == m.exhausted && m'.blockers == m.blockers
  }

  predicate SameTravel(m: Message, m': Message) {
    m'.hops == m.hops && m'.delay == m.delay && m'.readyAt == m.readyAt
  }

  /** One hop more, and ready only after the delay. */
  predicate Delayed(m: Message, now: nat, m': Message, delay: nat) {
    m'.hops == m.hops + 1 && m'.delay == m.delay + delay && m'.readyAt == now + delay
  }

  lemma RepublishStep(l: Lane, h: HandlerId, sent: bool)
    requires Can(l, ByHandler(h, Republish(sent)))
    ensures var l' := Do(l, ByHandler(h, Republish(sent)));
            var b := l.broker;
            && SameOutbox(l, l') && SameKeys(l, l')
            && At(l, l', h, Some(Confirming(if sent then Some(b.next) else None)))
            && if sent then
                 && b.next in l'.broker.copies && l'.broker.next == b.next + 1
                 && l'.broker.copies == b.copies[b.next := l'.broker.copies[b.next]]
                 && Republished(l.handlers[h].message, l.handlers[h].pc, l.now, l'.broker.copies[b.next])
               else
                 l'.broker == b
  {
  }

  /** Only a resolved confirm leads to the acknowledgement of the original. */
  lemma ConfirmStep(l: Lane, h: HandlerId, ok: bool)
    requires Can(l, ByHandler(h, ConfirmHop(ok)))
    ensures OnlyAt(l, Do(l, ByHandler(h, ConfirmHop(ok))), h,
                   Some(if ok then Settled(l.handlers[h].pc.child.value) else Nacking))
  {
  }

  /** A negative acknowledgement that reaches the broker puts the original back into the main queue, with the
      headers it had. */
  lemma NackStep(l: Lane, h: HandlerId, applied: bool)
    requires Can(l, ByHandler(h, Nack(applied)))
    ensures var l' := Do(l, ByHandler(h, Nack(applied)));
            var c := l.handlers[h].copy;
            && SameOutbox(l, l') && SameKeys(l, l') && At(l, l', h, None)
            && l'.broker == if applied then PutBackCopy(l.broker, c, l.broker.copies[c].message) else l.broker
  {
  }

  function PutBackCopy(b: Broker, c: CopyId, m: Message): Broker {
    b.(copies := b.copies[c := Copy(m, Queued(Main))])
  }

  /** A process that stops leaves the keys and the queues as they are. */
  lemma CrashStep(l: Lane, h: HandlerId)
    requires Can(l, ByHandler(h, Crash))
    ensures OnlyAt(l, Do(l, ByHandler(h, Crash)), h, None)
  {
  }

  // ----- the broker, the publisher and the clock -----

  /** A delivery starts a new handler with the message as it is; a returned copy is as it was. */
  lemma BrokerStep(l: Lane, c: CopyId, a: BrokerAction)
    requires Can(l, ByBroker(c, a))
    ensures var l' := Do(l, ByBroker(c, a));
            var m := l.broker.copies[c].message;
            && l'.outbox == l.outbox && l'.account == l.account && l'.now == l.now
            && if a.Deliver? then
                 && l'.broker == l.broker.(copies := l.broker.copies[c := Copy(m, Unacked(l.nextHandler))])
                 && l'.handlers == l.handlers[l.nextHandler := Handler(c, m, Received)]
                 && l'.nextHandler == l.nextHandler + 1
               else
                 && l'.broker == PutBackCopy(l.broker, c, m)
                 && l'.handlers == l.handlers && l'.nextHandler == l.nextHandler
  {
  }

  /** The row through its life: claimed with the caller's stamp, and SENT without a start time; only the publish
      touches the queues, with a message that has no headers. */
  lemma PublisherStep(l: Lane, p: PublisherId, a: PublisherAction)
    requires Can(l, ByPublisher(p, a))
    ensures var l' := Do(l, ByPublisher(p, a));
            var row := l.outbox.row;
            && l'.account == l.account && l'.handlers == l.handlers && l'.nextHandler == l.nextHandler
            && l'.now == l.now
            && l'.outbox.row == (match a
                                 case Claim(stamp) => Row(Processing, Some(stamp), row.sentAt)
                                 case MarkSent => Row(Sent, None, Some(l.now))
                                 case _ => row)
            && (a != Publish(true) ==> l'.broker == l.broker)
            && (a == Publish(true) ==>
                  var c := Copy(Message(0, 0, false, l.now, 0, 0, []), Queued(Main));
                  l'.broker == Broker(l.broker.copies[l.broker.next := c], l.broker.next + 1))
  {
  }

  /** Where the publisher itself gets to. */
  lemma PublisherGoesOn(l: Lane, p: PublisherId, a: PublisherAction)
    requires Can(l, ByPublisher(p, a))
    ensures var o, o' := l.outbox, Do(l, ByPublisher(p, a)).outbox;
            match a
            case Claim(stamp) => o'.working == o.working[p := Holding(stamp)] && o'.marking == o.marking
            case Publish(sent) =>
              o'.working == o.working[p := Sending(o.working[p].stamp, sent)] && o'.marking == o.marking
            case Confirm => o'.working == o.working - {p} && o'.marking == o.marking[p := o.working[p].stamp]
            case MarkSent => o'.working == o.working && o'.marking == o.marking - {p}
            case Stop => o'.working == o.working - {p} && o'.marking == o.marking - {p}
  {
  }

  /** The recovery job changes the row alone, and exactly when it is PROCESSING since more than 30 000 ms. */
  lemma RecoverStep(l: Lane, clock: nat)
    requires Can(l, Recover(clock))
    ensures var l' := Do(l, Recover(clock));
            var row := l.outbox.row;
            && l'.broker == l.broker && l'.handlers == l.handlers && l'.nextHandler == l.nextHandler
            && l'.account == l.account && l'.now == l.now
            && l'.outbox.working == l.outbox.working && l'.outbox.marking == l.outbox.marking
            && l'.outbox.row ==
               if row.status == Processing && row.startedAt.Some? && row.startedAt.value + 30_000 < clock
               then Row(Pending, None, row.sentAt) else row
  {
  }

  /** Time removes a key when it has expired, and changes nothing else. */
  lemma TickStep(l: Lane, d: nat)
    ensures var l' := Do(l, Tick(d));
            && l'.now == l.now + d && l'.outbox == l.outbox && l'.broker == l.broker
            && l'.handlers == l.handlers && l'.nextHandler == l.nextHandler
            && l'.account.notified == l.account.notified
            && l'.account.processed == After(l.account.processed, l.now + d)
            && l'.account.lock == After(l.account.lock, l.now + d)
  {
  }

  function After<V>(key: Entry<V>, now: nat): Entry<V> {
    if key.Entry? && key.expiresAt < now then Nothing else key
  }

  // ----- what excuses a repeated notification -----

  /** The excusing events, one by one: nothing else is ever an excuse. */
  lemma ExcuseStep(l: Lane, e: Event)
    requires Can(l, e)
    ensures var k := l.account;
            Do(l, e).account.excuses == k.excuses +
            match e
            case ByHandler(h, TryLock(reply)) =>
              if reply.Replied? && k.lock.Nothing? && k.processed.Entry? then [LockedAfterProcessed] else []
            case ByHandler(h, MarkProcessed(applied)) => if applied then [] else [MarkLost]
            case ByHandler(h, Notify(outcome)) => if outcome.FailedSent? then [FailedAfterSending] else []
            case ByHandler(h, Release(applied)) => if applied && OpenAtOther(k, h) then [ForeignDelete] else []
            case ByHandler(h, Cleanup(applied)) => if applied && OpenAtOther(k, h) then [ForeignDelete] else []
            case Tick(d) =>
              (if k.processed.Entry? && k.processed.expiresAt < l.now + d then [ProcessedExpired] else []) +
              (if k.lock.Entry? && k.lock.expiresAt < l.now + d && k.lock.value.open then [LockExpired] else [])
            case _ => []
  {
  }

  predicate OpenAtOther(k: Account, h: HandlerId) {
    k.lock.Entry? && k.lock.value.owner != h && k.lock.value.open
  }

  /** A lock is open from its acquisition until its owner has recorded the notification, has failed to, or
      cannot send it any more. */
  lemma OpenStep(l: Lane, h: HandlerId, a: HandlerAction)
    requires Can(l, ByHandler(h, a))
    ensures var k, k' := l.account, Do(l, ByHandler(h, a)).account;
            k'.lock.Entry? ==>
              k'.lock.value.open ==
              if k.lock.Nothing? then a == TryLock(Replied)
              else k.lock.value.open &&
                   !(k.lock.value.owner == h &&
                     (a == Notify(FailedUnsent) || a == Notify(FailedSent) || a.MarkProcessed?
                      || (a.Crash? && l.handlers[h].pc.Acquired?)))
  {
  }
}
