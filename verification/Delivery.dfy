/**
 The delivery of one committed order, from its outbox row to its notification, as a step machine.

 A lane holds everything that concerns one order: the outbox row, the publishers working on it,
 the message copies in the four queues or unacknowledged, the running handlers, and the order's two
 Redis keys.  One event is one step between two awaits of the source, one broker action, or the
 passing of time.  Any number of publishers and handlers may be active, a process may stop between
 any two steps, a connection may be lost at any time, and every remote call may fail with or without
 having taken effect.

 Fields called history below are read by no step; the theorems speak about them.
 */
module Delivery {
  import opened Options
  import opened RedisKeys
  import opened OutboxRow

  const LOCK_TTL := 30                      // seconds
  const PROCESSED_TTL := 86_400             // seconds
  const LOCK_MILLIS := 1000 * LOCK_TTL
  const PROCESSED_MILLIS := 1000 * PROCESSED_TTL
  const RETRY_DELAY := 5_000                // milliseconds
  const PROCESSING_RETRY_DELAY := 35_000    // milliseconds
  const MAX_RETRIES := 3
  const MAX_REPROCESSES := 1
  const MAX_PROCESSING_RETRIES := 3

  type CopyId = nat
  type HandlerId = nat
  type PublisherId = nat

  datatype Queue = Main | Retry | ProcessingRetry | Dlq

  datatype Place = Queued(queue: Queue) | Unacked(handler: HandlerId)

  /** A lock instance that turned a handler away at time `at`; a handler sets the lock at most once,
      so the instance is named by the handler that set it. */
  datatype Blocker = Blocker(owner: HandlerId, acquiredAt: nat, at: nat)

  /** What a message carries: its two retry headers and the exhausted-lock mark, the earliest time it
      can be handled, and the history of its lineage (hops to a queue other than the DLQ, the queue
      delays of these hops, and the locks that turned it away). */
  datatype Message = Message(
    retryCount: nat, processingRetryCount: nat, exhausted: bool, readyAt: nat,
    hops: nat, delay: nat, blockers: seq<Blocker>)

  datatype Copy = Copy(message: Message, place: Place)

  datatype Pc =
    | Received                            // awaiting the processed check
    | SkipAck                             // processed key seen, about to acknowledge
    | Checked                             // awaiting the lock
    | RedisFailed                         // in the catch of the idempotency check
    | Blocked(blocker: Blocker)          // the lock was taken
    | Acquired                            // awaiting the notification
    | Notified                            // awaiting the write of the processed key
    | Marked                              // awaiting the release of the lock
    | Released                            // about to acknowledge
    | Failed(released: bool)              // in the catch of the processing block, awaiting its DEL
    | Cleaned                             // that DEL is done, about to republish
    | Confirming(child: Option<CopyId>)   // republished (or not), awaiting the confirm
    | Settled(heir: CopyId)               // confirmed, about to acknowledge
    | Nacking                             // about to negatively acknowledge

  datatype Handler = Handler(copy: CopyId, message: Message, pc: Pc)

  /** A publisher between its claim and the resolved confirm. */
  datatype Attempt = Holding(stamp: nat) | Sending(stamp: nat, sent: bool)

  /** `open` is history: the owner may still notify, or has notified without recording it. */
  datatype Lock = Lock(owner: HandlerId, acquiredAt: nat, open: bool)

  datatype ClaimRecord = ClaimRecord(stamp: nat, at: nat)

  /** The events that can excuse a repeated notification. */
  datatype Excuse =
    | LockedAfterProcessed     // the lock was taken although the processed key was set
    | MarkLost                 // the write of the processed key failed and was swallowed
    | ProcessedExpired         // the processed key expired
    | LockExpired              // an open lock expired
    | ForeignDelete            // a handler deleted an open lock it does not own
    | FailedAfterSending       // the notification call failed although it had gone out

  /** The outbox row and the publishers working on it; `claims` and the counters are history. */
  datatype Outbox = Outbox(
    row: Row,
    working: map<PublisherId, Attempt>,
    marking: map<PublisherId, nat>,
    claims: seq<ClaimRecord>, recoveries: nat, confirmed: nat, enqueued: nat)

  datatype Broker = Broker(copies: map<CopyId, Copy>, next: CopyId)

  /** The two Redis keys of the order, and the account of its notifications, which is history. */
  datatype Account = Account(
    processed: Entry<bool>, lock: Entry<Lock>,
    notified: nat, excuses: seq<Excuse>, acquired: map<HandlerId, nat>, foreignDeletes: nat)

  datatype Lane = Lane(
    now: nat,
    outbox: Outbox,
    broker: Broker,
    handlers: map<HandlerId, Handler>, nextHandler: HandlerId,
    account: Account)

  /** The lane of an order that commits at time t. */
  function Start(t: nat): Lane {
    Lane(t, Outbox(FRESH, map[], map[], [], 0, 0, 0), Broker(map[], 0), map[], 0,
         Account(Nothing, Nothing, 0, [], map[], 0))
  }

  datatype NotifyOutcome = Done | FailedUnsent | FailedSent

  /** An acknowledgement reaches the broker, is dropped with the connection, or throws. */
  datatype AckOutcome = Delivered | Dropped | Threw

  datatype PublisherAction =
    | Claim(stamp: nat)
    | Publish(sent: bool)
    | Confirm
    | MarkSent
    | Stop

  datatype BrokerAction = Deliver | DeadLetter | ChannelLoss

  datatype HandlerAction =
    | CheckProcessed(throws: bool)
    | AckSkip(ack: AckOutcome)
    | TryLock(reply: Reply)
    | Notify(outcome: NotifyOutcome)
    | MarkProcessed(applied: bool)
    | Release(applied: bool)
    | AckDone(ack: AckOutcome)
    | Cleanup(applied: bool)
    | Republish(sent: bool)
    | ConfirmHop(ok: bool)
    | AckHop(ack: AckOutcome)
    | Nack(applied: bool)
    | Crash

  datatype Event =
    | ByPublisher(p: PublisherId, publish: PublisherAction)
    | Recover(clock: nat)
    | ByBroker(c: CopyId, broker: BrokerAction)
    | ByHandler(h: HandlerId, act: HandlerAction)
    | Tick(d: nat)

  // ----- when an event can happen -----

  predicate HoldsCopy(b: Broker, h: HandlerId, c: CopyId) {
    c in b.copies && b.copies[c].place == Unacked(h)
  }

  predicate CanPublisher(o: Outbox, now: nat, p: PublisherId, a: PublisherAction) {
    match a
    case Claim(stamp) => p !in o.working && p !in o.marking && o.row.status.Pending? && stamp <= now
    case Publish(_) => p in o.working && o.working[p].Holding?
    case Confirm => p in o.working && o.working[p].Sending? && o.working[p].sent
    case MarkSent => p in o.marking
    case Stop => p in o.working || p in o.marking
  }

  predicate CanBroker(b: Broker, now: nat, c: CopyId, a: BrokerAction) {
    && c in b.copies
    && var place := b.copies[c].place;
       match a
       case Deliver => place == Queued(Main)
       case DeadLetter =>
         (place == Queued(Retry) || place == Queued(ProcessingRetry)) && b.copies[c].message.readyAt <= now
       case ChannelLoss => place.Unacked?
  }

  predicate Republishes(pc: Pc) {
    pc.RedisFailed? || pc.Blocked? || pc.Cleaned?
  }

  /** Whether the handler has come to this action. */
  predicate Fits(pc: Pc, a: HandlerAction) {
    match a
    case CheckProcessed(_) => pc.Received?
    case AckSkip(_) => pc.SkipAck?
    case TryLock(_) => pc.Checked?
    case Notify(_) => pc.Acquired?
    case MarkProcessed(_) => pc.Notified?
    case Release(_) => pc.Marked?
    case AckDone(_) => pc.Released?
    case Cleanup(_) => pc.Failed?
    case Republish(_) => Republishes(pc)
    case ConfirmHop(ok) => pc.Confirming? && (ok ==> pc.child.Some?)
    case AckHop(_) => pc.Settled?
    case Nack(_) => pc.Nacking?
    case Crash => true
  }

  /** Whether the action takes effect on the broker only while the handler's channel holds the copy. */
  predicate NeedsCopy(a: HandlerAction) {
    match a
    case AckSkip(ack) => ack.Delivered?
    case AckDone(ack) => ack.Delivered?
    case AckHop(ack) => ack.Delivered?
    case Nack(applied) => applied
    case _ => false
  }

  predicate CanHandler(l: Lane, h: HandlerId, a: HandlerAction) {
    && h in l.handlers
    && Fits(l.handlers[h].pc, a)
    && (NeedsCopy(a) ==> HoldsCopy(l.broker, h, l.handlers[h].copy))
  }

  predicate Can(l: Lane, e: Event) {
    match e
    case ByPublisher(p, a) => CanPublisher(l.outbox, l.now, p, a)
    case Recover(clock) => clock <= l.now
    case ByBroker(c, a) => CanBroker(l.broker, l.now, c, a)
    case ByHandler(h, a) => CanHandler(l, h, a)
    case Tick(_) => true
  }

  // ----- what a publisher, the recovery job and the broker do -----

  function Enqueue(b: Broker, m: Message, q: Queue): Broker {
    Broker(b.copies[b.next := Copy(m, Queued(q))], b.next + 1)
  }

  function Move(b: Broker, c: CopyId, place: Place): Broker
    requires c in b.copies
  {
    b.(copies := b.copies[c := b.copies[c].(place := place)])
  }

  function PublisherStep(o: Outbox, now: nat, p: PublisherId, a: PublisherAction): Outbox
    requires CanPublisher(o, now, p, a)
  {
    match a
    case Claim(stamp) =>
      o.(row := Claimed(o.row, stamp), working := o.working[p := Holding(stamp)],
         claims := o.claims + [ClaimRecord(stamp, now)])
    case Publish(sent) =>
      o.(working := o.working[p := Sending(o.working[p].stamp, sent)],
         enqueued := o.enqueued + if sent then 1 else 0)
    case Confirm =>
      o.(working := o.working - {p}, marking := o.marking[p := o.working[p].stamp], confirmed := o.confirmed + 1)
    case MarkSent => o.(row := MarkedSent(o.row, now), marking := o.marking - {p})
    case Stop => o.(working := o.working - {p}, marking := o.marking - {p})
  }

  function RecoverStep(o: Outbox, clock: nat): Outbox {
    if Stuck(o.row, clock) then o.(row := Recovered(o.row, clock), recoveries := o.recoveries + 1) else o
  }

  function BrokerStep(b: Broker, c: CopyId, a: BrokerAction, h: HandlerId): Broker
    requires c in b.copies
  {
    Move(b, c, if a.Deliver? then Unacked(h) else Queued(Main))
  }

  // ----- what a handler does -----

  /** The message a handler republishes and the queue it goes to. */
  function Hop(m: Message, pc: Pc, now: nat): (Message, Queue)
    requires Republishes(pc)
  {
    match pc
    case RedisFailed =>
      if m.retryCount >= MAX_RETRIES then (m, Dlq)
      else
        (m.(retryCount := m.retryCount + 1, readyAt := now + RETRY_DELAY,
            hops := m.hops + 1, delay := m.delay + RETRY_DELAY), Retry)
    case Blocked(blocker) =>
      var m := m.(blockers := m.blockers + [blocker]);
      if m.processingRetryCount >= MAX_PROCESSING_RETRIES then (m.(exhausted := true), Dlq)
      else
        (m.(processingRetryCount := m.processingRetryCount + 1, readyAt := now + PROCESSING_RETRY_DELAY,
            hops := m.hops + 1, delay := m.delay + PROCESSING_RETRY_DELAY), ProcessingRetry)
    case Cleaned =>
      if m.retryCount >= MAX_REPROCESSES then (m, Dlq)
      else (m.(retryCount := m.retryCount + 1, hops := m.hops + 1), Main)
  }

  /** The effect of a handler's step on the queues. */
  function HandlerBroker(b: Broker, h: HandlerId, x: Handler, a: HandlerAction, now: nat): Broker
    requires a.Republish? ==> Republishes(x.pc)
    requires a.Nack? && a.applied ==> x.copy in b.copies
  {
    match a
    case AckSkip(ack) => if ack.Delivered? then b.(copies := b.copies - {x.copy}) else b
    case AckDone(ack) => if ack.Delivered? then b.(copies := b.copies - {x.copy}) else b
    case AckHop(ack) => if ack.Delivered? then b.(copies := b.copies - {x.copy}) else b
    case Republish(sent) => if sent then var (m, q) := Hop(x.message, x.pc, now); Enqueue(b, m, q) else b
    case Nack(applied) => if applied then Move(b, x.copy, Queued(Main)) else b
    case _ => b
  }

  /** Where the handler goes; None ends it. */
  function NextPc(k: Account, b: Broker, pc: Pc, a: HandlerAction, now: nat): Option<Pc>
    requires a.ConfirmHop? && a.ok ==> pc.Confirming? && pc.child.Some?
  {
    match a
    case CheckProcessed(throws) =>
      Some(if throws then RedisFailed else if k.processed.Entry? then SkipAck else Checked)
    case AckSkip(ack) => if ack.Threw? then Some(RedisFailed) else None
    case TryLock(reply) =>
      if reply.LostReply? then Some(RedisFailed)
      else if k.lock.Nothing? then Some(Acquired)
      else Some(Blocked(Blocker(k.lock.value.owner, k.lock.value.acquiredAt, now)))
    case Notify(outcome) => Some(if outcome.Done? then Notified else Failed(false))
    case MarkProcessed(_) => Some(Marked)
    case Release(_) => Some(Released)
    case AckDone(ack) => if ack.Threw? then Some(Failed(true)) else None
    case Cleanup(_) => Some(Cleaned)
    case Republish(sent) => Some(Confirming(if sent then Some(b.next) else None))
    case ConfirmHop(ok) => Some(if ok then Settled(pc.child.value) else Nacking)
    case AckHop(ack) => if ack.Threw? then Some(Nacking) else None
    case Nack(_) => None
    case Crash => None
  }

  function SetPc(hs: map<HandlerId, Handler>, h: HandlerId, pc: Option<Pc>): map<HandlerId, Handler>
    requires h in hs
  {
    if pc.Some? then hs[h := hs[h].(pc := pc.value)] else hs - {h}
  }

  /** History only: h will not notify any more without recording it, so its lock is no longer open. */
  function Close(k: Account, h: HandlerId): Account {
    if k.lock.Entry? && k.lock.value.owner == h
    then k.(lock := k.lock.(value := k.lock.value.(open := false)))
    else k
  }

  function Excused(k: Account, x: Excuse): Account {
    k.(excuses := k.excuses + [x])
  }

  /** SET NX of the lock key by h. */
  function LockStep(k: Account, h: HandlerId, reply: Reply, now: nat): Account {
    if k.lock.Entry? || !Applied(reply) then k
    else
      var k' := k.(lock := Put(Lock(h, now, reply.Replied?), LOCK_TTL, now), acquired := k.acquired[h := now]);
      if reply.Replied? && k.processed.Entry? then Excused(k', LockedAfterProcessed) else k'
  }

  function NotifyStep(k: Account, h: HandlerId, outcome: NotifyOutcome): Account {
    match outcome
    case Done => k.(notified := k.notified + 1)
    case FailedUnsent => Close(k, h)
    case FailedSent => Excused(Close(k, h).(notified := k.notified + 1), FailedAfterSending)
  }

  function MarkStep(k: Account, h: HandlerId, applied: bool, now: nat): Account {
    if applied then Close(k, h).(processed := Put(true, PROCESSED_TTL, now))
    else Excused(Close(k, h), MarkLost)
  }

  /** DEL of the lock key by h: there is no ownership check. */
  function DeleteLock(k: Account, h: HandlerId, applied: bool): Account {
    if !applied || k.lock.Nothing? then k
    else if k.lock.value.owner == h then k.(lock := Nothing)
    else
      var k' := k.(lock := Nothing, foreignDeletes := k.foreignDeletes + 1);
      if k.lock.value.open then Excused(k', ForeignDelete) else k'
  }

  /** The effect of a handler's step on the Redis keys and the account. */
  function HandlerAccount(k: Account, h: HandlerId, pc: Pc, a: HandlerAction, now: nat): Account {
    match a
    case TryLock(reply) => LockStep(k, h, reply, now)
    case Notify(outcome) => NotifyStep(k, h, outcome)
    case MarkProcessed(applied) => MarkStep(k, h, applied, now)
    case Release(applied) => DeleteLock(k, h, applied)
    case Cleanup(applied) => DeleteLock(k, h, applied)
    case Crash => if pc.Acquired? then Close(k, h) else k
    case _ => k
  }

  /** The keys after the clock has moved to now. */
  function Expire(k: Account, now: nat): Account {
    var processed := Visible(k.processed, now);
    var lock := Visible(k.lock, now);
    var xs := if k.processed.Entry? && processed.Nothing? then [ProcessedExpired] else [];
    var ys := if k.lock.Entry? && lock.Nothing? && k.lock.value.open then [LockExpired] else [];
    k.(processed := processed, lock := lock, excuses := k.excuses + xs + ys)
  }

  // ----- one event -----

  function DoHandler(l: Lane, h: HandlerId, a: HandlerAction): Lane
    requires CanHandler(l, h, a)
  {
    var x := l.handlers[h];
    l.(handlers := SetPc(l.handlers, h, NextPc(l.account, l.broker, x.pc, a, l.now)),
       broker := HandlerBroker(l.broker, h, x, a, l.now),
       account := HandlerAccount(l.account, h, x.pc, a, l.now))
  }

  function DoBroker(l: Lane, c: CopyId, a: BrokerAction): Lane
    requires CanBroker(l.broker, l.now, c, a)
  {
    var l' := l.(broker := BrokerStep(l.broker, c, a, l.nextHandler));
    if a.Deliver? then
      l'.(handlers := l.handlers[l.nextHandler := Handler(c, l.broker.copies[c].message, Received)],
          nextHandler := l.nextHandler + 1)
    else l'
  }

  /** The message a publisher sends: no headers. */
  function FirstMessage(now: nat): Message {
    Message(0, 0, false, now, 0, 0, [])
  }

  function DoPublisher(l: Lane, p: PublisherId, a: PublisherAction): Lane
    requires CanPublisher(l.outbox, l.now, p, a)
  {
    l.(outbox := PublisherStep(l.outbox, l.now, p, a),
       broker := if a.Publish? && a.sent then Enqueue(l.broker, FirstMessage(l.now), Main) else l.broker)
  }

  function Do(l: Lane, e: Event): Lane
    requires Can(l, e)
  {
    match e
    case ByPublisher(p, a) => DoPublisher(l, p, a)
    case Recover(clock) => l.(outbox := RecoverStep(l.outbox, clock))
    case ByBroker(c, a) => DoBroker(l, c, a)
    case ByHandler(h, a) => DoHandler(l, h, a)
    case Tick(d) => l.(now := l.now + d, account := Expire(l.account, l.now + d))
  }

  // ----- runs -----

  /** The lane after a sequence of events, None when one of them cannot happen. */
  function Run(l: Lane, es: seq<Event>): Option<Lane> {
    if es == [] then Some(l)
    else
      var r := Run(l, es[..|es| - 1]);
      if r.Some? && Can(r.value, es[|es| - 1]) then Some(Do(r.value, es[|es| - 1])) else None
  }

  /** One more event. */
  lemma Extend(l: Lane, es: seq<Event>, e: Event)
    requires Run(l, es).Some? && Can(Run(l, es).value, e)
    ensures Run(l, es + [e]) == Some(Do(Run(l, es).value, e))
  {
    assert (es + [e])[..|es + [e]| - 1] == es;
  }
}
