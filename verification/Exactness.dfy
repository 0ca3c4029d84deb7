/** When the bound of the notification account is attained: exactly for the excuses that come in order. */
module Exactness {
  import opened Options
  import opened RedisKeys
  import opened Delivery
  import opened Accounting

  /** After a lock was taken although the processed key was set, the only excuse that still costs a
      notification is another such lock, until the processed key expires. */
  predicate InOrder(xs: seq<Excuse>) {
    forall i, j :: 0 <= i < |xs| && 0 <= j < |xs| && j == i + 1 && xs[i].LockedAfterProcessed? ==>
      xs[j].LockedAfterProcessed? || xs[j].ProcessedExpired?
  }

  predicate EndsLocked(xs: seq<Excuse>) {
    xs != [] && xs[|xs| - 1].LockedAfterProcessed?
  }

  // ----- the bound is attained only by excuses in order -----

  /** By how much the account stays below its bound. */
  function Deficit(l: Lane): int {
    |l.account.excuses| + Slack(l.account) - l.account.notified - |Armed(l.handlers)|
  }

  predicate Ordered(k: Account) {
    InOrder(k.excuses) && (EndsLocked(k.excuses) ==> k.processed.Entry?)
  }

  /** A step of a handler that keeps up with the bound keeps the excuses in order. */
  lemma AccountOrder(l: Lane, h: HandlerId, a: HandlerAction)
    requires OpenLockOk(l) && CanHandler(l, h, a) && Ordered(l.account)
    ensures var k, k' := l.account, HandlerAccount(l.account, h, l.handlers[h].pc, a, l.now);
            var due := if Arms(k, a) then 1 else if Disarms(l.handlers[h].pc, a) then -1 else 0;
            k'.notified + due - |k'.excuses| - Slack(k') == k.notified - |k.excuses| - Slack(k) ==> Ordered(k')
  {
  }

  lemma ExpireOrder(k: Account, now: nat)
    ensures var k' := Expire(k, now);
            && k'.notified == k.notified
            && |k'.excuses| + Slack(k') >= |k.excuses| + Slack(k)
            && (|k'.excuses| + Slack(k') == |k.excuses| + Slack(k) && Ordered(k) ==> Ordered(k'))
  {
  }

  lemma StepOrder(l: Lane, e: Event)
    requires Inv(l) && Can(l, e)
    ensures Deficit(Do(l, e)) >= Deficit(l)
    ensures Deficit(Do(l, e)) == Deficit(l) && Ordered(l.account) ==> Ordered(Do(l, e).account)
  {
    match e {
      case ByHandler(h, a) =>
        ArmedStep(l, h, a);
        AccountStep(l, h, a);
        if Ordered(l.account) { AccountOrder(l, h, a); }
      case ByBroker(c, a) =>
        if a.Deliver? {
          ArmedUpdate(l.handlers, l.nextHandler, Handler(c, l.broker.copies[c].message, Received));
        }
      case Tick(d) => ExpireOrder(l.account, l.now + d);
      case _ =>
    }
  }

  lemma {:induction false} TightRunsAreOrdered(t: nat, es: seq<Event>)
    requires Run(Start(t), es).Some?
    ensures var l := Run(Start(t), es).value;
            Deficit(l) >= 0 && (Deficit(l) == 0 ==> Ordered(l.account))
  {
    if es == [] {
      assert Armed(map[]) == {};
    } else {
      TightRunsAreOrdered(t, es[..|es| - 1]);
      RunKeepsInv(t, es[..|es| - 1]);
      StepOrder(Run(Start(t), es[..|es| - 1]).value, es[|es| - 1]);
    }
  }

  // ----- every list of excuses in order attains it -----

  /** Copy 0 waits in the main queue, both keys are free, and every notification has its excuse. */
  predicate Free(l: Lane) {
    && 0 in l.broker.copies && l.broker.copies[0].place == Queued(Main)
    && l.account.processed.Nothing? && l.account.lock.Nothing?
    && (forall g :: g in l.handlers ==> g < l.nextHandler)
  }

  /** Handler h holds copy 0 and a lock it has just set. */
  predicate Holding(l: Lane, h: HandlerId) {
    && 0 in l.broker.copies && l.broker.copies[0].place == Unacked(h)
    && h in l.handlers && l.handlers[h].pc.Acquired? && l.handlers[h].copy == 0
    && l.account.processed.Nothing?
    && l.account.lock == Put(Lock(h, l.now, true), LOCK_TTL, l.now)
    && (forall g :: g in l.handlers ==> g < l.nextHandler)
  }

  /** Copy 0 waits, the last notification is recorded, and the lock is free. */
  predicate Recorded(l: Lane) {
    && 0 in l.broker.copies && l.broker.copies[0].place == Queued(Main)
    && l.account.processed.Entry? && l.account.lock.Nothing?
    && (forall g :: g in l.handlers ==> g < l.nextHandler)
  }

  /** Handlers that have read the processed key and sit waiting for the lock call stay there. */
  predicate Keeps(l: Lane, l': Lane) {
    forall g :: g in l.handlers && l.handlers[g].pc.Checked? ==>
      g in l'.handlers && l'.handlers[g] == l.handlers[g]
  }

  predicate Balanced(k: Account, xs: seq<Excuse>) {
    k.excuses == xs && k.notified == |xs|
  }

  /** Appends one event of a handler to a run. */
  lemma Act(l: Lane, es: seq<Event>, h: HandlerId, a: HandlerAction) returns (fs: seq<Event>, l': Lane)
    requires Run(l, es).Some? && CanHandler(Run(l, es).value, h, a)
    ensures l' == DoHandler(Run(l, es).value, h, a) && Run(l, fs) == Some(l')
  {
    fs := es + [ByHandler(h, a)];
    Extend(l, es, ByHandler(h, a));
    l' := DoHandler(Run(l, es).value, h, a);
  }

  predicate Fetched(m: Lane, l': Lane, h: HandlerId) {
    && h == m.nextHandler && l'.nextHandler == h + 1 && l'.now == m.now && l'.account == m.account
    && h in l'.handlers && l'.handlers[h].pc.Checked? && l'.handlers[h].copy == 0
    && 0 in l'.broker.copies && l'.broker.copies[0].place == Unacked(h)
    && (forall g :: g in m.handlers ==> g in l'.handlers && l'.handlers[g] == m.handlers[g])
    && (forall g :: g in l'.handlers ==> g < l'.nextHandler)
  }

  /** The copy is delivered to a new handler, which finds no processed key. */
  lemma Fetch(l: Lane, es: seq<Event>) returns (fs: seq<Event>, l': Lane, h: HandlerId)
    requires Run(l, es).Some? && Free(Run(l, es).value)
    ensures Run(l, fs) == Some(l') && Fetched(Run(l, es).value, l', h)
  {
    var m := Run(l, es).value;
    h := m.nextHandler;
    Extend(l, es, ByBroker(0, Deliver));
    fs, l' := Act(l, es + [ByBroker(0, Deliver)], h, CheckProcessed(false));
  }

  lemma Acquire(l: Lane, es: seq<Event>) returns (fs: seq<Event>, l': Lane, h: HandlerId)
    requires Run(l, es).Some? && Free(Run(l, es).value)
    ensures Run(l, fs) == Some(l') && Holding(l', h)
    ensures var m := Run(l, es).value;
            && h == m.nextHandler
            && l'.account.notified == m.account.notified && l'.account.excuses == m.account.excuses
            && (forall g :: g in m.handlers ==> g in l'.handlers && l'.handlers[g] == m.handlers[g])
  {
    fs, l', h := Fetch(l, es);
    fs, l' := Act(l, fs, h, TryLock(Replied));
  }

  /** The connection is lost and returns the copy. */
  lemma Return(l: Lane, es: seq<Event>) returns (fs: seq<Event>, l': Lane)
    requires Run(l, es).Some?
    requires var m := Run(l, es).value; 0 in m.broker.copies && m.broker.copies[0].place.Unacked?
    ensures var m := Run(l, es).value;
            Run(l, fs) == Some(l') && l' == m.(broker := Move(m.broker, 0, Queued(Main)))
  {
    Extend(l, es, ByBroker(0, ChannelLoss));
    fs := es + [ByBroker(0, ChannelLoss)];
    l' := Do(Run(l, es).value, ByBroker(0, ChannelLoss));
  }

  /** The handler dies and its connection returns the copy. */
  lemma Abandon(l: Lane, es: seq<Event>, h: HandlerId) returns (fs: seq<Event>, l': Lane)
    requires Run(l, es).Some?
    requires var m := Run(l, es).value;
             && h in m.handlers && !m.handlers[h].pc.Acquired?
             && 0 in m.broker.copies && m.broker.copies[0].place.Unacked?
    ensures Run(l, fs) == Some(l')
    ensures var m := Run(l, es).value;
            && l' == m.(handlers := m.handlers - {h}, broker := Move(m.broker, 0, Queued(Main)))
  {
    fs, l' := Act(l, es, h, Crash);
    fs, l' := Return(l, fs);
  }

  lemma Wait(l: Lane, es: seq<Event>, d: nat) returns (fs: seq<Event>, l': Lane)
    requires Run(l, es).Some?
    ensures var m := Run(l, es).value;
            Run(l, fs) == Some(l') && l' == m.(now := m.now + d, account := Expire(m.account, m.now + d))
  {
    Extend(l, es, Tick(d));
    fs := es + [Tick(d)];
    l' := Do(Run(l, es).value, Tick(d));
  }

  /** One more notification and one more excuse of the given kind. */
  lemma Round(l: Lane, es: seq<Event>, xs: seq<Excuse>, x: Excuse) returns (fs: seq<Event>, l': Lane)
    requires Run(l, es).Some? && Free(Run(l, es).value) && Balanced(Run(l, es).value.account, xs)
    requires x != LockedAfterProcessed && x != ProcessedExpired
    ensures Run(l, fs) == Some(l') && Free(l') && Balanced(l'.account, xs + [x])
    ensures Keeps(Run(l, es).value, l')
  {
    var h;
    fs, l', h := Acquire(l, es);
    match x {
      case MarkLost => fs, l' := LoseMark(l, fs, xs, h);
      case LockExpired => fs, l' := LoseLock(l, fs, xs, h);
      case FailedAfterSending => fs, l' := FailLate(l, fs, xs, h);
      case ForeignDelete => fs, l' := SlowCleanup(l, fs, xs, h);
    }
  }

  lemma LoseLock(l: Lane, es: seq<Event>, xs: seq<Excuse>, h: HandlerId) returns (fs: seq<Event>, l': Lane)
    requires Run(l, es).Some? && Holding(Run(l, es).value, h) && Balanced(Run(l, es).value.account, xs)
    ensures Run(l, fs) == Some(l') && Free(l') && Balanced(l'.account, xs + [LockExpired])
    ensures Keeps(Run(l, es).value, l')
  {
    fs, l' := Act(l, es, h, Notify(Done));
    fs, l' := Abandon(l, fs, h);
    fs, l' := Wait(l, fs, LOCK_MILLIS + 1);
  }

  lemma FailLate(l: Lane, es: seq<Event>, xs: seq<Excuse>, h: HandlerId) returns (fs: seq<Event>, l': Lane)
    requires Run(l, es).Some? && Holding(Run(l, es).value, h) && Balanced(Run(l, es).value.account, xs)
    ensures Run(l, fs) == Some(l') && Free(l') && Balanced(l'.account, xs + [FailedAfterSending])
    ensures Keeps(Run(l, es).value, l')
  {
    fs, l' := Act(l, es, h, Notify(FailedSent));
    fs, l' := Act(l, fs, h, Cleanup(true));
    fs, l' := Abandon(l, fs, h);
  }

  lemma LoseMark(l: Lane, es: seq<Event>, xs: seq<Excuse>, h: HandlerId) returns (fs: seq<Event>, l': Lane)
    requires Run(l, es).Some? && Holding(Run(l, es).value, h) && Balanced(Run(l, es).value.account, xs)
    ensures Run(l, fs) == Some(l') && Free(l') && Balanced(l'.account, xs + [MarkLost])
    ensures Keeps(Run(l, es).value, l')
  {
    fs, l' := Act(l, es, h, Notify(Done));
    fs, l' := Act(l, fs, h, MarkProcessed(false));
    fs, l' := Act(l, fs, h, Release(true));
    fs, l' := Abandon(l, fs, h);
  }

  /** A failed handler cleans up only after its lock has expired, and deletes the next handler's lock. */
  lemma SlowCleanup(l: Lane, es: seq<Event>, xs: seq<Excuse>, h: HandlerId) returns (fs: seq<Event>, l': Lane)
    requires Run(l, es).Some? && Holding(Run(l, es).value, h) && Balanced(Run(l, es).value.account, xs)
    ensures Run(l, fs) == Some(l') && Free(l') && Balanced(l'.account, xs + [ForeignDelete])
    ensures Keeps(Run(l, es).value, l')
  {
    fs, l' := Act(l, es, h, Notify(FailedUnsent));
    fs, l' := Wait(l, fs, LOCK_MILLIS + 1);
    fs, l' := Return(l, fs);
    var g;
    fs, l', g := Acquire(l, fs);
    fs, l' := Act(l, fs, g, Notify(Done));
    fs, l' := Act(l, fs, h, Cleanup(true));
    fs, l' := Act(l, fs, h, Crash);
    fs, l' := Abandon(l, fs, g);
  }

  /** The notification is made and recorded without an excuse. */
  lemma Record(l: Lane, es: seq<Event>, xs: seq<Excuse>) returns (fs: seq<Event>, l': Lane)
    requires Run(l, es).Some? && Free(Run(l, es).value) && Balanced(Run(l, es).value.account, xs)
    ensures Run(l, fs) == Some(l') && Recorded(l') && Keeps(Run(l, es).value, l')
    ensures l'.account.excuses == xs && l'.account.notified == 1 + |xs|
  {
    var h;
    fs, l', h := Acquire(l, es);
    fs, l' := Act(l, fs, h, Notify(Done));
    fs, l' := Act(l, fs, h, MarkProcessed(true));
    fs, l' := Act(l, fs, h, Release(true));
    fs, l' := Abandon(l, fs, h);
  }

  /** A handler that had checked in time takes the lock after the notification was recorded. */
  lemma LockLate(l: Lane, es: seq<Event>, g: HandlerId) returns (fs: seq<Event>, l': Lane)
    requires Run(l, es).Some? && Recorded(Run(l, es).value)
    requires var m := Run(l, es).value; g in m.handlers && m.handlers[g].pc.Checked?
    ensures Run(l, fs) == Some(l') && Recorded(l')
    ensures var m := Run(l, es).value;
            && l'.account.excuses == m.account.excuses + [LockedAfterProcessed]
            && l'.account.notified == m.account.notified + 1
            && (forall h :: h in m.handlers && h != g ==> h in l'.handlers && l'.handlers[h] == m.handlers[h])
  {
    fs, l' := Act(l, es, g, TryLock(Replied));
    fs, l' := Act(l, fs, g, Notify(Done));
    fs, l' := Act(l, fs, g, MarkProcessed(true));
    fs, l' := Act(l, fs, g, Release(true));
  }

  /** Handlers lo to n - 1 have checked the processed key. */
  predicate Stash(l: Lane, lo: nat, n: nat) {
    forall g :: lo <= g < n ==> g in l.handlers && l.handlers[g].pc.Checked?
  }

  lemma FirstCopy(t: nat) returns (es: seq<Event>, l: Lane)
    ensures Run(Start(t), es) == Some(l) && Free(l) && Balanced(l.account, []) && l.nextHandler == 0
  {
    Extend(Start(t), [], ByPublisher(0, Claim(t)));
    Extend(Start(t), [ByPublisher(0, Claim(t))], ByPublisher(0, Publish(true)));
    es := [ByPublisher(0, Claim(t))] + [ByPublisher(0, Publish(true))];
    l := Run(Start(t), es).value;
  }

  /** A handler checks and stays, while the connection returns its copy. */
  lemma OneMoreWaits(l: Lane, es: seq<Event>) returns (fs: seq<Event>, l': Lane)
    requires Run(l, es).Some? && Free(Run(l, es).value) && Balanced(Run(l, es).value.account, [])
    requires Stash(Run(l, es).value, 0, Run(l, es).value.nextHandler)
    ensures Run(l, fs) == Some(l') && Free(l') && Balanced(l'.account, [])
    ensures l'.nextHandler == Run(l, es).value.nextHandler + 1 && Stash(l', 0, l'.nextHandler)
  {
    var h, l1;
    fs, l1, h := Fetch(l, es);
    StillFree(Run(l, es).value, l1, h);
    fs, l' := Return(l, fs);
  }

  lemma StillFree(m: Lane, l1: Lane, h: HandlerId)
    requires Free(m) && Stash(m, 0, m.nextHandler) && Fetched(m, l1, h)
    ensures var l' := l1.(broker := Move(l1.broker, 0, Queued(Main)));
            Free(l') && Stash(l', 0, l'.nextHandler)
  {
  }

  lemma {:induction false} Prepare(t: nat, n: nat) returns (es: seq<Event>, l: Lane)
    ensures Run(Start(t), es) == Some(l) && Free(l) && Balanced(l.account, [])
    ensures Stash(l, 0, n) && l.nextHandler == n
  {
    if n == 0 {
      es, l := FirstCopy(t);
    } else {
      es, l := Prepare(t, n - 1);
      es, l := OneMoreWaits(Start(t), es);
    }
  }

  /** One more excuse, from either kind of state. */
  lemma Excuse(l: Lane, es: seq<Event>, xs: seq<Excuse>, x: Excuse, g: HandlerId)
    returns (fs: seq<Event>, l': Lane)
    requires Run(l, es).Some? && InOrder(xs + [x])
    requires var m := Run(l, es).value;
             && g in m.handlers && m.handlers[g].pc.Checked? && Reached(m, xs)
    ensures Run(l, fs) == Some(l') && Reached(l', xs + [x])
    ensures forall h :: h != g && h in Run(l, es).value.handlers && Run(l, es).value.handlers[h].pc.Checked? ==>
              h in l'.handlers && l'.handlers[h] == Run(l, es).value.handlers[h]
  {
    fs, l' := es, Run(l, es).value;
    if EndsLocked(xs) {
      assert (xs + [x])[|xs| - 1] == xs[|xs| - 1] && (xs + [x])[|xs|] == x;
    }
    if !x.LockedAfterProcessed? && !x.ProcessedExpired? {
      fs, l' := Round(l, fs, xs, x);
    } else {
      if !EndsLocked(xs) {
        fs, l' := Record(l, fs, xs);
      }
      if x.LockedAfterProcessed? {
        fs, l' := LockLate(l, fs, g);
      } else {
        fs, l' := Wait(l, fs, l'.account.processed.expiresAt + 1);
      }
    }
  }

  /** The excuses so far are xs; the last notification is recorded and its bound attained when they end
      with a late lock, and otherwise the next notification is still to come. */
  predicate Reached(l: Lane, xs: seq<Excuse>) {
    && l.account.excuses == xs
    && if EndsLocked(xs) then Recorded(l) && l.account.notified == 1 + |xs|
       else Free(l) && l.account.notified == |xs|
  }

  lemma {:induction false} Excuses(t: nat, xs: seq<Excuse>, n: nat) returns (es: seq<Event>, l: Lane)
    requires InOrder(xs) && |xs| <= n
    ensures Run(Start(t), es) == Some(l) && Reached(l, xs) && Stash(l, |xs|, n)
  {
    if xs == [] {
      es, l := Prepare(t, n);
    } else {
      var i := |xs| - 1;
      assert xs == xs[..i] + [xs[i]];
      es, l := Excuses(t, xs[..i], n);
      es, l := Excuse(Start(t), es, xs[..i], xs[i], i);
    }
  }

  predicate Attains(t: nat, es: seq<Event>, xs: seq<Excuse>) {
    && Run(Start(t), es).Some?
    && var k := Run(Start(t), es).value.account;
       k.excuses == xs && k.notified == 1 + |xs|
  }

  lemma Attain(t: nat, xs: seq<Excuse>) returns (es: seq<Event>)
    requires InOrder(xs)
    ensures Attains(t, es, xs)
  {
    var l;
    es, l := Excuses(t, xs, |xs|);
    if !EndsLocked(xs) {
      es, l := Record(Start(t), es, xs);
    }
  }

  /** Some run has the excuses xs and one notification more than that if and only if they are in order.  So
      at-most-once fails with any single excuse, of whatever kind. */
  lemma BoundIsAttainedExactly(t: nat, xs: seq<Excuse>)
    ensures (exists es :: Attains(t, es, xs)) <==> InOrder(xs)
  {
    if InOrder(xs) {
      var es := Attain(t, xs);
    }
    forall es | Attains(t, es, xs) ensures InOrder(xs) {
      TightRunsAreOrdered(t, es);
    }
  }
}
