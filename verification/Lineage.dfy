/** What a message can tell about its past: bounded retries, and as many distinct locks as it was turned away by. */
module Lineage {
  import opened Delivery

  predicate KnownLock(k: Account, owner: HandlerId, acquiredAt: nat) {
    owner in k.acquired && k.acquired[owner] == acquiredAt
  }

  predicate BlockerOk(k: Account, b: Blocker) {
    KnownLock(k, b.owner, b.acquiredAt) && b.acquiredAt <= b.at <= b.acquiredAt + LOCK_MILLIS
  }

  predicate CountersOk(m: Message) {
    && m.retryCount <= MAX_RETRIES
    && m.processingRetryCount <= MAX_PROCESSING_RETRIES
    && m.hops == m.retryCount + m.processingRetryCount
    && m.delay <= RETRY_DELAY * m.retryCount + PROCESSING_RETRY_DELAY * m.processingRetryCount
  }

  /** One blocker a hop, acquired one after another, and the last long enough ago to have expired. */
  predicate BlockersOk(k: Account, m: Message) {
    && (forall i :: 0 <= i < |m.blockers| ==> BlockerOk(k, m.blockers[i]))
    && (forall i, j :: 0 <= i < j < |m.blockers| ==> m.blockers[i].acquiredAt < m.blockers[j].acquiredAt)
    && |m.blockers| == m.processingRetryCount + (if m.exhausted then 1 else 0)
    && (m.exhausted ==> m.processingRetryCount == MAX_PROCESSING_RETRIES)
    && (!m.exhausted && m.blockers != [] ==>
          m.blockers[|m.blockers| - 1].at + PROCESSING_RETRY_DELAY <= m.readyAt)
  }

  predicate MessageOk(k: Account, m: Message) {
    CountersOk(m) && BlockersOk(k, m)
  }

  predicate CopyOk(l: Lane, c: Copy) {
    && MessageOk(l.account, c.message)
    && (c.message.exhausted ==> c.place == Queued(Dlq))
    && (c.place == Queued(Main) || c.place.Unacked? ==> c.message.readyAt <= l.now)
  }

  predicate HandlerOk(l: Lane, h: HandlerId, x: Handler) {
    && h < l.nextHandler
    && MessageOk(l.account, x.message) && !x.message.exhausted && x.message.readyAt <= l.now
    && (x.pc.Blocked? ==>
          BlockerOk(l.account, x.pc.blocker) && x.message.readyAt <= x.pc.blocker.at <= l.now)
    && (x.pc.Received? || x.pc.Checked? ==> h !in l.account.acquired)
  }

  predicate LockOk(l: Lane) {
    && (forall h :: h in l.account.acquired ==> h < l.nextHandler)
    && (l.account.lock.Entry? ==>
          && KnownLock(l.account, l.account.lock.value.owner, l.account.lock.value.acquiredAt)
          && l.account.lock.value.acquiredAt <= l.now <= l.account.lock.expiresAt
          && l.account.lock.expiresAt == l.account.lock.value.acquiredAt + LOCK_MILLIS)
  }

  predicate Inv(l: Lane) {
    && LockOk(l)
    && (forall c :: c in l.broker.copies ==> CopyOk(l, l.broker.copies[c]))
    && (forall h :: h in l.handlers ==> HandlerOk(l, h, l.handlers[h]))
  }

  /** The account only gains acquisitions, so what is known about a message stays true. */
  predicate Grows(k: Account, k': Account) {
    forall h :: h in k.acquired ==> h in k'.acquired && k'.acquired[h] == k.acquired[h]
  }

  lemma GrowsKeepsMessage(k: Account, k': Account, m: Message)
    requires Grows(k, k') && MessageOk(k, m)
    ensures MessageOk(k', m)
  {
    forall i | 0 <= i < |m.blockers| ensures BlockerOk(k', m.blockers[i]) {
      assert BlockerOk(k, m.blockers[i]);
    }
  }

  /** A republished message: the lock that blocked it was acquired after every earlier blocker expired. */
  lemma HopKeepsMessage(k: Account, m: Message, pc: Pc, now: nat)
    requires MessageOk(k, m) && !m.exhausted && Republishes(pc) && m.readyAt <= now
    requires pc.Blocked? ==> BlockerOk(k, pc.blocker) && m.readyAt <= pc.blocker.at <= now
    ensures var (m', q) := Hop(m, pc, now);
            MessageOk(k, m') && (m'.exhausted ==> q == Dlq) && (q == Main ==> m'.readyAt <= now)
  {
    var (m', q) := Hop(m, pc, now);
    if pc.Blocked? && m.blockers != [] {
      var last := m.blockers[|m.blockers| - 1];
      assert BlockerOk(k, last);
      assert last.acquiredAt < pc.blocker.acquiredAt;
    }
  }

  lemma HandlerAccountGrows(l: Lane, h: HandlerId, a: HandlerAction)
    requires Inv(l) && CanHandler(l, h, a)
    ensures var l' := DoHandler(l, h, a); Grows(l.account, l'.account) && LockOk(l')
  {
    assert HandlerOk(l, h, l.handlers[h]);
  }

  /** Known messages in known places: what a step of a handler can put into the queues. */
  lemma HandlerBrokerOk(l: Lane, h: HandlerId, a: HandlerAction, c: CopyId)
    requires Inv(l) && CanHandler(l, h, a) && c in DoHandler(l, h, a).broker.copies
    ensures CopyOk(l, DoHandler(l, h, a).broker.copies[c])
  {
    if a.Republish? {
      RepublishOk(l, h, a, c);
    } else {
      assert c in l.broker.copies && CopyOk(l, l.broker.copies[c]);
      assert HandlerOk(l, h, l.handlers[h]);
    }
  }

  lemma RepublishOk(l: Lane, h: HandlerId, a: HandlerAction, c: CopyId)
    requires Inv(l) && CanHandler(l, h, a) && a.Republish? && c in DoHandler(l, h, a).broker.copies
    ensures CopyOk(l, DoHandler(l, h, a).broker.copies[c])
  {
    var x := l.handlers[h];
    assert HandlerOk(l, h, x);
    HopKeepsMessage(l.account, x.message, x.pc, l.now);
    if c in l.broker.copies { assert CopyOk(l, l.broker.copies[c]); }
  }

  lemma HandlerKeepsCopies(l: Lane, h: HandlerId, a: HandlerAction)
    requires Inv(l) && CanHandler(l, h, a)
    ensures var l' := DoHandler(l, h, a);
            forall c :: c in l'.broker.copies ==> CopyOk(l', l'.broker.copies[c])
  {
    var l' := DoHandler(l, h, a);
    HandlerAccountGrows(l, h, a);
    forall c | c in l'.broker.copies ensures CopyOk(l', l'.broker.copies[c]) {
      HandlerBrokerOk(l, h, a, c);
      GrowsKeepsMessage(l.account, l'.account, l'.broker.copies[c].message);
    }
  }

  /** The handler's own next step: a fresh blocker is the lock that is there now. */
  lemma OwnHandlerOk(l: Lane, h: HandlerId, a: HandlerAction)
    requires Inv(l) && CanHandler(l, h, a) && h in DoHandler(l, h, a).handlers
    ensures var l' := DoHandler(l, h, a); HandlerOk(l', h, l'.handlers[h])
  {
    assert HandlerOk(l, h, l.handlers[h]);
    HandlerAccountGrows(l, h, a);
    GrowsKeepsMessage(l.account, DoHandler(l, h, a).account, l.handlers[h].message);
  }

  lemma HandlerKeepsHandlers(l: Lane, h: HandlerId, a: HandlerAction)
    requires Inv(l) && CanHandler(l, h, a)
    ensures var l' := DoHandler(l, h, a);
            forall g :: g in l'.handlers ==> HandlerOk(l', g, l'.handlers[g])
  {
    var l' := DoHandler(l, h, a);
    HandlerAccountGrows(l, h, a);
    forall g | g in l'.handlers ensures HandlerOk(l', g, l'.handlers[g]) {
      if g == h {
        OwnHandlerOk(l, h, a);
      } else {
        assert HandlerOk(l, g, l.handlers[g]) && l'.handlers[g] == l.handlers[g];
        GrowsKeepsMessage(l.account, l'.account, l.handlers[g].message);
      }
    }
  }

  lemma OtherBrokerOk(l: Lane, e: Event, c: CopyId)
    requires Inv(l) && Can(l, e) && !e.ByHandler? && c in Do(l, e).broker.copies
    ensures CopyOk(Do(l, e), Do(l, e).broker.copies[c])
  {
    var l' := Do(l, e);
    if c in l.broker.copies { assert CopyOk(l, l.broker.copies[c]); }
    GrowsKeepsMessage(l.account, l'.account, l'.broker.copies[c].message);
  }

  lemma OtherKeepsCopies(l: Lane, e: Event)
    requires Inv(l) && Can(l, e) && !e.ByHandler?
    ensures var l' := Do(l, e);
            l'.account.acquired == l.account.acquired &&
            forall c :: c in l'.broker.copies ==> CopyOk(l', l'.broker.copies[c])
  {
    var l' := Do(l, e);
    forall c | c in l'.broker.copies ensures CopyOk(l', l'.broker.copies[c]) {
      OtherBrokerOk(l, e, c);
    }
  }

  lemma OtherKeepsHandlers(l: Lane, e: Event)
    requires Inv(l) && Can(l, e) && !e.ByHandler?
    ensures var l' := Do(l, e);
            LockOk(l') && forall g :: g in l'.handlers ==> HandlerOk(l', g, l'.handlers[g])
  {
    var l' := Do(l, e);
    assert l'.account.acquired == l.account.acquired;
    forall g | g in l'.handlers ensures HandlerOk(l', g, l'.handlers[g]) {
      if g in l.handlers { assert HandlerOk(l, g, l.handlers[g]); }
      if e.ByBroker? { assert CopyOk(l, l.broker.copies[e.c]); }
      GrowsKeepsMessage(l.account, l'.account, l'.handlers[g].message);
    }
  }

  lemma StepKeepsInv(l: Lane, e: Event)
    requires Inv(l) && Can(l, e)
    ensures Inv(Do(l, e))
  {
    if e.ByHandler? {
      HandlerAccountGrows(l, e.h, e.act);
      HandlerKeepsCopies(l, e.h, e.act);
      HandlerKeepsHandlers(l, e.h, e.act);
    } else {
      OtherKeepsCopies(l, e);
      OtherKeepsHandlers(l, e);
    }
  }

  lemma {:induction false} RunKeepsInv(t: nat, es: seq<Event>)
    requires Run(Start(t), es).Some?
    ensures Inv(Run(Start(t), es).value)
  {
    if es != [] {
      RunKeepsInv(t, es[..|es| - 1]);
      StepKeepsInv(Run(Start(t), es[..|es| - 1]).value, es[|es| - 1]);
    }
  }

  // ----- bounded retries -----

  /** How many hops a message may still take. */
  function Budget(m: Message): int {
    (MAX_RETRIES - m.retryCount) + (MAX_PROCESSING_RETRIES - m.processingRetryCount)
  }

  /** Whatever the mix of Redis, lock and processing failures, a republish goes to the DLQ or uses up
      one unit of the budget, although two paths share one counter under different caps: a first
      processing failure is already final when a Redis failure has come before it. */
  lemma RepublishDecreases(t: nat, es: seq<Event>, h: HandlerId)
    requires Run(Start(t), es).Some?
    requires var l := Run(Start(t), es).value; h in l.handlers && Republishes(l.handlers[h].pc)
    ensures var l := Run(Start(t), es).value;
            var m := l.handlers[h].message;
            var (m', q) := Hop(m, l.handlers[h].pc, l.now);
            && 0 <= Budget(m')
            && (q == Dlq || Budget(m') == Budget(m) - 1)
            && (l.handlers[h].pc.Cleaned? && m.retryCount > 0 ==> q == Dlq)
            && (q == Retry ==> m'.readyAt == l.now + 5_000)
            && (q == ProcessingRetry ==> m'.readyAt == l.now + 35_000)
  {
    RunKeepsInv(t, es);
    var l := Run(Start(t), es).value;
    assert HandlerOk(l, h, l.handlers[h]);
  }

  /** Every copy has taken at most six hops, with at most two minutes of queue delay. */
  lemma RetriesAreBounded(t: nat, es: seq<Event>, c: CopyId)
    requires Run(Start(t), es).Some? && c in Run(Start(t), es).value.broker.copies
    ensures var m := Run(Start(t), es).value.broker.copies[c].message;
            && m.retryCount <= 3 && m.processingRetryCount <= 3
            && m.hops <= 6 && m.delay <= 120_000
  {
    RunKeepsInv(t, es);
    var l := Run(Start(t), es).value;
    assert CopyOk(l, l.broker.copies[c]);
  }

  // ----- lock exhaustion -----

  lemma {:induction false} BlockersAreDistinct(k: Account, m: Message, n: nat)
    requires BlockersOk(k, m) && n <= |m.blockers|
    ensures var owners := set i | 0 <= i < n :: m.blockers[i].owner;
            |owners| == n && owners <= k.acquired.Keys
  {
    var owners := set i | 0 <= i < n :: m.blockers[i].owner;
    if n > 0 {
      BlockersAreDistinct(k, m, n - 1);
      var rest := set i | 0 <= i < n - 1 :: m.blockers[i].owner;
      var last := m.blockers[n - 1];
      assert BlockerOk(k, last);
      forall i | 0 <= i < n - 1 ensures m.blockers[i].owner != last.owner {
        assert BlockerOk(k, m.blockers[i]);
      }
      assert last.owner !in rest;
      assert owners == rest + {last.owner};
    }
  }

  lemma SubsetSize<T>(a: set<T>, b: set<T>)
    requires a <= b
    ensures |a| <= |b|
  {
    assert b == a + (b - a);
  }

  /** The locks that turned a lineage away are pairwise distinct and at least as many as its
      processing-retry-count; so the count never exceeds the number of locks ever set for the order,
      and a message that was dead-lettered as exhausted met four different locks. */
  lemma LockExhaustion(t: nat, es: seq<Event>, c: CopyId)
    requires Run(Start(t), es).Some? && c in Run(Start(t), es).value.broker.copies
    ensures var l := Run(Start(t), es).value;
            var m := l.broker.copies[c].message;
            && (forall i, j :: 0 <= i < j < |m.blockers| ==> m.blockers[i].owner != m.blockers[j].owner)
            && (forall i :: 0 <= i < |m.blockers| ==>
                  KnownLock(l.account, m.blockers[i].owner, m.blockers[i].acquiredAt))
            && m.processingRetryCount <= |m.blockers| <= |l.account.acquired|
            && (m.exhausted ==> |m.blockers| == 4)
  {
    RunKeepsInv(t, es);
    var l := Run(Start(t), es).value;
    assert CopyOk(l, l.broker.copies[c]);
    var m := l.broker.copies[c].message;
    forall i, j | 0 <= i < j < |m.blockers| ensures m.blockers[i].owner != m.blockers[j].owner {
      assert BlockerOk(l.account, m.blockers[i]) && BlockerOk(l.account, m.blockers[j]);
    }
    BlockersAreDistinct(l.account, m, |m.blockers|);
    SubsetSize(set i | 0 <= i < |m.blockers| :: m.blockers[i].owner, l.account.acquired.Keys);
    assert |l.account.acquired.Keys| == |l.account.acquired|;
  }
}
