/** What a cycle of the publisher, and the updates of others meanwhile, do to the lane of an order. */
module PublisherLanes {
  import opened Options
  import opened OutboxRow
  import opened OutboxTable
  import opened OutboxPublisher
  import D = Delivery
  import Recovery

  /** Updates that others can make to event x by their clocks, other than marking it. */
  predicate Lawful(us: seq<Update>, x: EventId, clock: nat) {
    forall i :: 0 <= i < |us| ==>
      match us[i]
      case Insert(_) => true
      case Claim(_, stamp) => stamp <= clock
      case Mark(id, _) => id != x
      case Recover(c) => c <= clock
  }

  /** The lane l' is l with the given row and with one more first message in the main queue, or none. */
  predicate Moved(l: D.Lane, l': D.Lane, row: Row, sent: bool) {
    && l'.outbox.row == row
    && l'.broker == (if sent then D.Enqueue(l.broker, D.FirstMessage(l.now), D.Main) else l.broker)
    && l'.now == l.now && l'.handlers == l.handlers && l'.account == l.account
  }

  /** The publishers at work on l are still at the same point. */
  predicate Waits(l: D.Lane, l': D.Lane) {
    && (forall p :: p in l.outbox.working ==> p in l'.outbox.working && l'.outbox.working[p] == l.outbox.working[p])
    && (forall p :: p in l.outbox.marking ==> p in l'.outbox.marking)
  }

  lemma Next(l: D.Lane, es: seq<D.Event>, e: D.Event) returns (fs: seq<D.Event>, l': D.Lane)
    requires D.Run(l, es).Some? && D.Can(D.Run(l, es).value, e)
    ensures D.Run(l, fs) == Some(l') && l' == D.Do(D.Run(l, es).value, e)
  {
    fs, l' := es + [e], D.Do(D.Run(l, es).value, e);
    D.Extend(l, es, e);
  }

  /** One update of another instance. */
  lemma OtherStep(l: D.Lane, es: seq<D.Event>, t: Table, u: Update, x: EventId)
    returns (fs: seq<D.Event>, l': D.Lane)
    requires D.Run(l, es).Some? && TableOk(t) && x in t.rows && Lawful([u], x, D.Run(l, es).value.now)
    requires D.Run(l, es).value.outbox.row == t.rows[x]
    ensures D.Run(l, fs) == Some(l') && x in Updated(t, u).rows
    ensures Moved(D.Run(l, es).value, l', Updated(t, u).rows[x], false) && Waits(D.Run(l, es).value, l')
  {
    var m := D.Run(l, es).value;
    assert [u][0] == u;
    fs, l' := es, m;
    if u.Recover? {
      fs, l' := Next(l, es, D.Recover(u.clock));
    } else if u.Claim? && u.id == x && m.outbox.row.status.Pending? {
      var q := Recovery.FreshPublisher(m.outbox);
      fs, l' := Next(l, es, D.ByPublisher(q, D.Claim(u.stamp)));
    }
  }

  lemma {:induction false} OtherSteps(l: D.Lane, es: seq<D.Event>, t: Table, us: seq<Update>, x: EventId)
    returns (fs: seq<D.Event>, l': D.Lane)
    requires D.Run(l, es).Some? && TableOk(t) && x in t.rows && Lawful(us, x, D.Run(l, es).value.now)
    requires D.Run(l, es).value.outbox.row == t.rows[x]
    ensures D.Run(l, fs) == Some(l') && x in UpdatedAll(t, us).rows
    ensures Moved(D.Run(l, es).value, l', UpdatedAll(t, us).rows[x], false) && Waits(D.Run(l, es).value, l')
  {
    if us == [] {
      fs, l' := es, D.Run(l, es).value;
    } else {
      var n := |us| - 1;
      fs, l' := OtherSteps(l, es, t, us[..n], x);
      fs, l' := OtherStep(l, fs, UpdatedAll(t, us[..n]), us[n], x);
    }
  }

  /** After our claim: publish and confirm, as far as the outcome goes. */
  lemma Publishes(l: D.Lane, es: seq<D.Event>, p: D.PublisherId, outcome: Outcome)
    returns (fs: seq<D.Event>, l': D.Lane)
    requires D.Run(l, es).Some? && !outcome.ClaimThrew?
    requires var m := D.Run(l, es).value; p in m.outbox.working && m.outbox.working[p].Holding?
    ensures D.Run(l, fs) == Some(l')
    ensures Moved(D.Run(l, es).value, l', D.Run(l, es).value.outbox.row, Sends(outcome))
    ensures !outcome.PublishThrew? ==> p in l'.outbox.marking
  {
    fs, l' := Next(l, es, D.ByPublisher(p, D.Publish(Sends(outcome))));
    fs, l' := Next(l, fs, D.ByPublisher(p, if outcome.PublishThrew? then D.Stop else D.Confirm));
  }

  /** Our claim of a pending event, and what follows it. */
  lemma OwnSteps(l: D.Lane, es: seq<D.Event>, t: Table, during: seq<Update>, id: EventId, outcome: Outcome)
    returns (fs: seq<D.Event>, l': D.Lane)
    requires D.Run(l, es).Some? && TableOk(t) && id in t.rows && t.rows[id].status.Pending?
    requires D.Run(l, es).value.outbox.row == t.rows[id] && Lawful(during, id, D.Run(l, es).value.now)
    requires !outcome.ClaimThrew?
    ensures D.Run(l, fs) == Some(l')
    ensures var clock := D.Run(l, es).value.now;
            var t3 := UpdatedAll(Updated(t, Claim(id, clock)), during);
            var t4 := if outcome.Published? || outcome == MarkThrew(true) then Updated(t3, Mark(id, clock)) else t3;
            id in t4.rows && Moved(D.Run(l, es).value, l', t4.rows[id], Sends(outcome))
  {
    var m := D.Run(l, es).value;
    var p := Recovery.FreshPublisher(m.outbox);
    fs, l' := Next(l, es, D.ByPublisher(p, D.Claim(m.now)));
    fs, l' := Publishes(l, fs, p, outcome);
    fs, l' := OtherSteps(l, fs, Updated(t, Claim(id, m.now)), during, id);
    if !outcome.PublishThrew? {
      fs, l' := Next(l, fs, D.ByPublisher(p, if outcome == MarkThrew(false) then D.Stop else D.MarkSent));
    }
  }

  /** A claim that throws. */
  lemma ClaimThrows(l: D.Lane, es: seq<D.Event>, t: Table, id: EventId) returns (fs: seq<D.Event>, l': D.Lane)
    requires D.Run(l, es).Some? && TableOk(t) && id in t.rows && D.Run(l, es).value.outbox.row == t.rows[id]
    ensures D.Run(l, fs) == Some(l')
    ensures var t2 := Updated(t, Claim(id, D.Run(l, es).value.now));
            id in t2.rows && Moved(D.Run(l, es).value, l', t2.rows[id], false)
  {
    var m := D.Run(l, es).value;
    fs, l' := es, m;
    if m.outbox.row.status.Pending? {
      var p := Recovery.FreshPublisher(m.outbox);
      fs, l' := Next(l, es, D.ByPublisher(p, D.Claim(m.now)));
      fs, l' := Next(l, fs, D.ByPublisher(p, D.Stop));
    }
  }

  /** The event's own lane: it ends with the row of the table, and with one more copy exactly when the loop
      has sent the event's message. */
  lemma OwnEventIsALaneRun(l: D.Lane, es: seq<D.Event>, t: Table, i: nat, id: EventId, w: Surroundings)
    returns (fs: seq<D.Event>, l': D.Lane, sent: bool)
    requires D.Run(l, es).Some? && TableOk(t) && id in t.payload && D.Run(l, es).value.outbox.row == t.rows[id]
    requires var clock := D.Run(l, es).value.now;
             Lawful(At(w.before, i), id, clock) && Lawful(At(w.during, i), id, clock)
    ensures D.Run(l, fs) == Some(l')
    ensures var s := OneEvent(t, i, id, w, D.Run(l, es).value.now);
            && id in s.table.rows && Moved(D.Run(l, es).value, l', s.table.rows[id], sent)
            && s.messages == if sent then [t.payload[id]] else []
  {
    var clock := D.Run(l, es).value.now;
    var t1, outcome := UpdatedAll(t, At(w.before, i)), OutcomeOf(w, id);
    fs, l' := OtherSteps(l, es, t, At(w.before, i), id);
    sent := false;
    if outcome.ClaimThrew? {
      if outcome.applied {
        fs, l' := ClaimThrows(l, fs, t1, id);
      }
    } else if t1.rows[id].status.Pending? {
      fs, l' := OwnSteps(l, fs, t1, At(w.during, i), id, outcome);
      sent := Sends(outcome);
    }
  }

  /** Any other lane only undergoes the others' updates. */
  lemma OtherEventIsALaneRun(l: D.Lane, es: seq<D.Event>, t: Table, i: nat, id: EventId, w: Surroundings, x: EventId)
    returns (fs: seq<D.Event>, l': D.Lane)
    requires D.Run(l, es).Some? && TableOk(t) && id in t.payload && x in t.rows && x != id
    requires D.Run(l, es).value.outbox.row == t.rows[x]
    requires var clock := D.Run(l, es).value.now;
             Lawful(At(w.before, i), x, clock) && Lawful(At(w.during, i), x, clock)
    ensures D.Run(l, fs) == Some(l')
    ensures var s := OneEvent(t, i, id, w, D.Run(l, es).value.now);
            x in s.table.rows && Moved(D.Run(l, es).value, l', s.table.rows[x], false)
  {
    var s := OneEvent(t, i, id, w, D.Run(l, es).value.now);
    OneEventLeaves(t, t, i, id, w, D.Run(l, es).value.now, x);
    fs, l' := OtherSteps(l, es, t, s.others, x);
  }

  /** Events have different orders, as outbox rows do. */
  predicate Injective(payload: map<EventId, OrderId>) {
    forall x, y :: x in payload && y in payload && payload[x] == payload[y] ==> x == y
  }

  predicate Counts(messages: seq<OrderId>, order: OrderId, sent: bool) {
    multiset(messages)[order] == if sent then 1 else 0
  }

  /** The lane of event x has a run that agrees with what the batch has done. */
  predicate Agrees(b: Batch, x: EventId, order: OrderId, l: D.Lane, es: seq<D.Event>, sent: bool) {
    && x in b.table.rows && D.Run(l, es).Some? && Moved(l, D.Run(l, es).value, b.table.rows[x], sent)
    && Counts(b.messages, order, sent)
  }

  predicate AllLawful(w: Surroundings, x: EventId, clock: nat) {
    && (forall i :: i in w.before ==> Lawful(w.before[i], x, clock))
    && (forall i :: i in w.during ==> Lawful(w.during[i], x, clock))
  }

  lemma MovedTwice(l: D.Lane, m: D.Lane, l': D.Lane, first: bool, second: bool)
    requires Moved(l, m, m.outbox.row, first) && Moved(m, l', l'.outbox.row, second) && !(first && second)
    ensures Moved(l, l', l'.outbox.row, first || second)
  {
  }

  lemma CountsAfter(messages: seq<OrderId>, more: seq<OrderId>, order: OrderId, first: bool, second: bool)
    requires Counts(messages, order, first) && Counts(more, order, second) && !(first && second)
    ensures Counts(messages + more, order, first || second)
  {
  }

  /** Another event of the batch. */
  lemma AfterOther(b: Batch, i: nat, id: EventId, w: Surroundings, x: EventId, order: OrderId,
                   l: D.Lane, es: seq<D.Event>, sent: bool) returns (fs: seq<D.Event>)
    requires TableOk(b.table) && id in b.table.payload && b.table.payload[id] != order && x != id
    requires Agrees(b, x, order, l, es, sent) && AllLawful(w, x, l.now)
    ensures Agrees(After(b, i, id, w, l.now), x, order, l, fs, sent)
  {
    fs := es;
    if b.thrown.None? {
      var l';
      fs, l' := OtherEventIsALaneRun(l, es, b.table, i, id, w, x);
      MovedTwice(l, D.Run(l, es).value, l', sent, false);
      CountsAfter(b.messages, OneEvent(b.table, i, id, w, l.now).messages, order, sent, false);
    }
  }

  /** The lane's own event. */
  lemma AfterOwn(b: Batch, i: nat, id: EventId, w: Surroundings, order: OrderId, l: D.Lane, es: seq<D.Event>)
    returns (fs: seq<D.Event>, sent: bool)
    requires TableOk(b.table) && id in b.table.payload && b.table.payload[id] == order
    requires Agrees(b, id, order, l, es, false) && AllLawful(w, id, l.now)
    ensures Agrees(After(b, i, id, w, l.now), id, order, l, fs, sent)
  {
    fs, sent := es, false;
    if b.thrown.None? {
      var l';
      fs, l', sent := OwnEventIsALaneRun(l, es, b.table, i, id, w);
      MovedTwice(l, D.Run(l, es).value, l', false, sent);
      CountsAfter(b.messages, OneEvent(b.table, i, id, w, l.now).messages, order, false, sent);
    }
  }

  /** A whole cycle, lane by lane, whatever others do meanwhile short of marking the event: the lane of any
      event x, read or not, has a run that ends with the row that the table has after the cycle, and with
      one new copy if the cycle has sent one message for its order, or none if it has sent none. */
  lemma {:induction false} CycleIsLaneRuns(t: Table, ids: seq<EventId>, w: Surroundings, x: EventId, l: D.Lane)
    returns (es: seq<D.Event>, sent: bool)
    requires TableOk(t) && AllIn(ids, t) && Ascending(ids) && Injective(t.payload)
    requires x in t.rows && l.outbox.row == t.rows[x] && AllLawful(w, x, l.now)
    ensures Agrees(Cycle(t, ids, w, l.now), x, t.payload[x], l, es, sent)
    ensures x !in ids ==> !sent
  {
    if ids == [] {
      es, sent := [], false;
    } else {
      var n := |ids| - 1;
      var b := Cycle(t, ids[..n], w, l.now);
      es, sent := CycleIsLaneRuns(t, ids[..n], w, x, l);
      if x == ids[n] {
        es, sent := AfterOwn(b, n, x, w, t.payload[x], l, es);
      } else {
        es := AfterOther(b, n, ids[n], w, x, t.payload[x], l, es, sent);
      }
    }
  }
}
