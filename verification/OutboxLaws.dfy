/** The outbox row under any number of racing publishers and recovery jobs. */
module OutboxLaws {
  import opened Options
  import opened OutboxRow
  import opened Delivery

  /** Publishers that have claimed and not yet published. */
  function Holders(ws: map<PublisherId, Attempt>): set<PublisherId> {
    set p | p in ws && ws[p].Holding?
  }

  /** Publishers that have published a copy and not yet seen the confirm. */
  function Senders(ws: map<PublisherId, Attempt>): set<PublisherId> {
    set p | p in ws && ws[p].Sending? && ws[p].sent
  }

  /** Claims against recoveries, status by status. */
  predicate RowOk(o: Outbox) {
    match o.row.status
    case Pending => |o.claims| == o.recoveries && o.row.startedAt == None
    case Processing =>
      && |o.claims| == o.recoveries + 1
      && o.row.startedAt == Some(o.claims[|o.claims| - 1].stamp)
    case Sent => o.recoveries <= |o.claims| <= o.recoveries + 1 && o.row.startedAt == None
  }

  predicate PublishesOk(o: Outbox) {
    && o.enqueued + |Holders(o.working)| <= |o.claims|
    && o.confirmed + |Senders(o.working)| <= o.enqueued
    && (o.marking != map[] || o.row.status.Sent? ==> o.confirmed > 0)
  }

  /** A later claim takes effect strictly more than thirty seconds after an earlier one's stamp. */
  predicate Spaced(o: Outbox, now: nat) {
    && (forall k :: 0 <= k < |o.claims| ==> o.claims[k].stamp <= o.claims[k].at <= now)
    && (forall i, j :: 0 <= i < j < |o.claims| ==> o.claims[j].at > o.claims[i].stamp + STUCK_AFTER)
    && (o.row.status.Pending? ==>
          forall k :: 0 <= k < |o.claims| ==> now > o.claims[k].stamp + STUCK_AFTER)
  }

  predicate Inv(o: Outbox, now: nat) {
    RowOk(o) && PublishesOk(o) && Spaced(o, now)
  }

  lemma SetsAfter(ws: map<PublisherId, Attempt>, p: PublisherId, x: Attempt)
    ensures Holders(ws[p := x]) == if x.Holding? then Holders(ws) + {p} else Holders(ws) - {p}
    ensures Senders(ws[p := x]) == if x.Sending? && x.sent then Senders(ws) + {p} else Senders(ws) - {p}
    ensures Holders(ws - {p}) == Holders(ws) - {p} && Senders(ws - {p}) == Senders(ws) - {p}
    ensures p in Holders(ws) <==> p in ws && ws[p].Holding?
    ensures p in Senders(ws) <==> p in ws && ws[p].Sending? && ws[p].sent
  {
  }

  lemma PublisherKeepsPublishes(o: Outbox, now: nat, p: PublisherId, a: PublisherAction)
    requires PublishesOk(o) && CanPublisher(o, now, p, a)
    ensures PublishesOk(PublisherStep(o, now, p, a))
  {
    var ws := PublisherStep(o, now, p, a).working;
    SetsAfter(o.working, p, if p in ws then ws[p] else Holding(0));
  }

  lemma PublisherKeepsInv(o: Outbox, now: nat, p: PublisherId, a: PublisherAction)
    requires Inv(o, now) && CanPublisher(o, now, p, a)
    ensures Inv(PublisherStep(o, now, p, a), now)
  {
    PublisherKeepsPublishes(o, now, p, a);
  }

  /** The outbox of a lane changes only by a publisher's step or the recovery job. */
  lemma StepKeepsInv(l: Lane, e: Event)
    requires Inv(l.outbox, l.now) && Can(l, e)
    ensures Inv(Do(l, e).outbox, Do(l, e).now)
  {
    if e.ByPublisher? {
      PublisherKeepsInv(l.outbox, l.now, e.p, e.publish);
    }
  }

  lemma {:induction false} RunKeepsInv(t: nat, es: seq<Event>)
    requires Run(Start(t), es).Some?
    ensures var l := Run(Start(t), es).value; Inv(l.outbox, l.now)
  {
    if es == [] {
      assert Holders(map[]) == {} && Senders(map[]) == {};
    } else {
      RunKeepsInv(t, es[..|es| - 1]);
      StepKeepsInv(Run(Start(t), es[..|es| - 1]).value, es[|es| - 1]);
    }
  }

  /** Claims, recoveries and publishes of an event, for any publishers that race for it; and SENT means
      that a publish was confirmed, although the final update checks nothing. */
  lemma OutboxAccounting(t: nat, es: seq<Event>)
    requires Run(Start(t), es).Some?
    ensures var o := Run(Start(t), es).value.outbox;
            && (o.row.status.Pending? ==> |o.claims| == o.recoveries)
            && (o.row.status.Processing? ==> |o.claims| == o.recoveries + 1)
            && (o.row.status.Sent? ==> o.recoveries <= |o.claims| <= o.recoveries + 1 && o.confirmed >= 1)
            && (o.row.status.Processing? <==> o.row.startedAt.Some?)
            && o.confirmed <= o.enqueued <= |o.claims|
  {
    RunKeepsInv(t, es);
  }

  lemma ClaimSpacing(t: nat, es: seq<Event>, i: nat, j: nat)
    requires Run(Start(t), es).Some? && i < j < |Run(Start(t), es).value.outbox.claims|
    ensures var cs := Run(Start(t), es).value.outbox.claims; cs[j].at > cs[i].stamp + 30_000
  {
    RunKeepsInv(t, es);
  }

  /** An event that was claimed at stamp t can be claimed again, after the recovery job has run, if and only if
      more than thirty seconds have passed. */
  lemma ReclaimableExactly(t: nat, es: seq<Event>, p: PublisherId)
    requires Run(Start(t), es).Some?
    requires var l := Run(Start(t), es).value;
             l.outbox.row.status.Processing? && p !in l.outbox.working && p !in l.outbox.marking
    ensures var l := Run(Start(t), es).value;
            && |l.outbox.claims| > 0
            && (Can(Do(l, Recover(l.now)), ByPublisher(p, Claim(l.now))) <==>
                  l.now > l.outbox.claims[|l.outbox.claims| - 1].stamp + 30_000)
  {
    RunKeepsInv(t, es);
  }

  /** SENT is absorbing. */
  lemma {:induction false} SentIsFinal(l: Lane, es: seq<Event>)
    requires Run(l, es).Some? && l.outbox.row.status.Sent?
    ensures Run(l, es).value.outbox.row.status.Sent?
  {
    if es != [] {
      SentIsFinal(l, es[..|es| - 1]);
    }
  }

  // ----- exactly one publish -----

  /** Every publisher that holds the event is within thirty seconds of its claim. */
  predicate Punctual(o: Outbox, now: nat) {
    && (forall p :: p in o.working ==> now <= o.working[p].stamp + STUCK_AFTER)
    && (forall p :: p in o.marking ==> now <= o.marking[p] + STUCK_AFTER)
  }

  predicate Stops(e: Event) {
    e.ByPublisher? && e.publish.Stop?
  }

  /** Every state of the run is punctual and no publisher stops halfway. */
  predicate PunctualRun(t: nat, es: seq<Event>) {
    && (es != [] ==>
          && PunctualRun(t, es[..|es| - 1])
          && !Stops(es[|es| - 1]))
    && Run(Start(t), es).Some?
    && var l := Run(Start(t), es).value;
       Punctual(l.outbox, l.now)
  }

  /** A PROCESSING row has the publisher that claimed it. */
  predicate Attended(o: Outbox) {
    && o.recoveries == 0
    && (forall p :: p in o.working ==> p !in o.marking)
    && (o.row.status.Processing? ==>
          || (exists p :: p in o.working && o.row.startedAt == Some(o.working[p].stamp))
          || (exists p :: p in o.marking && o.row.startedAt == Some(o.marking[p])))
  }

  lemma StepKeepsAttended(l: Lane, e: Event)
    requires Attended(l.outbox) && Can(l, e) && Punctual(l.outbox, l.now)
    requires !Stops(e)
    ensures Attended(Do(l, e).outbox)
  {
    var o, o' := l.outbox, Do(l, e).outbox;
    if e.ByPublisher? && o'.row.status.Processing? {
      if e.publish.Claim? {
        assert e.p in o'.working;
      } else if p :| p in o.working && o.row.startedAt == Some(o.working[p].stamp) {
        assert (p in o'.working && o'.working[p].stamp == o.working[p].stamp)
            || (p in o'.marking && o'.marking[p] == o.working[p].stamp);
      } else {
        var q :| q in o.marking && o.row.startedAt == Some(o.marking[q]);
        assert q in o'.marking;
      }
    }
  }

  lemma {:induction false} RunKeepsAttended(t: nat, es: seq<Event>)
    requires PunctualRun(t, es)
    ensures Attended(Run(Start(t), es).value.outbox)
  {
    if es != [] {
      RunKeepsAttended(t, es[..|es| - 1]);
      StepKeepsAttended(Run(Start(t), es[..|es| - 1]).value, es[|es| - 1]);
    }
  }

  /** With punctual publishers that do not fail, an event is claimed and published at most once across
      all instances, and exactly once when it is SENT. */
  lemma PublishedExactlyOnce(t: nat, es: seq<Event>)
    requires PunctualRun(t, es)
    ensures var o := Run(Start(t), es).value.outbox;
            && |o.claims| <= 1 && o.enqueued <= 1
            && (o.row.status.Sent? ==> |o.claims| == 1 && o.enqueued == 1 && o.confirmed == 1)
  {
    RunKeepsAttended(t, es);
    RunKeepsInv(t, es);
  }
}
