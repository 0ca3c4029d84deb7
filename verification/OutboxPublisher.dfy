/** The publisher's batch cycle, while other instances change the table. */
module OutboxPublisher {
  import opened Options
  import opened OutboxRow
  import opened OutboxTable

  const BATCH_SIZE := 500

  /** How the three calls for one event end: all done, or one of them throws, with or without effect. */
  datatype Outcome =
    | Published
    | ClaimThrew(applied: bool)
    | PublishThrew(sent: bool)
    | MarkThrew(applied: bool)

  /** What the database, the broker and other instances do during a cycle: whether the read throws, which
      updates others make before our i-th claim and between that claim and our update to SENT, and how our
      calls end. */
  datatype Surroundings = Surroundings(
    readThrows: bool, before: map<nat, seq<Update>>, during: map<nat, seq<Update>>, outcome: map<EventId, Outcome>)

  const CALM := Surroundings(false, map[], map[], map[])

  function At(updates: map<nat, seq<Update>>, i: nat): seq<Update> {
    if i in updates then updates[i] else []
  }

  function OutcomeOf(w: Surroundings, id: EventId): Outcome {
    if id in w.outcome then w.outcome[id] else Published
  }

  /** Whether an outcome puts the message into the queue. */
  predicate Sends(outcome: Outcome) {
    outcome.Published? || outcome == PublishThrew(true) || outcome.MarkThrew?
  }

  /** What the loop does with one event: the table afterwards, the updates that others have made meanwhile,
      whether our claim returned true, the messages sent, and whether a call threw. */
  datatype Step = Step(table: Table, others: seq<Update>, claimed: bool, messages: seq<OrderId>, threw: bool)

  /** The i-th event: claim it; if that was us, publish it and mark it. */
  function OneEvent(t: Table, i: nat, id: EventId, w: Surroundings, clock: nat): (s: Step)
    requires TableOk(t) && id in t.payload
    ensures TableOk(s.table) && Extends(t, s.table)
    ensures s.claimed ==> !OutcomeOf(w, id).ClaimThrew?
    ensures s.threw <==> OutcomeOf(w, id).ClaimThrew? || (s.claimed && !OutcomeOf(w, id).Published?)
    ensures s.messages == if s.claimed && Sends(OutcomeOf(w, id)) then [t.payload[id]] else []
  {
    var before := At(w.before, i);
    var t1 := UpdatedAll(t, before);
    var t2 := Updated(t1, Claim(id, clock));
    var outcome := OutcomeOf(w, id);
    if outcome.ClaimThrew? then Step(if outcome.applied then t2 else t1, before, false, [], true)
    else if !t1.rows[id].status.Pending? then Step(t1, before, false, [], false)
    else
      var t3 := UpdatedAll(t2, At(w.during, i));
      var marks := outcome.Published? || outcome == MarkThrew(true);
      Step(if marks then Updated(t3, Mark(id, clock)) else t3, before + At(w.during, i), true,
           if Sends(outcome) then [t.payload[id]] else [], !outcome.Published?)
  }

  /** A cycle so far: the same in sum, with the events we have claimed and the position at which it threw. */
  datatype Batch = Batch(
    table: Table, others: seq<Update>, claimed: seq<EventId>, messages: seq<OrderId>, thrown: Option<nat>)

  function After(b: Batch, i: nat, id: EventId, w: Surroundings, clock: nat): (r: Batch)
    requires TableOk(b.table) && id in b.table.payload
    ensures TableOk(r.table) && Extends(b.table, r.table)
  {
    if b.thrown.Some? then b
    else
      var s := OneEvent(b.table, i, id, w, clock);
      Batch(s.table, b.others + s.others, b.claimed + (if s.claimed then [id] else []),
            b.messages + s.messages, if s.threw then Some(i) else None)
  }

  predicate AllIn(ids: seq<EventId>, t: Table) {
    forall i :: 0 <= i < |ids| ==> ids[i] in t.payload
  }

  function Cycle(t: Table, ids: seq<EventId>, w: Surroundings, clock: nat): (b: Batch)
    requires TableOk(t) && AllIn(ids, t)
    ensures TableOk(b.table) && Extends(t, b.table)
  {
    if ids == [] then Batch(t, [], [], [], None)
    else
      var n := |ids| - 1;
      After(Cycle(t, ids[..n], w, clock), n, ids[n], w, clock)
  }

  lemma {:induction false} ThrownStays(t: Table, ids: seq<EventId>, w: Surroundings, clock: nat, n: nat)
    requires n <= |ids| && TableOk(t) && AllIn(ids, t)
    requires Cycle(t, ids[..n], w, clock).thrown.Some?
    ensures Cycle(t, ids, w, clock) == Cycle(t, ids[..n], w, clock)
    decreases |ids|
  {
    if n == |ids| {
      assert ids[..n] == ids;
    } else {
      assert ids[..|ids| - 1][..n] == ids[..n];
      ThrownStays(t, ids[..|ids| - 1], w, clock, n);
    }
  }

  lemma CycleOneMore(t: Table, ids: seq<EventId>, w: Surroundings, clock: nat, i: nat)
    requires i < |ids| && TableOk(t) && AllIn(ids, t)
    ensures var b := Cycle(t, ids[..i], w, clock);
            ids[i] in b.table.payload && Cycle(t, ids[..i + 1], w, clock) == After(b, i, ids[i], w, clock)
  {
    assert ids[..i + 1][..i] == ids[..i];
  }

  lemma Concat(a: seq<OrderId>, b: seq<OrderId>, c: seq<OrderId>)
    ensures a + b + c == a + (b + c)
  {
  }

  datatype Report = Skipped | ReadFailed | Finished | Threw(at: nat)

  class OutboxPublisherService {
    const repository: PrismaOutboxRepository
    var activeExecutions: nat
    var queue: seq<OrderId>

    constructor (repository: PrismaOutboxRepository)
      ensures this.repository == repository && activeExecutions == 0 && queue == []
    {
      this.repository := repository;
      activeExecutions, queue := 0, [];
    }

    /** Publish and mark a claimed event; ok is false when a call throws. */
    method Send(i: nat, id: EventId, w: Surroundings, clock: nat) returns (ok: bool)
      requires repository.Valid() && id in repository.payload && !OutcomeOf(w, id).ClaimThrew?
      modifies this`queue, repository
      ensures repository.Valid() && ok == OutcomeOf(w, id).Published?
      ensures queue == old(queue) + if Sends(OutcomeOf(w, id)) then [old(repository.payload)[id]] else []
      ensures var t := UpdatedAll(old(repository.Contents()), At(w.during, i));
              var outcome := OutcomeOf(w, id);
              repository.Contents() ==
              if outcome.Published? || outcome == MarkThrew(true) then Updated(t, Mark(id, clock)) else t
    {
      var outcome := OutcomeOf(w, id);
      if !outcome.PublishThrew? || outcome.sent {
        queue := queue + [repository.payload[id]];
      }
      repository.ApplyAll(At(w.during, i));
      if outcome.PublishThrew? { return false; }
      if !outcome.MarkThrew? || outcome.applied {
        var _ := repository.MarkAsSent(id, clock);
      }
      ok := outcome.Published?;
    }

    /** The body of the loop: claim the event, publish it and mark it. */
    method PublishOne(i: nat, id: EventId, w: Surroundings, clock: nat) returns (ok: bool)
      requires repository.Valid() && id in repository.payload
      modifies this`queue, repository
      ensures repository.Valid()
      ensures var s := OneEvent(old(repository.Contents()), i, id, w, clock);
              repository.Contents() == s.table && queue == old(queue) + s.messages && ok == !s.threw
    {
      repository.ApplyAll(At(w.before, i));
      var outcome := OutcomeOf(w, id);
      var claimed := false;
      if !outcome.ClaimThrew? || outcome.applied {
        claimed := repository.Claim(id, clock);
      }
      if outcome.ClaimThrew? { return false; }
      if !claimed { return true; }
      ok := Send(i, id, w, clock);
    }

    /** One pass of the loop. */
    method PublishNext(ids: seq<EventId>, i: nat, w: Surroundings, clock: nat, ghost t: Table, ghost sent: seq<OrderId>)
      returns (ok: bool)
      requires i < |ids| && repository.Valid() && TableOk(t) && AllIn(ids, t)
      requires var b := Cycle(t, ids[..i], w, clock);
               repository.Contents() == b.table && queue == sent + b.messages && b.thrown.None?
      modifies this`queue, repository
      ensures repository.Valid()
      ensures var b := Cycle(t, ids[..i + 1], w, clock);
              && repository.Contents() == b.table && queue == sent + b.messages
              && b.thrown == if ok then None else Some(i)
    {
      CycleOneMore(t, ids, w, clock, i);
      ghost var b := Cycle(t, ids[..i], w, clock);
      ghost var s := OneEvent(b.table, i, ids[i], w, clock);
      ok := PublishOne(i, ids[i], w, clock);
      assert repository.Contents() == s.table && ok == !s.threw;
      Concat(sent, b.messages, s.messages);
    }

    /** The loop over the events that were read; the first exception ends it. */
    method PublishBatch(ids: seq<EventId>, w: Surroundings, clock: nat) returns (report: Report)
      requires repository.Valid() && AllIn(ids, repository.Contents())
      modifies this`queue, repository
      ensures repository.Valid() && (report.Finished? || report.Threw?)
      ensures var b := Cycle(old(repository.Contents()), ids, w, clock);
              && repository.Contents() == b.table && queue == old(queue) + b.messages
              && b.thrown == if report.Threw? then Some(report.at) else None
    {
      report := Finished;
      ghost var table0, queue0 := repository.Contents(), queue;
      var i := 0;
      while i < |ids| && report.Finished?
        invariant 0 <= i <= |ids| && repository.Valid() && (report.Finished? || report.Threw?)
        invariant var b := Cycle(table0, ids[..i], w, clock);
                  && repository.Contents() == b.table && queue == queue0 + b.messages
                  && b.thrown == if report.Threw? then Some(report.at) else None
        decreases |ids| - i
      {
        var ok := PublishNext(ids, i, w, clock, table0, queue0);
        if !ok { report := Threw(i); }
        i := i + 1;
      }
      if report.Threw? {
        ThrownStays(table0, ids, w, clock, i);
      } else {
        assert ids[..i] == ids;
      }
    }

    /** One cycle at a given time, with its guard. */
    method PublishPending(w: Surroundings, clock: nat) returns (report: Report, ids: seq<EventId>)
      requires repository.Valid()
      modifies this, repository
      ensures repository.Valid() && activeExecutions == old(activeExecutions)
      ensures report.Skipped? <==> old(activeExecutions) > 0
      ensures report.ReadFailed? <==> old(activeExecutions) == 0 && w.readThrows
      ensures report.Skipped? || report.ReadFailed? ==>
                repository.Contents() == old(repository.Contents()) && queue == old(queue)
      ensures report.Finished? || report.Threw? ==>
                && Smallest(ids, PendingRows(old(repository.rows)), BATCH_SIZE)
                && AllIn(ids, old(repository.Contents()))
                && var b := Cycle(old(repository.Contents()), ids, w, clock);
                   && repository.Contents() == b.table && queue == old(queue) + b.messages
                   && b.thrown == if report.Threw? then Some(report.at) else None
    {
      if activeExecutions > 0 {
        return Skipped, [];
      }
      activeExecutions := activeExecutions + 1;
      report, ids := ReadFailed, [];
      if !w.readThrows {
        ids := repository.FindPending(BATCH_SIZE);
        report := PublishBatch(ids, w, clock);
      }
      activeExecutions := activeExecutions - 1;
    }
  }

  // ----- what a cycle does, whatever others do meanwhile -----

  /** The messages of claimed events: one for each whose outcome sends it. */
  function MessagesOf(claimed: seq<EventId>, t: Table, w: Surroundings): seq<OrderId>
    requires AllIn(claimed, t)
  {
    if claimed == [] then []
    else
      var id := claimed[|claimed| - 1];
      MessagesOf(claimed[..|claimed| - 1], t, w) + if Sends(OutcomeOf(w, id)) then [t.payload[id]] else []
  }

  /** Events that we have claimed and completed are SENT. */
  predicate Completed(b: Batch, w: Surroundings) {
    forall i :: 0 <= i < |b.claimed| && OutcomeOf(w, b.claimed[i]).Published? ==>
      IsSent(b.table, b.claimed[i])
  }

  /** The event at which the cycle ended, if it threw. */
  predicate EndedAt(b: Batch, ids: seq<EventId>, id: EventId) {
    b.thrown.Some? && b.thrown.value < |ids| && ids[b.thrown.value] == id
  }

  /** Rows that our calls did not change are as the others' updates alone make them. */
  ghost predicate OthersOnly(t: Table, b: Batch, ids: seq<EventId>)
    requires TableOk(t)
  {
    forall id :: id !in b.claimed && !EndedAt(b, ids, id) ==> SameRow(b.table, UpdatedAll(t, b.others), id)
  }

  /** One event leaves its own row to the others if our claim did nothing. */
  lemma MissLeaves(t: Table, t': Table, i: nat, id: EventId, w: Surroundings, clock: nat, x: EventId)
    requires TableOk(t) && TableOk(t') && id in t.payload && SameRow(t, t', x)
    requires var s := OneEvent(t, i, id, w, clock); !s.claimed && !s.threw
    ensures var s := OneEvent(t, i, id, w, clock); SameRow(s.table, UpdatedAll(t', s.others), x)
  {
    RowsAreIndependent(t, t', At(w.before, i), x);
  }

  /** Our updates of an event do not touch other rows. */
  lemma OwnUpdatesLeave(t: Table, id: EventId, clock: nat, x: EventId)
    requires TableOk(t) && x != id
    ensures SameRow(Updated(t, Claim(id, clock)), t, x) && SameRow(Updated(t, Mark(id, clock)), t, x)
  {
  }

  /** Whatever the outcome, the table is that of some point of the way. */
  predicate Along(t: Table, before: seq<Update>, during: seq<Update>, id: EventId, clock: nat, s: Step)
    requires TableOk(t)
  {
    var t1 := UpdatedAll(t, before);
    var t2 := Updated(t1, Claim(id, clock));
    var t3 := UpdatedAll(t2, during);
    || (s.others == before && (s.table == t1 || s.table == t2))
    || (s.others == before + during && (s.table == t3 || s.table == Updated(t3, Mark(id, clock))))
  }

  lemma OneEventAlong(t: Table, i: nat, id: EventId, w: Surroundings, clock: nat)
    requires TableOk(t) && id in t.payload
    ensures Along(t, At(w.before, i), At(w.during, i), id, clock, OneEvent(t, i, id, w, clock))
  {
  }

  lemma AlongLeaves(t: Table, t': Table, before: seq<Update>, during: seq<Update>, id: EventId, clock: nat,
                    s: Step, x: EventId)
    requires TableOk(t) && TableOk(t') && SameRow(t, t', x) && x != id
    requires Along(t, before, during, id, clock, s)
    ensures SameRow(s.table, UpdatedAll(t', s.others), x)
  {
    RowsAreIndependent(t, t', before, x);
    var t1, t1' := UpdatedAll(t, before), UpdatedAll(t', before);
    var t2 := Updated(t1, Claim(id, clock));
    OwnUpdatesLeave(t1, id, clock, x);
    RowsAreIndependent(t2, t1', during, x);
    OwnUpdatesLeave(UpdatedAll(t2, during), id, clock, x);
    UpdatedInTurn(t', before, during);
  }

  /** One event leaves all other rows to the others. */
  lemma OneEventLeaves(t: Table, t': Table, i: nat, id: EventId, w: Surroundings, clock: nat, x: EventId)
    requires TableOk(t) && TableOk(t') && id in t.payload && SameRow(t, t', x) && x != id
    ensures var s := OneEvent(t, i, id, w, clock); SameRow(s.table, UpdatedAll(t', s.others), x)
  {
    OneEventAlong(t, i, id, w, clock);
    AlongLeaves(t, t', At(w.before, i), At(w.during, i), id, clock, OneEvent(t, i, id, w, clock), x);
  }

  lemma OneEventCompletes(t: Table, i: nat, id: EventId, w: Surroundings, clock: nat)
    requires TableOk(t) && id in t.payload
    ensures var s := OneEvent(t, i, id, w, clock);
            s.claimed && OutcomeOf(w, id).Published? ==> IsSent(s.table, id)
  {
  }

  lemma OneEventKeepsSent(t: Table, i: nat, id: EventId, w: Surroundings, clock: nat, x: EventId)
    requires TableOk(t) && id in t.payload && IsSent(t, x)
    ensures IsSent(OneEvent(t, i, id, w, clock).table, x)
  {
    SentStays(t, At(w.before, i), x);
    var t1 := UpdatedAll(t, At(w.before, i));
    SentStaysOnce(t1, Claim(id, clock), x);
    SentStays(Updated(t1, Claim(id, clock)), At(w.during, i), x);
  }

  /** The claimed events are among those read, in order; we go on past an event only if its calls succeed. */
  predicate ClaimsOk(b: Batch, ids: seq<EventId>, w: Surroundings) {
    && Ascending(b.claimed)
    && (forall i :: 0 <= i < |b.claimed| ==> b.claimed[i] in ids)
    && (forall i :: 0 <= i < |b.claimed| ==> OutcomeOf(w, b.claimed[i]).Published? || EndedAt(b, ids, b.claimed[i]))
    && (b.thrown.Some? ==>
          && b.thrown.value < |ids| && !OutcomeOf(w, ids[b.thrown.value]).Published?
          && forall i :: 0 <= i < |b.claimed| ==> b.claimed[i] <= ids[b.thrown.value])
  }

  /** Whatever others do during a cycle over the events read: we claim some of them in id order, send exactly
      one message for each claimed event whose publish takes effect, and every claimed event is SENT in the
      end, except the one at which a call threw; and rows that we have not claimed are as the others' updates
      alone make them. */
  lemma {:induction false} CycleAmongOthers(t: Table, ids: seq<EventId>, w: Surroundings, clock: nat)
    requires TableOk(t) && AllIn(ids, t) && Ascending(ids)
    ensures var b := Cycle(t, ids, w, clock);
            && ClaimsOk(b, ids, w) && AllIn(b.claimed, t)
            && b.messages == MessagesOf(b.claimed, t, w)
            && Completed(b, w) && OthersOnly(t, b, ids)
  {
    if ids != [] {
      var n := |ids| - 1;
      var prefix := ids[..n];
      CycleAmongOthers(t, prefix, w, clock);
      var b := Cycle(t, prefix, w, clock);
      if b.thrown.None? {
        ClaimsOneMore(b, After(b, n, ids[n], w, clock), ids, w, OneEvent(b.table, n, ids[n], w, clock).claimed);
        MessagesOneMore(t, b, n, ids[n], w, clock);
        CompletedOneMore(b, n, ids[n], w, clock);
        OthersOneMore(t, b, ids, w, clock);
      } else {
        ClaimsStay(b, ids, w);
      }
    }
  }

  lemma ClaimsStay(b: Batch, ids: seq<EventId>, w: Surroundings)
    requires ids != [] && ClaimsOk(b, ids[..|ids| - 1], w) && b.thrown.Some?
    ensures ClaimsOk(b, ids, w)
    ensures forall id :: EndedAt(b, ids, id) <==> EndedAt(b, ids[..|ids| - 1], id)
  {
  }

  /** The last event is claimed or not; when a call for it throws, the cycle ends there. */
  lemma ClaimsOneMore(b: Batch, b': Batch, ids: seq<EventId>, w: Surroundings, claimed: bool)
    requires ids != [] && Ascending(ids) && ClaimsOk(b, ids[..|ids| - 1], w) && b.thrown.None?
    requires b'.claimed == b.claimed + if claimed then [ids[|ids| - 1]] else []
    requires var outcome := OutcomeOf(w, ids[|ids| - 1]);
             && (b'.thrown.Some? ==> b'.thrown == Some(|ids| - 1) && !outcome.Published?)
             && (b'.thrown.None? && claimed ==> outcome.Published?)
    ensures ClaimsOk(b', ids, w)
  {
    var n := |ids| - 1;
    forall i | 0 <= i < |b.claimed| ensures b.claimed[i] in ids && b.claimed[i] < ids[n] {
      assert b.claimed[i] in ids[..n];
    }
  }

  lemma MessagesOneMore(t: Table, b: Batch, i: nat, id: EventId, w: Surroundings, clock: nat)
    requires TableOk(b.table) && Extends(t, b.table) && id in t.payload
    requires b.thrown.None? && AllIn(b.claimed, t) && b.messages == MessagesOf(b.claimed, t, w)
    ensures var b' := After(b, i, id, w, clock);
            AllIn(b'.claimed, t) && b'.messages == MessagesOf(b'.claimed, t, w)
  {
    var s := OneEvent(b.table, i, id, w, clock);
    if s.claimed {
      assert (b.claimed + [id])[..|b.claimed|] == b.claimed;
    } else {
      assert b.claimed + [] == b.claimed && b.messages + [] == b.messages;
    }
  }

  lemma CompletedOneMore(b: Batch, i: nat, id: EventId, w: Surroundings, clock: nat)
    requires TableOk(b.table) && id in b.table.payload && b.thrown.None? && Completed(b, w)
    ensures Completed(After(b, i, id, w, clock), w)
  {
    OneEventCompletes(b.table, i, id, w, clock);
    var b' := After(b, i, id, w, clock);
    forall j | 0 <= j < |b'.claimed| && OutcomeOf(w, b'.claimed[j]).Published? ensures IsSent(b'.table, b'.claimed[j]) {
      if j < |b.claimed| {
        OneEventKeepsSent(b.table, i, id, w, clock, b.claimed[j]);
      }
    }
  }

  lemma OthersOneMore(t: Table, b: Batch, ids: seq<EventId>, w: Surroundings, clock: nat)
    requires TableOk(t) && TableOk(b.table) && b.thrown.None?
    requires ids != [] && ids[|ids| - 1] in b.table.payload && OthersOnly(t, b, ids[..|ids| - 1])
    ensures OthersOnly(t, After(b, |ids| - 1, ids[|ids| - 1], w, clock), ids)
  {
    var n := |ids| - 1;
    var b' := After(b, n, ids[n], w, clock);
    var s := OneEvent(b.table, n, ids[n], w, clock);
    var t' := UpdatedAll(t, b.others);
    UpdatedInTurn(t, b.others, s.others);
    forall id | id !in b'.claimed && !EndedAt(b', ids, id) ensures SameRow(b'.table, UpdatedAll(t', s.others), id) {
      assert id !in b.claimed && SameRow(b.table, t', id);
      if id == ids[n] {
        MissLeaves(b.table, t', n, ids[n], w, clock, id);
      } else {
        OneEventLeaves(b.table, t', n, ids[n], w, clock, id);
      }
    }
  }

  // ----- when others only race for the claims -----

  /** All that others do is to claim the events of `rivals` just before us. */
  predicate OnlyRivals(w: Surroundings, ids: seq<EventId>, rivals: set<EventId>, clock: nat) {
    forall i :: 0 <= i < |ids| ==>
      && At(w.before, i) == (if ids[i] in rivals then [Claim(ids[i], clock)] else [])
      && At(w.during, i) == []
  }

  /** The messages for the events of ids that no rival has taken, one each and in order. */
  function Messages(ids: seq<EventId>, rivals: set<EventId>, payload: map<EventId, OrderId>): seq<OrderId>
    requires forall i :: 0 <= i < |ids| ==> ids[i] in payload
  {
    if ids == [] then []
    else
      var id := ids[|ids| - 1];
      Messages(ids[..|ids| - 1], rivals, payload) + if id in rivals then [] else [payload[id]]
  }

  function SettledRow(r: Row, rival: bool, clock: nat): Row {
    if rival then Row(Processing, Some(clock), r.sentAt) else Row(Sent, None, Some(clock))
  }

  /** The events of ids are SENT, or PROCESSING at a rival; no other row has changed. */
  predicate Settled(rows: map<EventId, Row>, rows': map<EventId, Row>, ids: seq<EventId>,
                    rivals: set<EventId>, clock: nat) {
    && rows'.Keys == rows.Keys
    && forall id :: id in rows ==>
         rows'[id] == if id in ids then SettledRow(rows[id], id in rivals, clock) else rows[id]
  }

  lemma SettleOneMore(rows: map<EventId, Row>, rows': map<EventId, Row>, ids: seq<EventId>, id: EventId,
                      rivals: set<EventId>, clock: nat)
    requires Settled(rows, rows', ids, rivals, clock) && id in rows && id !in ids
    ensures Settled(rows, rows'[id := SettledRow(rows[id], id in rivals, clock)], ids + [id], rivals, clock)
  {
  }

  /** Read events are pending and in ascending order. */
  predicate Readable(t: Table, ids: seq<EventId>) {
    && TableOk(t) && AllIn(ids, t) && Ascending(ids)
    && forall i :: 0 <= i < |ids| ==> ids[i] in t.rows && t.rows[ids[i]].status.Pending?
  }

  /** Whether the loop ends at this event: a call throws that the loop gets to. */
  predicate Throws(outcome: Outcome, rival: bool) {
    outcome.ClaimThrew? || (!rival && !outcome.Published?)
  }

  /** The row of the event at which the loop ends: unclaimed only if the claim itself failed without effect,
      sent only if the last update took effect all the same, and otherwise PROCESSING. */
  function FailedRow(r: Row, rival: bool, outcome: Outcome, clock: nat): Row {
    if !rival && outcome == ClaimThrew(false) then r
    else if !rival && outcome == MarkThrew(true) then Row(Sent, None, Some(clock))
    else Row(Processing, Some(clock), r.sentAt)
  }

  /** Without an exception, every event is settled and has sent its one message, in id order. */
  predicate AllSettled(t: Table, ids: seq<EventId>, rivals: set<EventId>, w: Surroundings, clock: nat, b: Batch)
    requires AllIn(ids, t)
  {
    && b.thrown.None?
    && b.table == t.(rows := b.table.rows) && Settled(t.rows, b.table.rows, ids, rivals, clock)
    && b.messages == Messages(ids, rivals, t.payload)
    && (forall i :: 0 <= i < |ids| ==> !Throws(OutcomeOf(w, ids[i]), ids[i] in rivals))
  }

  /** If the loop ended at the event `failed` after those of `before`, these are settled, the failed one is
      as far as it got, all other rows are as they were, and nothing else has been sent. */
  predicate Stopped(t: Table, before: seq<EventId>, failed: EventId, rivals: set<EventId>,
                    w: Surroundings, clock: nat, b: Batch)
    requires AllIn(before, t) && failed in t.payload && failed in t.rows
  {
    var outcome := OutcomeOf(w, failed);
    && b.thrown == Some(|before|) && Throws(outcome, failed in rivals)
    && b.table == t.(rows := b.table.rows)
    && Settled(t.rows[failed := FailedRow(t.rows[failed], failed in rivals, outcome, clock)], b.table.rows, before,
               rivals, clock)
    && b.messages == Messages(before, rivals, t.payload) +
                       if failed !in rivals && Sends(outcome) then [t.payload[failed]] else []
  }

  /** One pending event, with a rival or without. */
  lemma OneRace(t: Table, i: nat, id: EventId, rival: bool, w: Surroundings, clock: nat)
    requires TableOk(t) && id in t.payload && t.rows[id].status.Pending?
    requires At(w.before, i) == (if rival then [Claim(id, clock)] else []) && At(w.during, i) == []
    ensures var s, outcome := OneEvent(t, i, id, w, clock), OutcomeOf(w, id);
            && s.threw == Throws(outcome, rival)
            && s.messages == (if !rival && Sends(outcome) then [t.payload[id]] else [])
            && s.table == t.(rows := t.rows[id := if s.threw then FailedRow(t.rows[id], rival, outcome, clock)
                                                  else SettledRow(t.rows[id], rival, clock)])
  {
    var t1 := UpdatedAll(t, At(w.before, i));
    if rival {
      OneUpdate(t, Claim(id, clock));
      assert t1.rows[id] == Row(Processing, Some(clock), t.rows[id].sentAt);
      assert Updated(t1, Claim(id, clock)) == t1;
    } else {
      assert t1 == t;
    }
    assert t.rows[id := t.rows[id]] == t.rows;
  }

  lemma OneUpdate(t: Table, u: Update)
    requires TableOk(t)
    ensures UpdatedAll(t, [u]) == Updated(t, u)
  {
    assert [u][..0] == [];
  }

  lemma RaceMessages(ids: seq<EventId>, id: EventId, rivals: set<EventId>, payload: map<EventId, OrderId>)
    requires id in payload && forall i :: 0 <= i < |ids| ==> ids[i] in payload
    ensures Messages(ids + [id], rivals, payload) ==
            Messages(ids, rivals, payload) + if id in rivals then [] else [payload[id]]
  {
    assert (ids + [id])[..|ids + [id]| - 1] == ids;
  }

  lemma StopAt(rows: map<EventId, Row>, rows': map<EventId, Row>, ids: seq<EventId>, id: EventId,
               failed: Row, rivals: set<EventId>, clock: nat)
    requires Settled(rows, rows', ids, rivals, clock) && id in rows && id !in ids
    ensures Settled(rows[id := failed], rows'[id := failed], ids, rivals, clock)
  {
  }

  lemma RaceOneMore(t: Table, ids: seq<EventId>, id: EventId, rivals: set<EventId>, w: Surroundings, clock: nat,
                    b: Batch)
    requires TableOk(t) && AllIn(ids, t) && id in t.payload && id !in ids && t.rows[id].status.Pending?
    requires AllSettled(t, ids, rivals, w, clock, b) && TableOk(b.table)
    requires At(w.before, |ids|) == (if id in rivals then [Claim(id, clock)] else []) && At(w.during, |ids|) == []
    ensures var b' := After(b, |ids|, id, w, clock);
            AllSettled(t, ids + [id], rivals, w, clock, b') || Stopped(t, ids, id, rivals, w, clock, b')
  {
    var rival, outcome := id in rivals, OutcomeOf(w, id);
    assert b.table.rows[id] == t.rows[id];
    OneRace(b.table, |ids|, id, rival, w, clock);
    RaceMessages(ids, id, rivals, t.payload);
    if Throws(outcome, rival) {
      StopAt(t.rows, b.table.rows, ids, id, FailedRow(t.rows[id], rival, outcome, clock), rivals, clock);
    } else {
      SettleOneMore(t.rows, b.table.rows, ids, id, rivals, clock);
    }
  }

  lemma RacePrefix(t: Table, ids: seq<EventId>, rivals: set<EventId>, w: Surroundings, clock: nat)
    requires ids != [] && Readable(t, ids) && OnlyRivals(w, ids, rivals, clock)
    ensures var n := |ids| - 1;
            && Readable(t, ids[..n]) && OnlyRivals(w, ids[..n], rivals, clock)
            && ids[n] !in ids[..n] && ids == ids[..n] + [ids[n]]
  {
  }

  /** Every cycle settles all its events, or all those before the one at which a call threw. */
  lemma {:induction false} CycleSettles(t: Table, ids: seq<EventId>, rivals: set<EventId>, w: Surroundings,
                                        clock: nat)
    requires Readable(t, ids) && OnlyRivals(w, ids, rivals, clock)
    ensures var b := Cycle(t, ids, w, clock);
            match b.thrown
            case None => AllSettled(t, ids, rivals, w, clock, b)
            case Some(at) => at < |ids| && Stopped(t, ids[..at], ids[at], rivals, w, clock, b)
  {
    if ids != [] {
      var n := |ids| - 1;
      RacePrefix(t, ids, rivals, w, clock);
      CycleSettles(t, ids[..n], rivals, w, clock);
      var b := Cycle(t, ids[..n], w, clock);
      if b.thrown.Some? {
        assert ids[..n][..b.thrown.value] == ids[..b.thrown.value];
      } else {
        RaceOneMore(t, ids[..n], ids[n], rivals, w, clock, b);
      }
    }
  }

  /** Undisturbed: the min(k, 500) smallest pending events are sent, one message each in id order. */
  lemma UndisturbedCycle(t: Table, ids: seq<EventId>, clock: nat)
    requires TableOk(t) && Smallest(ids, PendingRows(t.rows), BATCH_SIZE)
    ensures AllIn(ids, t)
    ensures var b := Cycle(t, ids, CALM, clock);
            var k := |PendingRows(t.rows)|;
            && b.thrown.None?
            && |b.messages| == |ids| == (if k <= 500 then k else 500)
            && (forall i :: 0 <= i < |ids| ==> b.messages[i] == t.payload[ids[i]] && IsSent(b.table, ids[i]))
            && PendingRows(b.table.rows) == PendingRows(t.rows) - (set i | 0 <= i < |ids| :: ids[i])
            && |PendingRows(b.table.rows)| == k - |ids|
  {
    assert Readable(t, ids);
    CycleSettles(t, ids, {}, CALM, clock);
    MessagesOfAll(ids, t.payload);
    PendingAfter(t, Cycle(t, ids, CALM, clock).table.rows, ids, clock);
    DistinctSize(ids, |ids|);
  }

  lemma PendingAfter(t: Table, rows': map<EventId, Row>, ids: seq<EventId>, clock: nat)
    requires Readable(t, ids) && Settled(t.rows, rows', ids, {}, clock)
    ensures var taken := set i | 0 <= i < |ids| :: ids[i];
            PendingRows(rows') == PendingRows(t.rows) - taken && taken <= PendingRows(t.rows)
  {
    var taken := set i | 0 <= i < |ids| :: ids[i];
    forall id ensures id in taken <==> id in ids {
      if id in ids {
        var i :| 0 <= i < |ids| && ids[i] == id;
      }
    }
  }

  lemma {:induction false} MessagesOfAll(ids: seq<EventId>, payload: map<EventId, OrderId>)
    requires forall i :: 0 <= i < |ids| ==> ids[i] in payload
    ensures var ms := Messages(ids, {}, payload);
            |ms| == |ids| && forall i :: 0 <= i < |ids| ==> ms[i] == payload[ids[i]]
  {
    if ids != [] {
      MessagesOfAll(ids[..|ids| - 1], payload);
    }
  }

  lemma {:induction false} DistinctSize(ids: seq<EventId>, n: nat)
    requires Ascending(ids) && n <= |ids|
    ensures |set i | 0 <= i < n :: ids[i]| == n
  {
    if n > 0 {
      DistinctSize(ids, n - 1);
      var rest := set i | 0 <= i < n - 1 :: ids[i];
      assert ids[n - 1] !in rest;
      assert (set i | 0 <= i < n :: ids[i]) == rest + {ids[n - 1]};
    }
  }

  /** t' is the table after one undisturbed cycle over t. */
  predicate OneCycle(t: Table, t': Table, ids: seq<EventId>, clock: nat) {
    && TableOk(t) && Smallest(ids, PendingRows(t.rows), BATCH_SIZE)
    && AllIn(ids, t) && t' == Cycle(t, ids, CALM, clock).table
  }

  lemma OneCycleTakes(t: Table, t': Table, ids: seq<EventId>, clock: nat)
    requires OneCycle(t, t', ids, clock)
    ensures var k := |PendingRows(t.rows)|; |PendingRows(t'.rows)| == if k <= 500 then 0 else k - 500
  {
    UndisturbedCycle(t, ids, clock);
  }

  /** Undisturbed cycles drain k pending events in exactly the ceiling of k / 500 cycles: after n of them
      the outbox is drained if and only if n is at least that. */
  lemma {:induction false} DrainTakes(tables: seq<Table>, ids: seq<seq<EventId>>, clocks: seq<nat>, n: nat)
    requires n < |tables| && |tables| == |ids| + 1 == |clocks| + 1
    requires forall i :: 0 <= i < |ids| ==> OneCycle(tables[i], tables[i + 1], ids[i], clocks[i])
    ensures var k := |PendingRows(tables[0].rows)|;
            && |PendingRows(tables[n].rows)| == (if k <= 500 * n then 0 else k - 500 * n)
            && (PendingRows(tables[n].rows) == {} <==> n >= (k + 499) / 500)
  {
    if n > 0 {
      DrainTakes(tables, ids, clocks, n - 1);
      assert tables[n - 1 + 1] == tables[n];
      OneCycleTakes(tables[n - 1], tables[n], ids[n - 1], clocks[n - 1]);
    }
    assert PendingRows(tables[n].rows) == {} <==> |PendingRows(tables[n].rows)| == 0;
  }
}
