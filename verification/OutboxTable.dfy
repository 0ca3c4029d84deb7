/** The outbox table and its repository. */
module OutboxTable {
  import opened Options
  import opened OutboxRow

  type EventId = nat
  type OrderId = nat

  function PendingRows(rows: map<EventId, Row>): set<EventId> {
    set id | id in rows && rows[id].status.Pending?
  }

  function StuckRows(rows: map<EventId, Row>, clock: nat): set<EventId> {
    set id | id in rows && Stuck(rows[id], clock)
  }

  lemma RecoveredPending(rows: map<EventId, Row>, clock: nat)
    ensures PendingRows(map id | id in rows :: Recovered(rows[id], clock)) ==
            PendingRows(rows) + StuckRows(rows, clock)
  {
  }

  predicate Ascending(ids: seq<EventId>) {
    forall i, j :: 0 <= i < j < |ids| ==> ids[i] < ids[j]
  }

  /** The limit smallest elements of s, in order: all that is left out is larger. */
  predicate Smallest(ids: seq<EventId>, s: set<EventId>, limit: nat) {
    && Ascending(ids)
    && (forall i :: 0 <= i < |ids| ==> ids[i] in s)
    && |ids| == (if |s| <= limit then |s| else limit)
    && (forall i, x :: 0 <= i < |ids| && x in s && x !in ids ==> ids[i] < x)
  }

  lemma {:induction false} Least(s: set<EventId>) returns (x: EventId)
    requires s != {}
    ensures x in s && forall y :: y in s ==> x <= y
  {
    x :| x in s;
    if s != {x} {
      var z := Least(s - {x});
      assert forall y :: y in s ==> y == x || y in s - {x};
      if z < x { x := z; }
    }
  }

  /** The table as a value: its rows, their payloads, and the next identifier. */
  datatype Table = Table(rows: map<EventId, Row>, payload: map<EventId, OrderId>, nextId: EventId)

  predicate TableOk(t: Table) {
    t.rows.Keys == t.payload.Keys && forall id :: id in t.rows ==> id < t.nextId
  }

  /** Rows are only added, and their payloads never change. */
  predicate Extends(t: Table, t': Table) {
    t.nextId <= t'.nextId && forall id :: id in t.payload ==> id in t'.payload && t'.payload[id] == t.payload[id]
  }

  /** What an instance can do to the table. */
  datatype Update =
    | Insert(order: OrderId)
    | Claim(id: EventId, stamp: nat)
    | Mark(id: EventId, stamp: nat)
    | Recover(clock: nat)

  function Updated(t: Table, u: Update): (r: Table)
    requires TableOk(t)
    ensures TableOk(r) && Extends(t, r)
  {
    match u
    case Insert(order) => Table(t.rows[t.nextId := FRESH], t.payload[t.nextId := order], t.nextId + 1)
    case Claim(id, stamp) => if id in t.rows then t.(rows := t.rows[id := Claimed(t.rows[id], stamp)]) else t
    case Mark(id, stamp) => if id in t.rows then t.(rows := t.rows[id := MarkedSent(t.rows[id], stamp)]) else t
    case Recover(clock) => t.(rows := map id | id in t.rows :: Recovered(t.rows[id], clock))
  }

  function UpdatedAll(t: Table, us: seq<Update>): (r: Table)
    requires TableOk(t)
    ensures TableOk(r) && Extends(t, r)
  {
    if us == [] then t else Updated(UpdatedAll(t, us[..|us| - 1]), us[|us| - 1])
  }

  lemma {:induction false} UpdatedInTurn(t: Table, us: seq<Update>, vs: seq<Update>)
    requires TableOk(t)
    ensures UpdatedAll(t, us + vs) == UpdatedAll(UpdatedAll(t, us), vs)
  {
    if vs == [] {
      assert us + vs == us;
    } else {
      assert (us + vs)[..|us + vs| - 1] == us + vs[..|vs| - 1];
      UpdatedInTurn(t, us, vs[..|vs| - 1]);
    }
  }

  /** What becomes of a row depends on that row only. */
  predicate SameRow(t: Table, t': Table, id: EventId) {
    t.nextId == t'.nextId && (id in t.rows <==> id in t'.rows) && (id in t.rows ==> t.rows[id] == t'.rows[id])
  }

  lemma RowIsIndependent(t: Table, t': Table, u: Update, id: EventId)
    requires TableOk(t) && TableOk(t') && SameRow(t, t', id)
    ensures SameRow(Updated(t, u), Updated(t', u), id)
  {
  }

  lemma {:induction false} RowsAreIndependent(t: Table, t': Table, us: seq<Update>, id: EventId)
    requires TableOk(t) && TableOk(t') && SameRow(t, t', id)
    ensures SameRow(UpdatedAll(t, us), UpdatedAll(t', us), id)
  {
    if us != [] {
      var n := |us| - 1;
      RowsAreIndependent(t, t', us[..n], id);
      RowIsIndependent(UpdatedAll(t, us[..n]), UpdatedAll(t', us[..n]), us[n], id);
    }
  }

  predicate IsSent(t: Table, id: EventId) {
    id in t.rows && t.rows[id].status.Sent?
  }

  lemma SentStaysOnce(t: Table, u: Update, id: EventId)
    requires TableOk(t) && IsSent(t, id)
    ensures IsSent(Updated(t, u), id)
  {
  }

  /** SENT is absorbing, whoever updates the table. */
  lemma {:induction false} SentStays(t: Table, us: seq<Update>, id: EventId)
    requires TableOk(t) && IsSent(t, id)
    ensures IsSent(UpdatedAll(t, us), id)
  {
    if us != [] {
      SentStays(t, us[..|us| - 1], id);
      SentStaysOnce(UpdatedAll(t, us[..|us| - 1]), us[|us| - 1], id);
    }
  }

  class PrismaOutboxRepository {
    var rows: map<EventId, Row>
    var payload: map<EventId, OrderId>
    var nextId: EventId

    function Contents(): Table
      reads this
    {
      Table(rows, payload, nextId)
    }

    predicate Valid()
      reads this
    {
      TableOk(Contents())
    }

    constructor ()
      ensures Valid() && rows == map[] && payload == map[]
    {
      rows, payload, nextId := map[], map[], 0;
    }

    method Create(orderId: OrderId) returns (id: EventId)
      requires Valid()
      modifies this
      ensures Valid() && id !in old(rows)
      ensures rows == old(rows)[id := Row(Pending, None, None)] && payload == old(payload)[id := orderId]
      ensures Contents() == Updated(old(Contents()), Insert(orderId))
    {
      id := nextId;
      rows, payload := rows[id := FRESH], payload[id := orderId];
      nextId := nextId + 1;
    }

    /** The first pending rows by id. */
    method FindPending(limit: nat) returns (ids: seq<EventId>)
      requires Valid()
      ensures Smallest(ids, PendingRows(rows), limit)
    {
      ids := [];
      var left := PendingRows(rows);
      while |ids| < limit && left != {}
        invariant Ascending(ids) && |ids| <= limit && |ids| + |left| == |PendingRows(rows)|
        invariant forall x :: x in PendingRows(rows) <==> x in ids || x in left
        invariant forall i, x :: 0 <= i < |ids| && x in left ==> ids[i] < x
        decreases left
      {
        ghost var least := Least(left);
        var id :| id in left && forall y :: y in left ==> id <= y;
        ids, left := ids + [id], left - {id};
      }
      if left == {} {
        assert |ids| == |PendingRows(rows)|;
      }
    }

    /** Compare and set: of all callers that race for a pending row, exactly one gets true. */
    method Claim(id: EventId, stamp: nat) returns (claimed: bool)
      requires Valid()
      modifies this`rows
      ensures Valid()
      ensures claimed <==> id in old(rows) && old(rows)[id].status.Pending?
      ensures claimed ==> rows == old(rows)[id := Row(Processing, Some(stamp), old(rows)[id].sentAt)]
      ensures !claimed ==> rows == old(rows)
      ensures rows == if id in old(rows) then old(rows)[id := Claimed(old(rows)[id], stamp)] else old(rows)
    {
      claimed := id in rows && rows[id].status.Pending?;
      if claimed {
        rows := rows[id := Claimed(rows[id], stamp)];
      }
    }

    /** Updates the row whatever its status is; fails when there is no such row. */
    method MarkAsSent(id: EventId, stamp: nat) returns (ok: bool)
      requires Valid()
      modifies this`rows
      ensures Valid()
      ensures ok <==> id in old(rows)
      ensures ok ==> rows == old(rows)[id := Row(Sent, None, Some(stamp))]
      ensures rows == if id in old(rows) then old(rows)[id := MarkedSent(old(rows)[id], stamp)] else old(rows)
    {
      ok := id in rows;
      if ok {
        rows := rows[id := MarkedSent(rows[id], stamp)];
      }
    }

    method RecoverStuckProcessing(clock: nat) returns (count: nat)
      requires Valid()
      modifies this`rows
      ensures Valid()
      ensures rows == map id | id in old(rows) :: Recovered(old(rows)[id], clock)
      ensures forall id :: id in old(rows) ==>
                var r := old(rows)[id];
                id in rows &&
                rows[id] == if r.status == Processing && r.startedAt.Some? && r.startedAt.value + 30_000 < clock
                            then Row(Pending, None, r.sentAt) else r
      ensures count == |StuckRows(old(rows), clock)|
      ensures PendingRows(rows) == PendingRows(old(rows)) + StuckRows(old(rows), clock)
    {
      count := |StuckRows(rows, clock)|;
      RecoveredPending(rows, clock);
      rows := map id | id in rows :: Recovered(rows[id], clock);
    }

    /** Another instance updates the table. */
    method Apply(u: Update)
      requires Valid()
      modifies this
      ensures Valid() && Contents() == Updated(old(Contents()), u)
    {
      match u {
        case Insert(order) => var _ := Create(order);
        case Claim(id, stamp) => var _ := this.Claim(id, stamp);
        case Mark(id, stamp) => var _ := MarkAsSent(id, stamp);
        case Recover(clock) => var _ := RecoverStuckProcessing(clock);
      }
    }

    method ApplyAll(us: seq<Update>)
      requires Valid()
      modifies this
      ensures Valid() && Contents() == UpdatedAll(old(Contents()), us)
    {
      var i := 0;
      while i < |us|
        invariant 0 <= i <= |us| && Valid() && Contents() == UpdatedAll(old(Contents()), us[..i])
      {
        assert us[..i + 1][..i] == us[..i];
        Apply(us[i]);
        i := i + 1;
      }
      assert us[..i] == us;
    }
  }
}
