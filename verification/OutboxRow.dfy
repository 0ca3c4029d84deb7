/** One row of the outbox table and the row updates of the outbox repository. */
module OutboxRow {
  import opened Options

  const STUCK_AFTER := 30_000

  datatype Status = Pending | Processing | Sent

  datatype Row = Row(status: Status, startedAt: Option<nat>, sentAt: Option<nat>)

  const FRESH := Row(Pending, None, None)

  /** The claim: a compare-and-set from PENDING, stamped with the caller's clock. */
  function Claimed(r: Row, stamp: nat): Row {
    if r.status.Pending? then r.(status := Processing, startedAt := Some(stamp)) else r
  }

  /** The unconditional final update. */
  function MarkedSent(r: Row, stamp: nat): Row {
    Row(Sent, None, Some(stamp))
  }

  /** The recovery condition: strictly older than thirty seconds by the caller's clock. */
  predicate Stuck(r: Row, clock: nat) {
    r.status.Processing? && r.startedAt.Some? && r.startedAt.value < clock - STUCK_AFTER
  }

  function Recovered(r: Row, clock: nat): Row {
    if Stuck(r, clock) then r.(status := Pending, startedAt := None) else r
  }
}
