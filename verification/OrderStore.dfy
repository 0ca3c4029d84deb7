/**
 Order creation as a step machine over the database: any number of create calls, each a precheck
 followed by one transaction of three statements, interleaved statement by statement.

 The transaction runs under READ COMMITTED: statements see committed rows only, and the conditional
 decrement takes the inventory row's lock, which it keeps until commit or rollback.  A decrement that
 finds enough stock while another call holds the lock waits, that is, its step cannot happen yet.
 */
module OrderStore {
  import opened Options

  type ProductId = nat
  type OrderId = nat
  type EventId = nat
  type CallId = nat

  datatype Request = Request(userId: nat, productId: ProductId, quantity: int)

  datatype OrderRow = OrderRow(id: OrderId, request: Request)

  /** An outbox row with its payload. */
  datatype OutboxEntry = OutboxEntry(id: EventId, orderId: OrderId, requestId: CallId)

  /** The committed content of the database, rows in commit order. */
  datatype Shop = Shop(stock: map<ProductId, int>, orders: seq<OrderRow>, outbox: seq<OutboxEntry>)

  datatype Pc =
    | Arrived                                       // awaiting the precheck
    | Prechecked                                    // awaiting the order insert
    | Inserted(orderId: OrderId)                    // awaiting the outbox insert
    | Logged(orderId: OrderId, eventId: EventId)    // awaiting the decrement
    | Holding(orderId: OrderId, eventId: EventId, left: int)   // holds the row lock and the new stock
    | Conflicting                                   // no row was updated, about to roll back
    | Done(orderId: OrderId)                        // answered with the order
    | Rejected                                      // answered with the stock conflict
    | RolledBack                                    // answered with an infrastructure failure, nothing written
    | Unanswered(orderId: OrderId)                  // committed, but the answer was lost: a failure to the caller

  datatype Call = Call(request: Request, pc: Pc)

  /** One atomic order: accepted, with its identifiers, or refused. */
  datatype Atomic = Atomic(call: CallId, request: Request, accepted: Option<(OrderId, EventId)>)

  /** Uncommitted rows live in the calls that wrote them; `log` is history. */
  datatype State = State(
    shop: Shop,
    locks: map<ProductId, CallId>,
    calls: seq<Call>,
    nextOrder: OrderId, nextEvent: EventId,
    log: seq<Atomic>)

  function Init(stock: map<ProductId, int>): State {
    State(Shop(stock, [], []), map[], [], 0, 0, [])
  }

  // ----- the atomic order -----

  predicate Available(shop: Shop, r: Request) {
    r.productId in shop.stock && shop.stock[r.productId] >= r.quantity
  }

  /** If there is enough stock: order row, outbox row and decrement, all at once. */
  function Place(shop: Shop, r: Request, call: CallId, order: OrderId, event: EventId): Shop
    requires Available(shop, r)
  {
    Shop(shop.stock[r.productId := shop.stock[r.productId] - r.quantity],
         shop.orders + [OrderRow(order, r)],
         shop.outbox + [OutboxEntry(event, order, call)])
  }

  /** The shop after a sequence of atomic orders, None when an outcome is not the one the stock dictates. */
  function Replay(shop: Shop, log: seq<Atomic>): Option<Shop> {
    if log == [] then Some(shop)
    else
      var before := Replay(shop, log[..|log| - 1]);
      var a := log[|log| - 1];
      if before.None? || (a.accepted.Some? != Available(before.value, a.request)) then None
      else if a.accepted.None? then before
      else Some(Place(before.value, a.request, a.call, a.accepted.value.0, a.accepted.value.1))
  }

  // ----- the steps of the calls -----

  datatype Event =
    | Arrive(request: Request)
    | Precheck(c: CallId)
    | InsertOrder(c: CallId)
    | InsertOutbox(c: CallId)
    | Decrease(c: CallId)
    | Commit(c: CallId, answered: bool)
    | Rollback(c: CallId)
    | Fail(c: CallId)

  predicate Can(s: State, e: Event) {
    if e.Arrive? then e.request.quantity >= 1
    else
      && e.c < |s.calls|
      && var call := s.calls[e.c];
         match e
         case Precheck(_) => call.pc.Arrived?
         case InsertOrder(_) => call.pc.Prechecked?
         case InsertOutbox(_) => call.pc.Inserted?
         case Decrease(_) =>
           call.pc.Logged? && (Available(s.shop, call.request) ==> call.request.productId !in s.locks)
         case Commit(_, _) => call.pc.Holding?
         case Rollback(_) => call.pc.Conflicting?
         case Fail(_) => Active(call.pc)
  }

  predicate Active(pc: Pc) {
    !(pc.Done? || pc.Rejected? || pc.RolledBack? || pc.Unanswered?)
  }

  /** The order that a call has placed, whether it was told so or not. */
  function PlacedOrder(pc: Pc): Option<OrderId> {
    match pc
    case Done(id) => Some(id)
    case Unanswered(id) => Some(id)
    case _ => None
  }

  /** Where the call goes. */
  function NextPc(s: State, call: Call, e: Event): Pc
    requires e.InsertOutbox? ==> call.pc.Inserted?
    requires e.Decrease? ==> call.pc.Logged?
    requires e.Commit? ==> call.pc.Holding?
  {
    match e
    case Arrive(_) => call.pc
    case Precheck(_) => if Available(s.shop, call.request) then Prechecked else Rejected
    case InsertOrder(_) => Inserted(s.nextOrder)
    case InsertOutbox(_) => Logged(call.pc.orderId, s.nextEvent)
    case Decrease(_) =>
      if Available(s.shop, call.request)
      then Holding(call.pc.orderId, call.pc.eventId, s.shop.stock[call.request.productId] - call.request.quantity)
      else Conflicting
    case Commit(_, answered) => if answered then Done(call.pc.orderId) else Unanswered(call.pc.orderId)
    case Rollback(_) => Rejected
    case Fail(_) => RolledBack
  }

  /** A commit makes the three row versions of the transaction visible. */
  function Committed(shop: Shop, c: CallId, call: Call): Shop
    requires call.pc.Holding?
  {
    Shop(shop.stock[call.request.productId := call.pc.left],
         shop.orders + [OrderRow(call.pc.orderId, call.request)],
         shop.outbox + [OutboxEntry(call.pc.eventId, call.pc.orderId, c)])
  }

  /** The row lock: taken by a decrement that updates the row, released by commit and rollback. */
  function NextLocks(s: State, c: CallId, call: Call, e: Event): map<ProductId, CallId> {
    var p := call.request.productId;
    match e
    case Decrease(_) => if Available(s.shop, call.request) then s.locks[p := c] else s.locks
    case Commit(_, _) => s.locks - {p}
    case Fail(_) => if call.pc.Holding? then s.locks - {p} else s.locks
    case _ => s.locks
  }

  /** The place in the log that the call takes with this step, if any. */
  function LogEntry(s: State, c: CallId, call: Call, e: Event): seq<Atomic>
    requires e.Commit? ==> call.pc.Holding?
  {
    match e
    case Commit(_, _) => [Atomic(c, call.request, Some((call.pc.orderId, call.pc.eventId)))]
    case Precheck(_) => if Available(s.shop, call.request) then [] else [Atomic(c, call.request, None)]
    case Decrease(_) => if Available(s.shop, call.request) then [] else [Atomic(c, call.request, None)]
    case _ => []
  }

  function Do(s: State, e: Event): State
    requires Can(s, e)
  {
    if e.Arrive? then s.(calls := s.calls + [Call(e.request, Arrived)])
    else
      var call := s.calls[e.c];
      State(
        if e.Commit? then Committed(s.shop, e.c, call) else s.shop,
        NextLocks(s, e.c, call, e),
        s.calls[e.c := call.(pc := NextPc(s, call, e))],
        s.nextOrder + (if e.InsertOrder? then 1 else 0),
        s.nextEvent + (if e.InsertOutbox? then 1 else 0),
        s.log + LogEntry(s, e.c, call, e))
  }

  /** The state after a sequence of events, None when one of them cannot happen. */
  function Run(s: State, es: seq<Event>): Option<State> {
    if es == [] then Some(s)
    else
      var r := Run(s, es[..|es| - 1]);
      if r.Some? && Can(r.value, es[|es| - 1]) then Some(Do(r.value, es[|es| - 1])) else None
  }

  /** One more event. */
  lemma Extend(s: State, es: seq<Event>, e: Event)
    requires Run(s, es).Some? && Can(Run(s, es).value, e)
    ensures Run(s, es + [e]) == Some(Do(Run(s, es).value, e))
  {
    assert (es + [e])[..|es + [e]| - 1] == es;
  }
}
