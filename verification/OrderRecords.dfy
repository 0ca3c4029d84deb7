/** Committed orders and outbox rows correspond one to one, and the sales are as many as the stock allows. */
module OrderRecords {
  import opened Options
  import opened OrderStore
  import opened OrderLaws

  // ----- identifiers -----

  /** The order row a running transaction has inserted and not committed. */
  function PendingOrder(pc: Pc): Option<OrderId> {
    match pc
    case Inserted(id) => Some(id)
    case Logged(id, _) => Some(id)
    case Holding(id, _, _) => Some(id)
    case _ => None
  }

  function PendingEvent(pc: Pc): Option<EventId> {
    match pc
    case Logged(_, id) => Some(id)
    case Holding(_, id, _) => Some(id)
    case _ => None
  }

  /** Rows at the same position belong to the same call, which has placed that order. */
  predicate RowsOk(s: State) {
    && |s.shop.orders| == |s.shop.outbox|
    && (forall i :: 0 <= i < |s.shop.orders| ==>
          var row := s.shop.outbox[i];
          && row.orderId == s.shop.orders[i].id
          && row.requestId < |s.calls|
          && PlacedOrder(s.calls[row.requestId].pc) == Some(row.orderId)
          && s.calls[row.requestId].request == s.shop.orders[i].request)
    && (forall i, j :: 0 <= i < j < |s.shop.outbox| ==> s.shop.outbox[i].requestId != s.shop.outbox[j].requestId)
  }

  predicate OrderIdsOk(s: State) {
    && (forall i :: 0 <= i < |s.shop.orders| ==> s.shop.orders[i].id < s.nextOrder)
    && (forall i, j :: 0 <= i < j < |s.shop.orders| ==> s.shop.orders[i].id != s.shop.orders[j].id)
    && (forall c :: 0 <= c < |s.calls| && PendingOrder(s.calls[c].pc).Some? ==>
          && PendingOrder(s.calls[c].pc).value < s.nextOrder
          && (forall i :: 0 <= i < |s.shop.orders| ==> s.shop.orders[i].id != PendingOrder(s.calls[c].pc).value))
    && (forall c, d :: 0 <= c < d < |s.calls| && PendingOrder(s.calls[c].pc).Some? ==>
          PendingOrder(s.calls[c].pc) != PendingOrder(s.calls[d].pc))
  }

  predicate EventIdsOk(s: State) {
    && (forall i :: 0 <= i < |s.shop.outbox| ==> s.shop.outbox[i].id < s.nextEvent)
    && (forall i, j :: 0 <= i < j < |s.shop.outbox| ==> s.shop.outbox[i].id != s.shop.outbox[j].id)
    && (forall c :: 0 <= c < |s.calls| && PendingEvent(s.calls[c].pc).Some? ==>
          && PendingEvent(s.calls[c].pc).value < s.nextEvent
          && (forall i :: 0 <= i < |s.shop.outbox| ==> s.shop.outbox[i].id != PendingEvent(s.calls[c].pc).value))
    && (forall c, d :: 0 <= c < d < |s.calls| && PendingEvent(s.calls[c].pc).Some? ==>
          PendingEvent(s.calls[c].pc) != PendingEvent(s.calls[d].pc))
  }

  lemma StepKeepsRows(s: State, e: Event)
    requires RowsOk(s) && Can(s, e)
    ensures RowsOk(Do(s, e))
  {
  }

  lemma CommitKeepsOrderIds(s: State, e: Event)
    requires OrderIdsOk(s) && Can(s, e) && e.Commit?
    ensures OrderIdsOk(Do(s, e))
  {
  }

  lemma InsertKeepsOrderIds(s: State, e: Event)
    requires OrderIdsOk(s) && Can(s, e) && e.InsertOrder?
    ensures OrderIdsOk(Do(s, e))
  {
  }

  lemma StepKeepsOrderIds(s: State, e: Event)
    requires OrderIdsOk(s) && Can(s, e)
    ensures OrderIdsOk(Do(s, e))
  {
    if e.Commit? {
      CommitKeepsOrderIds(s, e);
    } else if e.InsertOrder? {
      InsertKeepsOrderIds(s, e);
    } else {
      assert Do(s, e).shop == s.shop;
    }
  }

  lemma CommitKeepsEventIds(s: State, e: Event)
    requires EventIdsOk(s) && Can(s, e) && e.Commit?
    ensures EventIdsOk(Do(s, e))
  {
  }

  lemma StepKeepsEventIds(s: State, e: Event)
    requires EventIdsOk(s) && Can(s, e)
    ensures EventIdsOk(Do(s, e))
  {
    if e.Commit? {
      CommitKeepsEventIds(s, e);
    } else {
      assert Do(s, e).shop == s.shop;
    }
  }

  // ----- how many -----

  function Won(call: Call): nat {
    if PlacedOrder(call.pc).Some? then 1 else 0
  }

  predicate CountsOk(s: State) {
    |s.shop.orders| == Sum(s.calls, Won)
  }

  lemma StepKeepsCounts(s: State, e: Event)
    requires CountsOk(s) && Can(s, e)
    ensures CountsOk(Do(s, e))
  {
    if e.Arrive? {
      SumAppend(s.calls, Won, Call(e.request, Arrived));
    } else {
      var call := s.calls[e.c].(pc := NextPc(s, s.calls[e.c], e));
      SumUpdate(s.calls, Won, e.c, call);
    }
  }

  predicate HasRow(s: State, c: CallId) {
    exists i :: 0 <= i < |s.shop.outbox| && s.shop.outbox[i].requestId == c
  }

  predicate PlacedHaveRows(s: State) {
    forall c :: 0 <= c < |s.calls| && PlacedOrder(s.calls[c].pc).Some? ==> HasRow(s, c)
  }

  lemma StepKeepsPlaced(s: State, e: Event)
    requires PlacedHaveRows(s) && Can(s, e)
    ensures PlacedHaveRows(Do(s, e))
  {
    var s' := Do(s, e);
    forall c | 0 <= c < |s'.calls| && PlacedOrder(s'.calls[c].pc).Some? ensures HasRow(s', c) {
      if e.Commit? && c == e.c {
        assert s'.shop.outbox[|s.shop.outbox|].requestId == c;
      } else {
        var i :| 0 <= i < |s.shop.outbox| && s.shop.outbox[i].requestId == c;
        assert s'.shop.outbox[i] == s.shop.outbox[i];
      }
    }
  }

  predicate Records(s: State) {
    RowsOk(s) && PlacedHaveRows(s) && OrderIdsOk(s) && EventIdsOk(s) && CountsOk(s)
  }

  lemma {:induction false} RunKeepsRecords(init: map<ProductId, int>, es: seq<Event>)
    requires Run(Init(init), es).Some?
    ensures Records(Run(Init(init), es).value)
  {
    if es != [] {
      RunKeepsRecords(init, es[..|es| - 1]);
      var s, e := Run(Init(init), es[..|es| - 1]).value, es[|es| - 1];
      StepKeepsRows(s, e);
      StepKeepsPlaced(s, e);
      StepKeepsOrderIds(s, e);
      StepKeepsEventIds(s, e);
      StepKeepsCounts(s, e);
    }
  }

  /** Committed orders, outbox rows and calls that placed an order correspond one to one, each order being
      the one its call asked for; identifiers are unique.  So a call that was refused, was rolled back or is
      unfinished has no row. */
  lemma OneRowPerOrder(init: map<ProductId, int>, es: seq<Event>)
    requires Run(Init(init), es).Some?
    ensures var s := Run(Init(init), es).value;
            && |s.shop.orders| == |s.shop.outbox|
            && (forall i :: 0 <= i < |s.shop.orders| ==>
                  var row := s.shop.outbox[i];
                  && row.orderId == s.shop.orders[i].id && row.requestId < |s.calls|
                  && PlacedOrder(s.calls[row.requestId].pc) == Some(row.orderId)
                  && s.shop.orders[i].request == s.calls[row.requestId].request)
            && (forall i, j :: 0 <= i < j < |s.shop.orders| ==>
                  && s.shop.orders[i].id != s.shop.orders[j].id && s.shop.outbox[i].id != s.shop.outbox[j].id
                  && s.shop.outbox[i].requestId != s.shop.outbox[j].requestId)
            && (forall c :: 0 <= c < |s.calls| ==> (HasRow(s, c) <==> PlacedOrder(s.calls[c].pc).Some?))
  {
    RunKeepsRecords(init, es);
  }

  // ----- what becomes of an inserted order -----

  predicate HasOrder(shop: Shop, o: OrderId) {
    exists i :: 0 <= i < |shop.orders| && shop.orders[i].id == o
  }

  /** Call c inserted order o: it is still running, has committed it, or has left nothing of it. */
  predicate Fate(s: State, c: CallId, o: OrderId) {
    && c < |s.calls| && o < s.nextOrder
    && var pc := s.calls[c].pc;
       || PendingOrder(pc) == Some(o)
       || (PlacedOrder(pc) == Some(o) && HasOrder(s.shop, o))
       || ((pc.Conflicting? || pc.Rejected? || pc.RolledBack?) && !HasOrder(s.shop, o)
           && forall d :: 0 <= d < |s.calls| ==> PendingOrder(s.calls[d].pc) != Some(o))
  }

  lemma StepKeepsFate(s: State, e: Event, c: CallId, o: OrderId)
    requires OrderIdsOk(s) && Fate(s, c, o) && Can(s, e)
    ensures Fate(Do(s, e), c, o)
  {
    var s' := Do(s, e);
    if HasOrder(s.shop, o) {
      var i :| 0 <= i < |s.shop.orders| && s.shop.orders[i].id == o;
      assert s'.shop.orders[i].id == o;
    }
    if e.Commit? {
      assert s'.shop.orders[|s.shop.orders|].id == s.calls[e.c].pc.orderId;
      assert PendingOrder(s.calls[e.c].pc) == Some(s.calls[e.c].pc.orderId);
    }
  }

  lemma {:induction false} RunKeepsFate(init: map<ProductId, int>, es: seq<Event>, fs: seq<Event>, c: CallId)
    requires es <= fs && Run(Init(init), fs).Some? && Run(Init(init), es).Some?
    requires var s := Run(Init(init), es).value; c < |s.calls| && PendingOrder(s.calls[c].pc).Some?
    ensures Fate(Run(Init(init), fs).value, c, PendingOrder(Run(Init(init), es).value.calls[c].pc).value)
  {
    RunKeepsRecords(init, es);
    if fs != es {
      var n := |fs| - 1;
      RunKeepsFate(init, es, fs[..n], c);
      RunKeepsRecords(init, fs[..n]);
      var o := PendingOrder(Run(Init(init), es).value.calls[c].pc).value;
      StepKeepsFate(Run(Init(init), fs[..n]).value, fs[n], c, o);
    }
  }

  /** An order that a call has inserted is ever visible if and only if that call has committed: a rollback,
      for whatever reason, leaves nothing of it, and nobody else commits an order under its identifier. */
  lemma VisibleIfCommitted(init: map<ProductId, int>, es: seq<Event>, fs: seq<Event>, c: CallId)
    requires es <= fs && Run(Init(init), fs).Some? && Run(Init(init), es).Some?
    requires var s := Run(Init(init), es).value; c < |s.calls| && PendingOrder(s.calls[c].pc).Some?
    ensures var o := PendingOrder(Run(Init(init), es).value.calls[c].pc).value;
            var s := Run(Init(init), fs).value;
            c < |s.calls| && (HasOrder(s.shop, o) <==> PlacedOrder(s.calls[c].pc) == Some(o))
  {
    RunKeepsFate(init, es, fs, c);
    RunKeepsRecords(init, fs);
  }

  predicate Acts(e: Event, c: CallId) {
    !e.Arrive? && e.c == c
  }

  lemma {:induction false} OnlyCallsAct(init: map<ProductId, int>, es: seq<Event>, c: CallId)
    requires Run(Init(init), es).Some? && c >= |Run(Init(init), es).value.calls|
    ensures forall e :: e in es ==> !Acts(e, c)
  {
    if es != [] {
      var n := |es| - 1;
      OnlyCallsAct(init, es[..n], c);
      assert es == es[..n] + [es[n]];
    }
  }

  /** How a call ended can be read off its own events: a rollback for an infrastructure failure, a commit
      with its answer, a commit without. */
  predicate Told(s: State, es: seq<Event>, c: CallId)
    requires c < |s.calls|
  {
    && (s.calls[c].pc.RolledBack? <==> Fail(c) in es)
    && (s.calls[c].pc.Unanswered? <==> Commit(c, false) in es)
    && (s.calls[c].pc.Done? <==> Commit(c, true) in es)
  }

  lemma StepTells(s: State, es: seq<Event>, e: Event, c: CallId)
    requires Can(s, e) && c < |s.calls| && Told(s, es, c)
    ensures Told(Do(s, e), es + [e], c)
  {
  }

  lemma {:induction false} OutcomeTells(init: map<ProductId, int>, es: seq<Event>, c: CallId)
    requires Run(Init(init), es).Some? && c < |Run(Init(init), es).value.calls|
    ensures Told(Run(Init(init), es).value, es, c)
  {
    var n := |es| - 1;
    var s := Run(Init(init), es[..n]).value;
    assert es == es[..n] + [es[n]];
    if c < |s.calls| {
      OutcomeTells(init, es[..n], c);
      StepTells(s, es[..n], es[n], c);
    } else {
      OnlyCallsAct(init, es[..n], c);
      assert !Acts(Fail(c), c) || Fail(c) !in es[..n];
    }
  }

  lemma StaysRolledBack(s: State, e: Event, c: CallId)
    requires Can(s, e) && c < |s.calls|
    ensures s.calls[c].pc.RolledBack? || e == Fail(c) ==> Do(s, e).calls[c].pc.RolledBack?
  {
  }

  lemma {:induction false} FailRollsBack(init: map<ProductId, int>, es: seq<Event>, c: CallId)
    requires Run(Init(init), es).Some? && Fail(c) in es
    ensures var s := Run(Init(init), es).value; c < |s.calls| && s.calls[c].pc.RolledBack?
  {
    var n := |es| - 1;
    if es[n] != Fail(c) {
      assert es == es[..n] + [es[n]];
      FailRollsBack(init, es[..n], c);
    }
    StaysRolledBack(Run(Init(init), es[..n]).value, es[n], c);
  }

  /** A call that has failed has been rolled back for good: no order row, no outbox row, no accepted place. */
  lemma FailureLeavesNothing(init: map<ProductId, int>, es: seq<Event>, c: CallId)
    requires Valid(init) && Run(Init(init), es).Some? && Fail(c) in es
    ensures var s := Run(Init(init), es).value;
            && c < |s.calls| && s.calls[c].pc.RolledBack? && !HasRow(s, c)
            && (forall o :: !Logs(s, c, Some(o)))
  {
    FailRollsBack(init, es, c);
    OneRowPerOrder(init, es);
    TransactionsAreAtomic(init, es);
  }

  // ----- maximal sales -----

  lemma {:induction false} SoldAtOnePrice(orders: seq<OrderRow>, p: ProductId, q: int)
    requires forall i :: 0 <= i < |orders| ==>
               orders[i].request.productId == p && orders[i].request.quantity == q
    ensures Sold(orders, p) == |orders| * q
  {
    if orders != [] {
      SoldAtOnePrice(orders[..|orders| - 1], p, q);
    }
  }

  lemma Monotone(x: int, y: int, q: int)
    requires q >= 1
    ensures x > y ==> x * q >= y * q + q
  {
    if x > y {
      var d := x - y - 1;
      assert d * q >= 0;
      assert x * q == (y + 1 + d) * q == y * q + q + d * q;
    }
  }

  /** w is the quotient of a by q when w shares of q, and no share more, fit into a. */
  lemma Quotient(a: int, w: int, q: int)
    requires 0 < q && 0 <= a - w * q
    ensures w <= a / q
    ensures a - w * q < q ==> w == a / q
  {
    assert a == a / q * q + a % q;
    Monotone(w, a / q, q);
    Monotone(a / q, w, q);
  }

  lemma {:induction false} AtMostAll(calls: seq<Call>)
    ensures (forall c :: 0 <= c < |calls| ==> PlacedOrder(calls[c].pc).Some?) ==> Sum(calls, Won) == |calls|
    ensures Sum(calls, Won) <= |calls|
  {
    if calls != [] {
      AtMostAll(calls[1..]);
      assert forall c :: 0 <= c < |calls[1..]| ==> calls[1..][c] == calls[c + 1];
    }
  }

  /** Calls for the same quantity of one product, all finished and none rolled back by an infrastructure
      failure: exactly as many succeed as the initial stock allows. */
  lemma SalesAreMaximal(init: map<ProductId, int>, es: seq<Event>, p: ProductId, q: int)
    requires Valid(init) && Run(Init(init), es).Some? && p in init && q >= 1
    requires forall c :: 0 <= c < |Run(Init(init), es).value.calls| ==>
               var call := Run(Init(init), es).value.calls[c];
               && call.request.productId == p && call.request.quantity == q
               && (PlacedOrder(call.pc).Some? || call.pc.Rejected?)
    ensures var s := Run(Init(init), es).value;
            var n := |s.calls|;
            && Sum(s.calls, Won) == (if n <= init[p] / q then n else init[p] / q)
            && |s.shop.orders| == Sum(s.calls, Won)
            && p in s.shop.stock && s.shop.stock[p] == init[p] - Sum(s.calls, Won) * q
  {
    var s := Run(Init(init), es).value;
    RunKeepsInv(init, es);
    RunKeepsRecords(init, es);
    AtMostAll(s.calls);
    SoldAtOnePrice(s.shop.orders, p, q);
    var w := |s.shop.orders|;
    assert s.shop.stock[p] == init[p] - w * q;
    Quotient(init[p], w, q);
  }
}
