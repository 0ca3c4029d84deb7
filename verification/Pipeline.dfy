/**
 The whole pipeline: the order database and one delivery lane for every committed order, on one clock.

 A commit opens the order's lane with its outbox row; from then on any lane and any create call may take
 the next step.  All laws of lanes hold of every lane here, for they are runs of the delivery machine.
 */
module Pipeline {
  import opened Options
  import D = Delivery
  import O = OrderStore
  import OrderLaws
  import OrderRecords
  import Accounting
  import Lineage
  import NoLoss

  datatype System = System(now: nat, shop: O.State, lanes: map<O.OrderId, D.Lane>)

  datatype Event =
    | Order(db: O.Event)
    | Deliver(order: O.OrderId, step: D.Event)
    | Tick(d: nat)

  function Init(stock: map<O.ProductId, int>, t: nat): System {
    System(t, O.Init(stock), map[])
  }

  predicate Can(s: System, e: Event) {
    match e
    case Order(oe) => O.Can(s.shop, oe)
    case Deliver(order, de) => order in s.lanes && !de.Tick? && D.Can(s.lanes[order], de)
    case Tick(_) => true
  }

  function Do(s: System, e: Event): System
    requires Can(s, e)
  {
    match e
    case Order(oe) =>
      var shop := O.Do(s.shop, oe);
      s.(shop := shop,
         lanes := if oe.Commit? then s.lanes[s.shop.calls[oe.c].pc.orderId := D.Start(s.now)] else s.lanes)
    case Deliver(order, de) => s.(lanes := s.lanes[order := D.Do(s.lanes[order], de)])
    case Tick(d) =>
      s.(now := s.now + d, lanes := map o | o in s.lanes :: D.Do(s.lanes[o], D.Tick(d)))
  }

  function Run(s: System, es: seq<Event>): Option<System> {
    if es == [] then Some(s)
    else
      var r := Run(s, es[..|es| - 1]);
      if r.Some? && Can(r.value, es[|es| - 1]) then Some(Do(r.value, es[|es| - 1])) else None
  }

  /** Every event of the database, of a lane and of the clock can happen here when it can happen there. */
  lemma EventCan(s: System, e: Event)
    ensures Can(s, e) <==>
            match e
            case Order(oe) => O.Can(s.shop, oe)
            case Deliver(o, de) => o in s.lanes && D.Can(s.lanes[o], de) && !de.Tick?
            case Tick(_) => true
  {
  }

  /** A commit opens the order's lane now; an event of a lane concerns that lane only; and time passes for all
      lanes alike. */
  lemma EventStep(s: System, e: Event)
    requires Can(s, e)
    ensures var s' := Do(s, e);
            match e
            case Order(oe) =>
              && s'.now == s.now && s'.shop == O.Do(s.shop, oe)
              && s'.lanes == if oe.Commit? then s.lanes[s.shop.calls[oe.c].pc.orderId := D.Start(s.now)] else s.lanes
            case Deliver(o, de) =>
              && s'.now == s.now && s'.shop == s.shop
              && s'.lanes.Keys == s.lanes.Keys && s'.lanes[o] == D.Do(s.lanes[o], de)
              && forall p :: p in s.lanes && p != o ==> s'.lanes[p] == s.lanes[p]
            case Tick(d) =>
              && s'.now == s.now + d && s'.shop == s.shop && s'.lanes.Keys == s.lanes.Keys
              && forall o :: o in s.lanes ==> s'.lanes[o] == D.Do(s.lanes[o], D.Tick(d))
  {
  }

  // ----- every lane is a run of the delivery machine -----

  ghost predicate IsRun(l: D.Lane, now: nat) {
    l.now == now && exists t, es :: D.Run(D.Start(t), es) == Some(l)
  }

  /** The events of the database in a history of the pipeline. */
  function OrderEvents(es: seq<Event>): seq<O.Event> {
    if es == [] then []
    else
      var e := es[|es| - 1];
      OrderEvents(es[..|es| - 1]) + if e.Order? then [e.db] else []
  }

  ghost predicate Inv(s: System) {
    && (forall o :: o in s.lanes <==> OrderRecords.HasOrder(s.shop.shop, o))
    && (forall o :: o in s.lanes ==> IsRun(s.lanes[o], s.now))
  }

  lemma LaneStep(l: D.Lane, now: nat, e: D.Event)
    requires IsRun(l, now) && D.Can(l, e)
    ensures IsRun(D.Do(l, e), D.Do(l, e).now)
  {
    var t, es :| D.Run(D.Start(t), es) == Some(l);
    D.Extend(D.Start(t), es, e);
  }

  lemma LaneStart(t: nat)
    ensures IsRun(D.Start(t), t)
  {
    assert D.Run(D.Start(t), []) == Some(D.Start(t));
  }

  /** A committed order is an inserted one whose identifier was new, so its lane is new as well. */
  lemma CommitStep(s: System, e: Event)
    requires Inv(s) && OrderRecords.Records(s.shop) && Can(s, e) && e.Order? && e.db.Commit?
    ensures Inv(Do(s, e))
    ensures s.shop.calls[e.db.c].pc.orderId !in s.lanes
  {
    var id := s.shop.calls[e.db.c].pc.orderId;
    var s' := Do(s, e);
    assert OrderRecords.PendingOrder(s.shop.calls[e.db.c].pc) == Some(id);
    var n := |s.shop.shop.orders|;
    assert s'.shop.shop.orders[n].id == id;
    forall o ensures o in s'.lanes <==> OrderRecords.HasOrder(s'.shop.shop, o) {
      if OrderRecords.HasOrder(s.shop.shop, o) {
        var i :| 0 <= i < n && s.shop.shop.orders[i].id == o;
        assert s'.shop.shop.orders[i].id == o;
      }
    }
    LaneStart(s.now);
  }

  lemma OtherOrderStep(s: System, e: Event)
    requires Inv(s) && Can(s, e) && e.Order? && !e.db.Commit?
    ensures Inv(Do(s, e))
  {
    assert Do(s, e).shop.shop == s.shop.shop && Do(s, e).lanes == s.lanes;
  }

  lemma DeliverStep(s: System, e: Event)
    requires Inv(s) && Can(s, e) && e.Deliver?
    ensures Inv(Do(s, e))
  {
    LaneStep(s.lanes[e.order], s.now, e.step);
  }

  lemma TickStep(s: System, e: Event)
    requires Inv(s) && Can(s, e) && e.Tick?
    ensures Inv(Do(s, e))
  {
    forall o | o in s.lanes ensures IsRun(D.Do(s.lanes[o], D.Tick(e.d)), s.now + e.d) {
      LaneStep(s.lanes[o], s.now, D.Tick(e.d));
    }
  }

  lemma StepKeepsInv(s: System, e: Event)
    requires Inv(s) && OrderRecords.Records(s.shop) && Can(s, e)
    ensures Inv(Do(s, e))
  {
    match e {
      case Order(oe) => if oe.Commit? { CommitStep(s, e); } else { OtherOrderStep(s, e); }
      case Deliver(_, _) => DeliverStep(s, e);
      case Tick(_) => TickStep(s, e);
    }
  }

  /** Seen from the database, the pipeline is a run of the order machine. */
  lemma {:induction false} OrdersRun(stock: map<O.ProductId, int>, t: nat, es: seq<Event>)
    requires Run(Init(stock, t), es).Some?
    ensures O.Run(O.Init(stock), OrderEvents(es)) == Some(Run(Init(stock, t), es).value.shop)
  {
    if es != [] {
      var n := |es| - 1;
      OrdersRun(stock, t, es[..n]);
      var before := OrderEvents(es[..n]);
      if es[n].Order? {
        assert (before + [es[n].db])[..|before + [es[n].db]| - 1] == before;
      } else {
        assert before + [] == before;
      }
    }
  }

  lemma {:induction false} RunKeepsInv(stock: map<O.ProductId, int>, t: nat, es: seq<Event>)
    requires Run(Init(stock, t), es).Some?
    ensures Inv(Run(Init(stock, t), es).value)
  {
    if es != [] {
      var n := |es| - 1;
      RunKeepsInv(stock, t, es[..n]);
      OrdersRun(stock, t, es[..n]);
      OrderRecords.RunKeepsRecords(stock, OrderEvents(es[..n]));
      StepKeepsInv(Run(Init(stock, t), es[..n]).value, es[n]);
    } else {
      assert forall o :: !OrderRecords.HasOrder(Init(stock, t).shop.shop, o);
    }
  }

  // ----- what the pipeline promises -----

  /** Every lane is a run of the delivery machine, and there is one exactly for every committed order. */
  lemma EveryLaneIsARun(stock: map<O.ProductId, int>, t: nat, es: seq<Event>, o: O.OrderId)
    requires Run(Init(stock, t), es).Some?
    ensures var s := Run(Init(stock, t), es).value;
            && (o in s.lanes <==> OrderRecords.HasOrder(s.shop.shop, o))
            && (o in s.lanes ==> exists u, fs :: D.Run(D.Start(u), fs) == Some(s.lanes[o]))
  {
    RunKeepsInv(stock, t, es);
  }

  /** Position i of the tables holds order o and its one outbox row, written by the call that placed o. */
  predicate SoleRow(s: O.State, o: O.OrderId, i: nat) {
    && i < |s.shop.orders| && s.shop.orders[i].id == o
    && i < |s.shop.outbox| && s.shop.outbox[i].orderId == o
    && s.shop.outbox[i].requestId < |s.calls|
    && O.PlacedOrder(s.calls[s.shop.outbox[i].requestId].pc) == Some(o)
    && (forall j :: 0 <= j < |s.shop.outbox| && j != i ==> s.shop.outbox[j].orderId != o)
  }

  /** Whatever has a row, a copy, a handler or a notification is a committed order, which has one outbox
      row and was placed by the call that wrote it. */
  lemma EveryLaneHasItsRow(stock: map<O.ProductId, int>, t: nat, es: seq<Event>, o: O.OrderId)
    requires Run(Init(stock, t), es).Some? && o in Run(Init(stock, t), es).value.lanes
    ensures exists i :: 0 <= i < |Run(Init(stock, t), es).value.shop.shop.outbox| &&
              SoleRow(Run(Init(stock, t), es).value.shop, o, i)
  {
    RunKeepsInv(stock, t, es);
    OrdersRun(stock, t, es);
    OrderRecords.RunKeepsRecords(stock, OrderEvents(es));
    var s := Run(Init(stock, t), es).value;
    assert OrderRecords.HasOrder(s.shop.shop, o);
    var i :| 0 <= i < |s.shop.shop.orders| && s.shop.shop.orders[i].id == o;
    assert SoleRow(s.shop, o, i);
  }

  lemma {:induction false} OrderEventsGrow(es: seq<Event>, fs: seq<Event>)
    requires es <= fs
    ensures OrderEvents(es) <= OrderEvents(fs)
  {
    if fs != es {
      OrderEventsGrow(es, fs[..|fs| - 1]);
    }
  }

  /** No phantom: once call c has inserted order o, there is ever anything to deliver for o, be it a row, a
      copy, a handler or a notification, if and only if c has committed.  A call that is refused or rolled
      back, for whatever reason and at whatever step, never notifies. */
  lemma NoPhantomNotification(stock: map<O.ProductId, int>, t: nat, es: seq<Event>, fs: seq<Event>, c: O.CallId)
    requires es <= fs && Run(Init(stock, t), fs).Some? && Run(Init(stock, t), es).Some?
    requires var s := Run(Init(stock, t), es).value.shop;
             c < |s.calls| && OrderRecords.PendingOrder(s.calls[c].pc).Some?
    ensures var o := OrderRecords.PendingOrder(Run(Init(stock, t), es).value.shop.calls[c].pc).value;
            var s := Run(Init(stock, t), fs).value;
            c < |s.shop.calls| && (o in s.lanes <==> O.PlacedOrder(s.shop.calls[c].pc) == Some(o))
  {
    OrdersRun(stock, t, es);
    OrdersRun(stock, t, fs);
    OrderEventsGrow(es, fs);
    OrderRecords.VisibleIfCommitted(stock, OrderEvents(es), OrderEvents(fs), c);
    RunKeepsInv(stock, t, fs);
  }

  /** Every committed order is delivered or still on its way, and it is notified at most once more than
      there were excusing events. */
  lemma EveryOrderIsDelivered(stock: map<O.ProductId, int>, t: nat, es: seq<Event>, i: nat)
    requires Run(Init(stock, t), es).Some? && i < |Run(Init(stock, t), es).value.shop.shop.orders|
    ensures var s := Run(Init(stock, t), es).value;
            var o := s.shop.shop.orders[i].id;
            && o in s.lanes
            && (!s.lanes[o].outbox.row.status.Sent? || (exists c :: c in s.lanes[o].broker.copies)
                || s.lanes[o].account.notified > 0)
            && s.lanes[o].account.notified <= 1 + |s.lanes[o].account.excuses|
  {
    RunKeepsInv(stock, t, es);
    var s := Run(Init(stock, t), es).value;
    var o := s.shop.shop.orders[i].id;
    assert OrderRecords.HasOrder(s.shop.shop, o);
    var t0, fs :| D.Run(D.Start(t0), fs) == Some(s.lanes[o]);
    NoLoss.NoOrderIsLost(t0, fs);
    Accounting.NotificationAccounting(t0, fs);
  }

  // ----- from the stock to the notifications -----

  /** The committed orders of a product that have been notified. */
  function NotifiedOrders(s: System, p: O.ProductId, n: nat): set<O.OrderId>
    requires n <= |s.shop.shop.orders|
  {
    set i | 0 <= i < n && s.shop.shop.orders[i].request.productId == p
            && s.shop.shop.orders[i].id in s.lanes
            && s.lanes[s.shop.shop.orders[i].id].account.notified > 0 :: s.shop.shop.orders[i].id
  }

  lemma {:induction false} NotifiedAreSold(s: System, p: O.ProductId, n: nat)
    requires n <= |s.shop.shop.orders|
    requires forall i :: 0 <= i < |s.shop.shop.orders| ==> s.shop.shop.orders[i].request.quantity >= 1
    ensures |NotifiedOrders(s, p, n)| <= OrderLaws.Sold(s.shop.shop.orders[..n], p)
  {
    if n > 0 {
      NotifiedAreSold(s, p, n - 1);
      var orders := s.shop.shop.orders;
      assert orders[..n][..n - 1] == orders[..n - 1];
      var rest := NotifiedOrders(s, p, n - 1);
      var all := NotifiedOrders(s, p, n);
      assert all <= rest + {orders[n - 1].id};
      if orders[n - 1].request.productId == p {
        Lineage.SubsetSize(all, rest + {orders[n - 1].id});
      } else {
        Lineage.SubsetSize(all, rest);
      }
    }
  }

  /** End to end: no more orders of a product are ever notified than it had pieces in stock. */
  lemma NotificationsAreCoveredByStock(stock: map<O.ProductId, int>, t: nat, es: seq<Event>, p: O.ProductId)
    requires OrderLaws.Valid(stock) && p in stock && Run(Init(stock, t), es).Some?
    ensures var s := Run(Init(stock, t), es).value;
            |NotifiedOrders(s, p, |s.shop.shop.orders|)| <= stock[p]
  {
    var s := Run(Init(stock, t), es).value;
    OrdersRun(stock, t, es);
    OrderLaws.RunKeepsInv(stock, OrderEvents(es));
    OrderRecords.RunKeepsRecords(stock, OrderEvents(es));
    NotifiedAreSold(s, p, |s.shop.shop.orders|);
    assert s.shop.shop.orders[..|s.shop.shop.orders|] == s.shop.shop.orders;
  }
}
