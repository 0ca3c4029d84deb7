/** The stock laws of order creation, over every interleaving. */
module OrderLaws {
  import opened Options
  import opened OrderStore

  // ----- sums over calls and orders -----

  function Sum(calls: seq<Call>, f: Call -> nat): nat {
    if calls == [] then 0 else f(calls[0]) + Sum(calls[1..], f)
  }

  lemma {:induction false} SumUpdate(calls: seq<Call>, f: Call -> nat, i: nat, x: Call)
    requires i < |calls|
    ensures Sum(calls[i := x], f) + f(calls[i]) == Sum(calls, f) + f(x)
  {
    if i > 0 {
      assert calls[i := x][1..] == calls[1..][i - 1 := x];
      SumUpdate(calls[1..], f, i - 1, x);
    } else {
      assert calls[0 := x][1..] == calls[1..];
    }
  }

  lemma {:induction false} SumAppend(calls: seq<Call>, f: Call -> nat, x: Call)
    ensures Sum(calls + [x], f) == Sum(calls, f) + f(x)
  {
    if calls != [] {
      assert (calls + [x])[1..] == calls[1..] + [x];
      SumAppend(calls[1..], f, x);
    } else {
      assert calls + [x] == [x];
    }
  }

  /** What the committed orders take of a product. */
  function Sold(orders: seq<OrderRow>, p: ProductId): int {
    if orders == [] then 0
    else
      var r := orders[|orders| - 1].request;
      Sold(orders[..|orders| - 1], p) + if r.productId == p then r.quantity else 0
  }

  // ----- the invariant -----

  /** The row lock belongs to the one call that holds it, whose new stock is still the right one. */
  predicate LocksOk(s: State) {
    && (forall p :: p in s.locks ==>
          && s.locks[p] < |s.calls| && s.calls[s.locks[p]].pc.Holding?
          && s.calls[s.locks[p]].request.productId == p)
    && (forall c :: 0 <= c < |s.calls| && s.calls[c].pc.Holding? ==>
          var r := s.calls[c].request;
          && r.productId in s.locks && s.locks[r.productId] == c
          && Available(s.shop, r) && s.calls[c].pc.left == s.shop.stock[r.productId] - r.quantity)
  }

  predicate StockOk(s: State, init: map<ProductId, int>) {
    && s.shop.stock.Keys == init.Keys
    && (forall p :: p in init ==> 0 <= s.shop.stock[p] && s.shop.stock[p] + Sold(s.shop.orders, p) == init[p])
  }

  /** A refused call asks for more than there is, now and for ever after. */
  predicate RefusalsOk(s: State) {
    && (forall c :: 0 <= c < |s.calls| ==> s.calls[c].request.quantity >= 1)
    && (forall c :: 0 <= c < |s.calls| && (s.calls[c].pc.Rejected? || s.calls[c].pc.Conflicting?) ==>
          !Available(s.shop, s.calls[c].request))
  }

  predicate Inv(s: State, init: map<ProductId, int>) {
    LocksOk(s) && StockOk(s, init) && RefusalsOk(s)
  }

  /** A commit changes one stock, whose lock it releases; no other call holds that lock. */
  lemma CommitKeepsLocks(s: State, e: Event)
    requires LocksOk(s) && Can(s, e) && e.Commit?
    ensures LocksOk(Do(s, e))
  {
    var p := s.calls[e.c].request.productId;
    forall c | 0 <= c < |s.calls| && c != e.c && s.calls[c].pc.Holding?
      ensures s.calls[c].request.productId != p
    {
      assert s.locks[s.calls[c].request.productId] == c && s.locks[p] == e.c;
    }
  }

  lemma DecreaseKeepsLocks(s: State, e: Event)
    requires LocksOk(s) && Can(s, e) && e.Decrease?
    ensures LocksOk(Do(s, e))
  {
  }

  lemma StepKeepsLocks(s: State, e: Event)
    requires LocksOk(s) && Can(s, e)
    ensures LocksOk(Do(s, e))
  {
    if e.Commit? {
      CommitKeepsLocks(s, e);
    } else if e.Decrease? {
      DecreaseKeepsLocks(s, e);
    }
  }

  lemma StepKeepsRefusals(s: State, e: Event, init: map<ProductId, int>)
    requires Inv(s, init) && Can(s, e)
    ensures RefusalsOk(Do(s, e))
  {
  }

  lemma StepKeepsStock(s: State, e: Event, init: map<ProductId, int>)
    requires Inv(s, init) && Can(s, e)
    ensures StockOk(Do(s, e), init)
  {
    if e.Commit? {
      var orders := Do(s, e).shop.orders;
      assert orders[..|orders| - 1] == s.shop.orders;
    }
  }

  predicate Valid(init: map<ProductId, int>) {
    forall p :: p in init ==> init[p] >= 0
  }

  lemma {:induction false} RunKeepsInv(init: map<ProductId, int>, es: seq<Event>)
    requires Valid(init) && Run(Init(init), es).Some?
    ensures Inv(Run(Init(init), es).value, init)
  {
    if es != [] {
      RunKeepsInv(init, es[..|es| - 1]);
      var s := Run(Init(init), es[..|es| - 1]).value;
      StepKeepsLocks(s, es[|es| - 1]);
      StepKeepsRefusals(s, es[|es| - 1], init);
      StepKeepsStock(s, es[|es| - 1], init);
    }
  }

  /** In every committed state: no negative stock, and stock plus sales is the initial stock. */
  lemma StockIsConserved(init: map<ProductId, int>, es: seq<Event>, p: ProductId)
    requires Valid(init) && Run(Init(init), es).Some? && p in init
    ensures var shop := Run(Init(init), es).value.shop;
            && p in shop.stock && shop.stock[p] >= 0
            && shop.stock[p] + Sold(shop.orders, p) == init[p]
  {
    RunKeepsInv(init, es);
  }

  /** A call refused at any time asks for more than the stock at any later time. */
  lemma RejectionIsJustified(init: map<ProductId, int>, es: seq<Event>, c: CallId)
    requires Valid(init) && Run(Init(init), es).Some?
    requires var s := Run(Init(init), es).value; c < |s.calls| && s.calls[c].pc.Rejected?
    ensures var s := Run(Init(init), es).value;
            var r := s.calls[c].request;
            r.productId in s.shop.stock ==> r.quantity > s.shop.stock[r.productId]
  {
    RunKeepsInv(init, es);
  }

  // ----- refinement of the atomic order -----

  predicate LogsAt(s: State, i: nat, c: CallId, order: Option<OrderId>)
    requires i < |s.log|
  {
    s.log[i].call == c && order == if s.log[i].accepted.Some? then Some(s.log[i].accepted.value.0) else None
  }

  /** The log has a place of call c, accepted as the given order or refused. */
  predicate Logs(s: State, c: CallId, order: Option<OrderId>) {
    exists i :: 0 <= i < |s.log| && LogsAt(s, i, c, order)
  }

  predicate LogOk(s: State, shop: Shop) {
    && Replay(shop, s.log) == Some(s.shop)
    && PlacesOk(s)
    && AnswersOk(s)
  }

  /** Calls have one place each, an accepted one only if they have placed that very order. */
  predicate PlacesOk(s: State) {
    && (forall i :: 0 <= i < |s.log| ==>
          && s.log[i].call < |s.calls| && s.log[i].request == s.calls[s.log[i].call].request
          && LogsAt(s, i, s.log[i].call, PlacedOrder(s.calls[s.log[i].call].pc))
          && Decided(s.calls[s.log[i].call].pc))
    && (forall i, j :: 0 <= i < j < |s.log| ==> s.log[i].call != s.log[j].call)
  }

  predicate AnswersOk(s: State) {
    forall c :: 0 <= c < |s.calls| ==>
      (PlacedOrder(s.calls[c].pc).Some? || s.calls[c].pc.Rejected? || s.calls[c].pc.Conflicting? ==>
         Logs(s, c, PlacedOrder(s.calls[c].pc)))
  }

  /** The steps at which a call may have taken its one place in the log. */
  predicate Decided(pc: Pc) {
    pc.Conflicting? || !Active(pc)
  }

  lemma LogsAfter(s: State, s': State, xs: seq<Atomic>, c: CallId, order: Option<OrderId>)
    requires s'.log == s.log + xs
    ensures Logs(s, c, order) ==> Logs(s', c, order)
    ensures |xs| == 1 && LogsAt(s', |s.log|, c, order) ==> Logs(s', c, order)
  {
    if Logs(s, c, order) {
      var i :| 0 <= i < |s.log| && LogsAt(s, i, c, order);
      assert LogsAt(s', i, c, order);
    }
  }

  lemma StepKeepsReplay(s: State, e: Event, shop: Shop)
    requires LocksOk(s) && Replay(shop, s.log) == Some(s.shop) && Can(s, e)
    ensures Replay(shop, Do(s, e).log) == Some(Do(s, e).shop)
  {
    var log := Do(s, e).log;
    if |log| > |s.log| {
      assert log[..|log| - 1] == s.log;
    } else {
      assert log == s.log;
    }
  }

  lemma StepKeepsPlaces(s: State, e: Event)
    requires PlacesOk(s) && Can(s, e)
    ensures PlacesOk(Do(s, e))
  {
    forall i | 0 <= i < |s.log| ensures LogsAt(Do(s, e), i, s.log[i].call, PlacedOrder(s.calls[s.log[i].call].pc)) {
      assert LogsAt(s, i, s.log[i].call, PlacedOrder(s.calls[s.log[i].call].pc));
    }
  }

  lemma StepKeepsAnswers(s: State, e: Event)
    requires AnswersOk(s) && Can(s, e)
    ensures AnswersOk(Do(s, e))
  {
    var s' := Do(s, e);
    var xs := if e.Arrive? then [] else LogEntry(s, e.c, s.calls[e.c], e);
    forall c | 0 <= c < |s'.calls| &&
               (PlacedOrder(s'.calls[c].pc).Some? || s'.calls[c].pc.Rejected? || s'.calls[c].pc.Conflicting?)
      ensures Logs(s', c, PlacedOrder(s'.calls[c].pc))
    {
      LogsAfter(s, s', xs, c, PlacedOrder(s'.calls[c].pc));
    }
  }

  lemma {:induction false} RunKeepsLog(init: map<ProductId, int>, es: seq<Event>)
    requires Valid(init) && Run(Init(init), es).Some?
    ensures LogOk(Run(Init(init), es).value, Shop(init, [], []))
  {
    if es != [] {
      RunKeepsLog(init, es[..|es| - 1]);
      RunKeepsInv(init, es[..|es| - 1]);
      var s, e := Run(Init(init), es[..|es| - 1]).value, es[|es| - 1];
      StepKeepsReplay(s, e, Shop(init, [], []));
      StepKeepsPlaces(s, e);
      StepKeepsAnswers(s, e);
    }
  }

  /** Every interleaving refines a sequence of atomic orders: replaying the log one order at a time gives
      the committed rows, every outcome is the one the stock dictates at that point, and no call has two
      places.  A call has an accepted place if and only if it has placed that order, told so or not; a
      refused one has a refused place; and one that was rolled back or is unfinished has no accepted place,
      so that it contributes nothing. */
  lemma TransactionsAreAtomic(init: map<ProductId, int>, es: seq<Event>)
    requires Valid(init) && Run(Init(init), es).Some?
    ensures var s := Run(Init(init), es).value;
            && Replay(Shop(init, [], []), s.log) == Some(s.shop)
            && (forall i, j :: 0 <= i < j < |s.log| ==> s.log[i].call != s.log[j].call)
            && (forall c: CallId, o: OrderId :: c < |s.calls| ==>
                  (Logs(s, c, Some(o)) <==> PlacedOrder(s.calls[c].pc) == Some(o)))
            && (forall c :: 0 <= c < |s.calls| && s.calls[c].pc.Rejected? ==> Logs(s, c, None))
  {
    RunKeepsLog(init, es);
  }
}
