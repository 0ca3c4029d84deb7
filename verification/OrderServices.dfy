/** Order creation as the source writes it, against the order machine. */
module OrderServices {
  import opened Options
  import opened OrderStore
  import OrderLaws
  import OrderRecords

  datatype Answer = Order(id: OrderId) | Conflict | Failure

  /** What the caller of a finished call is told. */
  function AnswerOf(pc: Pc): Answer
    requires !Active(pc)
  {
    match pc
    case Done(id) => Order(id)
    case Rejected => Conflict
    case RolledBack => Failure
    case Unanswered(_) => Failure
  }

  /** Call c has asked for r and ended with the answer; a failure means a rollback unless the answer to the
      commit was lost. */
  predicate Ended(s: State, c: CallId, r: Request, answer: Answer, answered: bool) {
    && c < |s.calls| && s.calls[c].request == r && !Active(s.calls[c].pc)
    && answer == AnswerOf(s.calls[c].pc)
    && (s.calls[c].pc.Unanswered? ==> !answered)
  }

  /** What the answer means, whatever has happened: the conflict is that the stock is insufficient, an order is
      a committed row with this request, and a failure is a rollback by the infrastructure or a lost answer;
      only a committed call has rows. */
  ghost predicate Truthful(s: State, es: seq<Event>, c: CallId, r: Request, answer: Answer) {
    && c < |s.calls|
    && (answer.Conflict? ==> r.productId in s.shop.stock ==> s.shop.stock[r.productId] < r.quantity)
    && (answer.Order? ==> exists i :: 0 <= i < |s.shop.orders| && s.shop.orders[i] == OrderRow(answer.id, r))
    && (answer.Order? <==> Commit(c, true) in es)
    && (answer.Failure? <==> Fail(c) in es || Commit(c, false) in es)
    && (OrderRecords.HasRow(s, c) <==> Commit(c, true) in es || Commit(c, false) in es)
  }

  lemma EndedIsTruthful(stock: map<ProductId, int>, es: seq<Event>, s: State, c: CallId, r: Request, answer: Answer,
                        answered: bool)
    requires OrderLaws.Valid(stock) && Run(Init(stock), es) == Some(s) && Ended(s, c, r, answer, answered)
    ensures Truthful(s, es, c, r, answer)
  {
    OrderLaws.RunKeepsInv(stock, es);
    OrderRecords.OutcomeTells(stock, es, c);
    OrderRecords.OneRowPerOrder(stock, es);
    if answer.Order? {
      assert OrderRecords.HasRow(s, c);
      var i :| 0 <= i < |s.shop.outbox| && s.shop.outbox[i].requestId == c;
      assert s.shop.orders[i] == OrderRow(answer.id, r);
    }
  }

  /** The infrastructure fails call c while it waits. */
  ghost predicate Breaks(env: nat -> seq<Event>, c: CallId) {
    exists i :: Fail(c) in env(i)
  }

  ghost predicate BreaksAny(env: nat -> nat -> seq<Event>, c: CallId) {
    exists i :: Breaks(env(i), c)
  }

  /** The last event is the end of c's transaction because another call still held the row lock. */
  ghost predicate TimedOut(stock: map<ProductId, int>, es: seq<Event>, c: CallId) {
    && es != [] && es[|es| - 1] == Fail(c)
    && var before := Run(Init(stock), es[..|es| - 1]);
       && before.Some? && c < |before.value.calls| && before.value.calls[c].pc.Logged?
       && before.value.calls[c].request.productId in before.value.locks
  }

  /** What can happen while call c waits: steps of other calls, or c's own infrastructure failure. */
  predicate Foreign(e: Event, c: CallId) {
    !e.Arrive? && e.c == c ==> e.Fail?
  }

  ghost predicate Silent(env: nat -> seq<Event>) {
    forall i :: env(i) == []
  }

  ghost predicate Undisturbed(env: nat -> nat -> seq<Event>) {
    forall i :: Silent(env(i))
  }

  /** The event happens while call c waits in s: it can, and it is not c's own unless it breaks c. */
  predicate Happens(s: State, e: Event, c: CallId) {
    c < |s.calls| && Active(s.calls[c].pc) && Can(s, e) && Foreign(e, c)
  }

  /** What others make of s while call c waits: every event of `others` that can happen, in turn. */
  function Meanwhile(s: State, others: seq<Event>, c: CallId): State {
    if others == [] then s
    else
      var t := Meanwhile(s, others[..|others| - 1], c);
      if Happens(t, others[|others| - 1], c) then Do(t, others[|others| - 1]) else t
  }

  /** The same over n + 1 rounds of waiting. */
  function Rounds(s: State, env: nat -> seq<Event>, n: nat, c: CallId): State {
    Meanwhile(if n == 0 then s else Rounds(s, env, n - 1, c), env(n), c)
  }

  lemma RoundsOneMore(s: State, env: nat -> seq<Event>, n: nat, c: CallId, t: State)
    requires n > 0 && t == Rounds(s, env, n - 1, c)
    ensures Rounds(s, env, n, c) == Meanwhile(t, env(n), c)
  {
  }

  class OrderService {
    const stock: map<ProductId, int>
    var s: State
    ghost var history: seq<Event>

    /** The database is the outcome of a run, so every law of runs holds of it. */
    ghost predicate Valid()
      reads this
    {
      OrderLaws.Valid(stock) && Run(Init(stock), history) == Some(s)
    }

    constructor (stock: map<ProductId, int>)
      requires OrderLaws.Valid(stock)
      ensures Valid() && s == Init(stock)
    {
      this.stock, s, history := stock, Init(stock), [];
    }

    method Step(e: Event)
      requires Valid() && Can(s, e)
      modifies this
      ensures Valid() && s == Do(old(s), e) && history == old(history) + [e]
    {
      Extend(Init(stock), history, e);
      s, history := Do(s, e), history + [e];
    }

    /** Other events happen until the call goes on. */
    method AwaitAll(c: CallId, others: seq<Event>)
      requires Valid() && c < |s.calls| && Active(s.calls[c].pc)
      modifies this
      ensures Valid() && old(history) <= history && c < |s.calls| && |old(s).calls| <= |s.calls|
      ensures s == Meanwhile(old(s), others, c)
      ensures || s.calls[c] == old(s).calls[c]
              || (s.calls[c] == old(s).calls[c].(pc := RolledBack) && Fail(c) in others)
    {
      var i := 0;
      while i < |others|
        invariant 0 <= i <= |others| && Valid() && old(history) <= history
        invariant c < |s.calls| && |old(s).calls| <= |s.calls|
        invariant || s.calls[c] == old(s).calls[c]
                  || (s.calls[c] == old(s).calls[c].(pc := RolledBack) && Fail(c) in others)
        invariant s == Meanwhile(old(s), others[..i], c)
      {
        assert others[..i + 1][..i] == others[..i];
        if Happens(s, others[i], c) {
          Step(others[i]);
        }
        i := i + 1;
      }
      assert others[..i] == others;
    }

    /** The same, as far as the call itself is concerned; failed says whether its transaction was lost. */
    method Await(c: CallId, others: seq<Event>) returns (failed: bool)
      requires Valid() && c < |s.calls| && Active(s.calls[c].pc)
      modifies this
      ensures Valid() && old(history) <= history && |old(s).calls| <= |s.calls|
      ensures s.calls[c] == if failed then old(s).calls[c].(pc := RolledBack) else old(s).calls[c]
      ensures others == [] ==> s == old(s) && !failed
      ensures failed ==> Fail(c) in others
    {
      AwaitAll(c, others);
      failed := s.calls[c].pc.RolledBack?;
    }

    /** The n-th round of waiting. */
    method Round(c: CallId, env: nat -> seq<Event>, n: nat) returns (failed: bool)
      requires Valid() && c < |s.calls| && s.calls[c].pc.Logged?
      modifies this
      ensures Valid() && old(history) <= history && c < |s.calls|
      ensures s.calls[c] == if failed then old(s).calls[c].(pc := RolledBack) else old(s).calls[c]
      ensures s == Meanwhile(old(s), env(n), c)
      ensures failed ==> Breaks(env, c)
      ensures Silent(env) ==> s == old(s) && !failed
    {
      AwaitAll(c, env(n));
      failed := s.calls[c].pc.RolledBack?;
    }

    /** Waits for the row lock, round by round, at most `patience` rounds after the first. */
    method WaitForLock(c: CallId, env: nat -> seq<Event>, patience: nat) returns (failed: bool, ghost rounds: nat)
      requires Valid() && c < |s.calls| && s.calls[c].pc.Logged?
      modifies this
      ensures Valid() && old(history) <= history && c < |s.calls|
      ensures s.calls[c] == if failed then old(s).calls[c].(pc := RolledBack) else old(s).calls[c]
      ensures failed ==> Breaks(env, c)
      ensures rounds <= patience && s == Rounds(old(s), env, rounds, c)
      ensures failed || Can(s, Decrease(c)) || rounds == patience
      ensures Silent(env) ==> s == old(s) && !failed
    {
      var waited := 0;
      failed := Round(c, env, 0);
      while !failed && waited < patience && !Can(s, Decrease(c))
        invariant Valid() && old(history) <= history && c < |s.calls| && waited <= patience
        invariant s.calls[c] == if failed then old(s).calls[c].(pc := RolledBack) else old(s).calls[c]
        invariant Silent(env) ==> s == old(s) && !failed
        invariant failed ==> Breaks(env, c)
        invariant s == Rounds(old(s), env, waited, c)
        decreases patience - waited
      {
        waited := waited + 1;
        ghost var t := s;
        failed := Round(c, env, waited);
        RoundsOneMore(old(s), env, waited, c, t);
      }
      rounds := waited;
    }

    /** The conditional decrement, once the row is unlocked; a transaction that waits too long fails. */
    method DecrementInTurn(c: CallId, env: nat -> seq<Event>, patience: nat) returns (failed: bool)
      requires Valid() && c < |s.calls| && s.calls[c].pc.Logged?
      modifies this
      ensures Valid() && old(history) <= history && c < |s.calls|
      ensures s.calls[c].request == old(s).calls[c].request
      ensures failed ==> s.calls[c].pc.RolledBack? && (Breaks(env, c) || TimedOut(stock, history, c))
      ensures failed && !Breaks(env, c) ==>
                var t := Rounds(old(s), env, patience, c);
                Can(t, Fail(c)) && !Can(t, Decrease(c)) && s == Do(t, Fail(c))
      ensures !failed ==>
                || s.calls[c].pc.Conflicting?
                || (s.calls[c].pc.Holding? && s.calls[c].pc.orderId == old(s).calls[c].pc.orderId)
      ensures var r := old(s).calls[c].request;
              Silent(env) && Available(old(s).shop, r) && r.productId !in old(s).locks ==>
                && !failed && s.shop == old(s).shop
                && s.calls[c].pc == Holding(old(s).calls[c].pc.orderId, old(s).calls[c].pc.eventId,
                                            s.shop.stock[r.productId] - r.quantity)
    {
      ghost var rounds;
      failed, rounds := WaitForLock(c, env, patience);
      if failed {
        return;
      }
      if Can(s, Decrease(c)) {
        Step(Decrease(c));
      } else {
        ghost var before := history;
        Step(Fail(c));
        failed := true;
        assert history[..|history| - 1] == before;
      }
    }

    /** The same, as far as the call itself is concerned. */
    method Decrement(c: CallId, env: nat -> seq<Event>, patience: nat) returns (failed: bool)
      requires Valid() && c < |s.calls| && s.calls[c].pc.Logged?
      modifies this
      ensures Valid() && old(history) <= history && c < |s.calls|
      ensures s.calls[c].request == old(s).calls[c].request
      ensures failed ==> s.calls[c].pc.RolledBack? && (Breaks(env, c) || TimedOut(stock, history, c))
      ensures !failed ==>
                || s.calls[c].pc.Conflicting?
                || (s.calls[c].pc.Holding? && s.calls[c].pc.orderId == old(s).calls[c].pc.orderId)
      ensures var r := old(s).calls[c].request;
              Silent(env) && Available(old(s).shop, r) && r.productId !in old(s).locks ==>
                && !failed && s.shop == old(s).shop
                && s.calls[c].pc == Holding(old(s).calls[c].pc.orderId, old(s).calls[c].pc.eventId,
                                            s.shop.stock[r.productId] - r.quantity)
    {
      failed := DecrementInTurn(c, env, patience);
    }

    /** The two inserts of the transaction. */
    method InsertRows(c: CallId, env: nat -> nat -> seq<Event>) returns (failed: bool)
      requires Valid() && c < |s.calls| && s.calls[c].pc.Prechecked?
      modifies this
      ensures Valid() && old(history) <= history && c < |s.calls|
      ensures s.calls[c].request == old(s).calls[c].request
      ensures if failed then s.calls[c].pc.RolledBack? && BreaksAny(env, c) else s.calls[c].pc.Logged?
      ensures Undisturbed(env) ==>
                && !failed && s.calls[c].pc == Logged(old(s).nextOrder, old(s).nextEvent)
                && s.shop == old(s).shop && s.locks == old(s).locks
    {
      failed := Await(c, env(1)(0));
      if failed { assert Breaks(env(1), c); return; }
      Step(InsertOrder(c));
      failed := Await(c, env(2)(0));
      if failed { assert Breaks(env(2), c); return; }
      Step(InsertOutbox(c));
    }

    /** The end of the transaction: commit, or roll back on the conflict. */
    method Finish(c: CallId, others: seq<Event>, answered: bool) returns (answer: Answer)
      requires Valid() && c < |s.calls| && (s.calls[c].pc.Holding? || s.calls[c].pc.Conflicting?)
      modifies this
      ensures Valid() && old(history) <= history && c < |s.calls|
      ensures Ended(s, c, old(s).calls[c].request, answer, answered)
      ensures answer.Failure? && answered ==> Fail(c) in others
      ensures others == [] && answered && old(s).calls[c].pc.Holding? ==>
                && answer == Order(old(s).calls[c].pc.orderId)
                && s.shop == Committed(old(s).shop, c, old(s).calls[c])
    {
      var failed := Await(c, others);
      if failed {
        answer := Failure;
      } else if s.calls[c].pc.Conflicting? {
        Step(Rollback(c));
        answer := Conflict;
      } else {
        var id := s.calls[c].pc.orderId;
        Step(Commit(c, answered));
        answer := if answered then Order(id) else Failure;
      }
    }

    /** The statements of the transaction and its end. */
    method RunTransaction(c: CallId, env: nat -> nat -> seq<Event>, patience: nat, answered: bool)
      returns (answer: Answer)
      requires Valid() && c < |s.calls| && s.calls[c].pc.Prechecked?
      modifies this
      ensures Valid() && old(history) <= history && c < |s.calls|
      ensures Ended(s, c, old(s).calls[c].request, answer, answered)
      ensures answer.Failure? && answered ==> BreaksAny(env, c) || TimedOut(stock, history, c)
      ensures Undisturbed(env) && answered
              && Available(old(s).shop, old(s).calls[c].request)
              && old(s).calls[c].request.productId !in old(s).locks ==>
                && answer == Order(old(s).nextOrder)
                && s.shop == Place(old(s).shop, old(s).calls[c].request, c, old(s).nextOrder, old(s).nextEvent)
    {
      var failed := InsertRows(c, env);
      if !failed {
        failed := Decrement(c, env(3), patience);
      }
      if failed {
        answer := Failure;
      } else {
        answer := Finish(c, env(4)(0), answered);
        assert answer.Failure? && answered ==> Breaks(env(4), c);
      }
    }

    /** The transaction: order row, outbox row, decrement, end. */
    method Transaction(c: CallId, env: nat -> nat -> seq<Event>, patience: nat, answered: bool)
      returns (answer: Answer)
      requires Valid() && c < |s.calls| && s.calls[c].pc.Prechecked?
      modifies this
      ensures Valid() && old(history) <= history && c < |s.calls|
      ensures Ended(s, c, old(s).calls[c].request, answer, answered)
      ensures Truthful(s, history, c, old(s).calls[c].request, answer)
      ensures answer.Failure? && answered ==> BreaksAny(env, c) || TimedOut(stock, history, c)
      ensures Undisturbed(env) && answered
              && Available(old(s).shop, old(s).calls[c].request)
              && old(s).calls[c].request.productId !in old(s).locks ==>
                && answer == Order(old(s).nextOrder)
                && s.shop == Place(old(s).shop, old(s).calls[c].request, c, old(s).nextOrder, old(s).nextEvent)
    {
      answer := RunTransaction(c, env, patience, answered);
      EndedIsTruthful(stock, history, s, c, old(s).calls[c].request, answer, answered);
    }

    /** One create call.  It is part of a run of the order machine whatever other calls do; undisturbed and
        with the row unlocked, it is the atomic order. */
    method Create(request: Request, env: nat -> nat -> seq<Event>, patience: nat, answered: bool)
      returns (answer: Answer, ghost c: CallId)
      requires Valid() && request.quantity >= 1
      modifies this
      ensures Valid() && old(history) <= history && c == |old(s).calls| < |s.calls|
      ensures Ended(s, c, request, answer, answered) && Truthful(s, history, c, request, answer)
      ensures forall e :: e in old(history) ==> !OrderRecords.Acts(e, c)
      ensures answer.Failure? && answered ==> BreaksAny(env, c) || TimedOut(stock, history, c)
      ensures Undisturbed(env) && answered && request.productId !in old(s).locks ==>
                if Available(old(s).shop, request) then
                  && answer == Order(old(s).nextOrder)
                  && s.shop == Place(old(s).shop, request, c, old(s).nextOrder, old(s).nextEvent)
                else
                  answer.Conflict? && s.shop == old(s).shop
    {
      var call := |s.calls|;
      c := call;
      OrderRecords.OnlyCallsAct(stock, history, c);
      Step(Arrive(request));
      answer := Failure;
      var failed := Await(call, env(0)(0));
      if failed {
        assert Breaks(env(0), c);
      } else {
        Step(Precheck(call));
        if s.calls[call].pc.Prechecked? {
          answer := Transaction(call, env, patience, answered);
          return;
        }
        answer := Conflict;
      }
      EndedIsTruthful(stock, history, s, c, request, answer, answered);
    }
  }
}
