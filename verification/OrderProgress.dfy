/** Order transactions cannot block each other for ever. */
module OrderProgress {
  import opened OrderStore
  import opened OrderLaws

  /** Steps a call may still take. */
  function Rank(call: Call): nat {
    match call.pc
    case Arrived => 6
    case Prechecked => 5
    case Inserted(_) => 4
    case Logged(_, _) => 3
    case Holding(_, _, _) => 2
    case Conflicting => 1
    case _ => 0
  }

  function Work(s: State): nat {
    Sum(s.calls, Rank)
  }

  lemma EveryStepIsWork(s: State, e: Event)
    requires Can(s, e) && !e.Arrive?
    ensures Work(Do(s, e)) < Work(s)
  {
    SumUpdate(s.calls, Rank, e.c, s.calls[e.c].(pc := NextPc(s, s.calls[e.c], e)));
  }

  /** Without new arrivals a run from s has at most Work(s) events. */
  lemma {:induction false} RunsEnd(s: State, es: seq<Event>)
    requires Run(s, es).Some? && forall i :: 0 <= i < |es| ==> !es[i].Arrive?
    ensures |es| + Work(Run(s, es).value) <= Work(s)
  {
    if es != [] {
      RunsEnd(s, es[..|es| - 1]);
      EveryStepIsWork(Run(s, es[..|es| - 1]).value, es[|es| - 1]);
    }
  }

  /** A step of a call that is not a failure, nor a commit whose answer is lost. */
  predicate Smooth(e: Event) {
    !e.Arrive? && !e.Fail? && (e.Commit? ==> e.answered)
  }

  /** An event that moves the call, or the commit of the call it waits for: the row lock is the last one
      a transaction takes, so its holder never waits. */
  function Unblock(s: State, c: CallId): (e: Event)
    requires LocksOk(s) && c < |s.calls| && Active(s.calls[c].pc)
    ensures Can(s, e) && Smooth(e)
    ensures var p := s.calls[c].request.productId;
            e.c == c || (s.calls[c].pc.Logged? && p in s.locks && e == Commit(s.locks[p], true))
  {
    var p := s.calls[c].request.productId;
    match s.calls[c].pc
    case Arrived => Precheck(c)
    case Prechecked => InsertOrder(c)
    case Inserted(_) => InsertOutbox(c)
    case Logged(_, _) =>
      if Available(s.shop, s.calls[c].request) && p in s.locks then Commit(s.locks[p], true) else Decrease(c)
    case Holding(_, _, _) => Commit(c, true)
    case Conflicting => Rollback(c)
  }

  predicate AllAnswered(s: State) {
    forall c :: 0 <= c < |s.calls| ==> !Active(s.calls[c].pc)
  }

  /** From every reachable state, every call can be brought to its answer without any failure or lost answer. */
  lemma {:induction false} EveryRunCompletes(init: map<ProductId, int>, es: seq<Event>) returns (fs: seq<Event>)
    requires Valid(init) && Run(Init(init), es).Some?
    ensures es <= fs && Run(Init(init), fs).Some? && AllAnswered(Run(Init(init), fs).value)
    ensures forall i :: |es| <= i < |fs| ==> Smooth(fs[i])
    decreases Work(Run(Init(init), es).value)
  {
    var s := Run(Init(init), es).value;
    RunKeepsInv(init, es);
    if AllAnswered(s) {
      fs := es;
    } else {
      var c :| 0 <= c < |s.calls| && Active(s.calls[c].pc);
      var e := Unblock(s, c);
      EveryStepIsWork(s, e);
      assert (es + [e])[..|es + [e]| - 1] == es;
      fs := EveryRunCompletes(init, es + [e]);
      assert fs[|es|] == e;
    }
  }
}
