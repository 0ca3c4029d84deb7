/** The message handler of the consumer, written as the source writes it, against the delivery machine. */
module Consumer {
  import opened Options
  import opened RedisKeys
  import opened Delivery
  import Accounting

  /** How the remote calls of one handling end, whichever of them it gets to. */
  datatype Script = Script(
    checkThrows: bool, skipAck: AckOutcome, lock: Reply, notify: NotifyOutcome, mark: bool, release: bool,
    doneAck: AckOutcome, cleanup: bool, sent: bool, confirmed: bool, hopAck: AckOutcome, nack: bool)

  const FAULTLESS := Script(false, Delivered, Replied, Done, true, true, Delivered, true, true, true, Delivered, true)

  datatype Exit = Died | DuplicateSkipped | Completed | Republished | Requeued(nacked: bool)

  /** What can happen while handler h waits: events of others, or the end of its process. */
  predicate Foreign(e: Event, h: HandlerId) {
    e.ByHandler? && e.h == h ==> e.act.Crash?
  }

  /** The steps of handler h in a history, its process's end aside. */
  function Acts(es: seq<Event>, h: HandlerId): seq<HandlerAction> {
    if es == [] then []
    else
      var e := es[|es| - 1];
      Acts(es[..|es| - 1], h) + if e.ByHandler? && e.h == h && !e.act.Crash? then [e.act] else []
  }

  lemma ActsAppend(es: seq<Event>, e: Event, h: HandlerId)
    ensures Acts(es + [e], h) == Acts(es, h) + if e.ByHandler? && e.h == h && !e.act.Crash? then [e.act] else []
  {
    assert (es + [e])[..|es + [e]| - 1] == es;
  }

  lemma ForeignKeepsHandler(l: Lane, e: Event, h: HandlerId)
    requires Accounting.OpenLockOk(l) && Can(l, e) && Foreign(e, h) && h in l.handlers
    ensures var l' := Do(l, e); h in l'.handlers ==> l'.handlers[h] == l.handlers[h]
    ensures h !in Do(l, e).handlers ==> e == ByHandler(h, Crash)
  {
  }

  /** The handler alone, from a lane in which nothing else happens. */
  function Solo(l: Lane, h: HandlerId, acts: seq<HandlerAction>): Option<Lane>
    decreases |acts|
  {
    if acts == [] then Some(l)
    else if CanHandler(l, h, acts[0]) then Solo(DoHandler(l, h, acts[0]), h, acts[1..])
    else None
  }

  lemma {:induction false} SoloAppend(l: Lane, h: HandlerId, acts: seq<HandlerAction>, a: HandlerAction)
    requires Solo(l, h, acts).Some? && CanHandler(Solo(l, h, acts).value, h, a)
    ensures Solo(l, h, acts + [a]) == Some(DoHandler(Solo(l, h, acts).value, h, a))
    decreases |acts|
  {
    if acts != [] {
      assert (acts + [a])[1..] == acts[1..] + [a];
      SoloAppend(DoHandler(l, h, acts[0]), h, acts[1..], a);
    } else {
      assert Solo(DoHandler(l, h, a), h, []) == Some(DoHandler(l, h, a));
      assert ([a])[1..] == [];
    }
  }

  /** What a step leaves of its broker effect when the channel no longer holds the copy. */
  function Reaching(a: HandlerAction, held: bool): HandlerAction {
    if held || !NeedsCopy(a) then a
    else
      match a
      case AckSkip(_) => AckSkip(Dropped)
      case AckDone(_) => AckDone(Dropped)
      case AckHop(_) => AckHop(Dropped)
      case Nack(_) => Nack(false)
  }

  /** Where a step can lead, whatever the Redis keys are. */
  predicate Leads(pc: Pc, a: HandlerAction, next: Option<Pc>) {
    match a
    case CheckProcessed(throws) =>
      if throws then next == Some(RedisFailed) else next == Some(SkipAck) || next == Some(Checked)
    case AckSkip(ack) => next == if ack.Threw? then Some(RedisFailed) else None
    case TryLock(reply) =>
      && next.Some?
      && if reply.LostReply? then next.value.RedisFailed? else next.value.Acquired? || next.value.Blocked?
    case Notify(outcome) => next == Some(if outcome.Done? then Notified else Failed(false))
    case MarkProcessed(_) => next == Some(Marked)
    case Release(_) => next == Some(Released)
    case AckDone(ack) => next == if ack.Threw? then Some(Failed(true)) else None
    case Cleanup(_) => next == Some(Cleaned)
    case Republish(sent) => next.Some? && next.value.Confirming? && next.value.child.Some? == sent
    case ConfirmHop(ok) => next.Some? && if ok then next.value.Settled? else next.value.Nacking?
    case AckHop(ack) => next == if ack.Threw? then Some(Nacking) else None
    case Nack(_) => next == None
    case Crash => next == None
  }

  /** The handler's channel holds its copy, which was published before. */
  predicate HasCopy(l: Lane, h: HandlerId) {
    h in l.handlers && HoldsCopy(l.broker, h, l.handlers[h].copy) && l.handlers[h].copy < l.broker.next
  }

  // ----- what a script makes the handler do -----

  /** A republish: the original is acknowledged after the confirm, and put back when there is none or the
      acknowledgement throws. */
  function HopSteps(script: Script): seq<HandlerAction> {
    var confirmed := script.sent && script.confirmed;
    [Republish(script.sent), ConfirmHop(confirmed)] +
    if !confirmed then [Nack(script.nack)]
    else if script.hopAck.Threw? then [AckHop(Threw), Nack(script.nack)]
    else [AckHop(script.hopAck)]
  }

  /** The try part of the processing block. */
  function TrySteps(script: Script): seq<HandlerAction> {
    if script.notify.Done?
    then [Notify(Done), MarkProcessed(script.mark), Release(script.release), AckDone(script.doneAck)]
    else [Notify(script.notify)]
  }

  predicate TryFails(script: Script) {
    !script.notify.Done? || script.doneAck.Threw?
  }

  /** The processing block: when its try part fails, the DEL and a republish follow. */
  function ProcessSteps(script: Script): seq<HandlerAction> {
    TrySteps(script) + if TryFails(script) then [Cleanup(script.cleanup)] + HopSteps(script) else []
  }

  /** The idempotency check, given whether it sees the processed key. */
  function CheckSteps(script: Script, seen: bool): seq<HandlerAction> {
    if script.checkThrows then [CheckProcessed(true)]
    else [CheckProcessed(false), if seen then AckSkip(script.skipAck) else TryLock(script.lock)]
  }

  predicate Skips(script: Script, seen: bool) {
    !script.checkThrows && seen && !script.skipAck.Threw?
  }

  predicate Acquires(script: Script, seen: bool, taken: bool) {
    !script.checkThrows && !seen && script.lock.Replied? && !taken
  }

  /** The whole handling, given whether it sees the processed key and whether it finds the lock taken. */
  function Walk(script: Script, seen: bool, taken: bool): seq<HandlerAction> {
    CheckSteps(script, seen) +
    if Skips(script, seen) then []
    else if Acquires(script, seen, taken) then ProcessSteps(script)
    else HopSteps(script)
  }

  /** The step carries the outcome that the script has for its call; a confirm resolves only for a copy that was
      sent. */
  predicate Obeys(a: HandlerAction, script: Script) {
    match a
    case CheckProcessed(throws) => throws == script.checkThrows
    case AckSkip(ack) => ack == script.skipAck
    case TryLock(reply) => reply == script.lock
    case Notify(outcome) => outcome == script.notify
    case MarkProcessed(applied) => applied == script.mark
    case Release(applied) => applied == script.release
    case AckDone(ack) => ack == script.doneAck
    case Cleanup(applied) => applied == script.cleanup
    case Republish(sent) => sent == script.sent
    case ConfirmHop(ok) => ok == (script.sent && script.confirmed)
    case AckHop(ack) => ack == script.hopAck
    case Nack(applied) => applied == script.nack
    case Crash => false
  }

  predicate AllObey(acts: seq<HandlerAction>, script: Script) {
    forall i :: 0 <= i < |acts| ==> Obeys(acts[i], script)
  }

  lemma ProcessObeys(script: Script)
    ensures AllObey(HopSteps(script), script) && AllObey(ProcessSteps(script), script)
  {
  }

  lemma WalkObeys(script: Script, seen: bool, taken: bool)
    ensures AllObey(Walk(script, seen, taken), script)
  {
    ProcessObeys(script);
  }

  /** The steps that were taken are the planned ones, up to what no longer reached the broker. */
  predicate Follows(acts: seq<HandlerAction>, plan: seq<HandlerAction>) {
    && |acts| == |plan|
    && forall i :: 0 <= i < |acts| ==> acts[i] == plan[i] || acts[i] == Reaching(plan[i], false)
  }

  lemma FollowsAppend(acts: seq<HandlerAction>, plan: seq<HandlerAction>, act: HandlerAction, a: HandlerAction)
    requires Follows(acts, plan) && (act == a || act == Reaching(a, false))
    ensures Follows(acts + [act], plan + [a])
  {
  }

  /** The exit that belongs to a last step. */
  predicate Ends(acts: seq<HandlerAction>, exit: Exit) {
    && acts != []
    && match acts[|acts| - 1]
       case AckSkip(ack) => exit.DuplicateSkipped? && !ack.Threw?
       case AckDone(ack) => exit.Completed? && !ack.Threw?
       case AckHop(ack) => exit.Republished? && !ack.Threw?
       case Nack(applied) => exit == Requeued(applied)
       case _ => false
  }

  /** The original is acknowledged only after the confirm of its copy. */
  predicate Confirmed(before: seq<HandlerAction>, acts: seq<HandlerAction>) {
    || acts == before + [Republish(true), ConfirmHop(true), AckHop(Delivered)]
    || acts == before + [Republish(true), ConfirmHop(true), AckHop(Dropped)]
  }

  /** Without a confirm, or when the acknowledgement threw, the original is put back if it still can be. */
  predicate PutBack(before: seq<HandlerAction>, acts: seq<HandlerAction>, sent: bool, nacked: bool) {
    || acts == before + [Republish(sent), ConfirmHop(false), Nack(nacked)]
    || acts == before + [Republish(true), ConfirmHop(true), AckHop(Threw), Nack(nacked)]
  }

  predicate Processed(before: seq<HandlerAction>, acts: seq<HandlerAction>, script: Script) {
    || acts == before + [Notify(Done), MarkProcessed(script.mark), Release(script.release), AckDone(Delivered)]
    || acts == before + [Notify(Done), MarkProcessed(script.mark), Release(script.release), AckDone(Dropped)]
  }

  predicate Skipped(acts: seq<HandlerAction>) {
    || acts == [CheckProcessed(false), AckSkip(Delivered)]
    || acts == [CheckProcessed(false), AckSkip(Dropped)]
  }

  /** What every handling that comes to its end has done: a duplicate is only acknowledged; completion takes
      the check, the lock, the notification, the mark, the release and the acknowledgement, in this order; and
      the original is acknowledged for a copy, or put back, only as said above. */
  predicate WalkForms(script: Script, acts: seq<HandlerAction>, exit: Exit) {
    match exit
    case Died => false
    case DuplicateSkipped => Skipped(acts)
    case Completed => Processed([CheckProcessed(false), TryLock(Replied)], acts, script)
    case Republished => |acts| >= 3 && Confirmed(acts[..|acts| - 3], acts)
    case Requeued(nacked) =>
      || (|acts| >= 3 && PutBack(acts[..|acts| - 3], acts, script.sent, nacked))
      || (|acts| >= 4 && PutBack(acts[..|acts| - 4], acts, script.sent, nacked))
  }

  lemma FollowsParts(acts: seq<HandlerAction>, meant: seq<HandlerAction>, rest: seq<HandlerAction>)
    requires Follows(acts, meant + rest)
    ensures |acts| == |meant| + |rest| && Follows(acts[..|meant|], meant)
  {
    assert forall i :: 0 <= i < |meant| ==> (meant + rest)[i] == meant[i];
  }

  lemma HopHasForms(script: Script, meant: seq<HandlerAction>, acts: seq<HandlerAction>, exit: Exit)
    requires Follows(acts, meant + HopSteps(script)) && Ends(acts, exit)
    ensures WalkForms(script, acts, exit)
  {
    FollowsParts(acts, meant, HopSteps(script));
    var before := acts[..|meant|];
    HopForms(before, meant, acts, meant + HopSteps(script), script, exit);
    assert |acts| - |before| == 3 || |acts| - |before| == 4;
    assert before == acts[..|before|];
  }

  lemma ProcessHasForms(script: Script, acts: seq<HandlerAction>, exit: Exit)
    requires Follows(acts, [CheckProcessed(false), TryLock(Replied)] + ProcessSteps(script)) && Ends(acts, exit)
    ensures WalkForms(script, acts, exit)
  {
    var meant := [CheckProcessed(false), TryLock(Replied)];
    if TryFails(script) {
      assert meant + ProcessSteps(script) == (meant + TrySteps(script) + [Cleanup(script.cleanup)]) + HopSteps(script);
      HopHasForms(script, meant + TrySteps(script) + [Cleanup(script.cleanup)], acts, exit);
    } else {
      assert ProcessSteps(script) == TrySteps(script);
      FollowsParts(acts, meant, TrySteps(script));
      assert acts[..2] == meant;
      TryForms(meant, meant, acts, meant + TrySteps(script), script);
    }
  }

  lemma WalkHasForms(script: Script, seen: bool, taken: bool, acts: seq<HandlerAction>, exit: Exit)
    requires Follows(acts, Walk(script, seen, taken)) && Ends(acts, exit)
    ensures WalkForms(script, acts, exit)
  {
    if Skips(script, seen) {
      assert acts == [acts[0], acts[1]];
    } else if Acquires(script, seen, taken) {
      ProcessHasForms(script, acts, exit);
    } else {
      HopHasForms(script, CheckSteps(script, seen), acts, exit);
    }
  }

  /** What a republish that came to its end did, in terms of its steps. */
  lemma HopForms(before: seq<HandlerAction>, meant: seq<HandlerAction>, acts: seq<HandlerAction>,
                 plan: seq<HandlerAction>, script: Script, exit: Exit)
    requires Follows(before, meant) && Follows(acts, plan) && before <= acts
    requires plan == meant + HopSteps(script) && Ends(acts, exit)
    ensures exit.Republished? || exit.Requeued?
    ensures exit.Republished? ==> Confirmed(before, acts)
    ensures exit.Requeued? ==> PutBack(before, acts, script.sent, exit.nacked)
  {
    var n := |before|;
    assert acts == before + acts[n..];
    assert plan[n..] == HopSteps(script);
    forall i | n <= i < |acts| ensures acts[i] == plan[n..][i - n] || acts[i] == Reaching(plan[n..][i - n], false) {
    }
    if script.sent && script.confirmed && script.hopAck.Threw? {
      assert acts[n..] == [acts[n], acts[n + 1], acts[n + 2], acts[n + 3]];
    } else {
      assert acts[n..] == [acts[n], acts[n + 1], acts[n + 2]];
    }
  }

  /** The same after the DEL of the catch. */
  lemma CleanupForms(before: seq<HandlerAction>, meant: seq<HandlerAction>, acts: seq<HandlerAction>,
                     plan: seq<HandlerAction>, script: Script, exit: Exit)
    requires Follows(before, meant) && Follows(acts, plan) && before <= acts
    requires plan == meant + [Cleanup(script.cleanup)] + HopSteps(script) && Ends(acts, exit)
    ensures exit.Republished? || exit.Requeued?
    ensures exit.Republished? ==> Confirmed(before + [Cleanup(script.cleanup)], acts)
    ensures exit.Requeued? ==> PutBack(before + [Cleanup(script.cleanup)], acts, script.sent, exit.nacked)
  {
    var n := |before|;
    assert acts[n] == plan[n] == Cleanup(script.cleanup);
    HopForms(before + [Cleanup(script.cleanup)], meant + [Cleanup(script.cleanup)], acts, plan, script, exit);
  }

  /** What a try part that came to its end did. */
  lemma TryForms(before: seq<HandlerAction>, meant: seq<HandlerAction>, acts: seq<HandlerAction>,
                 plan: seq<HandlerAction>, script: Script)
    requires Follows(before, meant) && Follows(acts, plan) && before <= acts
    requires plan == meant + TrySteps(script)
    ensures TryFails(script) ==> acts == before + TrySteps(script)
    ensures !TryFails(script) ==> Processed(before, acts, script)
  {
    var n := |before|;
    assert acts == before + acts[n..];
    assert plan[n..] == TrySteps(script);
    forall i | n <= i < |acts| ensures acts[i] == plan[n..][i - n] || acts[i] == Reaching(plan[n..][i - n], false) {
    }
    if script.notify.Done? {
      assert acts[n..] == [acts[n], acts[n + 1], acts[n + 2], acts[n + 3]];
    } else {
      assert acts[n..] == [acts[n]];
    }
  }

  /** What a processing block that came to its end did. */
  lemma ProcessForms(before: seq<HandlerAction>, meant: seq<HandlerAction>, acts: seq<HandlerAction>,
                     plan: seq<HandlerAction>, script: Script, exit: Exit)
    requires Follows(before, meant) && Follows(acts, plan) && before <= acts
    requires plan == meant + ProcessSteps(script) && Ends(acts, exit)
    ensures !exit.Died? && !exit.DuplicateSkipped? && (exit.Completed? <==> !TryFails(script))
    ensures exit.Completed? ==> Processed(before, acts, script)
    ensures exit.Republished? ==> Confirmed(before + TrySteps(script) + [Cleanup(script.cleanup)], acts)
    ensures exit.Requeued? ==>
              PutBack(before + TrySteps(script) + [Cleanup(script.cleanup)], acts, script.sent, exit.nacked)
  {
    var tried := meant + TrySteps(script);
    if TryFails(script) {
      assert plan == tried + ([Cleanup(script.cleanup)] + HopSteps(script));
      FollowsParts(acts, tried, [Cleanup(script.cleanup)] + HopSteps(script));
      var mid := acts[..|tried|];
      TryForms(before, meant, mid, tried, script);
      CleanupForms(mid, tried, acts, plan, script, exit);
    } else {
      assert plan == tried;
      TryForms(before, meant, acts, plan, script);
    }
  }

  // ----- an undisturbed handling -----

  /** The steps of an undisturbed and faultless handling. */
  function Steps(k: Account): seq<HandlerAction> {
    if k.processed.Entry? then [CheckProcessed(false), AckSkip(Delivered)]
    else
      [CheckProcessed(false), TryLock(Replied)] +
      if k.lock.Entry? then [Republish(true), ConfirmHop(true), AckHop(Delivered)]
      else [Notify(Done), MarkProcessed(true), Release(true), AckDone(Delivered)]
  }

  lemma StepsAreTheFaultlessWalk(k: Account)
    ensures Walk(FAULTLESS, k.processed.Entry?, k.lock.Entry?) == Steps(k)
  {
  }

  /** The same as one atomic change of the lane. */
  function Handled(l: Lane, h: HandlerId): Lane
    requires h in l.handlers
  {
    var c := l.handlers[h].copy;
    var rest := l.broker.(copies := l.broker.copies - {c});
    if l.account.processed.Entry? then
      l.(handlers := l.handlers - {h}, broker := rest)
    else if l.account.lock.Entry? then
      var blocker := Blocker(l.account.lock.value.owner, l.account.lock.value.acquiredAt, l.now);
      var (m, q) := Hop(l.handlers[h].message, Blocked(blocker), l.now);
      l.(handlers := l.handlers - {h}, broker := Enqueue(rest, m, q))
    else
      l.(handlers := l.handlers - {h}, broker := rest,
         account := l.account.(
           processed := Put(true, PROCESSED_TTL, l.now), notified := l.account.notified + 1,
           acquired := l.account.acquired[h := l.now]))
  }

  lemma SoloStep(l: Lane, h: HandlerId, acts: seq<HandlerAction>)
    requires acts != [] && CanHandler(l, h, acts[0])
    ensures Solo(l, h, acts) == Solo(DoHandler(l, h, acts[0]), h, acts[1..])
  {
  }

  lemma SkippedBySteps(l: Lane, h: HandlerId)
    requires HasCopy(l, h) && l.handlers[h].pc.Received? && l.account.processed.Entry?
    ensures Solo(l, h, Steps(l.account)) == Some(Handled(l, h))
  {
    var acts := Steps(l.account);
    SoloStep(l, h, acts);
    var l1 := DoHandler(l, h, acts[0]);
    SoloStep(l1, h, acts[1..]);
    assert DoHandler(l1, h, acts[1]) == Handled(l, h);
  }

  lemma EnqueueAndRemove(b: Broker, m: Message, q: Queue, c: CopyId)
    requires c != b.next
    ensures var b' := Enqueue(b, m, q);
            b'.(copies := b'.copies - {c}) == Enqueue(b.(copies := b.copies - {c}), m, q)
  {
  }

  /** The republished copy takes the place of the original. */
  function Replaced(l: Lane, h: HandlerId): Lane
    requires h in l.handlers && Republishes(l.handlers[h].pc)
  {
    var x := l.handlers[h];
    var (m, q) := Hop(x.message, x.pc, l.now);
    l.(handlers := l.handlers - {h}, broker := Enqueue(l.broker.(copies := l.broker.copies - {x.copy}), m, q))
  }

  lemma HopBySteps(l: Lane, h: HandlerId)
    requires HasCopy(l, h) && Republishes(l.handlers[h].pc)
    ensures Solo(l, h, [Republish(true), ConfirmHop(true), AckHop(Delivered)]) == Some(Replaced(l, h))
  {
    var acts := [Republish(true), ConfirmHop(true), AckHop(Delivered)];
    var x := l.handlers[h];
    var (m, q) := Hop(x.message, x.pc, l.now);
    SoloStep(l, h, acts);
    var l1 := DoHandler(l, h, acts[0]);
    assert l1 == l.(handlers := l.handlers[h := x.(pc := Confirming(Some(l.broker.next)))],
                    broker := Enqueue(l.broker, m, q));
    SoloStep(l1, h, acts[1..]);
    var l2 := DoHandler(l1, h, acts[1]);
    assert l2.broker == l1.broker && l2.handlers[h] == x.(pc := Settled(l.broker.next));
    SoloStep(l2, h, acts[2..]);
    var l3 := DoHandler(l2, h, acts[2]);
    EnqueueAndRemove(l.broker, m, q, x.copy);
    assert l3.handlers == l.handlers - {h};
    assert Solo(l3, h, []) == Some(l3);
  }

  /** From Acquired: notified once, marked, and the lock is gone. */
  function Finished(l: Lane, h: HandlerId): Lane
    requires h in l.handlers
  {
    l.(handlers := l.handlers - {h},
       broker := l.broker.(copies := l.broker.copies - {l.handlers[h].copy}),
       account := l.account.(processed := Put(true, PROCESSED_TTL, l.now), lock := Nothing,
                             notified := l.account.notified + 1))
  }

  lemma ProcessBySteps(l: Lane, h: HandlerId)
    requires HasCopy(l, h) && l.handlers[h].pc.Acquired? && l.account.lock.Entry?
    requires l.account.lock.value.owner == h
    ensures Solo(l, h, [Notify(Done), MarkProcessed(true), Release(true), AckDone(Delivered)]) ==
            Some(Finished(l, h))
  {
    var acts := [Notify(Done), MarkProcessed(true), Release(true), AckDone(Delivered)];
    var x, k := l.handlers[h], l.account;
    SoloStep(l, h, acts);
    var l1 := DoHandler(l, h, acts[0]);
    assert l1 == l.(handlers := l.handlers[h := x.(pc := Notified)], account := k.(notified := k.notified + 1));
    SoloStep(l1, h, acts[1..]);
    var l2 := DoHandler(l1, h, acts[1]);
    assert l2.broker == l.broker && l2.handlers[h] == x.(pc := Marked) && l2.handlers - {h} == l.handlers - {h};
    assert l2.account == Close(l1.account, h).(processed := Put(true, PROCESSED_TTL, l.now));
    SoloStep(l2, h, acts[2..]);
    var l3 := DoHandler(l2, h, acts[2]);
    assert l3.account == k.(processed := Put(true, PROCESSED_TTL, l.now), lock := Nothing, notified := k.notified + 1);
    SoloStep(l3, h, acts[3..]);
    var l4 := DoHandler(l3, h, acts[3]);
    assert l4.handlers == l.handlers - {h};
    assert Solo(l4, h, []) == Some(l4);
  }

  /** The check and the lock, undisturbed. */
  lemma AcquireBySteps(l: Lane, h: HandlerId, acts: seq<HandlerAction>) returns (l': Lane)
    requires HasCopy(l, h) && l.handlers[h].pc.Received? && l.account.processed.Nothing?
    ensures Solo(l, h, [CheckProcessed(false), TryLock(Replied)] + acts) == Solo(l', h, acts)
    ensures var k := l.account;
            var pc := if k.lock.Entry? then Blocked(Blocker(k.lock.value.owner, k.lock.value.acquiredAt, l.now))
                      else Acquired;
            l' == l.(handlers := l.handlers[h := l.handlers[h].(pc := pc)],
                     account := LockStep(k, h, Replied, l.now))
  {
    var all := [CheckProcessed(false), TryLock(Replied)] + acts;
    SoloStep(l, h, all);
    var l1 := DoHandler(l, h, all[0]);
    assert l1.account == l.account && l1.handlers == l.handlers[h := l.handlers[h].(pc := Checked)];
    SoloStep(l1, h, all[1..]);
    l' := DoHandler(l1, h, all[1]);
    assert all[1..][1..] == acts;
  }

  lemma BlockedBySteps(l: Lane, h: HandlerId)
    requires HasCopy(l, h) && l.handlers[h].pc.Received?
    requires l.account.processed.Nothing? && l.account.lock.Entry?
    ensures Solo(l, h, Steps(l.account)) == Some(Handled(l, h))
  {
    var l' := AcquireBySteps(l, h, [Republish(true), ConfirmHop(true), AckHop(Delivered)]);
    HopBySteps(l', h);
    assert l'.account == l.account && l'.handlers - {h} == l.handlers - {h};
  }

  lemma FinishedIsHandled(l: Lane, h: HandlerId, l': Lane)
    requires h in l.handlers && l.account.processed.Nothing? && l.account.lock.Nothing?
    requires l' == l.(handlers := l.handlers[h := l.handlers[h].(pc := Acquired)],
                      account := LockStep(l.account, h, Replied, l.now))
    ensures Finished(l', h) == Handled(l, h)
  {
    assert l'.handlers - {h} == l.handlers - {h};
  }

  lemma NotifiedBySteps(l: Lane, h: HandlerId)
    requires HasCopy(l, h) && l.handlers[h].pc.Received?
    requires l.account.processed.Nothing? && l.account.lock.Nothing?
    ensures Solo(l, h, Steps(l.account)) == Some(Handled(l, h))
  {
    var l' := AcquireBySteps(l, h, [Notify(Done), MarkProcessed(true), Release(true), AckDone(Delivered)]);
    ProcessBySteps(l', h);
    FinishedIsHandled(l, h, l');
  }

  lemma HandledBySteps(l: Lane, h: HandlerId)
    requires HasCopy(l, h) && l.handlers[h].pc.Received?
    ensures Solo(l, h, Steps(l.account)) == Some(Handled(l, h))
  {
    if l.account.processed.Entry? {
      SkippedBySteps(l, h);
    } else if l.account.lock.Entry? {
      BlockedBySteps(l, h);
    } else {
      NotifiedBySteps(l, h);
    }
  }

  // ----- the handler -----

  /** A handler that is still there has not crashed. */
  lemma {:induction false} AliveIsUncrashed(t: nat, es: seq<Event>, h: HandlerId)
    requires Run(Start(t), es).Some? && ByHandler(h, Crash) in es
    ensures var l := Run(Start(t), es).value; h !in l.handlers && h < l.nextHandler
  {
    var n := |es| - 1;
    Accounting.RunKeepsInv(t, es[..n]);
    if es[n] != ByHandler(h, Crash) {
      assert es == es[..n] + [es[n]];
      AliveIsUncrashed(t, es[..n], h);
    }
  }

  /** Where an action leads, and what it reads on the way. */
  lemma StepLeads(l: Lane, h: HandlerId, a: HandlerAction)
    requires h in l.handlers && Fits(l.handlers[h].pc, a)
    ensures var act := Reaching(a, HoldsCopy(l.broker, h, l.handlers[h].copy));
            && CanHandler(l, h, act)
            && var l' := DoHandler(l, h, act);
               && Leads(l.handlers[h].pc, a, if h in l'.handlers then Some(l'.handlers[h].pc) else None)
               && (h in l'.handlers ==> l'.handlers[h] == l.handlers[h].(pc := l'.handlers[h].pc))
               && (a == CheckProcessed(false) ==>
                     h in l'.handlers && (l'.handlers[h].pc.SkipAck? <==> l.account.processed.Entry?)
                     && l'.account == l.account)
               && (a.TryLock? && a.reply.Replied? ==>
                     h in l'.handlers && (l'.handlers[h].pc.Blocked? <==> l.account.lock.Entry?))
  {
  }

  lemma StepKeepsCopy(l: Lane, h: HandlerId, a: HandlerAction)
    requires CanHandler(l, h, a) && HasCopy(l, h)
    ensures var l' := DoHandler(l, h, a); h in l'.handlers ==> HasCopy(l', h)
  {
  }

  /** The lane is the outcome of a run, so every law of runs holds of it; acts are the steps of h in it, as
      far as they reached what they were meant for; and when quiet, they alone lead from origin to the lane. */
  ghost predicate Sound(t: nat, h: HandlerId, es: seq<Event>, l: Lane, acts: seq<HandlerAction>,
                        plan: seq<HandlerAction>, origin: Lane, quiet: bool) {
    && Run(Start(t), es) == Some(l)
    && Acts(es, h) == acts && Follows(acts, plan)
    && (quiet ==> Solo(origin, h, acts) == Some(l))
    && (quiet && HasCopy(origin, h) ==> acts == plan && (h in l.handlers ==> HasCopy(l, h)))
  }

  /** Another event happens. */
  lemma SoundAfterOther(t: nat, h: HandlerId, es: seq<Event>, l: Lane, acts: seq<HandlerAction>,
                        plan: seq<HandlerAction>, origin: Lane, e: Event)
    requires Sound(t, h, es, l, acts, plan, origin, false) && h in l.handlers && Can(l, e) && Foreign(e, h)
    ensures Sound(t, h, es + [e], Do(l, e), acts, plan, origin, false)
    ensures h in Do(l, e).handlers ==> Do(l, e).handlers[h] == l.handlers[h]
    ensures h !in Do(l, e).handlers ==> e == ByHandler(h, Crash)
  {
    Accounting.RunKeepsInv(t, es);
    ForeignKeepsHandler(l, e, h);
    Extend(Start(t), es, e);
    ActsAppend(es, e, h);
  }

  /** h takes a step. */
  lemma SoundAfterOwn(t: nat, h: HandlerId, es: seq<Event>, l: Lane, acts: seq<HandlerAction>,
                      plan: seq<HandlerAction>, origin: Lane, quiet: bool, a: HandlerAction)
    requires Sound(t, h, es, l, acts, plan, origin, quiet)
    requires h in l.handlers && Fits(l.handlers[h].pc, a) && !a.Crash?
    ensures var act := Reaching(a, HoldsCopy(l.broker, h, l.handlers[h].copy));
            && CanHandler(l, h, act)
            && Sound(t, h, es + [ByHandler(h, act)], DoHandler(l, h, act), acts + [act], plan + [a], origin, quiet)
  {
    var act := Reaching(a, HoldsCopy(l.broker, h, l.handlers[h].copy));
    Extend(Start(t), es, ByHandler(h, act));
    ActsAppend(es, ByHandler(h, act), h);
    if quiet { SoloAppend(origin, h, acts, act); }
    if HasCopy(l, h) { StepKeepsCopy(l, h, act); }
    FollowsAppend(acts, plan, act, a);
  }

  /** The copy of handler x is back in the main queue with the headers it was delivered with. */
  predicate Back(l: Lane, x: Handler) {
    x.copy in l.broker.copies && l.broker.copies[x.copy] == Copy(x.message, Queued(Main))
  }

  /** A handler works on the message of its copy. */
  predicate MessagesOk(l: Lane) {
    && (forall c :: c in l.broker.copies ==> c < l.broker.next)
    && (forall h :: h in l.handlers ==>
          && l.handlers[h].copy < l.broker.next
          && (l.handlers[h].copy in l.broker.copies ==>
                l.broker.copies[l.handlers[h].copy].message == l.handlers[h].message))
  }

  lemma StepKeepsMessages(l: Lane, e: Event)
    requires MessagesOk(l) && Can(l, e)
    ensures MessagesOk(Do(l, e))
  {
  }

  lemma {:induction false} RunKeepsMessages(t: nat, es: seq<Event>)
    requires Run(Start(t), es).Some?
    ensures MessagesOk(Run(Start(t), es).value)
  {
    if es != [] {
      RunKeepsMessages(t, es[..|es| - 1]);
      StepKeepsMessages(Run(Start(t), es[..|es| - 1]).value, es[|es| - 1]);
    }
  }

  lemma PutsBack(t: nat, es: seq<Event>, l: Lane, h: HandlerId, a: HandlerAction)
    requires Run(Start(t), es) == Some(l) && h in l.handlers && Fits(l.handlers[h].pc, a)
    ensures var act := Reaching(a, HoldsCopy(l.broker, h, l.handlers[h].copy));
            CanHandler(l, h, act) && (act == Nack(true) ==> Back(DoHandler(l, h, act), l.handlers[h]))
  {
    RunKeepsMessages(t, es);
  }

  /** What others make of the lane while h waits: every event that can happen, in turn, until h is gone. */
  function Meanwhile(l: Lane, others: seq<Event>, h: HandlerId): Lane {
    if others == [] then l
    else
      var t, e := Meanwhile(l, others[..|others| - 1], h), others[|others| - 1];
      if h in t.handlers && Can(t, e) && Foreign(e, h) then Do(t, e) else t
  }

  /** The lane after h has taken its next step, as far as it still reaches the broker, if h is still there. */
  function Stepped(l: Lane, h: HandlerId, a: HandlerAction): Lane {
    if h in l.handlers && Fits(l.handlers[h].pc, a)
    then DoHandler(l, h, Reaching(a, HoldsCopy(l.broker, h, l.handlers[h].copy)))
    else l
  }

  /** Nothing happens while the handler waits. */
  ghost predicate Silent(env: nat -> seq<Event>) {
    forall i :: env(i) == []
  }

  /** The end of h's process is among what happens while it waits. */
  ghost predicate Kills(env: nat -> seq<Event>, h: HandlerId) {
    exists i :: ByHandler(h, Crash) in env(i)
  }

  /** One invocation of the message handler: handler h on a lane that others change while it waits. */
  class Handling {
    const committedAt: nat
    const h: HandlerId
    var lane: Lane
    var acts: seq<HandlerAction>
    ghost var plan: seq<HandlerAction>   // the steps that h meant to take
    ghost var history: seq<Event>
    ghost var origin: Lane               // the lane when the handling began
    ghost var quiet: bool                // nothing else has happened since

    ghost predicate Valid()
      reads this
    {
      Sound(committedAt, h, history, lane, acts, plan, origin, quiet)
    }

    ghost predicate Crashed()
      reads this
    {
      ByHandler(h, Crash) in history
    }

    /** What every part of the handling leaves as it was, or only adds to. */
    twostate predicate GoesOn()
      reads this
    {
      && Valid() && old(history) <= history && old(acts) <= acts && origin == old(origin)
      && (quiet ==> old(quiet))
      && (h in old(lane).handlers && h in lane.handlers ==>
            && lane.handlers[h].copy == old(lane).handlers[h].copy
            && lane.handlers[h].message == old(lane).handlers[h].message)
    }

    /** The same for what waits as env says: silence leaves it quiet, and nothing else ends the process. */
    twostate predicate GoesOnIn(env: nat -> seq<Event>, died: bool)
      reads this
    {
      && GoesOn() && (died <==> Crashed())
      && (old(quiet) && Silent(env) ==> quiet)
      && (quiet ==> !died)
      && (died ==> Kills(env, h))
    }

    constructor (t: nat, es: seq<Event>, h: HandlerId)
      requires Run(Start(t), es).Some? && Acts(es, h) == []
      ensures Valid() && lane == Run(Start(t), es).value && acts == [] && plan == [] && this.h == h
      ensures history == es && origin == lane && quiet && committedAt == t
    {
      committedAt, this.h := t, h;
      lane, acts, plan := Run(Start(t), es).value, [], [];
      history, origin, quiet := es, Run(Start(t), es).value, true;
    }

    /** One event, if it can happen while h waits. */
    method Take(e: Event)
      requires Valid() && !quiet
      modifies this
      ensures GoesOn() && acts == old(acts) && plan == old(plan) && !quiet
      ensures var l := old(lane);
              lane == if h in l.handlers && Can(l, e) && Foreign(e, h) then Do(l, e) else l
      ensures h in lane.handlers ==> h in old(lane).handlers && lane.handlers[h] == old(lane).handlers[h]
      ensures h in old(lane).handlers && h !in lane.handlers ==> Crashed() && e == ByHandler(h, Crash)
    {
      if h in lane.handlers && Can(lane, e) && Foreign(e, h) {
        SoundAfterOther(committedAt, h, history, lane, acts, plan, origin, e);
        lane := Do(lane, e);
        history := history + [e];
      }
    }

    /** Other events happen until the handler goes on or its process ends. */
    method Await(others: seq<Event>) returns (alive: bool)
      requires Valid() && h in lane.handlers
      modifies this
      ensures GoesOn() && acts == old(acts) && plan == old(plan)
      ensures lane == Meanwhile(old(lane), others, h)
      ensures alive <==> h in lane.handlers
      ensures alive <==> !Crashed()
      ensures !alive ==> ByHandler(h, Crash) in others
      ensures alive ==> lane.handlers[h] == old(lane.handlers[h])
      ensures quiet == (old(quiet) && others == [])
      ensures others == [] ==> alive && lane == old(lane)
    {
      var i := 0;
      quiet := quiet && others == [];
      while i < |others|
        invariant 0 <= i <= |others|
        invariant GoesOn() && acts == old(acts) && plan == old(plan)
        invariant lane == Meanwhile(old(lane), others[..i], h)
        invariant h in lane.handlers ==> lane.handlers[h] == old(lane.handlers[h])
        invariant h !in lane.handlers ==> Crashed() && ByHandler(h, Crash) in others
        invariant quiet == (old(quiet) && others == [])
      {
        assert others[..i + 1][..i] == others[..i];
        Take(others[i]);
        i := i + 1;
      }
      assert others[..i] == others;
      alive := h in lane.handlers;
      if Crashed() { AliveIsUncrashed(committedAt, history, h); }
    }

    /** The handler takes its next step, as far as it still reaches the broker. */
    method Act(a: HandlerAction)
      requires Valid() && h in lane.handlers && Fits(lane.handlers[h].pc, a) && !a.Crash?
      modifies this
      ensures GoesOn() && quiet == old(quiet) && lane == Stepped(old(lane), h, a)
      ensures Crashed() == old(Crashed())
      ensures plan == old(plan) + [a]
      ensures |acts| == |old(acts)| + 1
      ensures acts[|old(acts)|] == a || acts[|old(acts)|] == Reaching(a, false)
      ensures Leads(old(lane).handlers[h].pc, a, if h in lane.handlers then Some(lane.handlers[h].pc) else None)
      ensures a == CheckProcessed(false) ==>
                && (lane.handlers[h].pc.SkipAck? <==> old(lane).account.processed.Entry?)
                && lane.account == old(lane).account
      ensures a.TryLock? && a.reply.Replied? ==>
                (lane.handlers[h].pc.Blocked? <==> old(lane).account.lock.Entry?)
      ensures acts[|old(acts)|] == Nack(true) ==> Back(lane, old(lane).handlers[h])
    {
      PutsBack(committedAt, history, lane, h, a);
      var act := Reaching(a, HoldsCopy(lane.broker, h, lane.handlers[h].copy));
      SoundAfterOwn(committedAt, h, history, lane, acts, plan, origin, quiet, a);
      StepLeads(lane, h, a);
      lane := DoHandler(lane, h, act);
      acts, plan := acts + [act], plan + [a];
      history := history + [ByHandler(h, act)];
    }

    /** The handler waits and then takes its next step; died says that its process ended before. */
    method Perform(others: seq<Event>, a: HandlerAction) returns (died: bool)
      requires Valid() && h in lane.handlers && Fits(lane.handlers[h].pc, a) && !a.Crash?
      modifies this
      ensures GoesOn() && quiet == (old(quiet) && others == [])
      ensures lane == Stepped(Meanwhile(old(lane), others, h), h, a)
      ensures died <==> Crashed()
      ensures died ==> h !in lane.handlers && !quiet && ByHandler(h, Crash) in others
      ensures !died ==>
                && plan == old(plan) + [a]
                && |acts| == |old(acts)| + 1
                && (acts[|old(acts)|] == a || acts[|old(acts)|] == Reaching(a, false))
                && Leads(old(lane).handlers[h].pc, a, if h in lane.handlers then Some(lane.handlers[h].pc) else None)
      ensures quiet && a == CheckProcessed(false) ==>
                && (lane.handlers[h].pc.SkipAck? <==> old(lane).account.processed.Entry?)
                && lane.account == old(lane).account
      ensures quiet && a.TryLock? && a.reply.Replied? ==>
                (lane.handlers[h].pc.Blocked? <==> old(lane).account.lock.Entry?)
      ensures !died && acts[|old(acts)|] == Nack(true) ==> Back(lane, old(lane).handlers[h])
    {
      var alive := Await(others);
      if alive { Act(a); }
      died := !alive;
    }

    /** Publish and await the confirm. */
    method PublishCopy(script: Script, env: nat -> seq<Event>) returns (died: bool, confirmed: bool)
      requires Valid() && h in lane.handlers && Republishes(lane.handlers[h].pc)
      modifies this
      ensures GoesOnIn(env, died)
      ensures confirmed == (script.sent && script.confirmed)
      ensures died ==> h !in lane.handlers
      ensures !died ==>
                && plan == old(plan) + [Republish(script.sent), ConfirmHop(confirmed)]
                && h in lane.handlers
                && if confirmed then lane.handlers[h].pc.Settled? else lane.handlers[h].pc.Nacking?
    {
      confirmed := script.sent && script.confirmed;
      died := Perform(env(10), Republish(script.sent));
      if !died {
        died := Perform(env(11), ConfirmHop(confirmed));
      }
    }

    method PutOriginalBack(script: Script, env: nat -> seq<Event>) returns (exit: Exit)
      requires Valid() && h in lane.handlers && lane.handlers[h].pc.Nacking?
      modifies this
      ensures GoesOnIn(env, exit.Died?) && h !in lane.handlers
      ensures !exit.Died? ==> Ends(acts, exit) && plan == old(plan) + [Nack(script.nack)]
      ensures exit == Requeued(true) ==> Back(lane, old(lane).handlers[h])
    {
      var died := Perform(env(13), Nack(script.nack));
      exit := if died then Died else Requeued(acts[|acts| - 1].applied);
    }

    /** Acknowledge the original; put it back when that throws. */
    method AckOriginal(script: Script, env: nat -> seq<Event>) returns (exit: Exit)
      requires Valid() && h in lane.handlers && lane.handlers[h].pc.Settled?
      modifies this
      ensures GoesOnIn(env, exit.Died?) && h !in lane.handlers
      ensures !exit.Died? ==>
                && Ends(acts, exit)
                && plan == old(plan) + if script.hopAck.Threw? then [AckHop(Threw), Nack(script.nack)]
                                       else [AckHop(script.hopAck)]
      ensures exit == Requeued(true) ==> Back(lane, old(lane).handlers[h])
    {
      var died := Perform(env(12), AckHop(script.hopAck));
      if died {
        exit := Died;
      } else if script.hopAck.Threw? {
        exit := PutOriginalBack(script, env);
      } else {
        exit := Republished;
      }
    }

    /** Publish, confirm, acknowledge; or put the original back. */
    method RepublishAndAck(script: Script, env: nat -> seq<Event>) returns (exit: Exit)
      requires Valid() && h in lane.handlers && Republishes(lane.handlers[h].pc)
      modifies this
      ensures GoesOnIn(env, exit.Died?) && h !in lane.handlers
      ensures exit.Died? || exit.Republished? || exit.Requeued?
      ensures !exit.Died? ==> Ends(acts, exit) && plan == old(plan) + HopSteps(script)
      ensures exit.Republished? ==> Confirmed(old(acts), acts)
      ensures exit.Requeued? ==> PutBack(old(acts), acts, script.sent, exit.nacked)
      ensures exit == Requeued(true) ==> Back(lane, old(lane).handlers[h])
    {
      var died, confirmed := PublishCopy(script, env);
      if died {
        exit := Died;
      } else if confirmed {
        exit := AckOriginal(script, env);
      } else {
        exit := PutOriginalBack(script, env);
      }
      if !exit.Died? { HopForms(old(acts), old(plan), acts, plan, script, exit); }
    }

    /** Write the processed key and delete the lock. */
    method MarkAndRelease(script: Script, env: nat -> seq<Event>) returns (died: bool)
      requires Valid() && h in lane.handlers && lane.handlers[h].pc.Notified?
      modifies this
      ensures GoesOnIn(env, died)
      ensures died ==> h !in lane.handlers
      ensures !died ==>
                && plan == old(plan) + [MarkProcessed(script.mark), Release(script.release)]
                && h in lane.handlers && lane.handlers[h].pc.Released?
    {
      died := Perform(env(4), MarkProcessed(script.mark));
      if !died {
        died := Perform(env(5), Release(script.release));
      }
    }

    /** The same and the acknowledgement. */
    method RecordAndAck(script: Script, env: nat -> seq<Event>) returns (died: bool)
      requires Valid() && h in lane.handlers && lane.handlers[h].pc.Notified?
      modifies this
      ensures GoesOnIn(env, died)
      ensures died ==> h !in lane.handlers
      ensures !died ==>
                plan == old(plan) + [MarkProcessed(script.mark), Release(script.release), AckDone(script.doneAck)]
      ensures !died && script.doneAck.Threw? ==> h in lane.handlers && lane.handlers[h].pc.Failed?
      ensures !died && !script.doneAck.Threw? ==> h !in lane.handlers && Ends(acts, Completed)
    {
      died := MarkAndRelease(script, env);
      if !died {
        died := Perform(env(6), AckDone(script.doneAck));
      }
    }

    /** The try part: notify, write the processed key, delete the lock, acknowledge. */
    method TryProcessing(script: Script, env: nat -> seq<Event>) returns (died: bool)
      requires Valid() && h in lane.handlers && lane.handlers[h].pc.Acquired?
      modifies this
      ensures GoesOnIn(env, died)
      ensures died ==> h !in lane.handlers
      ensures !died ==> plan == old(plan) + TrySteps(script)
      ensures !died && TryFails(script) ==> h in lane.handlers && lane.handlers[h].pc.Failed?
      ensures !died && !TryFails(script) ==> h !in lane.handlers && Ends(acts, Completed)
    {
      died := Perform(env(3), Notify(script.notify));
      if !died && script.notify.Done? {
        died := RecordAndAck(script, env);
      }
    }

    /** The catch of the processing block: DEL of the lock, then a republish. */
    method CatchProcessing(script: Script, env: nat -> seq<Event>) returns (exit: Exit)
      requires Valid() && h in lane.handlers && lane.handlers[h].pc.Failed?
      modifies this
      ensures GoesOnIn(env, exit.Died?) && h !in lane.handlers
      ensures exit.Died? || exit.Republished? || exit.Requeued?
      ensures !exit.Died? ==> Ends(acts, exit) && plan == old(plan) + [Cleanup(script.cleanup)] + HopSteps(script)
      ensures exit.Republished? ==> Confirmed(old(acts) + [Cleanup(script.cleanup)], acts)
      ensures exit.Requeued? ==>
                PutBack(old(acts) + [Cleanup(script.cleanup)], acts, script.sent, exit.nacked)
      ensures exit == Requeued(true) ==> Back(lane, old(lane).handlers[h])
    {
      var died := Perform(env(7), Cleanup(script.cleanup));
      if died { return Died; }
      exit := RepublishAndAck(script, env);
      if !exit.Died? { CleanupForms(old(acts), old(plan), acts, plan, script, exit); }
    }

    /** The processing block: the try part, and when it fails the DEL of the lock and then a republish. */
    method Process(script: Script, env: nat -> seq<Event>) returns (exit: Exit)
      requires Valid() && h in lane.handlers && lane.handlers[h].pc.Acquired?
      modifies this
      ensures GoesOnIn(env, exit.Died?) && h !in lane.handlers
      ensures !exit.DuplicateSkipped?
      ensures !exit.Died? ==>
                && Ends(acts, exit) && plan == old(plan) + ProcessSteps(script)
                && (exit.Completed? <==> !TryFails(script))
      ensures exit.Completed? ==> Processed(old(acts), acts, script)
      ensures exit.Republished? ==> Confirmed(old(acts) + TrySteps(script) + [Cleanup(script.cleanup)], acts)
      ensures exit.Requeued? ==>
                PutBack(old(acts) + TrySteps(script) + [Cleanup(script.cleanup)], acts, script.sent, exit.nacked)
      ensures exit == Requeued(true) ==> Back(lane, old(lane).handlers[h])
    {
      var died := TryProcessing(script, env);
      if died {
        exit := Died;
      } else if !TryFails(script) {
        exit := Completed;
      } else {
        exit := CatchProcessing(script, env);
      }
      if !exit.Died? { ProcessForms(old(acts), old(plan), acts, plan, script, exit); }
    }

    /** The idempotency check: the processed key, then the lock; any failure ends up in its catch. */
    method CheckAndLock(script: Script, env: nat -> seq<Event>)
      returns (exit: Option<Exit>, ghost seen: bool, ghost taken: bool)
      requires Valid() && h in lane.handlers && lane.handlers[h].pc.Received? && acts == plan == []
      modifies this
      ensures GoesOnIn(env, exit == Some(Died))
      ensures exit.Some? ==>
                h !in lane.handlers && (exit.value.Died? || (exit.value.DuplicateSkipped? && Ends(acts, exit.value)))
      ensures exit.None? ==>
                h in lane.handlers && (Republishes(lane.handlers[h].pc) || lane.handlers[h].pc.Acquired?)
      ensures exit != Some(Died) ==> plan == CheckSteps(script, seen) && (exit.Some? <==> Skips(script, seen))
      ensures exit.None? ==> (lane.handlers[h].pc.Acquired? <==> Acquires(script, seen, taken))
      ensures quiet ==> seen == old(lane).account.processed.Entry? && taken == old(lane).account.lock.Entry?
    {
      exit, seen, taken := None, lane.account.processed.Entry?, lane.account.lock.Entry?;
      var died := Perform(env(0), CheckProcessed(script.checkThrows));
      if died { return Some(Died), seen, taken; }
      if script.checkThrows { return; }
      seen := lane.handlers[h].pc.SkipAck?;
      if lane.handlers[h].pc.SkipAck? {
        exit := Skip(script, env);
      } else {
        exit, taken := Lock(script, env);
      }
    }

    /** A duplicate is acknowledged. */
    method Skip(script: Script, env: nat -> seq<Event>) returns (exit: Option<Exit>)
      requires Valid() && h in lane.handlers && lane.handlers[h].pc.SkipAck?
      modifies this
      ensures GoesOnIn(env, exit == Some(Died))
      ensures exit == Some(Died) ==> h !in lane.handlers
      ensures exit != Some(Died) ==> plan == old(plan) + [AckSkip(script.skipAck)]
      ensures if exit.None? then script.skipAck.Threw? && h in lane.handlers && Republishes(lane.handlers[h].pc)
              else h !in lane.handlers
      ensures exit.None? || exit == Some(Died) || (exit == Some(DuplicateSkipped) && Ends(acts, DuplicateSkipped))
      ensures exit == Some(DuplicateSkipped) ==> !script.skipAck.Threw?
    {
      var died := Perform(env(1), AckSkip(script.skipAck));
      exit := if died then Some(Died) else if script.skipAck.Threw? then None else Some(DuplicateSkipped);
    }

    /** The lock call; taken says whether another handler had it. */
    method Lock(script: Script, env: nat -> seq<Event>) returns (exit: Option<Exit>, ghost taken: bool)
      requires Valid() && h in lane.handlers && lane.handlers[h].pc.Checked?
      modifies this
      ensures GoesOnIn(env, exit == Some(Died))
      ensures exit == Some(Died) || exit.None?
      ensures exit == Some(Died) ==> h !in lane.handlers
      ensures exit.None? ==>
                && plan == old(plan) + [TryLock(script.lock)]
                && h in lane.handlers && (Republishes(lane.handlers[h].pc) || lane.handlers[h].pc.Acquired?)
                && (lane.handlers[h].pc.Acquired? <==> script.lock.Replied? && !taken)
      ensures quiet ==> taken == old(lane).account.lock.Entry?
    {
      taken := lane.account.lock.Entry?;
      var died := Perform(env(2), TryLock(script.lock));
      exit := if died then Some(Died) else None;
      if !died && script.lock.Replied? { taken := lane.handlers[h].pc.Blocked?; }
    }

    /** The handling after its check: the processing block, or a republish. */
    method Finish(script: Script, env: nat -> seq<Event>) returns (exit: Exit)
      requires Valid() && h in lane.handlers
      requires Republishes(lane.handlers[h].pc) || lane.handlers[h].pc.Acquired?
      modifies this
      ensures GoesOnIn(env, exit.Died?) && h !in lane.handlers
      ensures !exit.Died? ==>
                && Ends(acts, exit)
                && plan == old(plan) +
                           if old(lane).handlers[h].pc.Acquired? then ProcessSteps(script) else HopSteps(script)
      ensures exit == Requeued(true) ==> Back(lane, old(lane).handlers[h])
    {
      if lane.handlers[h].pc.Acquired? {
        exit := Process(script, env);
      } else {
        exit := RepublishAndAck(script, env);
      }
    }

    /** One handling, from the delivery to its end.  Whatever happens meanwhile, it is part of a run of the
        delivery machine; it dies only if its process is ended meanwhile, and otherwise takes the steps that
        its outcomes and what it reads of the two keys dictate, with the exit that belongs to them.  When
        nothing else happens, it reads the keys as they were; and when nothing fails either, it is one
        atomic change of the lane. */
    method HandleMessage(script: Script, env: nat -> seq<Event>)
      returns (exit: Exit, ghost seen: bool, ghost taken: bool)
      requires Valid() && h in lane.handlers && lane.handlers[h].pc.Received?
      requires acts == plan == [] && quiet && origin == lane
      modifies this
      ensures GoesOnIn(env, exit.Died?) && h !in lane.handlers
      ensures !exit.Died? ==>
                && Ends(acts, exit) && plan == Walk(script, seen, taken) && Follows(acts, plan)
                && WalkForms(script, acts, exit) && AllObey(plan, script)
      ensures Silent(env) ==>
                && !exit.Died?
                && seen == old(lane).account.processed.Entry? && taken == old(lane).account.lock.Entry?
      ensures Silent(env) && HasCopy(old(lane), h) ==> acts == plan
      ensures Silent(env) && script == FAULTLESS && HasCopy(old(lane), h) ==> lane == Handled(old(lane), h)
      ensures exit == Requeued(true) ==> Back(lane, old(lane).handlers[h])
    {
      var left;
      left, seen, taken := CheckAndLock(script, env);
      if left.Some? {
        exit := left.value;
      } else {
        exit := Finish(script, env);
      }
      if !exit.Died? {
        WalkHasForms(script, seen, taken, acts, exit);
        WalkObeys(script, seen, taken);
      }
      if HasCopy(origin, h) {
        HandledBySteps(origin, h);
        StepsAreTheFaultlessWalk(origin.account);
      }
    }
  }
}
