/** The life of the consumer's connection: connect attempts, lost channels and connections, reconnects,
    handler tasks, and the drain at shutdown. */
module ConsumerConnection {
  import opened Options
  import opened ConnectionFields

  type TaskId = nat

  /** A connect attempt: dialling, declaring the queues, or subscribed and about to be recorded. */
  datatype Phase = Dialing | Opening(k: ConnectionId) | Subscribed(k: ConnectionId)

  datatype Shutdown =
    | NotStarted
    | Cancelling(target: ConnectionId, connection: Option<ConnectionId>)
    | Draining(snapshot: set<TaskId>, channel: Option<ConnectionId>, connection: Option<ConnectionId>)
    | Over

  /** The event loop and the network around the fields.  `listening` holds the connections whose close
      listeners are registered; `harmlessStart` is history: no attempt was in flight when shutdown began that
      could still bring up a consumer. */
  datatype State = State(
    fields: Fields,
    attempts: seq<Phase>, timers: nat,
    open: set<ConnectionId>, channels: set<ConnectionId>, consumers: set<ConnectionId>,
    listening: set<ConnectionId>, closing: set<ConnectionId>,
    connectionDue: set<ConnectionId>, channelDue: set<ConnectionId>,
    next: ConnectionId,
    tasks: map<TaskId, ConnectionId>, nextTask: TaskId,
    shutdown: Shutdown, harmlessStart: bool)

  /** After module initialisation: the first attempt is on its way. */
  function Init(): State {
    State(Fields(None, None, false, true, false), [Dialing], 0, {}, {}, {}, {}, {}, {}, {}, 0, map[], 0,
          NotStarted, false)
  }

  /** No attempt in flight can still bring up a consumer: each has lost its channel. */
  predicate Harmless(s: State) {
    forall a :: 0 <= a < |s.attempts| ==> !s.attempts[a].Dialing? && s.attempts[a].k !in s.channels
  }

  datatype Event =
    | TimerFires
    | Dialed(a: nat)
    | Subscribes(a: nat)
    | AttemptFails(a: nat)
    | Registers(a: nat)
    | ChannelCloses(k: ConnectionId)
    | ConnectionCloses(k: ConnectionId)
    | ChannelCloseEvent(k: ConnectionId)
    | ConnectionCloseEvent(k: ConnectionId)
    | Deliver(k: ConnectionId)
    | TaskEnds(t: TaskId)
    | BeginShutdown
    | CancelDone(ok: bool)
    | Drained

  predicate Can(s: State, e: Event) {
    match e
    case TimerFires => s.timers > 0
    case Dialed(a) => a < |s.attempts| && s.attempts[a].Dialing?
    case Subscribes(a) => a < |s.attempts| && s.attempts[a].Opening? && s.attempts[a].k in s.channels
    case AttemptFails(a) => a < |s.attempts| && !s.attempts[a].Subscribed?
    case Registers(a) => a < |s.attempts| && s.attempts[a].Subscribed?
    case ChannelCloses(k) => k in s.channels
    case ConnectionCloses(k) => k in s.open
    case ChannelCloseEvent(k) => k in s.channelDue
    case ConnectionCloseEvent(k) => k in s.connectionDue
    case Deliver(k) => k in s.consumers && k in s.channels
    case TaskEnds(t) => t in s.tasks
    case BeginShutdown => s.shutdown.NotStarted?
    case CancelDone(ok) => s.shutdown.Cancelling? && (ok <==> s.shutdown.target in s.channels)
    case Drained => s.shutdown.Draining? && s.shutdown.snapshot !! s.tasks.Keys
  }

  function Without(xs: seq<Phase>, a: nat): seq<Phase>
    requires a < |xs|
  {
    xs[..a] + xs[a + 1..]
  }

  function Arm(s: State, armed: bool): State {
    if armed then s.(timers := s.timers + 1) else s
  }

  function CloseChannel(s: State, k: ConnectionId): State {
    s.(channels := s.channels - {k},
       channelDue := if k in s.channels && k in s.listening then s.channelDue + {k} else s.channelDue)
  }

  function CloseConnection(s: State, k: ConnectionId): State {
    var s' := CloseChannel(s, k);
    s'.(open := s.open - {k}, closing := s.closing - {k},
        connectionDue := if k in s.open && k in s.listening then s.connectionDue + {k} else s.connectionDue)
  }

  function Do(s: State, e: Event): State
    requires Can(s, e)
  {
    match e
    case TimerFires =>
      var f := s.fields.(reconnectTimer := false);
      s.(fields := Connecting(f), timers := s.timers - 1,
         attempts := if MayConnect(f) then s.attempts + [Dialing] else s.attempts)
    case Dialed(a) =>
      s.(attempts := s.attempts[a := Opening(s.next)], open := s.open + {s.next},
         channels := s.channels + {s.next}, next := s.next + 1)
    case Subscribes(a) =>
      var k := s.attempts[a].k;
      s.(attempts := s.attempts[a := Subscribed(k)], consumers := s.consumers + {k})
    case AttemptFails(a) =>
      Arm(s.(fields := ConnectFailed(s.fields), attempts := Without(s.attempts, a)), MayArm(s.fields))
    case Registers(a) =>
      var k := s.attempts[a].k;
      s.(fields := Connected(s.fields, k), attempts := Without(s.attempts, a), listening := s.listening + {k})
    case ChannelCloses(k) => CloseChannel(s, k)
    case ConnectionCloses(k) => CloseConnection(s, k)
    case ChannelCloseEvent(k) =>
      s.(fields := ChannelClosed(s.fields, k), channelDue := s.channelDue - {k},
         closing := if ClosesConnection(s.fields, k) && k in s.open then s.closing + {k} else s.closing)
    case ConnectionCloseEvent(k) =>
      Arm(s.(fields := ConnectionClosed(s.fields, k), connectionDue := s.connectionDue - {k}),
          s.fields.connection == Some(k) && MayArm(s.fields))
    case Deliver(k) => s.(tasks := s.tasks[s.nextTask := k], nextTask := s.nextTask + 1)
    case TaskEnds(t) => s.(tasks := s.tasks - {t})
    case BeginShutdown =>
      var cleared := if s.fields.reconnectTimer && s.timers > 0 then 1 else 0;
      var s' := s.(fields := ShuttingDown(s.fields), timers := s.timers - cleared,
                   harmlessStart := Harmless(s));
      if s.fields.channel.Some? then s'.(shutdown := Cancelling(s.fields.channel.value, s.fields.connection))
      else s'.(shutdown := Draining(s.tasks.Keys, None, s.fields.connection))
    case CancelDone(ok) =>
      var k := s.shutdown.target;
      s.(consumers := if ok then s.consumers - {k} else s.consumers,
         shutdown := Draining(s.tasks.Keys, Some(k), s.shutdown.connection))
    case Drained =>
      var s' := s.(fields := Cleared(s.fields), shutdown := Over);
      var s'' := if s.shutdown.channel.Some? then CloseChannel(s', s.shutdown.channel.value) else s';
      if s.shutdown.connection.Some? then CloseConnection(s'', s.shutdown.connection.value) else s''
  }

  /** The state after a sequence of events, None when one of them cannot happen. */
  function Run(es: seq<Event>): Option<State> {
    if es == [] then Some(Init())
    else
      var r := Run(es[..|es| - 1]);
      if r.Some? && Can(r.value, es[|es| - 1]) then Some(Do(r.value, es[|es| - 1])) else None
  }

  // ----- the invariant -----

  /** What the fields say is true: one timer when armed, one attempt when connecting, never both, and
      nothing recorded meanwhile. */
  predicate FieldsOk(s: State) {
    && s.timers == (if s.fields.reconnectTimer then 1 else 0)
    && |s.attempts| == (if s.fields.connecting then 1 else 0)
    && !(s.fields.reconnectTimer && s.fields.connecting)
    && (s.fields.reconnectTimer || s.fields.connecting ==> s.fields.connection.None? && s.fields.channel.None?)
    && (s.fields.channel.Some? ==> s.fields.connection == s.fields.channel)
    && (s.fields.shuttingDown ==> !s.fields.reconnectTimer)
    && (s.fields.shuttingDown <==> !s.shutdown.NotStarted?)
  }

  predicate DueOk(s: State) {
    && s.channels <= s.open
    && (forall k :: k in s.channelDue ==> k in s.listening && k !in s.channels)
    && (forall k :: k in s.connectionDue ==> k in s.listening && k !in s.open)
    && s.closing <= s.listening && s.closing <= s.open
    && (s.fields.connection.Some? ==> s.fields.connection.value in s.listening)
    && (forall k :: k in s.channelDue && s.fields.connection == Some(k) ==> k in s.open || k in s.connectionDue)
  }

  predicate NumbersOk(s: State) {
    && (forall k :: k in s.open ==> k < s.next)
    && (forall k :: k in s.listening ==> k < s.next)
    && (forall k :: k in s.consumers ==> k < s.next)
    && (forall a :: 0 <= a < |s.attempts| && !s.attempts[a].Dialing? ==>
          s.attempts[a].k < s.next && s.attempts[a].k !in s.listening)
  }

  predicate Inv(s: State) {
    FieldsOk(s) && DueOk(s) && NumbersOk(s)
  }

  /** There is at most one attempt, so a step of an attempt is a step of that one. */
  lemma OnlyAttempt(s: State, e: Event)
    requires FieldsOk(s) && Can(s, e)
    ensures e.Dialed? || e.Subscribes? || e.AttemptFails? || e.Registers? ==>
              && e.a == 0 && s.attempts == [s.attempts[0]] && Without(s.attempts, 0) == []
              && (forall x :: s.attempts[0 := x] == [x])
    ensures e.TimerFires? ==> s.attempts == []
  {
  }

  lemma StepKeepsFields(s: State, e: Event)
    requires Inv(s) && Can(s, e)
    ensures FieldsOk(Do(s, e))
  {
    OnlyAttempt(s, e);
  }

  lemma CloseKeepsDue(s: State, k: ConnectionId)
    requires DueOk(s)
    ensures DueOk(CloseChannel(s, k)) && DueOk(CloseConnection(s, k))
  {
  }

  lemma StepKeepsDue(s: State, e: Event)
    requires Inv(s) && Can(s, e)
    ensures DueOk(Do(s, e))
  {
    OnlyAttempt(s, e);
    match e {
      case ChannelCloses(k) => CloseKeepsDue(s, k);
      case ConnectionCloses(k) => CloseKeepsDue(s, k);
      case Drained =>
        var s' := s.(fields := Cleared(s.fields), shutdown := Over);
        if s.shutdown.channel.Some? {
          CloseKeepsDue(s', s.shutdown.channel.value);
          s' := CloseChannel(s', s.shutdown.channel.value);
        }
        if s.shutdown.connection.Some? {
          CloseKeepsDue(s', s.shutdown.connection.value);
        }
      case _ =>
    }
  }

  lemma StepKeepsNumbers(s: State, e: Event)
    requires Inv(s) && Can(s, e)
    ensures NumbersOk(Do(s, e))
  {
    OnlyAttempt(s, e);
  }

  lemma StepKeepsInv(s: State, e: Event)
    requires Inv(s) && Can(s, e)
    ensures Inv(Do(s, e))
  {
    StepKeepsFields(s, e);
    StepKeepsDue(s, e);
    StepKeepsNumbers(s, e);
  }

  lemma {:induction false} RunKeepsInv(es: seq<Event>)
    requires Run(es).Some?
    ensures Inv(Run(es).value)
  {
    if es != [] {
      RunKeepsInv(es[..|es| - 1]);
      StepKeepsInv(Run(es[..|es| - 1]).value, es[|es| - 1]);
    }
  }

  // ----- self-healing -----

  /** Something is under way that leads to a live channel, or there is one, or we are shutting down. */
  predicate Healthy(s: State) {
    || s.fields.shuttingDown
    || (s.fields.channel.Some? && s.fields.channel.value in s.channels)
    || s.attempts != []
    || s.timers > 0
    || (s.fields.connection.Some? &&
          var k := s.fields.connection.value;
          k in s.connectionDue || k in s.closing || k in s.channelDue)
  }

  /** The attempt is recorded although its channel has already closed: its listeners come too late. */
  predicate TooLate(s: State, e: Event)
    requires Can(s, e)
  {
    e.Registers? && s.attempts[e.a].k !in s.channels
  }

  /** A healthy connection stays healthy in exactly the steps that do not record a closed channel. */
  lemma HealthyExactly(es: seq<Event>, e: Event)
    requires Run(es).Some? && Healthy(Run(es).value) && Can(Run(es).value, e)
    ensures var s := Run(es).value;
            Healthy(Do(s, e)) <==> s.fields.shuttingDown || !TooLate(s, e)
  {
    RunKeepsInv(es);
  }

  predicate RecordsInTime(es: seq<Event>) {
    es == [] ||
    (var n := |es| - 1;
     RecordsInTime(es[..n]) && Run(es[..n]).Some? && Can(Run(es[..n]).value, es[n])
     && !TooLate(Run(es[..n]).value, es[n]))
  }

  /** As long as no attempt is recorded too late, every state before shutdown has a live channel, an attempt
      in progress, an armed timer, or a close event to come; and never two attempts or two timers. */
  lemma {:induction false} SelfHealing(es: seq<Event>)
    requires RecordsInTime(es)
    ensures Run(es).Some?
    ensures var s := Run(es).value; Healthy(s) && |s.attempts| <= 1 && s.timers <= 1
  {
    if es != [] {
      SelfHealing(es[..|es| - 1]);
      HealthyExactly(es[..|es| - 1], es[|es| - 1]);
    }
    RunKeepsInv(es);
  }

  // ----- what a late recording leads to -----

  lemma Next(es: seq<Event>, e: Event) returns (fs: seq<Event>, s: State)
    requires Run(es).Some? && Can(Run(es).value, e)
    ensures fs == es + [e] && s == Do(Run(es).value, e) && Run(fs) == Some(s)
  {
    fs, s := es + [e], Do(Run(es).value, e);
    assert fs[..|fs| - 1] == es;
  }

  /** The recorded connection is gone, and nothing is under way. */
  predicate Stuck(s: State) {
    !Healthy(s) && s.fields.connection.Some? && s.fields.connection.value !in s.open
  }

  /** Concretely: the connection closes between the subscription and its recording. */
  lemma LateRecordingIsStuck() returns (es: seq<Event>)
    ensures Run(es).Some? && Stuck(Run(es).value)
  {
    var s;
    es, s := Next([], Dialed(0));
    es, s := Next(es, Subscribes(0));
    es, s := Next(es, ConnectionCloses(0));
    es, s := Next(es, Registers(0));
  }

  lemma StepKeepsStuck(s: State, e: Event)
    requires Inv(s) && Stuck(s) && Can(s, e) && !e.BeginShutdown?
    ensures Stuck(Do(s, e))
  {
  }

  /** From then on only a shutdown changes anything: the consumer never connects again. */
  lemma {:induction false} StuckForEver(es: seq<Event>, fs: seq<Event>)
    requires es <= fs && Run(fs).Some? && Run(es).Some? && Stuck(Run(es).value)
    requires forall i :: |es| <= i < |fs| ==> !fs[i].BeginShutdown?
    ensures Stuck(Run(fs).value)
  {
    if fs != es {
      var n := |fs| - 1;
      StuckForEver(es, fs[..n]);
      RunKeepsInv(fs[..n]);
      StepKeepsStuck(Run(fs[..n]).value, fs[n]);
    }
  }

  predicate Live(s: State) {
    s.fields.channel.Some? && s.fields.channel.value in s.channels
  }

  /** fs goes on after es without a shutdown and ends with a live channel. */
  predicate Reconnects(es: seq<Event>, fs: seq<Event>) {
    && es <= fs && Run(fs).Some? && Live(Run(fs).value)
    && (forall i :: |es| <= i < |fs| ==> !fs[i].BeginShutdown?)
  }

  /** Before shutdown something is recorded, or an attempt or the timer is there. */
  predicate Underway(s: State) {
    s.fields.shuttingDown || s.fields.connection.Some? || s.attempts != [] || s.timers > 0
  }

  lemma {:induction false} RunKeepsUnderway(es: seq<Event>)
    requires Run(es).Some?
    ensures Underway(Run(es).value)
  {
    if es != [] {
      RunKeepsUnderway(es[..|es| - 1]);
      RunKeepsInv(es[..|es| - 1]);
      OnlyAttempt(Run(es[..|es| - 1]).value, es[|es| - 1]);
    }
  }

  /** While the recorded connection is open, its close event still repairs everything. */
  lemma ReconnectAfterClose(es: seq<Event>) returns (fs: seq<Event>)
    requires Run(es).Some? && !Healthy(Run(es).value)
    requires var s := Run(es).value; s.fields.connection.Some? && s.fields.connection.value in s.open
    ensures Reconnects(es, fs)
  {
    RunKeepsInv(es);
    var s := Run(es).value;
    var k := s.fields.connection.value;
    fs, s := Next(es, ConnectionCloses(k));
    fs, s := Next(fs, ConnectionCloseEvent(k));
    var gs := fs;
    fs := ConnectFromTimer(fs);
    assert forall i :: |es| <= i < |gs| ==> !fs[i].BeginShutdown?;
  }

  lemma ConnectFromTimer(es: seq<Event>) returns (fs: seq<Event>)
    requires Run(es).Some? && !Run(es).value.fields.shuttingDown && Run(es).value.timers > 0
    ensures Reconnects(es, fs)
  {
    RunKeepsInv(es);
    var s;
    fs, s := Next(es, TimerFires);
    fs, s := Next(fs, Dialed(0));
    fs, s := Next(fs, Subscribes(0));
    fs, s := Next(fs, Registers(0));
  }

  /** An unhealthy consumer can get a live channel again, short of a shutdown, if and only if the recorded
      connection is still open. */
  lemma RepairableExactly(es: seq<Event>)
    requires Run(es).Some? && !Healthy(Run(es).value)
    ensures var s := Run(es).value;
            s.fields.connection.Some? &&
            ((exists fs :: Reconnects(es, fs)) <==> s.fields.connection.value in s.open)
  {
    RunKeepsUnderway(es);
    var s := Run(es).value;
    if s.fields.connection.value in s.open {
      var fs := ReconnectAfterClose(es);
    } else {
      forall fs | Reconnects(es, fs) ensures false {
        StuckForEver(es, fs);
      }
    }
  }

  // ----- drain -----

  predicate NoConsumer(s: State) {
    forall k :: k in s.consumers ==> k !in s.channels
  }

  /** What holds of consumers and handler tasks after a harmless start of the shutdown. */
  predicate DrainOk(s: State) {
    && (forall a :: 0 <= a < |s.attempts| && s.attempts[a].Subscribed? ==> s.attempts[a].k in s.consumers)
    && match s.shutdown
       case NotStarted =>
         forall k :: k in s.consumers && k in s.channels ==>
           s.fields.channel == Some(k) || (|s.attempts| == 1 && s.attempts[0] == Subscribed(k))
       case Cancelling(target, _) =>
         && s.attempts == []
         && (s.harmlessStart ==> forall k :: k in s.consumers && k in s.channels ==> k == target)
       case Draining(snapshot, _, _) =>
         s.harmlessStart ==> Harmless(s) && NoConsumer(s) && s.tasks.Keys <= snapshot
       case Over =>
         s.harmlessStart ==> Harmless(s) && NoConsumer(s) && s.tasks == map[]
  }

  /** The steps of an attempt. */
  lemma AttemptKeepsDrain(s: State, e: Event)
    requires Inv(s) && DrainOk(s) && Can(s, e)
    requires e.TimerFires? || e.Dialed? || e.Subscribes? || e.AttemptFails? || e.Registers?
    ensures DrainOk(Do(s, e))
  {
    OnlyAttempt(s, e);
  }

  /** The steps of the shutdown. */
  lemma ShutdownKeepsDrain(s: State, e: Event)
    requires Inv(s) && DrainOk(s) && Can(s, e)
    requires e.BeginShutdown? || e.CancelDone? || e.Drained?
    ensures DrainOk(Do(s, e))
  {
  }

  lemma StepKeepsDrain(s: State, e: Event)
    requires Inv(s) && DrainOk(s) && Can(s, e)
    ensures DrainOk(Do(s, e))
  {
    if e.TimerFires? || e.Dialed? || e.Subscribes? || e.AttemptFails? || e.Registers? {
      AttemptKeepsDrain(s, e);
    } else if e.BeginShutdown? || e.CancelDone? || e.Drained? {
      ShutdownKeepsDrain(s, e);
    }
  }

  lemma {:induction false} RunKeepsDrain(es: seq<Event>)
    requires Run(es).Some?
    ensures DrainOk(Run(es).value)
  {
    if es != [] {
      RunKeepsDrain(es[..|es| - 1]);
      RunKeepsInv(es[..|es| - 1]);
      StepKeepsDrain(Run(es[..|es| - 1]).value, es[|es| - 1]);
    }
  }

  /** If the shutdown began harmlessly, then once the channel is closed no handler is running and none can
      start, although the drain waited for a snapshot of the handlers only. */
  lemma DrainIsSafe(es: seq<Event>)
    requires Run(es).Some? && Run(es).value.shutdown.Over? && Run(es).value.harmlessStart
    ensures var s := Run(es).value;
            s.tasks == map[] && (forall k :: !Can(s, Deliver(k)))
  {
    RunKeepsDrain(es);
  }

  /** A shutdown that begins after es is over in fs, and a handler is running. */
  predicate Outlived(es: seq<Event>, fs: seq<Event>) {
    && es + [BeginShutdown] <= fs && Run(fs).Some?
    && Run(fs).value.shutdown.Over? && Run(fs).value.tasks != map[]
  }

  lemma StepRemembersStart(s: State, e: Event)
    requires Can(s, e) && !s.shutdown.NotStarted?
    ensures Do(s, e).harmlessStart == s.harmlessStart && !Do(s, e).shutdown.NotStarted?
  {
  }

  lemma {:induction false} StartIsRemembered(es: seq<Event>, fs: seq<Event>)
    requires es + [BeginShutdown] <= fs && Run(fs).Some?
    ensures Run(es).Some? && Run(fs).value.harmlessStart == Harmless(Run(es).value)
    ensures !Run(fs).value.shutdown.NotStarted?
  {
    var n := |fs| - 1;
    if n == |es| {
      assert fs[..n] == es;
    } else {
      StartIsRemembered(es, fs[..n]);
      StepRemembersStart(Run(fs[..n]).value, fs[n]);
    }
  }

  /** The shutdown works on what was recorded when it began in s0, and has closed it when it is over. */
  predicate ClosesRecorded(s0: State, s: State) {
    && !s.shutdown.NotStarted?
    && (s0.fields.channel.Some? ==> s0.fields.channel.value < s.next)
    && (s0.fields.connection.Some? ==> s0.fields.connection.value < s.next)
    && match s.shutdown
       case NotStarted => true
       case Cancelling(target, connection) => s0.fields.channel == Some(target) && connection == s0.fields.connection
       case Draining(_, channel, connection) => channel == s0.fields.channel && connection == s0.fields.connection
       case Over =>
         && (s0.fields.channel.Some? ==> s0.fields.channel.value !in s.channels)
         && (s0.fields.connection.Some? ==> s0.fields.connection.value !in s.open)
  }

  lemma BeginRecords(s: State)
    requires Inv(s) && Can(s, BeginShutdown)
    ensures ClosesRecorded(s, Do(s, BeginShutdown))
  {
  }

  lemma StepClosesRecorded(s0: State, s: State, e: Event)
    requires Inv(s) && ClosesRecorded(s0, s) && Can(s, e)
    ensures ClosesRecorded(s0, Do(s, e))
  {
  }

  /** Once a shutdown is over, the channel and the connection that were recorded when it began are closed, and
      stay so. */
  lemma {:induction false} ShutdownCloses(es: seq<Event>, fs: seq<Event>)
    requires es + [BeginShutdown] <= fs && Run(fs).Some? && Run(es).Some?
    ensures ClosesRecorded(Run(es).value, Run(fs).value)
  {
    var n := |fs| - 1;
    RunKeepsInv(fs[..n]);
    if n == |es| {
      assert fs[..n] == es;
      BeginRecords(Run(es).value);
    } else {
      ShutdownCloses(es, fs[..n]);
      StepClosesRecorded(Run(es).value, Run(fs[..n]).value, fs[n]);
    }
  }

  /** All handlers finish. */
  lemma {:induction false} FinishTasks(es: seq<Event>) returns (fs: seq<Event>)
    requires Run(es).Some?
    ensures es <= fs && Run(fs).Some? && Run(fs).value == Run(es).value.(tasks := map[])
    decreases |Run(es).value.tasks|
  {
    var s := Run(es).value;
    if s.tasks == map[] {
      fs := es;
    } else {
      var t :| t in s.tasks;
      fs, s := Next(es, TaskEnds(t));
      assert |s.tasks.Keys| < |Run(es).value.tasks.Keys|;
      fs := FinishTasks(fs);
    }
  }

  /** A harmful attempt dials, if it has not yet. */
  lemma DialFirst(es: seq<Event>) returns (fs: seq<Event>, s: State)
    requires Run(es).Some? && !Harmless(Run(es).value)
    ensures es <= fs && Run(fs) == Some(s) && s.shutdown == Run(es).value.shutdown
    ensures |s.attempts| == 1 && !s.attempts[0].Dialing? && s.attempts[0].k in s.channels
  {
    RunKeepsInv(es);
    fs, s := es, Run(es).value;
    if s.attempts[0].Dialing? {
      fs, s := Next(fs, Dialed(0));
    }
  }

  /** It subscribes, if it has not yet. */
  lemma Subscribe(es: seq<Event>) returns (fs: seq<Event>, s: State, k: ConnectionId)
    requires Run(es).Some? && !Harmless(Run(es).value)
    ensures es <= fs && Run(fs) == Some(s) && s.shutdown == Run(es).value.shutdown
    ensures k in s.consumers && k in s.channels
  {
    fs, s := DialFirst(es);
    RunKeepsDrain(fs);
    k := s.attempts[0].k;
    if s.attempts[0].Opening? {
      fs, s := Next(fs, Subscribes(0));
    }
  }

  /** It can do so after the shutdown is over, and then its consumer starts a handler. */
  lemma OutliveShutdown(es: seq<Event>) returns (fs: seq<Event>)
    requires Run(es).Some? && Run(es).value.shutdown.NotStarted? && !Harmless(Run(es).value)
    ensures Outlived(es, fs)
  {
    RunKeepsInv(es);
    var s;
    fs, s := Next(es, BeginShutdown);
    fs := FinishTasks(fs);
    fs, s := Next(fs, Drained);
    var k;
    fs, s, k := Subscribe(fs);
    var t := s.nextTask;
    fs, s := Next(fs, Deliver(k));
    assert t in s.tasks;
  }

  /** A handler can outlive the shutdown if and only if, when it begins, an attempt is in flight that is still
      dialling or whose channel is open. */
  lemma DrainIsSafeExactly(es: seq<Event>)
    requires Run(es).Some? && Run(es).value.shutdown.NotStarted?
    ensures (exists fs :: Outlived(es, fs)) <==> !Harmless(Run(es).value)
  {
    if Harmless(Run(es).value) {
      forall fs | Outlived(es, fs) ensures false {
        StartIsRemembered(es, fs);
        DrainIsSafe(fs);
      }
    } else {
      var fs := OutliveShutdown(es);
    }
  }
}
