/** What each event does to the consumer's connection, in the terms of the source: an independent reference
    for the steps of the connection machine. */
module ConnectionSteps {
  import opened Options
  import opened ConnectionFields
  import opened ConsumerConnection

  predicate SameNetwork(s: State, s': State) {
    && s'.open == s.open && s'.channels == s.channels && s'.consumers == s.consumers && s'.listening == s.listening
    && s'.next == s.next && s'.closing == s.closing
    && s'.connectionDue == s.connectionDue && s'.channelDue == s.channelDue
  }

  predicate SameTasks(s: State, s': State) {
    s'.tasks == s.tasks && s'.nextTask == s.nextTask
  }

  predicate SameShutdown(s: State, s': State) {
    s'.shutdown == s.shutdown && s'.harmlessStart == s.harmlessStart
  }

  predicate SameLoop(s: State, s': State) {
    s'.fields == s.fields && s'.attempts == s.attempts && s'.timers == s.timers
  }

  /** The attempts and the network go their way at any time; the shutdown begins once, its cancel succeeds
      exactly while the channel lives, and it goes on when the handlers of its snapshot have ended. */
  lemma EventCan(s: State, e: Event)
    ensures Can(s, e) <==>
            match e
            case TimerFires => s.timers > 0
            case Dialed(a) => a < |s.attempts| && s.attempts[a] == Dialing
            case Subscribes(a) => a < |s.attempts| && s.attempts[a].Opening? && s.attempts[a].k in s.channels
            case AttemptFails(a) => a < |s.attempts| && (s.attempts[a] == Dialing || s.attempts[a].Opening?)
            case Registers(a) => a < |s.attempts| && s.attempts[a].Subscribed?
            case ChannelCloses(k) => k in s.channels
            case ConnectionCloses(k) => k in s.open
            case ChannelCloseEvent(k) => k in s.channelDue
            case ConnectionCloseEvent(k) => k in s.connectionDue
            case Deliver(k) => k in s.consumers && k in s.channels
            case TaskEnds(t) => t in s.tasks
            case BeginShutdown => s.shutdown == NotStarted
            case CancelDone(ok) => s.shutdown.Cancelling? && (ok <==> s.shutdown.target in s.channels)
            case Drained => s.shutdown.Draining? && forall t :: t in s.shutdown.snapshot ==> t !in s.tasks
  {
  }

  /** The timer's callback: it connects unless that is under way, done, or no longer wanted. */
  lemma TimerStep(s: State)
    requires Can(s, TimerFires)
    ensures var s' := Do(s, TimerFires);
            var starts := !s.fields.shuttingDown && !s.fields.connecting && s.fields.channel == None;
            && SameNetwork(s, s') && SameTasks(s, s') && SameShutdown(s, s') && s'.timers == s.timers - 1
            && s'.fields == s.fields.(reconnectTimer := false, connecting := s.fields.connecting || starts)
            && s'.attempts == s.attempts + if starts then [Dialing] else []
  {
  }

  /** Connecting opens a new connection with its channel; subscribing adds a consumer to it. */
  lemma AttemptStep(s: State, a: nat)
    ensures Can(s, Dialed(a)) ==>
              var s' := Do(s, Dialed(a));
              s' == s.(attempts := s.attempts[a := Opening(s.next)], open := s.open + {s.next},
                       channels := s.channels + {s.next}, next := s.next + 1)
    ensures Can(s, Subscribes(a)) ==>
              var s' := Do(s, Subscribes(a));
              s' == s.(attempts := s.attempts[a := Subscribed(s.attempts[a].k)],
                       consumers := s.consumers + {s.attempts[a].k})
  {
  }

  /** A failed attempt arms the timer unless it is armed or a shutdown has begun. */
  lemma FailStep(s: State, a: nat)
    requires Can(s, AttemptFails(a))
    ensures var s' := Do(s, AttemptFails(a));
            var arms := !s.fields.shuttingDown && !s.fields.reconnectTimer;
            && SameNetwork(s, s') && SameTasks(s, s') && SameShutdown(s, s')
            && s'.fields == s.fields.(connecting := false, reconnectTimer := s.fields.reconnectTimer || arms)
            && s'.timers == s.timers + (if arms then 1 else 0)
            && s'.attempts == s.attempts[..a] + s.attempts[a + 1..]
  {
  }

  /** A finished attempt is recorded, whatever has become of it meanwhile, and only now do its listeners hear. */
  lemma RegisterStep(s: State, a: nat)
    requires Can(s, Registers(a))
    ensures var s', k := Do(s, Registers(a)), s.attempts[a].k;
            s' == s.(fields := s.fields.(connection := Some(k), channel := Some(k), connecting := false),
                     attempts := s.attempts[..a] + s.attempts[a + 1..], listening := s.listening + {k})
  {
  }

  /** A close reaches the registered listeners only; a connection takes its channel with it. */
  lemma CloseStep(s: State, k: ConnectionId)
    ensures Can(s, ChannelCloses(k)) ==>
              Do(s, ChannelCloses(k)) ==
              s.(channels := s.channels - {k},
                 channelDue := s.channelDue + if k in s.listening then {k} else {})
    ensures Can(s, ConnectionCloses(k)) ==>
              Do(s, ConnectionCloses(k)) ==
              s.(channels := s.channels - {k}, open := s.open - {k}, closing := s.closing - {k},
                 channelDue := s.channelDue + (if k in s.listening && k in s.channels then {k} else {}),
                 connectionDue := s.connectionDue + (if k in s.listening then {k} else {}))
  {
  }

  /** The channel's listener forgets the channel if it is the recorded one, and closes the recorded connection. */
  lemma ChannelCloseStep(s: State, k: ConnectionId)
    requires Can(s, ChannelCloseEvent(k))
    ensures var s' := Do(s, ChannelCloseEvent(k));
            && s' == s.(fields := s'.fields, channelDue := s.channelDue - {k}, closing := s'.closing)
            && s'.fields == s.fields.(channel := if s.fields.channel == Some(k) then None else s.fields.channel)
            && s'.closing == s.closing + if !s.fields.shuttingDown && s.fields.connection == Some(k) && k in s.open
                                         then {k} else {}
  {
  }

  /** The connection's listener forgets both if it is the recorded one, and arms the timer unless it is armed
      or a shutdown has begun; the close of an older connection changes nothing. */
  lemma ConnectionCloseStep(s: State, k: ConnectionId)
    requires Can(s, ConnectionCloseEvent(k))
    ensures var s' := Do(s, ConnectionCloseEvent(k));
            var arms := !s.fields.shuttingDown && !s.fields.reconnectTimer;
            if s.fields.connection == Some(k) then
              s' == s.(fields := s.fields.(connection := None, channel := None,
                                           reconnectTimer := s.fields.reconnectTimer || arms),
                       timers := s.timers + (if arms then 1 else 0), connectionDue := s.connectionDue - {k})
            else
              s' == s.(connectionDue := s.connectionDue - {k})
  {
  }

  /** A delivery starts a handler on the channel it came by. */
  lemma TaskStep(s: State, k: ConnectionId, t: TaskId)
    ensures Can(s, Deliver(k)) ==>
              Do(s, Deliver(k)) == s.(tasks := s.tasks[s.nextTask := k], nextTask := s.nextTask + 1)
    ensures Can(s, TaskEnds(t)) ==> Do(s, TaskEnds(t)) == s.(tasks := s.tasks - {t})
  {
  }

  /** The shutdown: raise the flag, disarm the timer, cancel the consumer if there is a channel, and wait for
      the handlers of that moment. */
  lemma BeginStep(s: State)
    requires Can(s, BeginShutdown)
    ensures var s' := Do(s, BeginShutdown);
            && SameNetwork(s, s') && SameTasks(s, s') && s'.attempts == s.attempts
            && s'.fields == s.fields.(shuttingDown := true, reconnectTimer := false)
            && s'.timers == s.timers - (if s.fields.reconnectTimer && s.timers > 0 then 1 else 0)
            && (s'.harmlessStart <==>
                  forall i :: 0 <= i < |s.attempts| ==> s.attempts[i] != Dialing && s.attempts[i].k !in s.channels)
            && s'.shutdown == match s.fields.channel
                              case Some(k) => Cancelling(k, s.fields.connection)
                              case None => Draining(s.tasks.Keys, None, s.fields.connection)
  {
  }

  lemma CancelStep(s: State, ok: bool)
    requires Can(s, CancelDone(ok))
    ensures var s', k := Do(s, CancelDone(ok)), s.shutdown.target;
            s' == s.(consumers := s.consumers - (if ok then {k} else {}),
                     shutdown := Draining(s.tasks.Keys, Some(k), s.shutdown.connection))
  {
  }

  /** In the end the fields are cleared, and the channel and the connection of the shutdown are closed. */
  lemma DrainedStep(s: State)
    requires Can(s, Drained)
    ensures var s' := Do(s, Drained);
            var k, c := s.shutdown.channel, s.shutdown.connection;
            && s'.fields == s.fields.(connection := None, channel := None) && s'.shutdown == Over
            && s'.attempts == s.attempts && s'.timers == s.timers && SameTasks(s, s')
            && s'.open == s.open - (if c.Some? then {c.value} else {})
            && s'.channels == s.channels - (if k.Some? then {k.value} else {}) - (if c.Some? then {c.value} else {})
            && s'.consumers == s.consumers && s'.listening == s.listening && s'.next == s.next
            && s'.closing == s.closing - (if c.Some? then {c.value} else {})
            && s'.connectionDue == s.connectionDue +
                 (if c.Some? && c.value in s.open && c.value in s.listening then {c.value} else {})
            && s'.channelDue == s.channelDue
                 + (if k.Some? && k.value in s.channels && k.value in s.listening then {k.value} else {})
                 + (if c.Some? && c.value in s.channels && c.value in s.listening then {c.value} else {})
            && s'.harmlessStart == s.harmlessStart
  {
  }
}
