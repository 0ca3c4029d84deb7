/** The consumer as the source writes it: connection fields, callbacks, handler tasks and shutdown. */
module ConsumerServices {
  import opened Options
  import opened ConnectionFields
  import opened ConsumerConnection

  /** What can happen at any time; the remaining events are the shutdown's own steps. */
  predicate Spontaneous(e: Event) {
    !e.BeginShutdown? && !e.CancelDone? && !e.Drained?
  }

  /** What the events that can happen make of the state, one after the other. */
  function Meanwhile(s: State, others: seq<Event>): State {
    if others == [] then s
    else
      var t, e := Meanwhile(s, others[..|others| - 1]), others[|others| - 1];
      if Can(t, e) && Spontaneous(e) then Do(t, e) else t
  }

  /** The whole shutdown: it begins; while anything may happen it cancels the consumer, if there is one, and
      then waits for the handlers of that moment; and it ends when these have ended. */
  function AfterCancel(s: State, others: seq<Event>): State {
    if !s.shutdown.Cancelling? then s
    else
      var t := Meanwhile(s, others);
      if t.shutdown.Cancelling? then Do(t, CancelDone(t.shutdown.target in t.channels)) else t
  }

  function AfterDrain(s: State, others: seq<Event>): State {
    var t := Meanwhile(s, others);
    if Can(t, Drained) then Do(t, Drained) else t
  }

  class OrderNotificationConsumer {
    var connection: Option<ConnectionId>
    var channel: Option<ConnectionId>
    var reconnectTimer: bool
    var connecting: bool
    var shuttingDown: bool
    var inFlightHandlers: set<TaskId>
    var net: State                  // the event loop and the network around the object
    ghost var history: seq<Event>

    function View(): Fields
      reads this
    {
      Fields(connection, channel, reconnectTimer, connecting, shuttingDown)
    }

    /** The object and its surroundings are the outcome of a run, so every law of runs holds of them. */
    ghost predicate Valid()
      reads this
    {
      Run(history) == Some(net) && net.fields == View() && net.tasks.Keys == inFlightHandlers
    }

    /** Construction and module initialisation, which starts the first attempt. */
    constructor ()
      ensures Valid() && history == [] && net == Init()
    {
      connection, channel := None, None;
      reconnectTimer, connecting, shuttingDown := false, false, false;
      inFlightHandlers, net, history := {}, Init(), [];
      new;
      var _ := Connect();
    }

    /** Notes that e has happened; the callback has seen to the fields. */
    method Note(e: Event)
      requires Run(history) == Some(net) && Can(net, e)
      modifies this`net, this`history
      ensures net == Do(old(net), e) && history == old(history) + [e] && Run(history) == Some(net)
    {
      ghost var fs, after := Next(history, e);
      net, history := Do(net, e), history + [e];
    }

    /** The start of a connect attempt; nothing happens when one is not wanted. */
    method Connect() returns (started: bool)
      modifies this`connecting
      ensures started == MayConnect(old(View())) && View() == Connecting(old(View()))
    {
      if shuttingDown || connecting || channel.Some? {
        return false;
      }
      connecting := true;
      started := true;
    }

    method ScheduleReconnect() returns (armed: bool)
      modifies this`reconnectTimer
      ensures armed == MayArm(old(View())) && View() == Armed(old(View()))
    {
      if shuttingDown || reconnectTimer {
        return false;
      }
      reconnectTimer := true;
      armed := true;
    }

    /** The timer's callback forgets the timer and connects. */
    method OnTimer()
      requires Valid() && Can(net, TimerFires)
      modifies this
      ensures Valid() && net == Do(old(net), TimerFires) && history == old(history) + [TimerFires]
    {
      reconnectTimer := false;
      var _ := Connect();
      Note(TimerFires);
    }

    /** The attempt has subscribed: its listeners are registered and its connection is recorded. */
    method OnConnected(a: nat)
      requires Valid() && Can(net, Registers(a))
      modifies this
      ensures Valid() && net == Do(old(net), Registers(a)) && history == old(history) + [Registers(a)]
    {
      connection, channel := Some(net.attempts[a].k), Some(net.attempts[a].k);
      connecting := false;
      Note(Registers(a));
    }

    method OnConnectFailed(a: nat)
      requires Valid() && Can(net, AttemptFails(a))
      modifies this
      ensures Valid() && net == Do(old(net), AttemptFails(a)) && history == old(history) + [AttemptFails(a)]
    {
      if !shuttingDown {
        var _ := ScheduleReconnect();
      }
      connecting := false;
      Note(AttemptFails(a));
    }

    /** The channel's close event: forget the channel, and close the connection it belonged to. */
    method OnChannelClose(k: ConnectionId) returns (closes: bool)
      requires Valid() && Can(net, ChannelCloseEvent(k))
      modifies this
      ensures Valid() && net == Do(old(net), ChannelCloseEvent(k))
      ensures history == old(history) + [ChannelCloseEvent(k)] && closes == ClosesConnection(old(View()), k)
    {
      if channel == Some(k) {
        channel := None;
      }
      closes := !shuttingDown && connection == Some(k);
      Note(ChannelCloseEvent(k));
    }

    method OnConnectionClose(k: ConnectionId)
      requires Valid() && Can(net, ConnectionCloseEvent(k))
      modifies this
      ensures Valid() && net == Do(old(net), ConnectionCloseEvent(k))
      ensures history == old(history) + [ConnectionCloseEvent(k)]
    {
      if connection == Some(k) {
        connection, channel := None, None;
        if !shuttingDown {
          var _ := ScheduleReconnect();
        }
      }
      Note(ConnectionCloseEvent(k));
    }

    /** A message starts a handler, which is in flight until it ends. */
    method OnMessage(k: ConnectionId)
      requires Valid() && Can(net, Deliver(k))
      modifies this
      ensures Valid() && net == Do(old(net), Deliver(k)) && history == old(history) + [Deliver(k)]
    {
      inFlightHandlers := inFlightHandlers + {net.nextTask};
      Note(Deliver(k));
    }

    method OnHandlerEnd(t: TaskId)
      requires Valid() && Can(net, TaskEnds(t))
      modifies this
      ensures Valid() && net == Do(old(net), TaskEnds(t)) && history == old(history) + [TaskEnds(t)]
    {
      inFlightHandlers := inFlightHandlers - {t};
      Note(TaskEnds(t));
    }

    /** One event: a callback, or something in the network that the fields do not show. */
    method Happen(e: Event)
      requires Valid() && Can(net, e) && Spontaneous(e)
      modifies this
      ensures Valid() && net == Do(old(net), e) && history == old(history) + [e]
    {
      match e {
        case TimerFires => OnTimer();
        case Registers(a) => OnConnected(a);
        case AttemptFails(a) => OnConnectFailed(a);
        case ChannelCloseEvent(k) => var _ := OnChannelClose(k);
        case ConnectionCloseEvent(k) => OnConnectionClose(k);
        case Deliver(k) => OnMessage(k);
        case TaskEnds(t) => OnHandlerEnd(t);
        case Dialed(_) => Note(e);
        case Subscribes(_) => Note(e);
        case ChannelCloses(_) => Note(e);
        case ConnectionCloses(_) => Note(e);
      }
    }

    /** Any events happen. */
    method Await(others: seq<Event>)
      requires Valid()
      modifies this
      ensures Valid() && old(history) <= history && net.shutdown == old(net.shutdown)
      ensures net == Meanwhile(old(net), others)
    {
      var i := 0;
      while i < |others|
        invariant 0 <= i <= |others|
        invariant Valid() && old(history) <= history && net.shutdown == old(net.shutdown)
        invariant net == Meanwhile(old(net), others[..i])
      {
        assert others[..i + 1][..i] == others[..i];
        if Can(net, others[i]) && Spontaneous(others[i]) {
          Happen(others[i]);
        }
        i := i + 1;
      }
      assert others[..i] == others;
    }

    /** Raises the flag, disarms the timer, and hands out what is recorded. */
    method BeginShutdown() returns (ch: Option<ConnectionId>, conn: Option<ConnectionId>)
      requires Valid() && Can(net, Event.BeginShutdown)
      modifies this
      ensures Valid() && net == Do(old(net), Event.BeginShutdown)
      ensures history == old(history) + [Event.BeginShutdown]
      ensures ch == old(channel) && conn == old(connection)
    {
      shuttingDown := true;
      if reconnectTimer {
        reconnectTimer := false;
      }
      ch, conn := channel, connection;
      RunKeepsInv(history);
      Note(Event.BeginShutdown);
    }

    method FinishShutdown()
      requires Valid() && Can(net, Drained)
      modifies this
      ensures Valid() && net == Do(old(net), Drained) && history == old(history) + [Drained]
    {
      channel, connection := None, None;
      Note(Drained);
    }

    /** Cancels the consumer, if there is one; from here on the drain waits for a snapshot. */
    method Cancel(ch: Option<ConnectionId>, others: seq<Event>)
      requires Valid() && ch == (if net.shutdown.Cancelling? then Some(net.shutdown.target) else None)
      requires net.shutdown.Cancelling? || (net.shutdown.Draining? && net.shutdown.snapshot == inFlightHandlers)
      modifies this
      ensures Valid() && old(history) <= history
      ensures net.shutdown.Draining? && net.shutdown.snapshot == inFlightHandlers
      ensures net == AfterCancel(old(net), others)
    {
      if ch.Some? {
        Await(others);
        Note(CancelDone(ch.value in net.channels));
      }
    }

    /** Waits for the handlers of the snapshot, and closes when they are done. */
    method Drain(others: seq<Event>) returns (over: bool)
      requires Valid() && net.shutdown.Draining? && net.shutdown.snapshot == inFlightHandlers
      modifies this
      ensures Valid() && old(history) <= history
      ensures if over then net.shutdown.Over?
              else net.shutdown.Draining? && net.shutdown.snapshot * inFlightHandlers != {}
      ensures over ==> connection == None && channel == None
      ensures net == AfterDrain(old(net), others)
    {
      var snapshot := inFlightHandlers;
      Await(others);
      over := snapshot !! inFlightHandlers;
      if over {
        FinishShutdown();
      } else {
        var t :| t in snapshot && t in inFlightHandlers;
        assert t in snapshot * inFlightHandlers;
      }
    }

    /** The whole shutdown, while anything may happen.  It is over unless a handler of the snapshot does not
        finish; and when it began harmlessly, no handler is running then and none can start. */
    method BeforeApplicationShutdown(env: nat -> seq<Event>) returns (over: bool)
      requires Valid() && Can(net, Event.BeginShutdown)
      modifies this
      ensures Valid() && old(history) + [Event.BeginShutdown] <= history
      ensures if over then net.shutdown.Over?
              else net.shutdown.Draining? && net.shutdown.snapshot * inFlightHandlers != {}
      ensures over ==>
                && connection == None && channel == None
                && (old(channel).Some? ==> old(channel).value !in net.channels)
                && (old(connection).Some? ==> old(connection).value !in net.open)
      ensures over && Harmless(old(net)) ==> inFlightHandlers == {} && forall k :: !Can(net, Deliver(k))
      ensures net == AfterDrain(AfterCancel(Do(old(net), Event.BeginShutdown), env(0)), env(1))
    {
      var ch, conn := BeginShutdown();
      Cancel(ch, env(0));
      over := Drain(env(1));
      StartIsRemembered(old(history), history);
      ShutdownCloses(old(history), history);
      if over && Harmless(old(net)) { DrainIsSafe(history); }
    }
  }

  /** What self-healing means for the object: before shutdown it has a live channel, or is connecting, or has
      armed its timer, or a close event is due for the connection it has recorded. */
  lemma ConsumerHeals(c: OrderNotificationConsumer)
    requires c.Valid() && RecordsInTime(c.history) && !c.shuttingDown
    ensures || (c.channel.Some? && c.channel.value in c.net.channels)
            || c.connecting || c.reconnectTimer
            || (c.connection.Some? &&
                  c.connection.value in c.net.connectionDue + c.net.closing + c.net.channelDue)
    ensures !(c.connecting && c.reconnectTimer)
  {
    SelfHealing(c.history);
    RunKeepsInv(c.history);
  }
}
