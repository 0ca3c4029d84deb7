/** The connection fields of the consumer, and what each callback makes of them. */
module ConnectionFields {
  import opened Options

  type ConnectionId = nat

  /** A connection has one channel, so both fields hold the connection's number. */
  datatype Fields = Fields(
    connection: Option<ConnectionId>, channel: Option<ConnectionId>,
    reconnectTimer: bool, connecting: bool, shuttingDown: bool)

  predicate MayConnect(f: Fields) {
    !f.shuttingDown && !f.connecting && f.channel.None?
  }

  predicate MayArm(f: Fields) {
    !f.shuttingDown && !f.reconnectTimer
  }

  function Connecting(f: Fields): Fields {
    if MayConnect(f) then f.(connecting := true) else f
  }

  function Armed(f: Fields): Fields {
    if MayArm(f) then f.(reconnectTimer := true) else f
  }

  function Connected(f: Fields, k: ConnectionId): Fields {
    f.(connection := Some(k), channel := Some(k), connecting := false)
  }

  function ConnectFailed(f: Fields): Fields {
    Armed(f).(connecting := false)
  }

  function ChannelClosed(f: Fields, k: ConnectionId): Fields {
    if f.channel == Some(k) then f.(channel := None) else f
  }

  predicate ClosesConnection(f: Fields, k: ConnectionId) {
    !f.shuttingDown && f.connection == Some(k)
  }

  function ConnectionClosed(f: Fields, k: ConnectionId): Fields {
    if f.connection == Some(k) then Armed(f.(connection := None, channel := None)) else f
  }

  function ShuttingDown(f: Fields): Fields {
    f.(shuttingDown := true, reconnectTimer := false)
  }

  function Cleared(f: Fields): Fields {
    f.(connection := None, channel := None)
  }
}
