/** Values shared by every layer of the model. */
module RakTypes {

  datatype Option<+T> = None | Some(value: T)

  type Byte = b: int | 0 <= b < 256
  type Bytes = seq<Byte>

  /** A RakNetGUID, used only as a dictionary key. */
  type Guid = int

  /** The numeric "ip|port" text of a SystemAddress, used only as a dictionary key. */
  type Address = int

  /** The exception a mailbox is closed with, one constructor per place that builds one. */
  datatype CloseReason =
    | LocalClose       // ConnectionClosedOK("connection closed")
    | RemoteClose      // ConnectionClosedOK("connection closed by remote")
    | ConnectionLost   // ConnectionClosedError("connection lost")
    | QueueOverflow    // ConnectionClosedError("receive queue overflow")
    | PeerClosed       // ConnectionClosedOK("peer closed")
    | PumpCrashed      // ConnectionClosedError("receive pump crashed: ...")
  {
    /** Whether the exception is a ConnectionClosedOK. */
    predicate Ok() {
      LocalClose? || RemoteClose? || PeerClosed?
    }

    /** Whether the exception is built by _finish_close rather than for one connection. */
    predicate FromPeer() {
      PeerClosed? || PumpCrashed?
    }
  }

  /** The message ids collected in CONNECT_FAILURES. */
  datatype ConnectFailure =
    | AttemptFailed
    | AlreadyConnected
    | NoFreeIncomingConnections
    | ConnectionBanned
    | InvalidPassword
    | IncompatibleProtocolVersion
    | IpRecentlyConnected

  datatype Pong = Pong(address: Address, guid: Guid, data: Bytes)

  /** A sink callback together with its arguments. */
  datatype Event =
    | IncomingConnection(address: Address, guid: Guid)
    | ConnectSucceeded(address: Address, guid: Guid)
    | ConnectFailed(address: Address, failure: ConnectFailure)
    | Message(guid: Guid, data: Bytes)
    | Disconnected(guid: Guid, graceful: bool)
    | PongReceived(address: Address, guid: Guid, data: Bytes)
}
