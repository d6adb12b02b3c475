/** Ponor frames as the forwarding core sees them.  Frames of the handshake
    phase never reach the core on purpose; they are kept as one constructor so
    that the "illegal for this role" branch has something to refuse. */
module Frames {
  import opened Common

  type Id = nat
  type Aquifer = string
  type ConnId = nat
  type Token = nat

  datatype Reason =
    | NotHere | Disconnected | NotAdmitted | Replaced | RateLimited | ShuttingDown | ProtocolError

  datatype Frame =
    | Handshake(wireLen: nat)
    | SendPacket(dst: Id, payload: seq<Byte>)
    | RecvPacket(src: Id, payload: seq<Byte>)
    | PeerGone(peer: Id, reason: Reason)
    | Ping(token: Token)
    | Pong(token: Token)
    | Restarting(reconnectInMs: nat, tryForMs: nat)
    | Close(reason: Reason)
    | PeerPresent(node: Id)
    | Forward(src: Id, dst: Id, payload: seq<Byte>)

  const FRAME_HEADER := 4
  const ID_LEN := 32
  const PEER_GONE_LEN := ID_LEN + 1
  const TOKEN_LEN := 8
  const RESTARTING_LEN := 8

  function EncodedLen(f: Frame): nat {
    FRAME_HEADER +
    match f
    case Handshake(n) => n
    case SendPacket(_, payload) => ID_LEN + |payload|
    case RecvPacket(_, payload) => ID_LEN + |payload|
    case PeerGone(_, _) => PEER_GONE_LEN
    case Ping(_) => TOKEN_LEN
    case Pong(_) => TOKEN_LEN
    case Restarting(_, _) => RESTARTING_LEN
    case Close(_) => 1
    case PeerPresent(_) => ID_LEN
    case Forward(_, _, payload) => 2 * ID_LEN + |payload|
  }

  /** Who a connection authenticated as. */
  datatype Admitted = Client(node: Id, aquifer: Aquifer) | Mesh(relay: Id)

  /** Attribution evidence for a managed destination. */
  datatype UsageMapping = UsageMapping(deployment: seq<Byte>, version: seq<Byte>, aquifer: seq<Byte>)

  /** What a completed write is reported as; no mapping means unresolved usage. */
  datatype DeliveryUsage = DeliveryUsage(mapping: Option<UsageMapping>, payloadBytes: nat)

  datatype Outbound = Outbound(frame: Frame, delivery: Option<DeliveryUsage>)
}
