/** The gateway's wire vocabulary: operation codes (the Discord gateway
    opcode table), close codes, the payload envelope, the frames a shard
    writes, and the exceptions the gateway code raises. */
module GatewayApi {
  import opened Wrappers
  import opened Json

  // Gateway operation codes.
  const DISPATCH: int := 0
  const HEARTBEAT: int := 1
  const IDENTIFY: int := 2
  const RESUME: int := 6
  const RECONNECT: int := 7
  const REQUEST_GUILD_MEMBERS: int := 8
  const INVALID_SESSION: int := 9
  const HELLO: int := 10
  const HEARTBEAT_ACK: int := 11

  // Close codes: 1000 and 1001 are the WebSocket codes of section 7.4.1 of
  // RFC 6455; 4000-4014 lie in the application range of its section 7.4.2.
  const NORMAL_CLOSURE: int := 1000
  const GOING_AWAY: int := 1001
  const UNKNOWN_ERROR: int := 4000
  const UNKNOWN_OPCODE: int := 4001
  const DECODE_ERROR: int := 4002
  const NOT_AUTHENTICATED: int := 4003
  const AUTHENTICATION_FAILED: int := 4004
  const ALREADY_AUTHENTICATED: int := 4005
  const INVALID_SEQ: int := 4007
  const RATE_LIMITED: int := 4008
  const SESSION_TIMEOUT: int := 4009
  const INVALID_SHARD: int := 4010
  const SHARDING_REQUIRED: int := 4011
  const INVALID_VERSION: int := 4012
  const INVALID_INTENT: int := 4013
  const DISALLOWED_INTENT: int := 4014

  datatype ShardInfo = ShardInfo(shardId: int, shardCount: int)

  /** The envelope `{op, d, s, t}`; an absent or null `d` is JNull. */
  datatype Payload = Payload(op: int, d: Json, s: Option<int>, t: Option<string>)

  /** A received frame (or the exception `receive` raised) and the time, in
      milliseconds, it was taken off the connection. */
  datatype Arrival = Arrival(frame: Result<Payload, Failure>, at: int)

  /** Python truthiness of an optional string: None and "" are false. */
  predicate TruthyString(o: Option<string>) {
    o.Some? && o.value != ""
  }

  /** Python truthiness of an optional integer: None and 0 are false. */
  predicate TruthyInt(o: Option<int>) {
    o.Some? && o.value != 0
  }

  /** What a shard hands to its connection: a gateway frame to send, or a
      request to close the socket with a code and a reason. */
  datatype Outgoing =
    | HeartbeatFrame(d: Option<int>)
    | IdentifyFrame(token: string, intents: int, shard: Option<ShardInfo>)
    | ResumeFrame(token: string, sessionId: string, sequence: int)
    | CloseRequest(code: int, reason: string)

  datatype ConnectionCause = ConnectFailed | SocketClosed | SocketError

  datatype TransportCause = TextWhileCompressed | UnexpectedMessageType

  /** The exceptions of the modelled code, by class. */
  datatype Failure =
    | RuntimeError
    | AssertionError
    | KeyError
      /** KeyError or TypeError from indexing a payload that lacks the key or
          is not a mapping */
    | PayloadShapeError
    | ReferenceError
      /** the bare `Exception()` of the older shard */
    | PlainException
    | StateConflict
      /** asyncio's CancelledError */
    | Cancelled
    | ConnectionError(cause: ConnectionCause)
    | ServerClosed(code: int, message: string, canReconnect: bool)
    | TransportError(fault: TransportCause)
    | DecodeError
    | ZlibError
      /** an exception of a collaborator outside this taxonomy */
    | ForeignError
      /** the connection holds no further message: the awaiting call would
          suspend indefinitely */
    | NoMessage
}
