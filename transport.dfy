/** The gateway transport of the newer client: which close codes allow a
    reconnect, how a received WebSocket message is routed by its type and the
    compression mode, the zlib-stream reassembly buffer, and the idempotent
    close. Decompression and JSON decoding are parameters of the model. */
module Transport {
  import opened Wrappers
  import opened GatewayApi

  newtype Byte = x: int | 0 <= x < 256

  /** The four bytes that end every message of a zlib stream: the empty stored
      block of a sync flush (section 3.2.4 of RFC 1951). */
  const ZlibSuffix: seq<Byte> := [0x00, 0x00, 0xFF, 0xFF]

  predicate EndsWithSuffix(b: seq<Byte>) {
    |b| >= 4 && b[|b| - 4..] == ZlibSuffix
  }

  /** The application close codes after which the shard may reconnect. */
  const ReconnectableCloseCodes: set<int> := {
    UNKNOWN_ERROR, UNKNOWN_OPCODE, DECODE_ERROR, AUTHENTICATION_FAILED,
    ALREADY_AUTHENTICATED, INVALID_SEQ, RATE_LIMITED, SESSION_TIMEOUT
  }

  /** Every code below the application range, and eight application codes,
      allow a reconnect; NOT_AUTHENTICATED and INVALID_SHARD through
      DISALLOWED_INTENT are fatal. */
  function CanReconnect(code: int): (r: bool)
    ensures r <==> code < 4000 || (4000 <= code <= 4009 && code != 4003 && code != 4006)
    ensures code == NOT_AUTHENTICATED || INVALID_SHARD <= code <= DISALLOWED_INTENT ==> !r
    ensures code == NORMAL_CLOSURE || code == GOING_AWAY ==> r
  {
    code < 4000 || code in ReconnectableCloseCodes
  }

  /** The WebSocket message kinds the socket library delivers. */
  datatype MsgType = Continuation | Text | Binary | Ping | Pong | Close | Closing | Closed | Error

  /** A received message: its payload bytes, and for a CLOSE message the close
      code and the optional reason. */
  datatype WSMessage = WSMessage(kind: MsgType, bytes: seq<Byte>, closeCode: int, extra: Option<string>)

  /** What `receive` does with a message before any decoding. */
  datatype Route = Raise(error: Failure) | DecodeDirect | Reassemble

  function RouteOf(m: WSMessage, compression: bool): (r: Route)
    ensures r.Reassemble? <==> m.kind == Binary && compression
    ensures r.DecodeDirect? <==> (m.kind == Binary || m.kind == Text) && !compression
    ensures r.Raise? <==> !(m.kind == Binary || (m.kind == Text && !compression))
    ensures m.kind == Close ==>
      r == Raise(ServerClosed(m.closeCode, m.extra.GetOr(""), CanReconnect(m.closeCode)))
    ensures m.kind == Closing || m.kind == Closed || m.kind == Error ==>
      r.Raise? && r.error.ConnectionError?
    ensures m.kind == Text && compression ==> r == Raise(TransportError(TextWhileCompressed))
    ensures m.kind == Continuation || m.kind == Ping || m.kind == Pong ==>
      r == Raise(TransportError(UnexpectedMessageType))
  {
    match m.kind
    case Close => Raise(ServerClosed(m.closeCode, m.extra.GetOr(""), CanReconnect(m.closeCode)))
    case Closing => Raise(ConnectionError(SocketClosed))
    case Closed => Raise(ConnectionError(SocketClosed))
    case Error => Raise(ConnectionError(SocketError))
    case Binary => if compression then Reassemble else DecodeDirect
    case Text => if compression then Raise(TransportError(TextWhileCompressed)) else DecodeDirect
    case _ => Raise(TransportError(UnexpectedMessageType))
  }

  /** The concatenated payload bytes of a run of messages. */
  function Bytes(msgs: seq<WSMessage>): (b: seq<Byte>)
    decreases |msgs|
  {
    if msgs == [] then [] else msgs[0].bytes + Bytes(msgs[1..])
  }

  lemma {:induction false} BytesAppend(msgs: seq<WSMessage>, k: nat)
    requires k < |msgs|
    ensures Bytes(msgs[..k + 1]) == Bytes(msgs[..k]) + msgs[k].bytes
    decreases k
  {
    if k == 0 {
      assert msgs[..1][1..] == [];
    } else {
      assert msgs[..k + 1][1..] == msgs[1..][..k];
      assert msgs[..k][1..] == msgs[1..][..k - 1];
      BytesAppend(msgs[1..], k - 1);
    }
  }

  predicate AllBinary(msgs: seq<WSMessage>) {
    forall i :: 0 <= i < |msgs| ==> msgs[i].kind == Binary
  }

  datatype GatherStatus = Complete | Starved | NotBinary

  /** The `while not buffer.endswith(ZLIB_SUFFIX)` loop of `receive_stream`
      run over the messages the connection delivers next: the status it ends
      in, the buffer it leaves, and how many messages it took. */
  datatype Gather = Gather(status: GatherStatus, buffer: seq<Byte>, used: nat)

  /** How many messages the loop appended to the buffer: all it took, except
      a last one that was not binary. */
  function Taken(g: Gather): nat {
    if g.status == NotBinary && g.used > 0 then g.used - 1 else g.used
  }

  function GatherFrom(buf: seq<Byte>, msgs: seq<WSMessage>): (g: Gather)
    ensures Taken(g) <= g.used <= |msgs|
    ensures g.status == Complete <==> EndsWithSuffix(g.buffer)
    ensures g.buffer == buf + Bytes(msgs[..Taken(g)])
    ensures g.status == Starved ==> g.used == |msgs|
    ensures g.status == NotBinary ==> 1 <= g.used && msgs[g.used - 1].kind != Binary
    decreases |msgs|
  {
    if EndsWithSuffix(buf) then Gather(Complete, buf, 0)
    else if msgs == [] then Gather(Starved, buf, 0)
    else if msgs[0].kind != Binary then Gather(NotBinary, buf, 1)
    else
      var rest := GatherFrom(buf + msgs[0].bytes, msgs[1..]);
      GatherCons(buf, msgs, rest);
      rest.(used := rest.used + 1)
  }

  /** The loop's step over a first binary message: what the rest of the loop
      gathered, seen from the whole run. */
  lemma GatherCons(buf: seq<Byte>, msgs: seq<WSMessage>, rest: Gather)
    requires msgs != []
    requires Taken(rest) <= rest.used <= |msgs| - 1
    requires rest.buffer == (buf + msgs[0].bytes) + Bytes(msgs[1..][..Taken(rest)])
    requires rest.status == NotBinary ==> 1 <= rest.used && msgs[1..][rest.used - 1].kind != Binary
    ensures Taken(rest.(used := rest.used + 1)) == Taken(rest) + 1
    ensures rest.buffer == buf + Bytes(msgs[..Taken(rest) + 1])
    ensures rest.status == NotBinary ==> msgs[rest.used].kind != Binary
  {
    BytesCons(msgs, Taken(rest));
    assert (buf + msgs[0].bytes) + Bytes(msgs[1..][..Taken(rest)])
        == buf + (msgs[0].bytes + Bytes(msgs[1..][..Taken(rest)]));
  }

  /** The same gathering, after `k` more messages were already taken. */
  function Shift(g: Gather, k: nat): Gather {
    g.(used := g.used + k)
  }

  /** One turn of the loop over a binary message, seen from `k` messages in. */
  lemma GatherBinaryStep(buf: seq<Byte>, msgs: seq<WSMessage>, k: nat)
    requires !EndsWithSuffix(buf) && msgs != [] && msgs[0].kind == Binary
    ensures Shift(GatherFrom(buf, msgs), k) == Shift(GatherFrom(buf + msgs[0].bytes, msgs[1..]), k + 1)
  {
  }

  /** Splitting off the first message of a prefix. */
  lemma BytesCons(msgs: seq<WSMessage>, k: nat)
    requires k < |msgs|
    ensures Bytes(msgs[..k + 1]) == msgs[0].bytes + Bytes(msgs[1..][..k])
  {
    assert msgs[..k + 1][1..] == msgs[1..][..k];
  }

  /** Every message the loop appended was binary, and no fragment boundary
      before the last one ended the buffer with the suffix. */
  lemma {:induction false} GatherMinimal(buf: seq<Byte>, msgs: seq<WSMessage>, j: nat)
    requires j < Taken(GatherFrom(buf, msgs))
    ensures msgs[j].kind == Binary
    ensures !EndsWithSuffix(buf + Bytes(msgs[..j]))
    decreases |msgs|
  {
    var rest := GatherFrom(buf + msgs[0].bytes, msgs[1..]);
    assert !EndsWithSuffix(buf) && msgs[0].kind == Binary;
    if j == 0 {
      assert msgs[..0] == [];
      assert buf + Bytes(msgs[..0]) == buf;
    } else {
      GatherMinimal(buf + msgs[0].bytes, msgs[1..], j - 1);
      BytesCons(msgs, j - 1);
      assert buf + Bytes(msgs[..j]) == buf + msgs[0].bytes + Bytes(msgs[1..][..j - 1]);
    }
  }

  /** A frame whose only sync-flush ending is its last four bytes. */
  predicate SuffixOnlyAtEnd(frame: seq<Byte>) {
    EndsWithSuffix(frame) && forall k :: 0 <= k < |frame| ==> !EndsWithSuffix(frame[..k])
  }

  /** However a frame is split into binary fragments, the reassembly loop
      collects exactly that frame and takes exactly those fragments; what the
      connection delivers afterwards is left for later calls. */
  lemma {:induction false} ReassemblyIgnoresSplit(
    pre: seq<Byte>, frags: seq<WSMessage>, rest: seq<WSMessage>, frame: seq<Byte>)
    requires SuffixOnlyAtEnd(frame)
    requires pre + Bytes(frags) == frame
    requires frags != [] && frags[|frags| - 1].bytes != [] && AllBinary(frags)
    ensures GatherFrom(pre, frags + rest) == Gather(Complete, frame, |frags|)
    decreases |frags|
  {
    StrictPrefixOpen(pre, frags, frame);
    var all := frags + rest;
    assert all[0] == frags[0] && all[1..] == frags[1..] + rest;
    if |frags| == 1 {
      assert frags[1..] == [];
      assert pre + frags[0].bytes == frame;
    } else {
      AllBinaryTail(frags);
      assert frags[1..][|frags[1..]| - 1] == frags[|frags| - 1];
      assert (pre + frags[0].bytes) + Bytes(frags[1..]) == frame;
      ReassemblyIgnoresSplit(pre + frags[0].bytes, frags[1..], rest, frame);
    }
  }

  /** The bytes before a frame's last non-empty fragment do not yet end the
      frame. */
  lemma StrictPrefixOpen(pre: seq<Byte>, frags: seq<WSMessage>, frame: seq<Byte>)
    requires SuffixOnlyAtEnd(frame)
    requires pre + Bytes(frags) == frame
    requires frags != [] && frags[|frags| - 1].bytes != []
    ensures !EndsWithSuffix(pre)
  {
    LastFragmentNonEmpty(frags);
    assert pre == frame[..|pre|];
  }

  lemma AllBinaryTail(frags: seq<WSMessage>)
    requires frags != [] && AllBinary(frags)
    ensures AllBinary(frags[1..])
  {
    forall i | 0 <= i < |frags[1..]| ensures frags[1..][i].kind == Binary {
      assert frags[1..][i] == frags[i + 1];
    }
  }

  /** When the last fragment is non-empty, a strict prefix of the fragments
      carries strictly fewer bytes than all of them. */
  lemma {:induction false} LastFragmentNonEmpty(frags: seq<WSMessage>)
    requires frags != [] && frags[|frags| - 1].bytes != []
    ensures |Bytes(frags)| > |Bytes(frags[..|frags| - 1])|
  {
    BytesAppend(frags, |frags| - 1);
    assert frags[..|frags|] == frags;
  }

  /** Decompression: given everything fed to the inflator before, inflate the
      next chunk, or fail with zlib's error. */
  type Inflater = (seq<seq<Byte>>, seq<Byte>) -> Option<seq<Byte>>

  /** The JSON decoder for the payload envelope; None is a decode error. */
  type Decoder = seq<Byte> -> Option<Payload>

  /** The receiving side of a transport: the reassembly buffer, the chunks
      the inflator has been fed, and the messages the connection will deliver. */
  datatype Channel = Channel(buffer: seq<Byte>, fed: seq<seq<Byte>>, incoming: seq<WSMessage>)

  datatype Received = Received(result: Result<Payload, Failure>, after: Channel)

  /** `receive_stream(data)`; `ready` says that both the inflator and the
      buffer exist. */
  function StreamSpec(ready: bool, c: Channel, data: seq<Byte>, inflate: Inflater, decode: Decoder): Received {
    if !ready then Received(Failure(AssertionError), c)
    else
      var g := GatherFrom(c.buffer + data, c.incoming);
      var left := c.incoming[g.used..];
      match g.status
      case Starved => Received(Failure(NoMessage), Channel(g.buffer, c.fed, left))
      case NotBinary => Received(Failure(ForeignError), Channel(g.buffer, c.fed, left))
      case Complete =>
        var fed := c.fed + [g.buffer];
        match inflate(c.fed, g.buffer)
        case None => Received(Failure(ZlibError), Channel(g.buffer, fed, left))
        case Some(text) =>
          match decode(text)
          case None => Received(Failure(DecodeError), Channel(g.buffer, fed, left))
          case Some(p) => Received(Success(p), Channel([], fed, left))
  }

  /** `receive()`: one message from the connection, routed by its type. */
  function ReceiveSpec(compression: bool, ready: bool, c: Channel, inflate: Inflater, decode: Decoder): Received {
    if c.incoming == [] then Received(Failure(NoMessage), c)
    else
      var m := c.incoming[0];
      var c1 := c.(incoming := c.incoming[1..]);
      match RouteOf(m, compression)
      case Raise(e) => Received(Failure(e), c1)
      case DecodeDirect =>
        (match decode(m.bytes)
         case None => Received(Failure(DecodeError), c1)
         case Some(p) => Received(Success(p), c1))
      case Reassemble => StreamSpec(ready, c1, m.bytes, inflate, decode)
  }

  /** A successful stream decode leaves the buffer empty, and the inflator was
      fed exactly the old buffer, the new data and the fragments the loop
      read, which end with the sync-flush suffix. */
  lemma {:induction false} StreamSuccessClears(c: Channel, data: seq<Byte>, inflate: Inflater, decode: Decoder)
    requires StreamSpec(true, c, data, inflate, decode).result.Success?
    ensures var r := StreamSpec(true, c, data, inflate, decode);
      var n := |c.incoming| - |r.after.incoming|;
      && 0 <= n <= |c.incoming|
      && r.after.buffer == []
      && r.after.incoming == c.incoming[n..]
      && r.after.fed == c.fed + [c.buffer + data + Bytes(c.incoming[..n])]
      && EndsWithSuffix(c.buffer + data + Bytes(c.incoming[..n]))
  {
    var g := GatherFrom(c.buffer + data, c.incoming);
    assert g.status == Complete;
    assert |c.incoming[g.used..]| == |c.incoming| - g.used;
  }

  /** When decompression or decoding fails, the collected bytes stay in the
      buffer. */
  lemma {:induction false} StreamFailureKeepsBuffer(c: Channel, data: seq<Byte>, inflate: Inflater, decode: Decoder)
    requires var r := StreamSpec(true, c, data, inflate, decode);
      r.result == Failure(ZlibError) || r.result == Failure(DecodeError)
    ensures var r := StreamSpec(true, c, data, inflate, decode);
      && EndsWithSuffix(r.after.buffer)
      && |c.buffer + data| <= |r.after.buffer|
      && r.after.buffer[..|c.buffer + data|] == c.buffer + data
  {
    var g := GatherFrom(c.buffer + data, c.incoming);
    assert g.status == Complete;
  }

  /** One graceful close the transport asked the socket for, and whether that
      attempt raised or timed out. */
  datatype CloseAttempt = CloseAttempt(code: int, extra: seq<Byte>, raised: bool)

  class GatewayTransport {
    const compression: bool
    /** `_inflator is not None` */
    const hasInflator: bool
    /** `_buffer is not None` */
    const hasBuffer: bool
    var buffer: seq<Byte>
    /** every chunk handed to the inflator, in order */
    var fed: seq<seq<Byte>>
    /** the messages the connection will deliver, in order */
    var incoming: seq<WSMessage>
    /** `_stop_event.is_set()` */
    var stopSet: bool
    /** the connection's `closed` flag */
    var connectionClosed: bool
    var closeAttempts: seq<CloseAttempt>
    /** the exit stack that owns the client session and the socket was released */
    var released: bool

    function Snapshot(): Channel
      reads this
    {
      Channel(buffer, fed, incoming)
    }

    /** The inflator and the buffer exist exactly when compression is on; the
        buffer starts empty. */
    constructor (connection: seq<WSMessage>, compression: bool)
      ensures this.compression == compression
      ensures hasInflator == compression && hasBuffer == compression
      ensures buffer == [] && fed == [] && incoming == connection
      ensures !stopSet && !connectionClosed && closeAttempts == [] && !released
    {
      this.compression := compression;
      hasInflator := compression;
      hasBuffer := compression;
      buffer := [];
      fed := [];
      incoming := connection;
      stopSet := false;
      connectionClosed := false;
      closeAttempts := [];
      released := false;
    }

    /** The `while not buffer.endswith(ZLIB_SUFFIX)` loop: appends binary
        messages to the buffer until it ends with the sync-flush suffix. */
    method GatherFragments() returns (status: GatherStatus)
      modifies this`buffer, this`incoming
      ensures var g := GatherFrom(old(buffer), old(incoming));
        && status == g.status && buffer == g.buffer
        && g.used <= |old(incoming)| && incoming == old(incoming)[g.used..]
    {
      ghost var start := buffer;
      ghost var msgs := incoming;
      ghost var k := 0;
      while !EndsWithSuffix(buffer)
        invariant k <= |msgs| && incoming == msgs[k..]
        invariant GatherFrom(start, msgs) == Shift(GatherFrom(buffer, incoming), k)
        decreases |incoming|
      {
        if incoming == [] {
          return Starved;
        }
        var m := incoming[0];
        if m.kind != Binary {
          incoming := incoming[1..];
          return NotBinary;
        }
        GatherBinaryStep(buffer, incoming, k);
        incoming := incoming[1..];
        buffer := buffer + m.bytes;
        k := k + 1;
      }
      return Complete;
    }

    method ReceiveStream(data: seq<Byte>, inflate: Inflater, decode: Decoder) returns (r: Result<Payload, Failure>)
      modifies this`buffer, this`fed, this`incoming
      ensures var s := StreamSpec(hasInflator && hasBuffer, old(Snapshot()), data, inflate, decode);
        r == s.result && Snapshot() == s.after
    {
      if !hasInflator || !hasBuffer {
        return Failure(AssertionError);
      }
      buffer := buffer + data;
      var status := GatherFragments();
      if status == Starved {
        return Failure(NoMessage);
      } else if status == NotBinary {
        return Failure(ForeignError);
      }
      var text := inflate(fed, buffer);
      fed := fed + [buffer];
      if text.None? {
        return Failure(ZlibError);
      }
      var p := decode(text.value);
      if p.None? {
        return Failure(DecodeError);
      }
      buffer := [];
      return Success(p.value);
    }

    method Receive(inflate: Inflater, decode: Decoder) returns (r: Result<Payload, Failure>)
      modifies this`buffer, this`fed, this`incoming
      ensures var s := ReceiveSpec(compression, hasInflator && hasBuffer, old(Snapshot()), inflate, decode);
        r == s.result && Snapshot() == s.after
    {
      if incoming == [] {
        return Failure(NoMessage);
      }
      var m := incoming[0];
      incoming := incoming[1..];
      match RouteOf(m, compression)
      case Raise(e) =>
        return Failure(e);
      case DecodeDirect =>
        var p := decode(m.bytes);
        if p.None? {
          return Failure(DecodeError);
        }
        return Success(p.value);
      case Reassemble =>
        r := ReceiveStream(m.bytes, inflate, decode);
    }

    /** The first call sets the stop flag, asks for a graceful close only if
        the socket is still open (an error there is swallowed) and always
        releases the exit stack; any later call returns at once. */
    method Close(code: int, extra: seq<Byte>, closeRaises: bool)
      modifies this`stopSet, this`connectionClosed, this`closeAttempts, this`released
      ensures old(stopSet) ==> unchanged(this)
      ensures !old(stopSet) ==>
        && stopSet && released && connectionClosed
        && closeAttempts == old(closeAttempts) +
             (if old(connectionClosed) then [] else [CloseAttempt(code, extra, closeRaises)])
    {
      if stopSet {
        return;
      }
      stopSet := true;
      if !connectionClosed {
        closeAttempts := closeAttempts + [CloseAttempt(code, extra, closeRaises)];
      }
      released := true;
      connectionClosed := true;
    }
  }
}
