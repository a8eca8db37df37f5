/** The older gateway shard: a single-use connection guarded against a
    second `connect`, resume keyed on the resume URL and session id, IDENTIFY
    with shard information, heartbeats that carry the sequence number and
    stop when acknowledgements fall behind, and an event loop that skips what
    it cannot decode.

    As in the newer shard, each operation is a pure function from the state
    to a result and the next state, and the class `GatewayShard` is proved
    against them. Times are integer milliseconds; the "never sent" time
    (negative infinity in the source) is `None`. */
module RamShard {
  import opened Wrappers
  import opened Json
  import opened GatewayApi

  datatype Config = Config(token: string, gatewayUrl: string, intents: int, shardInfo: ShardInfo)

  datatype RamState = RamState(
    hasTransport: bool,
    resumeUrl: Option<string>,
    sessionId: Option<string>,
    lastSeq: Option<int>,
    isClosing: bool,
    lastSent: Option<int>,
    lastAck: int,
    sent: seq<Outgoing>,
    dialed: seq<string>)

  function Initial(): RamState {
    RamState(false, None, None, None, false, None, 0, [], [])
  }

  datatype Step<R> = Step(result: R, after: RamState)

  function DialUrl(c: Config, s: RamState): (url: string)
    ensures TruthyString(s.resumeUrl) ==> url == s.resumeUrl.value
    ensures !TruthyString(s.resumeUrl) ==> url == c.gatewayUrl
  {
    if TruthyString(s.resumeUrl) then s.resumeUrl.value else c.gatewayUrl
  }

  /** `payload.d["heartbeat_interval"]`, with no check that `d` is set. */
  function HelloInterval(d: Json): (r: Result<int, Failure>)
    ensures r.Success? <==> IntField(d, "heartbeat_interval").Some?
    ensures r.Success? ==> r.value == IntField(d, "heartbeat_interval").value
    ensures r.Failure? ==> r.error == PayloadShapeError
  {
    match IntField(d, "heartbeat_interval")
    case Some(n) => Success(n)
    case None => Failure(PayloadShapeError)
  }

  /** The handshake: RESUME once both a resume URL and a session id are
      known, which asserts a sequence number; IDENTIFY with the shard
      information otherwise. */
  function Handshake(c: Config, s: RamState): (r: Result<Outgoing, Failure>)
    ensures r.Success? && r.value.ResumeFrame? <==>
      TruthyString(s.resumeUrl) && TruthyString(s.sessionId) && TruthyInt(s.lastSeq)
    ensures r.Success? && r.value.ResumeFrame? ==> r.value == ResumeFrame(c.token, s.sessionId.value, s.lastSeq.value)
    ensures r.Failure? <==> TruthyString(s.resumeUrl) && TruthyString(s.sessionId) && !TruthyInt(s.lastSeq)
    ensures r.Failure? ==> r.error == AssertionError
    ensures !(TruthyString(s.resumeUrl) && TruthyString(s.sessionId)) ==>
      r == Success(IdentifyFrame(c.token, c.intents, Some(c.shardInfo)))
  {
    if TruthyString(s.resumeUrl) && TruthyString(s.sessionId) then
      if TruthyInt(s.lastSeq) then Success(ResumeFrame(c.token, s.sessionId.value, s.lastSeq.value))
      else Failure(AssertionError)
    else Success(IdentifyFrame(c.token, c.intents, Some(c.shardInfo)))
  }

  datatype ConnectOutcome = Tasks(interval: int) | NoTasks | ConnectRaised(error: Failure)

  /** `connect`, given whether opening the transport succeeded and what the
      first `receive` returned. */
  function ConnectSpec(c: Config, s: RamState, dial: Outcome<Failure>, first: Result<Payload, Failure>): (r: Step<ConnectOutcome>)
    ensures s.hasTransport ==> r == Step(ConnectRaised(StateConflict), s)
    ensures !s.hasTransport ==> r.after.dialed == s.dialed + [DialUrl(c, s)]
    ensures r.after.hasTransport <==> s.hasTransport || dial.Pass?
    ensures r.after.resumeUrl == s.resumeUrl && r.after.sessionId == s.sessionId && r.after.lastSeq == s.lastSeq
    ensures r.after.isClosing == s.isClosing && r.after.lastSent == s.lastSent && r.after.lastAck == s.lastAck
    ensures r.result.NoTasks? <==>
      !s.hasTransport && dial.Pass? && first.Success? && first.value.op in {INVALID_SESSION, RECONNECT}
    ensures r.result.Tasks? <==>
      && !s.hasTransport && dial.Pass? && first.Success? && first.value.op == HELLO
      && HelloInterval(first.value.d).Success? && Handshake(c, s).Success?
    ensures r.result.Tasks? ==>
      r.result.interval == HelloInterval(first.value.d).value && r.after.sent == s.sent + [Handshake(c, s).value]
    ensures !r.result.Tasks? ==> r.after.sent == s.sent
    ensures (!s.hasTransport && dial.Pass? && first.Success? && first.value.op !in {INVALID_SESSION, RECONNECT, HELLO})
      ==> r.result == ConnectRaised(PlainException)
  {
    if s.hasTransport then Step(ConnectRaised(StateConflict), s)
    else
      var s1 := s.(dialed := s.dialed + [DialUrl(c, s)]);
      if dial.Fail? then Step(ConnectRaised(dial.error), s1)
      else
        var s2 := s1.(hasTransport := true);
        if first.Failure? then Step(ConnectRaised(first.error), s2)
        else
          var p := first.value;
          if p.op == INVALID_SESSION || p.op == RECONNECT then Step(NoTasks, s2)
          else if p.op != HELLO then Step(ConnectRaised(PlainException), s2)
          else match HelloInterval(p.d)
            case Failure(e) => Step(ConnectRaised(e), s2)
            case Success(n) =>
              match Handshake(c, s2)
              case Failure(e) => Step(ConnectRaised(e), s2)
              case Success(frame) => Step(Tasks(n), s2.(sent := s2.sent + [frame]))
  }

  /** `_transport` is never reset, so once a connect got as far as opening a
      transport, every later connect raises the state conflict, whatever the
      event loop and the heartbeat loop did in between. */
  lemma {:induction false} AtMostOneTransport(
    c: Config, s: RamState, dial: Outcome<Failure>, first: Result<Payload, Failure>,
    arrivals: seq<Arrival>, convert: Convert, interval: int, times: seq<int>,
    dial2: Outcome<Failure>, first2: Result<Payload, Failure>)
    requires dial.Pass?
    ensures var connected := ConnectSpec(c, s, dial, first);
      var polled := EventLoopSpec(connected.after, arrivals, convert);
      var beaten := RunHeartbeat(polled.after, interval, times);
      ConnectSpec(c, beaten.after, dial2, first2).result == ConnectRaised(StateConflict)
  {
    var connected := ConnectSpec(c, s, dial, first);
    EventsKeepTransport(connected.after, arrivals, convert);
  }

  lemma {:induction false} EventsKeepTransport(s: RamState, arrivals: seq<Arrival>, convert: Convert)
    ensures RunEvents(s, arrivals, convert).after.hasTransport == s.hasTransport
    ensures RunEvents(s, arrivals, convert).after.isClosing == s.isClosing
    decreases |arrivals|
  {
    if !s.isClosing && arrivals != [] {
      var st := EventStep(s, arrivals[0].frame, arrivals[0].at, convert);
      if st.result.Looping? {
        EventsKeepTransport(st.after, arrivals[1..], convert);
      }
    }
  }

  /** `_send_heartbeat` at time `at`: the heartbeat carries the sequence
      number. */
  function SendHeartbeatSpec(s: RamState, at: int): (r: Step<Outcome<Failure>>)
    ensures r.result.Pass? <==> s.hasTransport
    ensures r.result.Pass? ==> r.after == s.(sent := s.sent + [HeartbeatFrame(s.lastSeq)], lastSent := Some(at))
    ensures r.result.Fail? ==> r.result.error == AssertionError && r.after == s
  {
    if !s.hasTransport then Step(Fail(AssertionError), s)
    else Step(Pass, s.(sent := s.sent + [HeartbeatFrame(s.lastSeq)], lastSent := Some(at)))
  }

  /** Acknowledgements have fallen more than one interval behind the last
      heartbeat sent; a heartbeat never sent is never behind. */
  predicate Zombie(s: RamState, interval: int) {
    s.lastSent.Some? && s.lastSent.value - s.lastAck > interval
  }

  datatype Tick = Beat | Stopped | ZombieStop | TickRaised(error: Failure)

  /** One turn of `_heartbeat_loop` at time `at`. */
  function HeartbeatTick(s: RamState, interval: int, at: int): (r: Step<Tick>)
    ensures s.isClosing ==> r == Step(Stopped, s)
    ensures !s.isClosing && Zombie(s, interval) ==> r == Step(ZombieStop, s)
    ensures r.result == Beat <==> !s.isClosing && !Zombie(s, interval) && s.hasTransport
    ensures r.result == Beat ==> r.after == SendHeartbeatSpec(s, at).after
    ensures r.result != Beat ==> r.after == s
  {
    if s.isClosing then Step(Stopped, s)
    else if Zombie(s, interval) then Step(ZombieStop, s)
    else
      var h := SendHeartbeatSpec(s, at);
      Step(if h.result.Pass? then Beat else TickRaised(h.result.error), h.after)
  }

  /** `_heartbeat_loop` over the wake-up times: it returns on closing or on
      a zombie connection, and otherwise keeps beating. */
  function RunHeartbeat(s: RamState, interval: int, times: seq<int>): (r: Step<Tick>)
    ensures r.result != Beat ==> r.result == HeartbeatTick(r.after, interval, 0).result || r.result.TickRaised?
    ensures r.result == Beat ==> r.after == s.(
      sent := s.sent + seq(|times|, _ => HeartbeatFrame(s.lastSeq)),
      lastSent := if times == [] then s.lastSent else Some(times[|times| - 1]))
    ensures r.after == s.(sent := r.after.sent, lastSent := r.after.lastSent)
    ensures |s.sent| <= |r.after.sent| <= |s.sent| + |times|
    ensures r.after.sent == s.sent + seq(|r.after.sent| - |s.sent|, _ => HeartbeatFrame(s.lastSeq))
    decreases |times|
  {
    if times == [] then Step(Beat, s)
    else
      var t := HeartbeatTick(s, interval, times[0]);
      if t.result == Beat then
        var rest := RunHeartbeat(t.after, interval, times[1..]);
        assert t.after.sent == s.sent + [HeartbeatFrame(s.lastSeq)];
        assert s.sent + [HeartbeatFrame(s.lastSeq)] + seq(|rest.after.sent| - |t.after.sent|, _ => HeartbeatFrame(s.lastSeq))
          == s.sent + seq(|rest.after.sent| - |s.sent|, _ => HeartbeatFrame(s.lastSeq));
        rest
      else
        assert t.after.sent == s.sent + seq(0, _ => HeartbeatFrame(s.lastSeq));
        t
  }

  /** Since nothing was ever sent, the first tick of a fresh connection
      always sends, whatever the interval. */
  lemma FirstTickSends(s: RamState, interval: int, at: int)
    requires s.hasTransport && !s.isClosing && s.lastSent.None?
    ensures HeartbeatTick(s, interval, at) ==
      Step(Beat, s.(sent := s.sent + [HeartbeatFrame(s.lastSeq)], lastSent := Some(at)))
  {
  }

  /** A heartbeat that is not acknowledged stops the loop at the next tick
      once more than an interval separates it from the last ack. */
  lemma UnansweredHeartbeatStops(s: RamState, interval: int, t1: int, t2: int)
    requires s.hasTransport && !s.isClosing && !Zombie(s, interval)
    requires t1 - s.lastAck > interval
    ensures var r := RunHeartbeat(s, interval, [t1, t2]);
      r.result == ZombieStop && r.after.sent == s.sent + [HeartbeatFrame(s.lastSeq)]
  {
    var first := HeartbeatTick(s, interval, t1);
    assert first.result == Beat && Zombie(first.after, interval);
    assert [t1, t2][1..] == [t2];
  }

  /** A heartbeat sent and then acknowledged keeps the connection alive:
      after the HEARTBEAT_ACK, the next tick of the heartbeat loop, whenever
      it comes, sends again rather than returning. */
  lemma AcknowledgedNeverZombie(
    s: RamState, interval: int, sentAt: int, ackAt: int, tickAt: int, convert: Convert)
    requires s.hasTransport && !s.isClosing && interval >= 0 && sentAt <= ackAt
    ensures var beat := SendHeartbeatSpec(s, sentAt);
      var acked := EventStep(beat.after, Success(Payload(HEARTBEAT_ACK, JNull, None, None)), ackAt, convert);
      && beat.result.Pass? && acked.result == Looping
      && !Zombie(acked.after, interval)
      && HeartbeatTick(acked.after, interval, tickAt).result == Beat
  {
  }

  /** A dispatched event after conversion. The event union of the older
      decoder holds only READY, so there every other dispatch fails to
      convert; `OtherEvent` deliberately over-approximates that decoder, so
      the model also covers a union with more event types, which only
      update the sequence number. */
  datatype GatewayEvent = ReadyEvent(s: int, resumeGatewayUrl: string, sessionId: string) | OtherEvent(s: int)

  /** `msgspec.convert` of a frame, failing with a DecodeError subclass. */
  type Convert = Payload -> Option<GatewayEvent>

  datatype EventResult = Looping | EventRaised(error: Failure) | Idle

  /** One turn of `_event_loop` on a received frame at time `at`. */
  function EventStep(s: RamState, frame: Result<Payload, Failure>, at: int, convert: Convert): (r: Step<EventResult>)
    ensures frame.Failure? ==> r == Step(EventRaised(frame.error), s)
    ensures r.after.hasTransport == s.hasTransport && r.after.isClosing == s.isClosing && r.after.dialed == s.dialed
    ensures frame.Success? && frame.value.op == DISPATCH && convert(frame.value).None? ==> r == Step(Looping, s)
    ensures frame.Success? && frame.value.op == DISPATCH && convert(frame.value).Some? ==>
      && r.result == Looping
      && var e := convert(frame.value).value;
      && r.after.lastSeq == Some(e.s)
      && (e.ReadyEvent? ==> r.after == s.(lastSeq := Some(e.s), resumeUrl := Some(e.resumeGatewayUrl), sessionId := Some(e.sessionId)))
      && (e.OtherEvent? ==> r.after == s.(lastSeq := Some(e.s)))
    ensures frame.Success? && frame.value.op == HEARTBEAT_ACK ==> r == Step(Looping, s.(lastAck := at))
    ensures frame.Success? && frame.value.op == HEARTBEAT ==>
      r.after == SendHeartbeatSpec(s, at).after && (r.result == Looping <==> s.hasTransport)
    ensures frame.Success? && frame.value.op !in {DISPATCH, HEARTBEAT_ACK, HEARTBEAT} ==> r == Step(Looping, s)
  {
    if frame.Failure? then Step(EventRaised(frame.error), s)
    else
      var p := frame.value;
      if p.op == DISPATCH then
        match convert(p)
        case None => Step(Looping, s)
        case Some(ReadyEvent(n, url, sid)) =>
          Step(Looping, s.(lastSeq := Some(n), resumeUrl := Some(url), sessionId := Some(sid)))
        case Some(OtherEvent(n)) => Step(Looping, s.(lastSeq := Some(n)))
      else if p.op == HEARTBEAT_ACK then Step(Looping, s.(lastAck := at))
      else if p.op == HEARTBEAT then
        var h := SendHeartbeatSpec(s, at);
        Step(if h.result.Pass? then Looping else EventRaised(h.result.error), h.after)
      else Step(Looping, s)
  }

  /** `_event_loop` over the frames that arrive: it leaves only by an
      exception or when the shard closes. */
  function RunEvents(s: RamState, arrivals: seq<Arrival>, convert: Convert): (r: Step<EventResult>)
    ensures r.result.Looping? ==> !s.isClosing
    decreases |arrivals|
  {
    if s.isClosing then Step(Idle, s)
    else if arrivals == [] then Step(Looping, s)
    else
      var st := EventStep(s, arrivals[0].frame, arrivals[0].at, convert);
      if st.result.Looping? then RunEvents(st.after, arrivals[1..], convert) else st
  }

  /** `_event_loop`: `assert self._transport` comes before the loop, so
      without a transport it raises before receiving anything. */
  function EventLoopSpec(s: RamState, arrivals: seq<Arrival>, convert: Convert): (r: Step<EventResult>)
    ensures !s.hasTransport ==> r == Step(EventRaised(AssertionError), s)
    ensures s.hasTransport ==> r == RunEvents(s, arrivals, convert)
  {
    if !s.hasTransport then Step(EventRaised(AssertionError), s) else RunEvents(s, arrivals, convert)
  }

  /** The event loop never leaves on its own: neither RECONNECT nor
      INVALID_SESSION ends it, and a frame that fails to decode is a frame
      skipped with the sequence number unchanged. */
  lemma {:induction false} EventLoopRunsOn(s: RamState, arrivals: seq<Arrival>, convert: Convert)
    requires !s.isClosing && s.hasTransport
    requires forall i :: 0 <= i < |arrivals| ==> arrivals[i].frame.Success?
    ensures RunEvents(s, arrivals, convert).result == Looping
    decreases |arrivals|
  {
    if arrivals != [] {
      var st := EventStep(s, arrivals[0].frame, arrivals[0].at, convert);
      EventLoopRunsOn(st.after, arrivals[1..], convert);
    }
  }

  /** Frames that all fail to convert leave the session untouched. */
  lemma {:induction false} UndecodableSkipped(s: RamState, arrivals: seq<Arrival>, convert: Convert)
    requires !s.isClosing
    requires forall i :: 0 <= i < |arrivals| ==>
      arrivals[i].frame.Success? && arrivals[i].frame.value.op == DISPATCH && convert(arrivals[i].frame.value).None?
    ensures RunEvents(s, arrivals, convert) == Step(Looping, s)
    decreases |arrivals|
  {
    if arrivals != [] {
      UndecodableSkipped(s, arrivals[1..], convert);
    }
  }

  /** After READY the shard's handshake is RESUME with the READY session id
      at READY's sequence number, and its dial URL is the resume URL. (The
      transport is never reset, so this shard never gets to use them.) */
  lemma ReadyThenResume(c: Config, s: RamState, url: string, sid: string, n: int, payload: Payload, at: int)
    requires url != "" && sid != "" && n != 0 && payload.op == DISPATCH
    ensures var convert := (p: Payload) => Some(ReadyEvent(n, url, sid));
      var st := EventStep(s, Success(payload), at, convert);
      && st.result == Looping
      && DialUrl(c, st.after) == url
      && Handshake(c, st.after) == Success(ResumeFrame(c.token, sid, n))
  {
  }

  class GatewayShard {
    const config: Config

    var hasTransport: bool
    var resumeUrl: Option<string>
    var sessionId: Option<string>
    var lastSeq: Option<int>
    var isClosing: bool
    var lastSent: Option<int>
    var lastAck: int
    var sent: seq<Outgoing>
    var dialed: seq<string>

    function State(): RamState
      reads this
    {
      RamState(hasTransport, resumeUrl, sessionId, lastSeq, isClosing, lastSent, lastAck, sent, dialed)
    }

    constructor (config: Config)
      ensures this.config == config && State() == Initial()
    {
      this.config := config;
      hasTransport, resumeUrl, sessionId, lastSeq := false, None, None, None;
      isClosing, lastSent, lastAck := false, None, 0;
      sent, dialed := [], [];
    }

    method Connect(dial: Outcome<Failure>, first: Result<Payload, Failure>) returns (r: ConnectOutcome)
      modifies this`hasTransport, this`dialed, this`sent
      ensures r == ConnectSpec(config, old(State()), dial, first).result
      ensures State() == ConnectSpec(config, old(State()), dial, first).after
    {
      if hasTransport {
        return ConnectRaised(StateConflict);
      }
      dialed := dialed + [if resumeUrl.Some? && resumeUrl.value != "" then resumeUrl.value else config.gatewayUrl];
      if dial.Fail? {
        return ConnectRaised(dial.error);
      }
      hasTransport := true;
      if first.Failure? {
        return ConnectRaised(first.error);
      }
      var p := first.value;
      if p.op == INVALID_SESSION || p.op == RECONNECT {
        return NoTasks;
      }
      if p.op != HELLO {
        return ConnectRaised(PlainException);
      }
      var interval := HelloInterval(p.d);
      if interval.Failure? {
        return ConnectRaised(interval.error);
      }
      var frame: Outgoing;
      if resumeUrl.Some? && resumeUrl.value != "" && sessionId.Some? && sessionId.value != "" {
        if lastSeq.None? || lastSeq.value == 0 {
          return ConnectRaised(AssertionError);
        }
        frame := ResumeFrame(config.token, sessionId.value, lastSeq.value);
      } else {
        frame := IdentifyFrame(config.token, config.intents, Some(config.shardInfo));
      }
      sent := sent + [frame];
      return Tasks(interval.value);
    }

    method SendHeartbeat(at: int) returns (r: Outcome<Failure>)
      modifies this`sent, this`lastSent
      ensures r == SendHeartbeatSpec(old(State()), at).result && State() == SendHeartbeatSpec(old(State()), at).after
    {
      if !hasTransport {
        return Fail(AssertionError);
      }
      sent := sent + [HeartbeatFrame(lastSeq)];
      lastSent := Some(at);
      return Pass;
    }

    /** `_heartbeat_loop` over the wake-up times. */
    method HeartbeatLoop(interval: int, times: seq<int>) returns (r: Tick)
      modifies this`sent, this`lastSent
      ensures r == RunHeartbeat(old(State()), interval, times).result
      ensures State() == RunHeartbeat(old(State()), interval, times).after
    {
      var i := 0;
      while i < |times|
        invariant 0 <= i <= |times|
        invariant RunHeartbeat(old(State()), interval, times) == RunHeartbeat(State(), interval, times[i..])
        decreases |times| - i
      {
        assert times[i..][0] == times[i] && times[i..][1..] == times[i + 1..];
        if isClosing {
          return Stopped;
        }
        if lastSent.Some? && lastSent.value - lastAck > interval {
          return ZombieStop;
        }
        var h := SendHeartbeat(times[i]);
        if h.Fail? {
          return TickRaised(h.error);
        }
        i := i + 1;
      }
      return Beat;
    }

    method Event(frame: Result<Payload, Failure>, at: int, convert: Convert) returns (r: EventResult)
      modifies this`resumeUrl, this`sessionId, this`lastSeq, this`lastAck, this`sent, this`lastSent
      ensures r == EventStep(old(State()), frame, at, convert).result
      ensures State() == EventStep(old(State()), frame, at, convert).after
    {
      if frame.Failure? {
        return EventRaised(frame.error);
      }
      var p := frame.value;
      if p.op == DISPATCH {
        var event := convert(p);
        if event.None? {
          return Looping;
        }
        lastSeq := Some(event.value.s);
        if event.value.ReadyEvent? {
          resumeUrl := Some(event.value.resumeGatewayUrl);
          sessionId := Some(event.value.sessionId);
        }
        return Looping;
      } else if p.op == HEARTBEAT_ACK {
        lastAck := at;
        return Looping;
      } else if p.op == HEARTBEAT {
        var h := SendHeartbeat(at);
        return if h.Pass? then Looping else EventRaised(h.error);
      }
      return Looping;
    }

    /** `_event_loop` over the frames that arrive. */
    method EventLoop(arrivals: seq<Arrival>, convert: Convert) returns (r: EventResult)
      modifies this`resumeUrl, this`sessionId, this`lastSeq, this`lastAck, this`sent, this`lastSent
      ensures r == EventLoopSpec(old(State()), arrivals, convert).result
      ensures State() == EventLoopSpec(old(State()), arrivals, convert).after
    {
      if !hasTransport {
        return EventRaised(AssertionError);
      }
      var i := 0;
      while i < |arrivals| && !isClosing
        invariant 0 <= i <= |arrivals|
        invariant RunEvents(old(State()), arrivals, convert) == RunEvents(State(), arrivals[i..], convert)
        invariant isClosing == old(isClosing)
        decreases |arrivals| - i
      {
        assert arrivals[i..][0] == arrivals[i] && arrivals[i..][1..] == arrivals[i + 1..];
        r := Event(arrivals[i].frame, arrivals[i].at, convert);
        if !r.Looping? {
          return;
        }
        i := i + 1;
      }
      return if isClosing then Idle else Looping;
    }
  }
}
