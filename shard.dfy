/** The newer gateway shard: one connection to the gateway, its handshake
    (HELLO, then IDENTIFY or RESUME), the heartbeat and event-polling tasks,
    the supervising keep-alive loop, and start/join/close.

    Every operation is first a pure function from the shard's state (and the
    values the outside world supplies: the outcome of dialling, the frames
    received and the clock) to a result and the next state; the class
    `GatewayShard` holds that state in fields and its methods are proved
    against those functions. Times are integer milliseconds; `None` stands
    for the NaN the source starts its timestamps with. */
module Shard {
  import opened Wrappers
  import opened Json
  import opened GatewayApi

  datatype Config = Config(token: string, gatewayUrl: string, intents: int, shardId: Option<int>, shardCount: Option<int>)

  /** One `event_manager.dispatch(payload=d, event_name=t)` call. */
  datatype Forward = Forward(payload: Json, eventName: string)

  /** Everything of the shard that its operations read or write. `sent` is
      the log of what went out on the connection, `dialed` the URLs dialled,
      `forwarded` the events handed to the event manager. */
  datatype ShardState = ShardState(
    resumeUrl: Option<string>,
    sessionId: Option<string>,
    lastSeq: Option<int>,
    isClosing: bool,
    keepAliveTask: bool,
    heartbeatInterval: Option<int>,
    hasWs: bool,
    lastSent: Option<int>,
    lastAck: Option<int>,
    latency: Option<int>,
    sent: seq<Outgoing>,
    dialed: seq<string>,
    forwarded: seq<Forward>)

  function Initial(): ShardState {
    ShardState(None, None, None, false, false, None, false, None, None, None, [], [], [])
  }

  /** A result together with the state the operation leaves. */
  datatype Step<R> = Step(result: R, after: ShardState)

  /** `payload[key]`: a missing key (KeyError) and a value that is not a
      mapping (TypeError) both fail. */
  function Index(j: Json, key: string): (r: Result<Json, Failure>)
    ensures r.Success? <==> Field(j, key).Some?
    ensures r.Success? ==> r.value == Field(j, key).value
    ensures r.Failure? ==> r.error == PayloadShapeError
  {
    if j.JObject? && key in j.fields then Success(j.fields[key]) else Failure(PayloadShapeError)
  }

  /** A field the shard stores as `str | None`. */
  function NullableString(j: Json): (r: Result<Option<string>, Failure>)
    ensures r.Success? <==> j.JNull? || j.JString?
    ensures j.JString? ==> r == Success(Some(j.s))
    ensures j.JNull? ==> r == Success(None)
  {
    match j
    case JNull => Success(None)
    case JString(s) => Success(Some(s))
    case _ => Failure(PayloadShapeError)
  }

  /** `d["heartbeat_interval"]` of a HELLO payload, in milliseconds. */
  function HelloInterval(d: Json): (r: Result<int, Failure>)
    ensures r.Success? <==> IntField(d, "heartbeat_interval").Some?
    ensures r.Success? ==> r.value == IntField(d, "heartbeat_interval").value
  {
    match Index(d, "heartbeat_interval")
    case Success(JInt(n)) => Success(n)
    case Success(_) => Failure(PayloadShapeError)
    case Failure(e) => Failure(e)
  }

  /** The URL `connect` dials: the resume URL once a READY supplied one. */
  function DialUrl(c: Config, s: ShardState): string {
    if TruthyString(s.resumeUrl) then s.resumeUrl.value else c.gatewayUrl
  }

  /** The handshake frame: RESUME when both a session id and a non-zero
      sequence number are known, IDENTIFY (without shard information)
      otherwise. */
  function Handshake(c: Config, s: ShardState): (f: Outgoing)
    ensures f.ResumeFrame? <==> TruthyString(s.sessionId) && TruthyInt(s.lastSeq)
    ensures f.ResumeFrame? ==> f == ResumeFrame(c.token, s.sessionId.value, s.lastSeq.value)
    ensures !f.ResumeFrame? ==> f == IdentifyFrame(c.token, c.intents, None)
  {
    if TruthyString(s.sessionId) && TruthyInt(s.lastSeq)
    then ResumeFrame(c.token, s.sessionId.value, s.lastSeq.value)
    else IdentifyFrame(c.token, c.intents, None)
  }

  /** `_send_identify`. */
  function SendIdentifySpec(c: Config, s: ShardState): (r: Step<Outcome<Failure>>)
    ensures r.result.Pass? <==> s.hasWs
    ensures r.result.Pass? ==> r.after == s.(sent := s.sent + [Handshake(c, s)])
    ensures r.result.Fail? ==> r.result.error == AssertionError && r.after == s
  {
    if !s.hasWs then Step(Fail(AssertionError), s)
    else Step(Pass, s.(sent := s.sent + [Handshake(c, s)]))
  }

  /** `_send_heartbeat` at time `at`: a heartbeat without a sequence number. */
  function SendHeartbeatSpec(s: ShardState, at: int): (r: Step<Outcome<Failure>>)
    ensures r.result.Pass? <==> s.hasWs
    ensures r.result.Pass? ==> r.after == s.(sent := s.sent + [HeartbeatFrame(None)], lastSent := Some(at))
    ensures r.result.Fail? ==> r.result.error == AssertionError && r.after == s
  {
    if !s.hasWs then Step(Fail(AssertionError), s)
    else Step(Pass, s.(sent := s.sent + [HeartbeatFrame(None)], lastSent := Some(at)))
  }

  /** What `connect` hands back: the two lifetime tasks (here the heartbeat
      interval they were started with), nothing, or an exception. */
  datatype ConnectOutcome = Tasks(interval: int) | NoTasks | ConnectRaised(error: Failure)

  /** The first frame is INVALID_SESSION with `d` exactly `False`. */
  predicate RefusedSession(p: Payload) {
    p.op == INVALID_SESSION && p.d == JBool(false)
  }

  /** `connect`, given whether dialling succeeded and what the first
      `receive` returned. */
  function ConnectSpec(c: Config, s: ShardState, dial: Outcome<Failure>, first: Result<Payload, Failure>): (r: Step<ConnectOutcome>)
    ensures r.after.dialed == s.dialed + [DialUrl(c, s)]
    ensures r.after.hasWs <==> s.hasWs || dial.Pass?
    ensures r.after.isClosing <==> s.isClosing || (dial.Pass? && first.Success? && RefusedSession(first.value))
    ensures r.after.resumeUrl == s.resumeUrl && r.after.sessionId == s.sessionId && r.after.lastSeq == s.lastSeq
    ensures r.after.forwarded == s.forwarded && r.after.keepAliveTask == s.keepAliveTask
    ensures r.result.Tasks? <==>
      && dial.Pass? && first.Success? && !RefusedSession(first.value)
      && first.value.op == HELLO && Truthy(first.value.d) && HelloInterval(first.value.d).Success?
    ensures r.result.Tasks? ==>
      && r.result.interval == HelloInterval(first.value.d).value
      && r.after.heartbeatInterval == Some(r.result.interval)
      && r.after.sent == s.sent + [Handshake(c, s)]
    ensures r.result.NoTasks? <==>
      dial.Pass? && first.Success? && (RefusedSession(first.value) || first.value.op == RECONNECT)
    ensures r.result.NoTasks? && !RefusedSession(first.value) ==>
      r.after.sent == s.sent + [CloseRequest(GOING_AWAY, "reconnecting")]
    ensures !r.result.Tasks? && !(r.result.NoTasks? && !RefusedSession(first.value)) ==> r.after.sent == s.sent
    ensures dial.Fail? ==> r.result == ConnectRaised(dial.error)
    ensures dial.Pass? && first.Failure? ==> r.result == ConnectRaised(first.error)
    ensures (dial.Pass? && first.Success? && !RefusedSession(first.value)
             && first.value.op != RECONNECT && first.value.op != HELLO) ==> r.result == ConnectRaised(RuntimeError)
  {
    var s1 := s.(dialed := s.dialed + [DialUrl(c, s)]);
    if dial.Fail? then Step(ConnectRaised(dial.error), s1)
    else FirstFrameSpec(c, s1.(hasWs := true), first)
  }

  /** The part of `connect` after the socket is open: the first frame
      received decides whether the tasks start. */
  function FirstFrameSpec(c: Config, s: ShardState, first: Result<Payload, Failure>): Step<ConnectOutcome> {
    if first.Failure? then Step(ConnectRaised(first.error), s)
    else
      var p := first.value;
      if RefusedSession(p) then Step(NoTasks, s.(isClosing := true))
      else if p.op == RECONNECT then Step(NoTasks, s.(sent := s.sent + [CloseRequest(GOING_AWAY, "reconnecting")]))
      else if p.op != HELLO then Step(ConnectRaised(RuntimeError), s)
      else if !Truthy(p.d) then Step(ConnectRaised(AssertionError), s)
      else match HelloInterval(p.d)
        case Failure(e) => Step(ConnectRaised(e), s)
        case Success(n) =>
          var s1 := s.(heartbeatInterval := Some(n));
          Step(Tasks(n), SendIdentifySpec(c, s1).after)
  }

  /** The log line of a READY event reads `user.username`,
      `user.discriminator`, `user.id`, `len(guilds)` and iterates `shard`
      when it is truthy; any of these failing raises. */
  function ReadySummary(d: Json): (r: Outcome<Failure>)
    ensures r.Pass? <==>
      && Field(d, "user").Some?
      && Field(Field(d, "user").value, "username").Some?
      && Field(Field(d, "user").value, "discriminator").Some?
      && Field(Field(d, "user").value, "id").Some?
      && Field(d, "guilds").Some? && Sized(Field(d, "guilds").value)
      && (Field(d, "shard").Some? && Truthy(Field(d, "shard").value) ==> Sized(Field(d, "shard").value))
    ensures r.Fail? ==> r.error == PayloadShapeError
  {
    match Index(d, "user")
    case Failure(e) => Fail(e)
    case Success(user) =>
      if Index(user, "username").Failure? || Index(user, "discriminator").Failure? || Index(user, "id").Failure?
      then Fail(PayloadShapeError)
      else match Index(d, "guilds")
        case Failure(e) => Fail(e)
        case Success(guilds) =>
          if !Sized(guilds) then Fail(PayloadShapeError)
          else match Field(d, "shard")
            case Some(shard) => if Truthy(shard) && !Sized(shard) then Fail(PayloadShapeError) else Pass
            case None => Pass
  }

  /** The READY branch: the session id, then the resume URL, are stored
      before the log line is built, so a failure part-way keeps what was
      already stored. */
  function ReadyStep(s: ShardState, d: Json): (r: Step<Outcome<Failure>>)
    ensures r.after.sent == s.sent && r.after.lastSeq == s.lastSeq && r.after.isClosing == s.isClosing
    ensures r.after.dialed == s.dialed && r.after.forwarded == s.forwarded && r.after.hasWs == s.hasWs
    ensures !Truthy(d) ==> r == Step(Fail(AssertionError), s)
    ensures r.result.Pass? ==>
      && Truthy(d)
      && Field(d, "session_id").Some? && NullableString(Field(d, "session_id").value).Success?
      && Field(d, "resume_gateway_url").Some? && NullableString(Field(d, "resume_gateway_url").value).Success?
      && r.after == s.(sessionId := NullableString(Field(d, "session_id").value).value,
                       resumeUrl := NullableString(Field(d, "resume_gateway_url").value).value)
  {
    if !Truthy(d) then Step(Fail(AssertionError), s)
    else match Index(d, "session_id")
      case Failure(e) => Step(Fail(e), s)
      case Success(rawId) =>
        match NullableString(rawId)
        case Failure(e) => Step(Fail(e), s)
        case Success(sid) =>
          var s1 := s.(sessionId := sid);
          match Index(d, "resume_gateway_url")
          case Failure(e) => Step(Fail(e), s1)
          case Success(rawUrl) =>
            match NullableString(rawUrl)
            case Failure(e) => Step(Fail(e), s1)
            case Success(url) =>
              var s2 := s1.(resumeUrl := url);
              Step(ReadySummary(d), s2)
  }

  /** How the event manager takes an event: it may raise (a conversion
      failure, say). */
  type Deliver = (Json, string) -> Outcome<Failure>

  /** What one turn of the polling loop ends in. */
  datatype PollResult = Continue | Exit | PollRaised(error: Failure)

  function DispatchStep(s: ShardState, p: Payload, deliver: Deliver): (r: Step<PollResult>)
    ensures r.after.lastSeq == p.s
    ensures r.after.sent == s.sent && r.after.isClosing == s.isClosing && r.after.dialed == s.dialed
    ensures r.result != Exit
    ensures r.result.Continue? <==>
      && (p.t == Some("READY") ==> ReadyStep(s.(lastSeq := p.s), p.d).result.Pass?)
      && Truthy(p.d) && TruthyString(p.t) && deliver(p.d, p.t.value).Pass?
    ensures r.result.Continue? ==> r.after.forwarded == s.forwarded + [Forward(p.d, p.t.value)]
    ensures !r.result.Continue? ==> r.after.forwarded == s.forwarded
    ensures p.t != Some("READY") ==> r.after.sessionId == s.sessionId && r.after.resumeUrl == s.resumeUrl
  {
    var s1 := s.(lastSeq := p.s);
    var ready := if p.t == Some("READY") then ReadyStep(s1, p.d) else Step(Pass, s1);
    var s2 := ready.after;
    if ready.result.Fail? then Step(PollRaised(ready.result.error), s2)
    else if !Truthy(p.d) || !TruthyString(p.t) then Step(PollRaised(AssertionError), s2)
    else match deliver(p.d, p.t.value)
      case Fail(e) => Step(PollRaised(e), s2)
      case Pass => Step(Continue, s2.(forwarded := s2.forwarded + [Forward(p.d, p.t.value)]))
  }

  /** What an INVALID_SESSION frame does to the stored identity. */
  datatype SessionVerdict = KeepIdentity | ClearIdentity | AssertFails

  /** INVALID_SESSION as written: `assert payload.d` already rejects every
      falsy `d`, so the branch that clears a non-resumable session can never
      run. */
  function InvalidSessionAsWritten(d: Json): (v: SessionVerdict)
    ensures v != ClearIdentity
    ensures v == AssertFails <==> !Truthy(d)
  {
    if !Truthy(d) then AssertFails else KeepIdentity
  }

  /** INVALID_SESSION as the protocol means it: `d` says whether the session
      may be resumed; only an absent `d` trips the assertion. */
  function InvalidSession(d: Json): (v: SessionVerdict)
    ensures v == AssertFails <==> d.JNull?
    ensures v == ClearIdentity <==> !d.JNull? && !Truthy(d)
    ensures v == KeepIdentity <==> Truthy(d)
  {
    if d.JNull? then AssertFails else if Truthy(d) then KeepIdentity else ClearIdentity
  }

  /** The written code keeps a session the server just declared not
      resumable, and then fails its own assertion. */
  lemma InvalidSessionNotResumableAsWritten()
    ensures InvalidSessionAsWritten(JBool(false)) == AssertFails
    ensures InvalidSession(JBool(false)) == ClearIdentity
    ensures InvalidSession(JBool(true)) == KeepIdentity == InvalidSessionAsWritten(JBool(true))
  {
  }

  /** The two definitions agree on every resumable session and on the
      absent `d`; they differ exactly on the present, falsy ones. */
  lemma InvalidSessionDifference(d: Json)
    ensures InvalidSession(d) != InvalidSessionAsWritten(d) <==> !d.JNull? && !Truthy(d)
  {
  }

  /** One turn of `_poll_events` on a received frame (or a raised
      `receive`) at time `at`. */
  function PollStep(s: ShardState, frame: Result<Payload, Failure>, at: int, deliver: Deliver): (r: Step<PollResult>)
    ensures r.after.isClosing == s.isClosing && r.after.dialed == s.dialed && r.after.hasWs == s.hasWs
    ensures r.after.keepAliveTask == s.keepAliveTask && r.after.heartbeatInterval == s.heartbeatInterval
    ensures r.after.sent == s.sent || (s.hasWs && r.after.sent == s.sent + [HeartbeatFrame(None)])
    ensures frame.Failure? ==> r == Step(PollRaised(frame.error), s)
    ensures frame.Success? && frame.value.op == DISPATCH ==> r == DispatchStep(s, frame.value, deliver)
    ensures frame.Success? && frame.value.op == RECONNECT ==> r == Step(Exit, s)
    ensures frame.Success? && frame.value.op == HEARTBEAT ==>
      && r.after == SendHeartbeatSpec(s, at).after
      && (r.result == Continue <==> s.hasWs)
      && (!s.hasWs ==> r.result == PollRaised(AssertionError))
    ensures frame.Success? && frame.value.op == HEARTBEAT_ACK ==>
      && r.result == Continue
      && r.after == s.(lastAck := Some(at), latency := if s.lastSent.Some? then Some(at - s.lastSent.value) else None)
    ensures frame.Success? && frame.value.op == INVALID_SESSION && InvalidSession(frame.value.d) == ClearIdentity ==>
      r == Step(Exit, s.(lastSeq := None, resumeUrl := None, sessionId := None))
    ensures frame.Success? && frame.value.op == INVALID_SESSION && InvalidSession(frame.value.d) == KeepIdentity ==>
      r == Step(Exit, s)
    ensures frame.Success? && frame.value.op == INVALID_SESSION && InvalidSession(frame.value.d) == AssertFails ==>
      r == Step(PollRaised(AssertionError), s)
    ensures frame.Success? && frame.value.op !in {DISPATCH, RECONNECT, HEARTBEAT, HEARTBEAT_ACK, INVALID_SESSION} ==>
      r == Step(Continue, s)
    ensures r.result == Exit ==> frame.Success? && frame.value.op in {RECONNECT, INVALID_SESSION}
  {
    if frame.Failure? then Step(PollRaised(frame.error), s)
    else
      var p := frame.value;
      if p.op == DISPATCH then DispatchStep(s, p, deliver)
      else if p.op == RECONNECT then Step(Exit, s)
      else if p.op == HEARTBEAT then
        var h := SendHeartbeatSpec(s, at);
        Step(if h.result.Pass? then Continue else PollRaised(h.result.error), h.after)
      else if p.op == HEARTBEAT_ACK then
        Step(Continue, s.(lastAck := Some(at), latency := if s.lastSent.Some? then Some(at - s.lastSent.value) else None))
      else if p.op == INVALID_SESSION then InvalidSessionStep(s, InvalidSession(p.d))
      else Step(Continue, s)
  }

  /** The INVALID_SESSION turn once the verdict on `d` is known. */
  function InvalidSessionStep(s: ShardState, v: SessionVerdict): Step<PollResult> {
    match v
    case AssertFails => Step(PollRaised(AssertionError), s)
    case KeepIdentity => Step(Exit, s)
    case ClearIdentity => Step(Exit, s.(lastSeq := None, resumeUrl := None, sessionId := None))
  }

  /** One turn of `_poll_events` as written: INVALID_SESSION goes through
      `assert payload.d` first, so it never clears the identity and every
      falsy `d` raises with the refused session still stored. Every other
      frame is handled as `PollStep` handles it. */
  function PollStepAsWritten(s: ShardState, frame: Result<Payload, Failure>, at: int, deliver: Deliver): (r: Step<PollResult>)
    ensures frame.Success? && frame.value.op == INVALID_SESSION ==>
      && r.after == s
      && (r.result == PollRaised(AssertionError) <==> !Truthy(frame.value.d))
      && (r.result == Exit <==> Truthy(frame.value.d))
    ensures !(frame.Success? && frame.value.op == INVALID_SESSION) ==> r == PollStep(s, frame, at, deliver)
  {
    if frame.Success? && frame.value.op == INVALID_SESSION
    then InvalidSessionStep(s, InvalidSessionAsWritten(frame.value.d))
    else PollStep(s, frame, at, deliver)
  }

  /** As written, a session the server refuses to resume is kept: the
      polling task dies on the assertion, and the next connection dials the
      stored resume URL and sends RESUME for the refused session. */
  lemma RefusedSessionResumedAsWritten(c: Config, s: ShardState, at: int, deliver: Deliver, hello: Payload)
    requires TruthyString(s.sessionId) && TruthyInt(s.lastSeq)
    requires hello.op == HELLO && Truthy(hello.d) && HelloInterval(hello.d).Success?
    ensures var polled := PollStepAsWritten(s, Success(Payload(INVALID_SESSION, JBool(false), None, None)), at, deliver);
      var connected := ConnectSpec(c, polled.after, Pass, Success(hello));
      && polled.result == PollRaised(AssertionError)
      && connected.after.dialed[|connected.after.dialed| - 1] == DialUrl(c, s)
      && connected.after.sent[|connected.after.sent| - 1] == ResumeFrame(c.token, s.sessionId.value, s.lastSeq.value)
  {
  }

  /** The polling loop over the frames that arrive. Running out of frames
      leaves the loop waiting, which is `Continue`. */
  function RunPoll(s: ShardState, arrivals: seq<Arrival>, deliver: Deliver): (r: Step<PollResult>)
    decreases |arrivals|
  {
    if s.isClosing then Step(Exit, s)
    else if arrivals == [] then Step(Continue, s)
    else
      var st := PollStep(s, arrivals[0].frame, arrivals[0].at, deliver);
      if st.result.Continue? then RunPoll(st.after, arrivals[1..], deliver) else st
  }

  /** `_poll_events`: the connection must exist before the loop starts. */
  function PollEventsSpec(s: ShardState, arrivals: seq<Arrival>, deliver: Deliver): Step<PollResult> {
    if !s.hasWs then Step(PollRaised(AssertionError), s) else RunPoll(s, arrivals, deliver)
  }

  /** Polling writes nothing but heartbeats, one per HEARTBEAT request at
      most, and it never dials, starts or stops anything. */
  lemma {:induction false} PollOnlyHeartbeats(s: ShardState, arrivals: seq<Arrival>, deliver: Deliver)
    ensures var r := RunPoll(s, arrivals, deliver);
      && r.after.isClosing == s.isClosing && r.after.dialed == s.dialed
      && r.after.keepAliveTask == s.keepAliveTask && r.after.hasWs == s.hasWs
      && |s.sent| <= |r.after.sent| && r.after.sent[..|s.sent|] == s.sent
      && (forall i :: |s.sent| <= i < |r.after.sent| ==> r.after.sent[i] == HeartbeatFrame(None))
      && |r.after.sent| - |s.sent| <= |arrivals|
    decreases |arrivals|
  {
    if !s.isClosing && arrivals != [] {
      var st := PollStep(s, arrivals[0].frame, arrivals[0].at, deliver);
      if st.result.Continue? {
        PollOnlyHeartbeats(st.after, arrivals[1..], deliver);
        var r := RunPoll(st.after, arrivals[1..], deliver);
        assert r.after.sent[..|st.after.sent|] == st.after.sent;
        if st.after.sent != s.sent {
          assert st.after.sent[|s.sent|] == HeartbeatFrame(None);
          assert r.after.sent[|s.sent|] == st.after.sent[|s.sent|];
        }
        assert r.after.sent[..|s.sent|] == st.after.sent[..|s.sent|];
      }
    }
  }

  /** A READY payload whose identity fields are the given strings and whose
      log line can be built. */
  predicate ReadyPayload(d: Json, sessionId: string, resumeUrl: string) {
    && Field(d, "session_id") == Some(JString(sessionId))
    && Field(d, "resume_gateway_url") == Some(JString(resumeUrl))
    && ReadySummary(d).Pass?
  }

  /** A READY dispatch records the session id, the resume URL and the
      sequence number; the event is forwarded under the name READY. */
  lemma ReadyRecordsSession(s: ShardState, d: Json, sid: string, url: string, sequence: int, at: int, deliver: Deliver)
    requires ReadyPayload(d, sid, url) && deliver(d, "READY").Pass?
    ensures var r := PollStep(s, Success(Payload(DISPATCH, d, Some(sequence), Some("READY"))), at, deliver);
      && r.result == Continue
      && r.after.sessionId == Some(sid) && r.after.resumeUrl == Some(url) && r.after.lastSeq == Some(sequence)
      && r.after.forwarded == s.forwarded + [Forward(d, "READY")]
  {
    assert Truthy(d);
  }

  /** After READY, a reconnecting shard dials the resume URL and resumes
      the session at the sequence number READY carried. */
  lemma {:induction false} ReadyThenReconnectResumes(
    c: Config, s: ShardState, d: Json, sid: string, url: string, sequence: int, at: int,
    deliver: Deliver, hello: Payload)
    requires ReadyPayload(d, sid, url) && deliver(d, "READY").Pass?
    requires sid != "" && url != "" && sequence != 0
    requires hello.op == HELLO && Truthy(hello.d) && HelloInterval(hello.d).Success?
    ensures var polled := PollStep(s, Success(Payload(DISPATCH, d, Some(sequence), Some("READY"))), at, deliver);
      var reconnected := PollStep(polled.after, Success(Payload(RECONNECT, JNull, None, None)), at, deliver);
      var connected := ConnectSpec(c, reconnected.after, Pass, Success(hello));
      && reconnected.result == Exit
      && connected.result.Tasks?
      && connected.after.dialed[|connected.after.dialed| - 1] == url
      && connected.after.sent[|connected.after.sent| - 1] == ResumeFrame(c.token, sid, sequence)
  {
    ReadyRecordsSession(s, d, sid, url, sequence, at, deliver);
    var polled := PollStep(s, Success(Payload(DISPATCH, d, Some(sequence), Some("READY"))), at, deliver);
    assert TruthyString(polled.after.sessionId) && TruthyInt(polled.after.lastSeq);
  }

  /** A RECONNECT while connected at sequence number 5 ends the polling
      loop with the session kept, and the next connection goes to the resume
      URL and resumes at 5 rather than identifying. */
  lemma ReconnectAtSequenceFiveResumes(c: Config, s: ShardState, at: int, deliver: Deliver, hello: Payload)
    requires s.lastSeq == Some(5) && TruthyString(s.sessionId) && TruthyString(s.resumeUrl)
    requires hello.op == HELLO && Truthy(hello.d) && HelloInterval(hello.d).Success?
    ensures var polled := PollStep(s, Success(Payload(RECONNECT, JNull, None, None)), at, deliver);
      var connected := ConnectSpec(c, polled.after, Pass, Success(hello));
      && polled.result == Exit
      && connected.after.dialed[|connected.after.dialed| - 1] == s.resumeUrl.value
      && connected.after.sent[|connected.after.sent| - 1] == ResumeFrame(c.token, s.sessionId.value, 5)
  {
  }

  /** A session the server refuses to resume is forgotten: the next
      connection goes to the gateway URL and identifies afresh. */
  lemma {:induction false} NotResumableThenIdentifies(c: Config, s: ShardState, at: int, deliver: Deliver, hello: Payload)
    requires hello.op == HELLO && Truthy(hello.d) && HelloInterval(hello.d).Success?
    ensures var polled := PollStep(s, Success(Payload(INVALID_SESSION, JBool(false), None, None)), at, deliver);
      var connected := ConnectSpec(c, polled.after, Pass, Success(hello));
      && polled.result == Exit
      && connected.after.dialed[|connected.after.dialed| - 1] == c.gatewayUrl
      && connected.after.sent[|connected.after.sent| - 1] == IdentifyFrame(c.token, c.intents, None)
  {
    assert InvalidSession(JBool(false)) == ClearIdentity;
  }

  /** A first frame that refuses the session stops the shard: `connect`
      returns no tasks and marks the shard closing, and the keep-alive loop
      raises RuntimeError for the missing tasks. */
  lemma RefusedFirstFrameRaises(c: Config, s: ShardState, rest: seq<Attempt>)
    ensures var connected := ConnectSpec(c, s, Pass, Success(Payload(INVALID_SESSION, JBool(false), None, None)));
      && connected.result == NoTasks && connected.after.isClosing
      && Supervise(false, [Attempt(connected.result, connected.after.isClosing)] + rest) == EndedRaising(1, RuntimeError)
  {
  }

  /** The heartbeat loop over the wake-up times. */
  function HeartbeatSpec(s: ShardState, times: seq<int>): (r: Step<Outcome<Failure>>)
    decreases |times|
  {
    if s.isClosing || times == [] then Step(Pass, s)
    else
      var h := SendHeartbeatSpec(s, times[0]);
      if h.result.Fail? then h else HeartbeatSpec(h.after, times[1..])
  }

  /** Until the shard closes, the heartbeat task writes one heartbeat per
      wake-up and remembers the last time it sent one. */
  lemma {:induction false} HeartbeatSendsOnePerWakeup(s: ShardState, times: seq<int>)
    requires s.hasWs && !s.isClosing && times != []
    ensures var r := HeartbeatSpec(s, times);
      && r.result == Pass
      && r.after == s.(sent := s.sent + seq(|times|, _ => HeartbeatFrame(None)), lastSent := Some(times[|times| - 1]))
    decreases |times|
  {
    var h := SendHeartbeatSpec(s, times[0]);
    if |times| > 1 {
      HeartbeatSendsOnePerWakeup(h.after, times[1..]);
      assert h.after.sent + seq(|times| - 1, _ => HeartbeatFrame(None))
        == s.sent + seq(|times|, _ => HeartbeatFrame(None));
    }
  }

  /** `start`: a second start without a close raises. */
  function StartSpec(s: ShardState): (r: Step<Outcome<Failure>>)
    ensures r.result.Pass? <==> !s.keepAliveTask
    ensures r.result.Fail? ==> r == Step(Fail(RuntimeError), s)
    ensures r.after.keepAliveTask
  {
    if s.keepAliveTask then Step(Fail(RuntimeError), s) else Step(Pass, s.(keepAliveTask := true))
  }

  /** How awaiting the keep-alive task ends. */
  datatype TaskEnd = Finished | FailedWith(error: Failure) | WasCancelled

  /** `join`: waits for the keep-alive task and passes on how it ended. */
  function JoinSpec(s: ShardState, ending: TaskEnd): (r: Outcome<Failure>)
    ensures !s.keepAliveTask ==> r == Fail(RuntimeError)
    ensures s.keepAliveTask ==> (r.Pass? <==> ending == Finished)
  {
    if !s.keepAliveTask then Fail(RuntimeError)
    else match ending
      case Finished => Pass
      case FailedWith(e) => Fail(e)
      case WasCancelled => Fail(Cancelled)
  }

  /** `close`: a second close while the first is in progress only joins;
      otherwise the task is cancelled and awaited with its cancellation
      suppressed, and only a task that had already failed leaves the shard
      closing, with its exception. */
  function CloseSpec(s: ShardState, ending: TaskEnd): (r: Step<Outcome<Failure>>)
    ensures !s.keepAliveTask ==> r == Step(Fail(RuntimeError), s)
    ensures s.keepAliveTask && s.isClosing ==> r == Step(JoinSpec(s, ending), s)
    ensures s.keepAliveTask && !s.isClosing && ending.FailedWith? ==>
      r == Step(Fail(ending.error), s.(isClosing := true))
    ensures r.result.Pass? && !s.isClosing ==> r.after == s.(keepAliveTask := false)
  {
    if !s.keepAliveTask then Step(Fail(RuntimeError), s)
    else if s.isClosing then Step(JoinSpec(s, ending), s)
    else match ending
      case FailedWith(e) => Step(Fail(e), s.(isClosing := true))
      case _ => Step(Pass, s.(keepAliveTask := false, isClosing := false))
  }

  /** A shard that was started and closed cleanly can be started again, and
      a shard already started cannot. */
  lemma StartCloseStart(s: ShardState, ending: TaskEnd)
    requires !s.keepAliveTask && !s.isClosing && !ending.FailedWith?
    ensures var started := StartSpec(s);
      var closed := CloseSpec(started.after, ending);
      && started.result.Pass? && StartSpec(started.after).result == Fail(RuntimeError)
      && closed.result.Pass? && closed.after == s
      && StartSpec(closed.after).result.Pass?
  {
  }

  /** What the keep-alive loop does with the outcome of one `connect`. */
  datatype Decision = Retry | Stop(code: int) | Propagate(error: Failure)

  function Decide(o: ConnectOutcome): (d: Decision)
    ensures d.Stop? <==> o.ConnectRaised? && o.error.ServerClosed? && !o.error.canReconnect
    ensures d.Retry? <==> o.Tasks? || (o.ConnectRaised? && o.error.ServerClosed? && o.error.canReconnect)
    ensures o.NoTasks? ==> d == Propagate(RuntimeError)
    ensures o.ConnectRaised? && !o.error.ServerClosed? ==> d == Propagate(o.error)
  {
    match o
    case Tasks(_) => Retry
    case NoTasks => Propagate(RuntimeError)
    case ConnectRaised(e) =>
      if e.ServerClosed? then (if e.canReconnect then Retry else Stop(e.code)) else Propagate(e)
  }

  /** One round of the keep-alive loop: what `connect` returned and whether
      the shard was closing when the loop next checked. */
  datatype Attempt = Attempt(outcome: ConnectOutcome, closingAfter: bool)

  datatype KeepAliveEnd =
    | EndedClosing(rounds: nat)
    | EndedUnreconnectable(rounds: nat, code: int)
    | EndedRaising(rounds: nat, error: Failure)
    | StillRunning(rounds: nat)

  function Later(e: KeepAliveEnd): (r: KeepAliveEnd)
    ensures r.rounds == e.rounds + 1
  {
    match e
    case EndedClosing(n) => EndedClosing(n + 1)
    case EndedUnreconnectable(n, code) => EndedUnreconnectable(n + 1, code)
    case EndedRaising(n, err) => EndedRaising(n + 1, err)
    case StillRunning(n) => StillRunning(n + 1)
  }

  /** `_keep_alive`, given whether the shard is closing at the first check
      and the rounds that follow. */
  function Supervise(closing: bool, attempts: seq<Attempt>): (r: KeepAliveEnd)
    ensures r.rounds <= |attempts|
    ensures r.StillRunning? ==> r.rounds == |attempts|
    ensures closing ==> r == EndedClosing(0)
    ensures r.EndedRaising? ==>
      && 0 < r.rounds && Decide(attempts[r.rounds - 1].outcome) == Propagate(r.error) && !r.error.ServerClosed?
    ensures r.EndedUnreconnectable? ==>
      && 0 < r.rounds && attempts[r.rounds - 1].outcome.ConnectRaised?
      && attempts[r.rounds - 1].outcome.error.ServerClosed?
      && attempts[r.rounds - 1].outcome.error.code == r.code
      && !attempts[r.rounds - 1].outcome.error.canReconnect
    ensures forall i :: 0 <= i < r.rounds - 1 ==> Decide(attempts[i].outcome) == Retry
    ensures forall i :: 0 <= i < r.rounds - 1 ==> !attempts[i].closingAfter
    ensures r == EndedClosing(0) <==> closing
    ensures r.EndedClosing? && r.rounds > 0 ==>
      attempts[r.rounds - 1].closingAfter && Decide(attempts[r.rounds - 1].outcome) == Retry
    ensures r.StillRunning? && r.rounds > 0 ==>
      !attempts[r.rounds - 1].closingAfter && Decide(attempts[r.rounds - 1].outcome) == Retry
    decreases |attempts|
  {
    if closing then EndedClosing(0)
    else if attempts == [] then StillRunning(0)
    else
      match Decide(attempts[0].outcome)
      case Stop(code) => EndedUnreconnectable(1, code)
      case Propagate(e) => EndedRaising(1, e)
      case Retry =>
        var rest := Supervise(attempts[0].closingAfter, attempts[1..]);
        assert forall i :: 1 <= i < rest.rounds + 1 ==> attempts[i] == attempts[1..][i - 1];
        Later(rest)
  }

  /** While every connection ends in a reconnectable way and nothing closes
      the shard, the keep-alive loop reconnects after every round. */
  lemma {:induction false} SuperviseKeepsReconnecting(attempts: seq<Attempt>)
    requires forall i :: 0 <= i < |attempts| ==> Decide(attempts[i].outcome) == Retry && !attempts[i].closingAfter
    ensures Supervise(false, attempts) == StillRunning(|attempts|)
    decreases |attempts|
  {
    if attempts != [] {
      SuperviseKeepsReconnecting(attempts[1..]);
    }
  }

  /** `_keep_alive` as a loop over the rounds. */
  method KeepAlive(closing: bool, attempts: seq<Attempt>) returns (r: KeepAliveEnd)
    ensures r == Supervise(closing, attempts)
  {
    var isClosing := closing;
    var i := 0;
    while i < |attempts| && !isClosing
      invariant 0 <= i <= |attempts|
      invariant Supervise(closing, attempts) ==
        if i == 0 then Supervise(isClosing, attempts[i..]) else Shifted(Supervise(isClosing, attempts[i..]), i)
      decreases |attempts| - i
    {
      var decision := Decide(attempts[i].outcome);
      if decision.Stop? {
        ShiftedStep(closing, attempts, i, isClosing, EndedUnreconnectable(1, decision.code));
        return EndedUnreconnectable(i + 1, decision.code);
      }
      if decision.Propagate? {
        ShiftedStep(closing, attempts, i, isClosing, EndedRaising(1, decision.error));
        return EndedRaising(i + 1, decision.error);
      }
      ShiftedLater(Supervise(attempts[i].closingAfter, attempts[i + 1..]), i);
      assert attempts[i..][1..] == attempts[i + 1..];
      isClosing := attempts[i].closingAfter;
      i := i + 1;
    }
    if isClosing {
      r := EndedClosing(i);
    } else {
      r := StillRunning(i);
    }
    assert attempts[i..] == [] || isClosing;
    ShiftedEnd(closing, attempts, i, isClosing);
  }

  /** `e` after `k` earlier rounds. */
  function Shifted(e: KeepAliveEnd, k: nat): (r: KeepAliveEnd)
    ensures r.rounds == e.rounds + k
    decreases k
  {
    if k == 0 then e else Later(Shifted(e, k - 1))
  }

  lemma {:induction false} ShiftedLater(e: KeepAliveEnd, k: nat)
    ensures Shifted(Later(e), k) == Shifted(e, k + 1)
    decreases k
  {
    if k > 0 {
      ShiftedLater(e, k - 1);
    }
  }

  lemma ShiftedStep(closing: bool, attempts: seq<Attempt>, i: nat, isClosing: bool, e: KeepAliveEnd)
    requires i < |attempts| && !isClosing
    requires Supervise(isClosing, attempts[i..]) == e
    requires Supervise(closing, attempts) == if i == 0 then e else Shifted(e, i)
    requires e.EndedUnreconnectable? || e.EndedRaising?
    requires e.rounds == 1
    ensures Supervise(closing, attempts) ==
      if e.EndedUnreconnectable? then EndedUnreconnectable(i + 1, e.code) else EndedRaising(i + 1, e.error)
  {
    ShiftedKeepsKind(e, i);
  }

  lemma {:induction false} ShiftedKeepsKind(e: KeepAliveEnd, k: nat)
    ensures e.EndedUnreconnectable? ==> Shifted(e, k) == EndedUnreconnectable(e.rounds + k, e.code)
    ensures e.EndedRaising? ==> Shifted(e, k) == EndedRaising(e.rounds + k, e.error)
    ensures e.EndedClosing? ==> Shifted(e, k) == EndedClosing(e.rounds + k)
    ensures e.StillRunning? ==> Shifted(e, k) == StillRunning(e.rounds + k)
    decreases k
  {
    if k > 0 {
      ShiftedKeepsKind(e, k - 1);
    }
  }

  lemma ShiftedEnd(closing: bool, attempts: seq<Attempt>, i: nat, isClosing: bool)
    requires i <= |attempts|
    requires isClosing || i == |attempts|
    requires Supervise(closing, attempts) ==
      if i == 0 then Supervise(isClosing, attempts[i..]) else Shifted(Supervise(isClosing, attempts[i..]), i)
    ensures Supervise(closing, attempts) == if isClosing then EndedClosing(i) else StillRunning(i)
  {
    ShiftedKeepsKind(Supervise(isClosing, attempts[i..]), i);
  }

  class GatewayShard {
    const config: Config

    var resumeUrl: Option<string>
    var sessionId: Option<string>
    var lastSeq: Option<int>
    var isClosing: bool
    var keepAliveTask: bool
    var heartbeatInterval: Option<int>
    var hasWs: bool
    var lastSent: Option<int>
    var lastAck: Option<int>
    var latency: Option<int>
    var sent: seq<Outgoing>
    var dialed: seq<string>
    var forwarded: seq<Forward>

    function State(): ShardState
      reads this
    {
      ShardState(resumeUrl, sessionId, lastSeq, isClosing, keepAliveTask, heartbeatInterval, hasWs,
                 lastSent, lastAck, latency, sent, dialed, forwarded)
    }

    constructor (config: Config)
      ensures this.config == config && State() == Initial()
    {
      this.config := config;
      resumeUrl, sessionId, lastSeq := None, None, None;
      isClosing, keepAliveTask, heartbeatInterval, hasWs := false, false, None, false;
      lastSent, lastAck, latency := None, None, None;
      sent, dialed, forwarded := [], [], [];
    }

    method Start() returns (r: Outcome<Failure>)
      modifies this`keepAliveTask
      ensures r == StartSpec(old(State())).result && State() == StartSpec(old(State())).after
    {
      if keepAliveTask {
        return Fail(RuntimeError);
      }
      keepAliveTask := true;
      return Pass;
    }

    method Join(ending: TaskEnd) returns (r: Outcome<Failure>)
      ensures r == JoinSpec(State(), ending)
    {
      if !keepAliveTask {
        return Fail(RuntimeError);
      }
      match ending {
        case Finished => r := Pass;
        case FailedWith(e) => r := Fail(e);
        case WasCancelled => r := Fail(Cancelled);
      }
    }

    method Close(ending: TaskEnd) returns (r: Outcome<Failure>)
      modifies this`keepAliveTask, this`isClosing
      ensures r == CloseSpec(old(State()), ending).result && State() == CloseSpec(old(State()), ending).after
    {
      if !keepAliveTask {
        return Fail(RuntimeError);
      }
      if isClosing {
        r := Join(ending);
        return;
      }
      isClosing := true;
      if ending.FailedWith? {
        return Fail(ending.error);
      }
      keepAliveTask := false;
      isClosing := false;
      return Pass;
    }

    method SendHeartbeat(at: int) returns (r: Outcome<Failure>)
      modifies this`sent, this`lastSent
      ensures r == SendHeartbeatSpec(old(State()), at).result && State() == SendHeartbeatSpec(old(State()), at).after
    {
      if !hasWs {
        return Fail(AssertionError);
      }
      sent := sent + [HeartbeatFrame(None)];
      lastSent := Some(at);
      return Pass;
    }

    method SendIdentify() returns (r: Outcome<Failure>)
      modifies this`sent
      ensures r == SendIdentifySpec(config, old(State())).result && State() == SendIdentifySpec(config, old(State())).after
    {
      if !hasWs {
        return Fail(AssertionError);
      }
      var frame: Outgoing;
      if sessionId.Some? && sessionId.value != "" && lastSeq.Some? && lastSeq.value != 0 {
        frame := ResumeFrame(config.token, sessionId.value, lastSeq.value);
      } else {
        frame := IdentifyFrame(config.token, config.intents, None);
      }
      sent := sent + [frame];
      return Pass;
    }

    method Connect(dial: Outcome<Failure>, first: Result<Payload, Failure>) returns (r: ConnectOutcome)
      modifies this
      ensures r == ConnectSpec(config, old(State()), dial, first).result
      ensures State() == ConnectSpec(config, old(State()), dial, first).after
    {
      var url := if resumeUrl.Some? && resumeUrl.value != "" then resumeUrl.value else config.gatewayUrl;
      dialed := dialed + [url];
      if dial.Fail? {
        return ConnectRaised(dial.error);
      }
      hasWs := true;
      r := OnFirstFrame(first);
    }

    method OnFirstFrame(first: Result<Payload, Failure>) returns (r: ConnectOutcome)
      modifies this
      ensures r == FirstFrameSpec(config, old(State()), first).result
      ensures State() == FirstFrameSpec(config, old(State()), first).after
    {
      if first.Failure? {
        return ConnectRaised(first.error);
      }
      var p := first.value;
      if p.op == INVALID_SESSION && p.d == JBool(false) {
        isClosing := true;
        return NoTasks;
      }
      if p.op == RECONNECT {
        sent := sent + [CloseRequest(GOING_AWAY, "reconnecting")];
        return NoTasks;
      }
      if p.op != HELLO {
        return ConnectRaised(RuntimeError);
      }
      if !Truthy(p.d) {
        return ConnectRaised(AssertionError);
      }
      var interval := HelloInterval(p.d);
      if interval.Failure? {
        return ConnectRaised(interval.error);
      }
      heartbeatInterval := Some(interval.value);
      var _ := SendIdentify();
      return Tasks(interval.value);
    }

    /** The READY branch of a dispatch. */
    method Ready(d: Json) returns (r: Outcome<Failure>)
      modifies this`sessionId, this`resumeUrl
      ensures r == ReadyStep(old(State()), d).result && State() == ReadyStep(old(State()), d).after
    {
      if !Truthy(d) {
        return Fail(AssertionError);
      }
      var rawId := Index(d, "session_id");
      if rawId.Failure? {
        return Fail(rawId.error);
      }
      var sid := NullableString(rawId.value);
      if sid.Failure? {
        return Fail(sid.error);
      }
      sessionId := sid.value;
      var rawUrl := Index(d, "resume_gateway_url");
      if rawUrl.Failure? {
        return Fail(rawUrl.error);
      }
      var url := NullableString(rawUrl.value);
      if url.Failure? {
        return Fail(url.error);
      }
      resumeUrl := url.value;
      return ReadySummary(d);
    }

    /** The DISPATCH branch of `_poll_events`. */
    method Dispatch(p: Payload, deliver: Deliver) returns (r: PollResult)
      modifies this`sessionId, this`resumeUrl, this`lastSeq, this`forwarded
      ensures r == DispatchStep(old(State()), p, deliver).result
      ensures State() == DispatchStep(old(State()), p, deliver).after
    {
      lastSeq := p.s;
      if p.t == Some("READY") {
        var ready := Ready(p.d);
        if ready.Fail? {
          return PollRaised(ready.error);
        }
      }
      if !Truthy(p.d) || p.t.None? || p.t.value == "" {
        return PollRaised(AssertionError);
      }
      var delivered := deliver(p.d, p.t.value);
      if delivered.Fail? {
        return PollRaised(delivered.error);
      }
      forwarded := forwarded + [Forward(p.d, p.t.value)];
      return Continue;
    }

    /** One turn of the polling loop. */
    method Poll(frame: Result<Payload, Failure>, at: int, deliver: Deliver) returns (r: PollResult)
      modifies this`sessionId, this`resumeUrl, this`lastSeq, this`sent, this`lastSent, this`lastAck,
               this`latency, this`forwarded
      ensures r == PollStep(old(State()), frame, at, deliver).result
      ensures State() == PollStep(old(State()), frame, at, deliver).after
    {
      if frame.Failure? {
        return PollRaised(frame.error);
      }
      var p := frame.value;
      if p.op == DISPATCH {
        r := Dispatch(p, deliver);
        return;
      } else if p.op == RECONNECT {
        return Exit;
      } else if p.op == HEARTBEAT {
        var h := SendHeartbeat(at);
        return if h.Pass? then Continue else PollRaised(h.error);
      } else if p.op == HEARTBEAT_ACK {
        lastAck := Some(at);
        latency := if lastSent.Some? then Some(at - lastSent.value) else None;
        return Continue;
      } else if p.op == INVALID_SESSION {
        var verdict := InvalidSession(p.d);
        if verdict == AssertFails {
          return PollRaised(AssertionError);
        }
        if verdict == ClearIdentity {
          lastSeq, resumeUrl, sessionId := None, None, None;
        }
        return Exit;
      }
      return Continue;
    }

    /** `_poll_events` over the frames that arrive. */
    method PollEvents(arrivals: seq<Arrival>, deliver: Deliver) returns (r: PollResult)
      modifies this`sessionId, this`resumeUrl, this`lastSeq, this`sent, this`lastSent, this`lastAck,
               this`latency, this`forwarded
      ensures r == PollEventsSpec(old(State()), arrivals, deliver).result
      ensures State() == PollEventsSpec(old(State()), arrivals, deliver).after
    {
      if !hasWs {
        return PollRaised(AssertionError);
      }
      var i := 0;
      while i < |arrivals| && !isClosing
        invariant 0 <= i <= |arrivals|
        invariant RunPoll(old(State()), arrivals, deliver) == RunPoll(State(), arrivals[i..], deliver)
        invariant hasWs && isClosing == old(isClosing)
        decreases |arrivals| - i
      {
        assert arrivals[i..][0] == arrivals[i] && arrivals[i..][1..] == arrivals[i + 1..];
        r := Poll(arrivals[i].frame, arrivals[i].at, deliver);
        if !r.Continue? {
          return;
        }
        i := i + 1;
      }
      return if isClosing then Exit else Continue;
    }

    /** `_heartbeat` over the wake-up times. */
    method Heartbeat(times: seq<int>) returns (r: Outcome<Failure>)
      modifies this`sent, this`lastSent
      ensures r == HeartbeatSpec(old(State()), times).result && State() == HeartbeatSpec(old(State()), times).after
    {
      var i := 0;
      while i < |times| && !isClosing
        invariant 0 <= i <= |times|
        invariant HeartbeatSpec(old(State()), times) == HeartbeatSpec(State(), times[i..])
        invariant isClosing == old(isClosing)
        decreases |times| - i
      {
        assert times[i..][0] == times[i] && times[i..][1..] == times[i + 1..];
        r := SendHeartbeat(times[i]);
        if r.Fail? {
          return;
        }
        i := i + 1;
      }
      return Pass;
    }
  }
}
