# Discord gateway client core, modelled in Dafny

This project models the core of a Python Discord gateway client that exists in two generations: `ramx` (the newer one) and `ram` (the older one). The parts modelled are:

- the connection lifecycle of a gateway shard;
- the transport rules under it;
- the listener registry that receives dispatched events;
- three small value helpers: snowflake bit fields, a converter table and a dependency container.

Each module mirrors one source file:

| module | file | what it holds |
|---|---|---|
| `Wrappers` | (none) | `Option`, `Result` and `Outcome`: Python's `None` defaults and raised exceptions |
| `Json` | (none) | decoded payload values and Python truthiness on them |
| `GatewayApi` | `ramx/src/ramx/gateway/api.py` | opcodes, close codes, the payload envelope, outgoing frames, the exception taxonomy |
| `Transport` | `ramx/src/ramx/gateway/_transport.py` | reconnect eligibility of close codes, routing of a received message by type and compression mode, the zlib-stream reassembly buffer, the idempotent close |
| `Shard` | `ramx/src/ramx/gateway/gateway_shard.py` | the newer shard: `connect`, handshake choice, heartbeat, one turn and the whole of the polling loop, `start`/`join`/`close`, the keep-alive supervisor |
| `RamShard` | `ram/gateway/gateway_shard.py` | the older shard, modelled separately: connect guard, URL/session-keyed resume, heartbeats with the sequence number, the zombie check, the event loop that skips undecodable dispatches |
| `EventManager` | `ramx/src/ramx/gateway/base_event_manager.py` | weak wrappers, listener sets with wrapper-aware equality, subscribe/unsubscribe, type resolution, dispatch with pruning of dead listeners |
| `Snowflakes` | `ramx/src/ramx/snowflakes.py` | the bit fields of a snowflake, with `>>` and `&` written out over naturals |
| `Converters` | `ramx/src/ramx/converters/base.py` | converters and the in-place converter table |
| `Container` | `ram/src/ram/di/container.py` | the register/resolve table of values and factories |

Where the source changes state, the model has a class whose fields are that state. The shards keep their fields in a class, `GatewayShard`. `State()` reads the fields as a `ShardState` (or `RamState`) value. Every method is proved to return, and leave behind, exactly what a pure function of the old state says. Those functions are `ConnectSpec`, `PollStep`, `RunPoll`, `HeartbeatSpec`, `CloseSpec` and the rest. The scenario lemmas are stated over them.

The `while not self._is_closing` loops are `while` loops proved against recursive functions over the frames, wake-up times or connection rounds that the outside world supplies. Examples are `Shard.GatewayShard.PollEvents`, `Shard.GatewayShard.Heartbeat`, `Shard.KeepAlive`, `RamShard.GatewayShard.EventLoop` and `RamShard.GatewayShard.HeartbeatLoop`. The reassembly loop of `receive_stream` is a `while` loop too. It runs until the buffer ends with the sync-flush suffix, over the message fragments that arrive. In the model that loop is `Transport.GatewayTransport.GatherFragments`, proved against `Transport.GatherFrom`.

The outside world enters only as parameters:

- the outcome of dialling;
- the frames and messages received, and the clock (integer milliseconds);
- the set of callables still alive;
- the zlib inflater, the JSON decoder and the event converters, as functions that may fail.

Assertions are modelled as enabled: a failing `assert` is an `AssertionError` outcome.

Behaviour of the code worth knowing, which the model follows. The one exception is the INVALID_SESSION turn of the newer shard's polling loop: `Shard.PollStep` uses the corrected rule of the finding below, and `Shard.PollStepAsWritten` is the turn as written.

- In the newer shard, a RECONNECT received while polling only ends the polling loop. The socket is not closed.
- A second transport `close` returns at once rather than waiting for the first to finish (`Transport.GatewayTransport.Close`).
- Only the older shard checks for a zombie connection. There, the heartbeat loop just returns; nothing reconnects (`RamShard.HeartbeatTick`).
- In the newer shard, the keep-alive loop sees only exceptions raised by `connect` itself. A server close arriving while polling ends the polling task, and `asyncio.wait` does not re-raise it, so the loop reconnects even for a fatal close code (`Shard.Supervise`). The same holds for a dispatch that the event manager fails to convert: it ends the polling task and is not skipped.
- On a first frame that refuses the session, `connect` marks the shard closing without clearing the session. The keep-alive loop then raises RuntimeError (`Shard.RefusedFirstFrameRaises`).
- Resume needs a truthy session id and a truthy sequence number, so a sequence number of 0 means IDENTIFY (`Shard.Handshake`). The older shard keys resume on the resume URL and the session id instead (`RamShard.Handshake`).
- The newer shard's IDENTIFY carries no shard information even when a shard id and count are configured.

One worked example accompanies the model: `EventManager.DispatchSkipsDeadListener` subscribes a strong and a weak listener to one type, lets the weak target die, and checks that a dispatch pass invokes exactly the live listener and removes the dead entry without raising (`ramx/src/ramx/gateway/base_event_manager.py:78-84` and `:122-160`). It states no contract of its own, so the table below has no row for it.

## Model

| member | source | states |
|---|---|---|
| `Transport.CanReconnect` | `ramx/src/ramx/gateway/_transport.py:28-41` | a close code allows a reconnect iff it is below 4000 or one of 4000-4002, 4004, 4005, 4007-4009; 4003 and 4010-4014 are fatal; 1000 and 1001 allow it |
| `Transport.RouteOf` | `ramx/src/ramx/gateway/_transport.py:125-151` | CLOSE raises a server-closed error with the integer code, the reason (default "") and the reconnect flag; CLOSING, CLOSED and ERROR raise a connection error; BINARY with compression goes to reassembly; BINARY or TEXT without compression decode directly; TEXT with compression and every other type raise a transport error; each route holds iff its condition does |
| `Transport.GatherFrom` | `ramx/src/ramx/gateway/_transport.py:115-118` | the reassembly loop stops exactly when the buffer ends with `00 00 FF FF`; the buffer is the prior buffer plus exactly the fragments taken; it starves only after every message, and it stops at a message that is not binary |
| `Transport.GatherMinimal` | `ramx/src/ramx/gateway/_transport.py:116-118` | every fragment the loop takes is binary, and no earlier fragment boundary already ended the buffer with the suffix |
| `Transport.ReassemblyIgnoresSplit` | `ramx/src/ramx/gateway/_transport.py:115-119` | a frame whose only suffix occurrence is at its end is reassembled whole, however it is split into non-empty binary fragments and whatever follows it |
| `Transport.StreamSuccessClears` | `ramx/src/ramx/gateway/_transport.py:115-121` | after a successful decode the buffer is empty; the inflater was fed the whole concatenation since the last clear, and that concatenation ends with the suffix |
| `Transport.StreamFailureKeepsBuffer` | `ramx/src/ramx/gateway/_transport.py:119-121` | when decompression or decoding fails, the buffer is not cleared: it still starts with everything appended before |
| `Transport.GatewayTransport.constructor` | `ramx/src/ramx/gateway/_transport.py:83-94` | the inflater and the buffer exist iff compression is on; the buffer starts empty and the stop flag clear |
| `Transport.GatewayTransport.GatherFragments` | `ramx/src/ramx/gateway/_transport.py:115-118` | the reassembly loop leaves the buffer and the undelivered messages as `GatherFrom` says, and stops for the reason it gives |
| `Transport.GatewayTransport.ReceiveStream` | `ramx/src/ramx/gateway/_transport.py:112-123` | the loop returns and leaves exactly what the reassembly specification says, including the buffer kept on each failure |
| `Transport.GatewayTransport.Receive` | `ramx/src/ramx/gateway/_transport.py:125-151` | one message is taken and handled by its route: raised, decoded directly, or reassembled |
| `Transport.GatewayTransport.Close` | `ramx/src/ramx/gateway/_transport.py:99-110` | the first call sets the stop flag, asks for one graceful close only if the socket is still open, swallows its failure and always releases the exit stack; any later call changes nothing |
| `Snowflakes.BitAndMask` | `ramx/src/ramx/snowflakes.py:40-50` | masking with `(1 << n) - 1` keeps the remainder modulo 2^n |
| `Snowflakes.ShrDivides` | `ramx/src/ramx/snowflakes.py:32-46` | shifting right by n bits is flooring division by 2^n |
| `Snowflakes.Increment` | `ramx/src/ramx/snowflakes.py:14-50` | the increment is the low 12 bits, below 4096 |
| `Snowflakes.ProcessId` | `ramx/src/ramx/snowflakes.py:13-46` | the process id is bits 12-16, below 32 |
| `Snowflakes.InternalWorker` | `ramx/src/ramx/snowflakes.py:12-42` | the internal worker is bits 17-21, below 32 |
| `Snowflakes.TimestampMs` | `ramx/src/ramx/snowflakes.py:9-34` | the timestamp in milliseconds is `(x >> 22) + 1420070400000`, never before the Discord epoch |
| `Snowflakes.TimestampMonotone` | `ramx/src/ramx/snowflakes.py:32-34` | a larger snowflake never has an earlier timestamp |
| `Snowflakes.UnpackPack` | `ramx/src/ramx/snowflakes.py:11-50` | packing in-range fields into 42, 5, 5 and 12 bits and extracting them returns them unchanged |
| `Snowflakes.PackUnpack` | `ramx/src/ramx/snowflakes.py:11-50` | every snowflake is the packing of its four extracted fields |
| `EventManager.Unwrap` | `ramx/src/ramx/gateway/base_event_manager.py:57-60` | `unwrap` returns the target iff it is alive and raises ReferenceError otherwise |
| `EventManager.UnwrapOr` | `ramx/src/ramx/gateway/base_event_manager.py:62-65` | `unwrap_or` returns what `unwrap` would, and the default where `unwrap` raises |
| `EventManager.WrapperEqualsCallable` | `ramx/src/ramx/gateway/base_event_manager.py:30-55` | a wrapper is equal to the callable it wraps, and to no other |
| `EventManager.Added` | `ramx/src/ramx/gateway/base_event_manager.py:84` | adding keeps the set free of equal entries; the callables become the old ones plus the new one; an entry equal to one present is not added |
| `EventManager.Removed` | `ramx/src/ramx/gateway/base_event_manager.py:95` | removal succeeds iff an entry equal to the callable is present, drops exactly that callable and shrinks the set by one; otherwise KeyError |
| `EventManager.OneTaskEachCount` | `ramx/src/ramx/gateway/base_event_manager.py:141-154` | one task per callable means exactly as many tasks as callables |
| `EventManager.BaseEventManager.Subscribe` | `ramx/src/ramx/gateway/base_event_manager.py:78-84` | the callable, weakly wrapped unless asked otherwise, is added to its type's set; a second subscription of the same callable leaves one entry; a type with an event name takes the name only if no type has it yet |
| `EventManager.BaseEventManager.Unsubscribe` | `ramx/src/ramx/gateway/base_event_manager.py:95-96` | the entry equal to the callable is removed, or KeyError is raised; the type's set exists afterwards either way; other types are untouched |
| `EventManager.BaseEventManager.ResolveType` | `ramx/src/ramx/gateway/base_event_manager.py:133` | an explicit event type wins; otherwise a non-empty event name resolves iff it is in the name map |
| `EventManager.BaseEventManager.Dispatch` | `ramx/src/ramx/gateway/base_event_manager.py:122-160` | an unresolvable type returns None and changes nothing, even when tasks are asked for; a failed conversion raises and changes nothing; otherwise exactly one invocation per live listener is scheduled, the tasks are returned iff asked for, and dead weak entries of that type are removed afterwards while every other type is unchanged |
| `EventManager.BaseEventManager.ScheduleLive` | `ramx/src/ramx/gateway/base_event_manager.py:141-155` | the loop over a type's entries schedules exactly one task per live callable, each with the converted event, and collects exactly the dead weak entries |
| `Converters.DecoratedApply` | `ramx/src/ramx/converters/base.py:17-58` | a decorated function converts a value as the function does, whatever type is asked for |
| `Converters.CallIn` | `ramx/src/ramx/converters/base.py:37-40` | a registered type's converter is applied; an unregistered type passes the value through unchanged |
| `Converters.Merged` | `ramx/src/ramx/converters/base.py:42-44` | the merged table has both key sets; the other table's entries win and this table's other entries stay |
| `Converters.CallMerged` | `ramx/src/ramx/converters/base.py:37-44` | after a merge, a type converts as the other table does when it has the type, and as before otherwise |
| `Converters.MergedAssociative` | `ramx/src/ramx/converters/base.py:42-44` | merging two tables in turn is merging with their merge |
| `Converters.MergedSelf` | `ramx/src/ramx/converters/base.py:42-44` | merging a table with itself changes nothing |
| `Converters.PairTable` | `ramx/src/ramx/converters/base.py:20-24` | `c1 \| c2` holds exactly both types, and c2 wins when the types coincide |
| `Converters.ConverterMapping.SetItem` | `ramx/src/ramx/converters/base.py:31-32` | setting a key overwrites it and nothing else |
| `Converters.ConverterMapping.GetItem` | `ramx/src/ramx/converters/base.py:34-35` | a registered type yields its converter; any other raises KeyError |
| `Converters.ConverterMapping.Call` | `ramx/src/ramx/converters/base.py:37-40` | calling the table converts as its entries say and passes unregistered types through |
| `Converters.ConverterMapping.IOr` | `ramx/src/ramx/converters/base.py:42-44` | `m \|= o` leaves m holding the merge and returns m itself |
| `Converters.ConverterMapping.Or` | `ramx/src/ramx/converters/base.py:46-51` | `m \| x` changes m in place, storing a converter under its own type or merging a table, and returns m itself, not a copy |
| `Converters.ConverterOr` | `ramx/src/ramx/converters/base.py:20-24` | `c1 \| c2` builds a fresh table holding the pair |
| `Container.Produce` | `ram/src/ram/di/container.py:24-26` | a factory is called and its result returned; a plain value is returned as is |
| `Container.ResolveIn` | `ram/src/ram/di/container.py:20-26` | resolving fails with KeyError iff the key is unregistered, and otherwise yields what the entry produces |
| `Container.ResolveAfterRegister` | `ram/src/ram/di/container.py:17-26` | after registering, the key resolves to the new entry and every other key resolves as before |
| `Container.RegisterKeepsResolvable` | `ram/src/ram/di/container.py:17-18` | registering never makes a resolvable key unresolvable |
| `Container.DependencyContainer.Register` | `ram/src/ram/di/container.py:17-18` | registering overwrites that key only |
| `Container.DependencyContainer.Resolve` | `ram/src/ram/di/container.py:20-26` | resolving reads the registry without changing it and agrees with `ResolveIn` |
| `Shard.HelloInterval` | `ramx/src/ramx/gateway/gateway_shard.py:137` | the interval is read iff HELLO's data holds an integer `heartbeat_interval` |
| `Shard.Handshake` | `ramx/src/ramx/gateway/gateway_shard.py:155-166` | RESUME(token, session id, seq) iff the session id and the seq are both truthy; otherwise IDENTIFY with token and intents and no shard information |
| `Shard.SendIdentifySpec` | `ramx/src/ramx/gateway/gateway_shard.py:153-166` | the handshake frame is sent iff a connection exists, and otherwise AssertionError with nothing changed |
| `Shard.SendHeartbeatSpec` | `ramx/src/ramx/gateway/gateway_shard.py:147-151` | a heartbeat without a sequence number is sent and its time recorded iff a connection exists |
| `Shard.ConnectSpec` | `ramx/src/ramx/gateway/gateway_shard.py:118-145` | the resume URL is dialled when set, else the gateway URL; INVALID_SESSION with d false marks the shard closing and yields no tasks; RECONNECT closes with 1001 "reconnecting" and yields no tasks; another non-HELLO raises RuntimeError; tasks are started iff HELLO has a truthy d with an interval, and then exactly the handshake is sent; the session identity is never touched |
| `Shard.ReadySummary` | `ramx/src/ramx/gateway/gateway_shard.py:186-198` | the READY log line is built iff `user` with its `username`, `discriminator` and `id`, and a sized `guilds`, are present, and a truthy `shard` is iterable; otherwise it raises |
| `Shard.ReadyStep` | `ramx/src/ramx/gateway/gateway_shard.py:182-198` | a falsy d fails the assertion; on success the session id and resume URL are those of d; nothing but those two fields changes |
| `Shard.DispatchStep` | `ramx/src/ramx/gateway/gateway_shard.py:178-205` | the seq becomes the frame's `s` in every case; the event is forwarded with d and t iff READY handling (when t is READY), both assertions and delivery succeed; a non-READY dispatch leaves the session untouched; dispatch never ends the loop |
| `Shard.InvalidSessionAsWritten` | `ramx/src/ramx/gateway/gateway_shard.py:220-227` | as written, no INVALID_SESSION ever clears the identity, and every falsy d fails the assertion |
| `Shard.InvalidSession` | `ramx/src/ramx/gateway/gateway_shard.py:220-227` | as intended: a truthy d keeps the identity, a present falsy d clears it, and only an absent d fails |
| `Shard.InvalidSessionNotResumableAsWritten` | `ramx/src/ramx/gateway/gateway_shard.py:220-227` | with d false the written code trips its assertion where the intended one clears the session; both keep it for d true |
| `Shard.InvalidSessionDifference` | `ramx/src/ramx/gateway/gateway_shard.py:220-227` | the two definitions differ exactly on the present, falsy values of d |
| `Shard.PollStep` | `ramx/src/ramx/gateway/gateway_shard.py:173-230` | a turn never changes closing, the connection, the tasks or the dial log, and sends at most one heartbeat; a failed receive raises with nothing changed; DISPATCH is handled as `DispatchStep` says; a HEARTBEAT request sends a heartbeat at once and records its time, raising AssertionError without a connection; HEARTBEAT_ACK records the ack time and latency = ack - last sent (none if never sent); RECONNECT and INVALID_SESSION are the only turns that end the loop; under the corrected rule a resumable INVALID_SESSION exits with the identity kept, a non-resumable one clears seq, resume URL and session id together, and a missing d raises AssertionError; unknown ops change nothing |
| `Shard.PollStepAsWritten` | `ramx/src/ramx/gateway/gateway_shard.py:173-230` | as written, INVALID_SESSION never changes the state: a falsy d raises AssertionError and a truthy d exits; every other frame is handled as `PollStep` handles it |
| `Shard.RefusedSessionResumedAsWritten` | `ramx/src/ramx/gateway/gateway_shard.py:118-227` | as written, after INVALID_SESSION with d false the polling task raises, and the next connect dials the stored URL and sends RESUME for the session the server refused |
| `Shard.PollOnlyHeartbeats` | `ramx/src/ramx/gateway/gateway_shard.py:173-230` | over any run of frames, polling only appends heartbeats, at most one per frame, and never dials, closes or starts anything |
| `Shard.ReadyRecordsSession` | `ramx/src/ramx/gateway/gateway_shard.py:178-205` | a well-formed READY stores its session id, resume URL and seq and is forwarded as READY |
| `Shard.ReadyThenReconnectResumes` | `ramx/src/ramx/gateway/gateway_shard.py:118-209` | after READY and a RECONNECT, the next connect dials the READY resume URL and sends RESUME with READY's session id and seq |
| `Shard.ReconnectAtSequenceFiveResumes` | `ramx/src/ramx/gateway/gateway_shard.py:118-209` | RECONNECT at seq 5 ends polling with the session kept, and the next connection resumes at 5 on the resume URL |
| `Shard.NotResumableThenIdentifies` | `ramx/src/ramx/gateway/gateway_shard.py:118-227` | after a non-resumable INVALID_SESSION, the next connect dials the gateway URL and sends IDENTIFY |
| `Shard.RefusedFirstFrameRaises` | `ramx/src/ramx/gateway/gateway_shard.py:125-246` | a first frame refusing the session yields no tasks and sets closing, and the keep-alive loop then raises RuntimeError |
| `Shard.HeartbeatSendsOnePerWakeup` | `ramx/src/ramx/gateway/gateway_shard.py:168-171` | until closing, the heartbeat task sends one heartbeat per wake-up and records the last send time |
| `Shard.StartSpec` | `ramx/src/ramx/gateway/gateway_shard.py:89-92` | start succeeds iff no keep-alive task exists, and raises RuntimeError otherwise |
| `Shard.JoinSpec` | `ramx/src/ramx/gateway/gateway_shard.py:94-97` | join raises RuntimeError without a task, and otherwise succeeds iff the task finished normally |
| `Shard.CloseSpec` | `ramx/src/ramx/gateway/gateway_shard.py:99-116` | close raises RuntimeError without a task; a close during a close only joins; a task that had already failed re-raises and leaves the shard closing; a completed close leaves no task and closing false |
| `Shard.StartCloseStart` | `ramx/src/ramx/gateway/gateway_shard.py:89-116` | start, then a second start raising, then a clean close leaves the shard as it was and startable again |
| `Shard.Decide` | `ramx/src/ramx/gateway/gateway_shard.py:237-246` | tasks or a reconnectable server close mean loop again; a non-reconnectable one means stop with its code; no tasks means RuntimeError; any other exception propagates unchanged |
| `Shard.Supervise` | `ramx/src/ramx/gateway/gateway_shard.py:232-246` | the loop ends at once iff closing; it stops only at a non-reconnectable server close, with that code; it raises only a non-server-close error of the round it stops at; it ends for closing after a round only when that round looped again and the shard was then closing; every earlier round looped again with the shard not closing, and so did the last round of a loop still running |
| `Shard.SuperviseKeepsReconnecting` | `ramx/src/ramx/gateway/gateway_shard.py:235-244` | while rounds end reconnectably and nothing closes the shard, the supervisor keeps reconnecting |
| `Shard.KeepAlive` | `ramx/src/ramx/gateway/gateway_shard.py:232-246` | the `while not is_closing` loop ends as the supervisor function says |
| `Shard.GatewayShard.constructor` | `ramx/src/ramx/gateway/gateway_shard.py:52-87` | a new shard has no identity, no tasks, no connection and NaN timestamps |
| `Shard.GatewayShard.Start` | `ramx/src/ramx/gateway/gateway_shard.py:89-92` | start changes the fields as `StartSpec` says |
| `Shard.GatewayShard.Join` | `ramx/src/ramx/gateway/gateway_shard.py:94-97` | join returns what `JoinSpec` says and changes nothing |
| `Shard.GatewayShard.Close` | `ramx/src/ramx/gateway/gateway_shard.py:99-116` | close changes the fields as `CloseSpec` says |
| `Shard.GatewayShard.SendHeartbeat` | `ramx/src/ramx/gateway/gateway_shard.py:147-151` | sending a heartbeat changes the fields as `SendHeartbeatSpec` says |
| `Shard.GatewayShard.SendIdentify` | `ramx/src/ramx/gateway/gateway_shard.py:153-166` | sending the handshake changes the fields as `SendIdentifySpec` says |
| `Shard.GatewayShard.Connect` | `ramx/src/ramx/gateway/gateway_shard.py:118-145` | connect changes the fields as `ConnectSpec` says |
| `Shard.GatewayShard.OnFirstFrame` | `ramx/src/ramx/gateway/gateway_shard.py:125-145` | the handling of the first frame after the socket opened changes the fields as the second half of `ConnectSpec` says |
| `Shard.GatewayShard.Ready` | `ramx/src/ramx/gateway/gateway_shard.py:182-198` | the READY branch changes the fields as `ReadyStep` says |
| `Shard.GatewayShard.Dispatch` | `ramx/src/ramx/gateway/gateway_shard.py:178-205` | the DISPATCH branch changes the fields as `DispatchStep` says |
| `Shard.GatewayShard.Poll` | `ramx/src/ramx/gateway/gateway_shard.py:175-230` | one turn of the loop changes the fields as `PollStep` says |
| `Shard.GatewayShard.PollEvents` | `ramx/src/ramx/gateway/gateway_shard.py:173-230` | the polling loop ends as the recursive polling function says, after asserting a connection |
| `Shard.GatewayShard.Heartbeat` | `ramx/src/ramx/gateway/gateway_shard.py:168-171` | the heartbeat loop ends as `HeartbeatSpec` says |
| `RamShard.DialUrl` | `ram/gateway/gateway_shard.py:53-55` | the resume URL when it is truthy, else the gateway URL |
| `RamShard.HelloInterval` | `ram/gateway/gateway_shard.py:66` | the interval is read iff the data holds an integer `heartbeat_interval`; nothing checks that d is set |
| `RamShard.Handshake` | `ram/gateway/gateway_shard.py:67-87` | RESUME iff the resume URL, session id and seq are all truthy; with URL and session id set but no seq, AssertionError; otherwise IDENTIFY with the shard information |
| `RamShard.ConnectSpec` | `ram/gateway/gateway_shard.py:50-95` | with a transport already set, a state conflict and nothing changed; the transport is set iff opening succeeded; INVALID_SESSION (either value) or RECONNECT yields no tasks; another non-HELLO raises a bare Exception; tasks iff HELLO has an interval and the handshake succeeds, and then exactly that frame is sent |
| `RamShard.AtMostOneTransport` | `ram/gateway/gateway_shard.py:41-133` | once a connect opened a transport, a later connect raises the state conflict, whatever the event loop and then the heartbeat loop did in between |
| `RamShard.EventsKeepTransport` | `ram/gateway/gateway_shard.py:112-133` | the event loop never resets the transport or the closing flag |
| `RamShard.SendHeartbeatSpec` | `ram/gateway/gateway_shard.py:97-100` | a heartbeat carries the current seq as d and its time is recorded, iff a transport exists |
| `RamShard.HeartbeatTick` | `ram/gateway/gateway_shard.py:102-110` | a tick stops when closing; it returns without sending when last sent - last ack exceeds the interval; it sends otherwise |
| `RamShard.RunHeartbeat` | `ram/gateway/gateway_shard.py:102-110` | the heartbeat loop leaves only where a tick would stop, or on a failed send; it changes nothing but the heartbeats sent and the last send time, and sends only heartbeats carrying the seq, at most one per wake-up; a run that keeps beating sent exactly one per wake-up and recorded the last wake-up's time |
| `RamShard.FirstTickSends` | `ram/gateway/gateway_shard.py:47-110` | never having sent (negative infinity), the first tick always sends, whatever the interval |
| `RamShard.UnansweredHeartbeatStops` | `ram/gateway/gateway_shard.py:102-110` | an unacknowledged heartbeat sent more than an interval after the last ack stops the loop at the next tick |
| `RamShard.AcknowledgedNeverZombie` | `ram/gateway/gateway_shard.py:97-131` | after a heartbeat is sent and a later HEARTBEAT_ACK arrives, the connection is not a zombie and the next heartbeat tick sends again, whatever its time |
| `RamShard.EventStep` | `ram/gateway/gateway_shard.py:114-133` | a dispatch that fails to convert is skipped with nothing changed; on success seq := s, and a Ready event also sets the resume URL and session id; HEARTBEAT_ACK updates only the ack time; HEARTBEAT sends a heartbeat; every other op changes nothing |
| `RamShard.RunEvents` | `ram/gateway/gateway_shard.py:114-133` | the `while` loop of the event loop is still running only if the shard was not closing |
| `RamShard.EventLoopSpec` | `ram/gateway/gateway_shard.py:112-133` | without a transport the event loop raises AssertionError before receiving anything and changes nothing; with one it runs as `RunEvents` says |
| `RamShard.EventLoopRunsOn` | `ram/gateway/gateway_shard.py:112-133` | with a transport and frames that arrive intact, the event loop never leaves on its own, not for RECONNECT nor INVALID_SESSION |
| `RamShard.UndecodableSkipped` | `ram/gateway/gateway_shard.py:116-121` | dispatches that all fail to convert leave the whole state untouched |
| `RamShard.ReadyThenResume` | `ram/gateway/gateway_shard.py:53-125` | after a Ready event, the dial URL is its resume URL and the handshake is RESUME with its session id and seq |
| `RamShard.GatewayShard.constructor` | `ram/gateway/gateway_shard.py:41-48` | a new shard has no transport or identity, never sent a heartbeat, and an ack time of 0 |
| `RamShard.GatewayShard.Connect` | `ram/gateway/gateway_shard.py:50-95` | connect changes the fields as `ConnectSpec` says |
| `RamShard.GatewayShard.SendHeartbeat` | `ram/gateway/gateway_shard.py:97-100` | sending a heartbeat changes the fields as `SendHeartbeatSpec` says |
| `RamShard.GatewayShard.HeartbeatLoop` | `ram/gateway/gateway_shard.py:102-110` | the heartbeat loop ends as `RunHeartbeat` says |
| `RamShard.GatewayShard.Event` | `ram/gateway/gateway_shard.py:115-133` | one turn of the event loop changes the fields as `EventStep` says |
| `RamShard.GatewayShard.EventLoop` | `ram/gateway/gateway_shard.py:112-133` | the event loop, its transport assertion included, ends as `EventLoopSpec` says |

## Left out

- Network I/O: aiohttp sessions, WebSocket sockets and the exit stack are not modelled. A connection is the list of messages it will deliver; dialling is an outcome parameter; sending a frame is appending to a log and never fails.
- asyncio scheduling: `create_task`, `cancel`, `wait`, `shield`, `sleep` and `wait_for` are not modelled. Each loop is modelled on its own, checking the closing flag at its own turns; no other task changes that flag meanwhile.
- Shard.KeepAlive: modelled over the outcome of each round's `connect` and the closing flag seen next. It does not compose `ConnectSpec` with the task runs, and it does not model that the old heartbeat task and socket stay alive until the next `connect` replaces them.
- Floating point and the clock: times, the heartbeat interval and the latency are integer milliseconds. The interval is not divided by 1000. NaN and negative infinity are `None`.
- Shard.HelloInterval and RamShard.HelloInterval: a non-integer `heartbeat_interval` is a failure in the model; the source would accept a float.
- Shard.ReadyStep: a `session_id` or `resume_gateway_url` that is neither a string nor null is a failure in the model. The source stores whatever value it finds.
- Shard.Index: KeyError and TypeError from indexing a payload are one failure, `PayloadShapeError`.
- Shard.PollStep: INVALID_SESSION follows the intended rule of the finding below, not the assertion as written, which `Shard.InvalidSessionAsWritten` models.
- zlib, msgspec and the entity and event factories are function parameters that may fail. This covers decompression, JSON decoding, encoding and event conversion. Frame fields other than token, intents, shard, session id and seq are not modelled: connection properties, `compress`, `large_threshold`.
- Logging throughout, the READY and RESUMED log lines themselves (only whether building them raises is modelled), and `platform.platform()`.
- Garbage collection: whether a weak target is alive is an explicit set of live callables. `WeakMethod` and `weakref.ref` behave alike. Callables are identified by their hash, so hash collisions between distinct callables are not modelled.
- `_invoke_callback` is abstract and awaits the callback. A scheduled task is an invocation record; the callbacks are never run. `_dispatched_tasks` is never used by the source.
- Converters: callbacks are pure functions on one value type, and Python's dynamic typing is not modelled.
- Container: factories are pure functions, so a factory produces the same value each time. The awaitable of an async factory is itself the value. `LazyInjected` is not part of this model.
- Snowflakes: only non-negative values are modelled. The float `timestamp`, `created_at`, and the `__hash__` that calls itself forever (with `Unique.__hash__` built on it) are not part of this model.
- The older shard's transport wrapper and decoders (`ram/gateway/gateway_transport.py` and the event decoders) are not part of this model. A failed `receive` is a failed frame, and conversion is a parameter. Its `_is_closing` is never set to true in the source and stays false unless a state says otherwise.
- Declaration-only files: the msgspec structs and enums, the exception classes, the snowflake converter, and users/unique.

## Findings

| source | as written | input that shows it | evidently intended | confidence | as-written member | corrected member |
|---|---|---|---|---|---|---|
| `ramx/src/ramx/gateway/gateway_shard.py:220-227` | `assert payload.d` comes before `if not can_reconnect`, so every non-resumable INVALID_SESSION fails the assertion; the branch that clears seq, resume URL and session id never runs | an INVALID_SESSION frame with `d = false` during polling | a non-resumable session clears the identity and ends the loop; only a missing `d` is an error | not executed | `Shard.InvalidSessionAsWritten` (with `Shard.PollStepAsWritten` and `Shard.RefusedSessionResumedAsWritten`) | `Shard.InvalidSession` (used by `Shard.PollStep`; see `Shard.NotResumableThenIdentifies`) |
