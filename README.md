# RemoteController connection engine, in Dafny

This project models the generic connection of RemoteController
(`src/RemoteController/base_connection.py`): the class that a concrete
transport (such as the wired, half-duplex connection) extends. It has three
parts.

- **Frame codec** (module `FrameCodec`). A command frame is the big-endian
  magic `0xEEAF`, one unsigned command byte and a 4-byte big-endian float32
  throttle, 7 bytes in all. A binary frame is the magic `0xEEAE` followed by
  the payload unchanged. An incoming frame is classified by its first two
  bytes: a command, a binary payload, or an unrecognized header that is
  passed over. The throttle is carried as its four encoded bytes.
- **Send queue** (module `SendQueue`). An immediate send goes to the front.
  Any other send goes to the back. The polling loop removes the front.
- **Connection engine** (modules `ConnectionEngine` and `Connections`). After
  each sleep, one tick probes the transport. Non-empty data is handled and
  fires the matching callback. Otherwise, the head of the queue is removed and
  handed to the transport's send. Any exception ends the loop as a
  `ConnectionDataFetchException` that carries the cause and the message
  "<class name> connection could not process data". `stop()` cancels the task.

`ConnectionEngine` describes a connection as a value (`Engine`). It gives one
function per operation and proves the properties: round trips, ordering,
half-duplex exclusivity, the failure cases, and that no frame is lost or
duplicated between the queue and the transport. `Connections.Connection` is
the object itself. It is a class whose queue and task state its methods
update in place, and each method is proved against the matching engine
function.

The transport is not modelled; it is an input of each tick. What `_check()`
returns or raises is a `Probe`. Whether `_send_data` raises is a `Transmit`.
The callbacks and the transport are observed through two logs: `sendLog`
holds the frames handed to `_send_data`, and `callbackLog` holds the
callbacks fired, with their arguments.

Two behaviours of the code that the model keeps:
- On a tick without data, the code removes the front of the queue even when
  the queue is empty. That raises `IndexError` and ends the loop, so an idle
  tick on an empty queue is a failure here, not a skipped send.
- The code raises on a command outside 0..255, because it cannot be packed
  into a byte. `send_command` therefore has an error outcome, and the queue
  is left unchanged when it occurs.

## Model

| member | source | states |
|---|---|---|
| `FrameCodec.U16BE` | src/RemoteController/base_connection.py:55 | the two header bytes written for a 16-bit value read back as that value |
| `FrameCodec.ReadU16BE` | src/RemoteController/base_connection.py:80 | a big-endian header read from two bytes lies in 0..65535 |
| `FrameCodec.ReadU16BEInjective` | src/RemoteController/base_connection.py:80-82 | two header bytes have a value exactly when they are that value's encoding, so a header match pins the bytes |
| `FrameCodec.PackCommand` | src/RemoteController/base_connection.py:55 | packing succeeds exactly for a command in 0..255, and otherwise raises the out-of-range error; a packed frame is 7 bytes: header 0xEEAF, the command byte, then the 4 throttle bytes |
| `FrameCodec.PackBinary` | src/RemoteController/base_connection.py:68 | a binary frame is 2 bytes longer than its payload, header 0xEEAE, and the payload unchanged after it |
| `FrameCodec.Decode` | src/RemoteController/base_connection.py:80-86 | an unpack error reports the buffer size it needed and the different size it got; a decoded command came from a 7-byte frame, and a decoded binary payload is everything after the 2-byte header; the round-trip, canonical-form and failure lemmas below pin down the rest |
| `FrameCodec.CommandRoundTrip` | src/RemoteController/base_connection.py:80-84 | decoding an encoded command frame yields the same command and the same throttle bytes |
| `FrameCodec.BinaryRoundTrip` | src/RemoteController/base_connection.py:80-86 | decoding `0xEEAE ++ p` yields exactly `p`, the empty payload included |
| `FrameCodec.DecodeFailsExactly` | src/RemoteController/base_connection.py:80-83 | decoding raises if and only if the frame is shorter than 2 bytes, or starts 0xEE 0xAF and is not 7 bytes long |
| `FrameCodec.UnknownHeaderIsPassedOver` | src/RemoteController/base_connection.py:80-86 | a header other than the two magics is neither a command nor a binary payload and raises nothing |
| `FrameCodec.DecodeIsCanonical` | src/RemoteController/base_connection.py:80-86 | a frame that decodes to a command or a binary payload is exactly what the encoder produces for it |
| `SendQueue.Enqueue` | src/RemoteController/base_connection.py:56 | an immediate send puts the frame first and keeps the old queue behind it; any other send keeps the old queue and puts the frame last |
| `SendQueue.PopFront` | src/RemoteController/base_connection.py:36 | removing the front succeeds exactly on a non-empty queue, and the head and the rest rebuild the queue |
| `SendQueue.PopOrderIsQueueOrder` | src/RemoteController/base_connection.py:36 | removing the front repeatedly hands out the queue's frames in queue order |
| `SendQueue.NormalSendsAreFifo` | src/RemoteController/base_connection.py:56 | non-immediate sends queue up first in, first out behind what is already queued |
| `SendQueue.ImmediateSendsJumpAhead` | src/RemoteController/base_connection.py:69 | immediate sends go ahead of everything queued, the latest one first |
| `SendQueue.PriorityOvertakesBacklog` | src/RemoteController/base_connection.py:56 | A and B sent normally and then C immediately are removed in the order C, A, B |
| `ConnectionEngine.FailureMessage` | src/RemoteController/base_connection.py:41 | the failure message begins with the connection's class name |
| `ConnectionEngine.Initial` | src/RemoteController/base_connection.py:20-23 | a new connection carries its class name, is running, and has an empty queue with nothing sent or delivered |
| `ConnectionEngine.Fail` | src/RemoteController/base_connection.py:40-41 | a failure records the cause and the class-named message, and changes nothing else |
| `ConnectionEngine.EnqueueFrame` | src/RemoteController/base_connection.py:56 | queueing a frame changes the queue as the ordering rule says, and nothing else |
| `ConnectionEngine.SendCommand` | src/RemoteController/base_connection.py:55-56 | sending a command succeeds exactly for a command in 0..255 and queues its packed frame; otherwise it raises the out-of-range error |
| `ConnectionEngine.SendBinaryPayload` | src/RemoteController/base_connection.py:68-69 | sending a binary payload queues its packed frame and changes nothing else |
| `ConnectionEngine.HandleData` | src/RemoteController/base_connection.py:71-86 | handling data succeeds exactly when the frame decodes; then it fires at most one callback and changes nothing else |
| `ConnectionEngine.Tick` | src/RemoteController/base_connection.py:33-41 | a tick never both fires a callback and sends; frames sent plus frames queued are unchanged; the logs only grow; a raising probe ends the loop; the only status change is a running task failing with the class-named message; a task that is not running is left as it is |
| `ConnectionEngine.Stop` | src/RemoteController/base_connection.py:92-93 | after `stop()` the task is not running: a running task becomes Cancelled, and a task that has already been cancelled or has failed is left exactly as it is; nothing else changes |
| `ConnectionEngine.RunTicks` | src/RemoteController/base_connection.py:33-36 | over a whole run of the loop the logs only grow, and the status changes at most from running to a class-named failure; the run lemmas below add composition, frame conservation and that ended tasks stay ended |
| `ConnectionEngine.RunTicksSnoc` | src/RemoteController/base_connection.py:33-36 | the loop over steps followed by one more step is that step taken after the loop |
| `ConnectionEngine.RunTicksComposes` | src/RemoteController/base_connection.py:33-36 | running two sequences of ticks is the second started where the first ended |
| `ConnectionEngine.NoTicksAfterTaskEnds` | src/RemoteController/base_connection.py:38-41 | once cancelled or failed, no later tick changes anything |
| `ConnectionEngine.RunConservesFrames` | src/RemoteController/base_connection.py:36 | over any run, the frames sent followed by the frames still queued are the frames there were before |
| `ConnectionEngine.EndedStaysEnded` | src/RemoteController/base_connection.py:32-41 | a task that is running after a run was running before it: cancelled and failed are terminal |
| `ConnectionEngine.ReceiveTickSendsNothing` | src/RemoteController/base_connection.py:36 | when the probe returns non-empty data, nothing is sent and the queue is unchanged; the loop goes on unless decoding raises, and then it fails with that error before any callback fires, with nothing else changed |
| `ConnectionEngine.ReceivedCommandFiresCommandCallback` | src/RemoteController/base_connection.py:82-84 | receiving an encoded command frame fires the command callback once, with the same command and throttle bytes, and changes nothing else |
| `ConnectionEngine.ReceivedBinaryFiresBinaryCallback` | src/RemoteController/base_connection.py:85-86 | receiving `0xEEAE ++ p` fires the binary callback once with exactly `p`, and changes nothing else |
| `ConnectionEngine.UnknownFrameIsDropped` | src/RemoteController/base_connection.py:81-86 | a received frame with an unknown header fires no callback and leaves the connection unchanged and running |
| `ConnectionEngine.IdleTickSendsQueueHead` | src/RemoteController/base_connection.py:36 | with no data (None or empty bytes), exactly the old queue head is sent and only it leaves the queue; no callback fires; the loop fails only if the transport raised |
| `ConnectionEngine.IdleTickOnEmptyQueueFails` | src/RemoteController/base_connection.py:36-41 | with no data and an empty queue, the loop fails with IndexError as cause and the class-named message; nothing else changes |
| `ConnectionEngine.CheckRaisedTickFails` | src/RemoteController/base_connection.py:36-41 | when the probe raises, the loop fails with that cause and the class-named message; nothing else changes |
| `ConnectionEngine.StopIsIdempotent` | src/RemoteController/base_connection.py:92-93 | calling `stop()` twice is the same as calling it once |
| `ConnectionEngine.ScenarioCommandReceived` | src/RemoteController/base_connection.py:36 | a new connection whose probe returns the frame for command 5 fires the command callback exactly once, with (5, throttle) |
| `ConnectionEngine.ScenarioImmediateCommandGoesFirst` | src/RemoteController/base_connection.py:56 | after a normal binary send and then an immediate command 3, the first idle tick sends the 7-byte command frame, and the binary frame stays queued |
| `ConnectionEngine.EnqueueAsWritten` | src/RemoteController/base_connection.py:9 | the queue update on a `_queue` attribute that was bound is the ordinary queue update |
| `ConnectionEngine.FreshConnectionRejectsSendAsWritten` | src/RemoteController/base_connection.py:56 | as written, every send on a fresh connection raises AttributeError, because `_queue` was never bound |
| `ConnectionEngine.FreshConnectionSendsFirstFrame` | src/RemoteController/base_connection.py:20-23 | with the queue starting empty, the frame sent on a fresh connection is the one the first idle tick hands to the transport |
| `Connections.Connection.constructor` | src/RemoteController/base_connection.py:20-23 | a constructed connection is the initial engine: running, empty queue, empty logs |
| `Connections.Connection.Push` | src/RemoteController/base_connection.py:56 | the in-place insert-at-front or append has the effect of the queue ordering rule |
| `Connections.Connection.SendCommand` | src/RemoteController/base_connection.py:43-56 | the object changes exactly as the engine's `SendCommand` says, and the error is returned when packing raises; the throttle defaults to the encoding of 0.0 and the send to non-immediate |
| `Connections.Connection.SendBinaryPayload` | src/RemoteController/base_connection.py:58-69 | the object changes exactly as the engine's `SendBinaryPayload` says; the send defaults to non-immediate |
| `Connections.Connection.HandleData` | src/RemoteController/base_connection.py:71-86 | the object changes exactly as the engine's `HandleData` says, and the unpack error is returned when decoding raises |
| `Connections.Connection.Abort` | src/RemoteController/base_connection.py:40-41 | the object's task ends with the wrapped failure, and nothing else changes |
| `Connections.Connection.Tick` | src/RemoteController/base_connection.py:33-41 | one iteration of the loop changes the object exactly as the engine's `Tick` says |
| `Connections.Connection.Run` | src/RemoteController/base_connection.py:32-41 | the object ends in the state the engine's run over all the steps gives; the loop stops early only when the task has ended, and every tick it took was taken while the task was running |
| `Connections.Connection.Stop` | src/RemoteController/base_connection.py:88-93 | the object changes exactly as the engine's `Stop` says |

## Left out

- asyncio: creating the task, the `asyncio.sleep(interval)` between ticks, and how cancellation is delivered. The task is a status flag (`Running`, `Cancelled`, `Failed`), and the loop is one tick per environment step. The interval is not modelled.
- Float conversion of the throttle: IEEE-754 packing and unpacking, and the OverflowError for values too large for float32. The throttle is its 4 encoded bytes.
- The transport: what `_check` and `_send_data` do, and when `PacketSizeTooBigException` is raised. They are inputs of each tick, and the boolean `_send_data` returns is ignored, as the loop ignores it.
- The callbacks' effects, and exceptions raised inside them. Only which callback was fired, and with what arguments, is recorded.
- Argument types the source does not check: a command or payload of the wrong Python type. The model's types rule them out.
- The wired transport (`connections/wired_connection.py`). Its probe and send are empty, and its pins and acknowledgment payload are unused.

## Findings

| source | as written | input that shows it | evidently intended | confidence | as-written member | corrected member |
|---|---|---|---|---|---|---|
| src/RemoteController/base_connection.py:9 | `_queue` is only annotated at class level and is never assigned in `__init__`, so every lookup of `self._queue` raises AttributeError | `send_command(1)` on a freshly constructed connection raises instead of queueing the frame | a new connection starts with an empty queue | high, not executed | `ConnectionEngine.FreshConnectionRejectsSendAsWritten` | `ConnectionEngine.FreshConnectionSendsFirstFrame` |
