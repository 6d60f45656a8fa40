/**
 * One connection as a value: its send queue, the state of its polling task,
 * and what it has done to the outside world so far (the frames handed to the
 * transport's `_send_data` and the callbacks it has fired, with their
 * arguments). The functions here say what `send_command`,
 * `send_binary_payload`, `_handle_data`, one iteration of `_run` and `stop`
 * do to that value; the class in module Connections is proved against them.
 *
 * The transport is not part of the model: what `_check` returns (or raises)
 * in a tick, and whether `_send_data` raises, are parameters of the tick.
 */
module ConnectionEngine {
  import opened Wrappers
  import opened FrameCodec
  import opened SendQueue

  /** What the transport's `_check()` does in one tick. */
  datatype Probe =
    | NoData                  // returned None
    | Received(data: Bytes)   // returned these bytes (b"" counts as no data)
    | CheckRaised             // raised an exception

  /** Exceptions a transport's `_send_data` may raise. */
  datatype TransportError = PacketSizeTooBig | TransportFault

  /** What the transport's `_send_data(frame)` does in one tick. */
  datatype Transmit =
    | Transmitted(accepted: bool)         // returned; the loop ignores the flag
    | TransmitRaised(error: TransportError)

  /** The exception wrapped into `ConnectionDataFetchException`. */
  datatype Cause =
    | CheckFailed
    | Unpack(unpackError: StructError)
    | PopFromEmpty                      // IndexError: the queue had no front to remove
    | SendFailed(sendError: TransportError)

  /** `ConnectionDataFetchException(cause, message)`. */
  datatype DataFetchFailure = DataFetchFailure(cause: Cause, message: string)

  /** The polling task: running, cancelled by `stop()`, or ended by a failure. */
  datatype Status = Running | Cancelled | Failed(failure: DataFetchFailure)

  /** A callback invocation, with its arguments. */
  datatype Callback =
    | OnCommandPayload(command: Byte, throttle: Throttle)
    | OnBinaryPayload(payload: Bytes)

  datatype Engine = Engine(
    name: string,               // the concrete connection's class name
    queue: seq<Bytes>,
    status: Status,
    sendLog: seq<Bytes>,        // every frame handed to `_send_data`, in order
    callbackLog: seq<Callback>  // every callback fired, in order
  )

  /** One environment step of the polling loop. */
  datatype Step = Step(probe: Probe, transmit: Transmit)

  /** The message `_run` gives the wrapped exception. */
  function FailureMessage(name: string): (m: string)
    ensures |name| <= |m| && m[..|name|] == name
  {
    name + " connection could not process data"
  }

  /**
   * A freshly constructed connection. The source only annotates `_queue` at
   * class level and never assigns it in `__init__`; the model starts it empty.
   */
  function Initial(name: string): (e: Engine)
    ensures e.name == name
    ensures e.status == Running && e.queue == []
    ensures e.sendLog == [] && e.callbackLog == []
  {
    Engine(name, [], Running, [], [])
  }

  /** The loop ends with the exception wrapped; nothing else changes. */
  function Fail(e: Engine, cause: Cause): (r: Engine)
    ensures r.status == Failed(DataFetchFailure(cause, FailureMessage(e.name)))
    ensures r.(status := e.status) == e
  {
    e.(status := Failed(DataFetchFailure(cause, FailureMessage(e.name))))
  }

  /** Queueing an already encoded frame, at the front when `immediate`. */
  function EnqueueFrame(e: Engine, frame: Bytes, immediate: bool): (r: Engine)
    ensures r.queue == Enqueue(e.queue, frame, immediate)
    ensures r.(queue := e.queue) == e
  {
    e.(queue := Enqueue(e.queue, frame, immediate))
  }

  /** `send_command`: packing may raise, and then the queue is left alone. */
  function SendCommand(e: Engine, command: int, throttle: Throttle, immediate: bool): (r: Result<Engine, StructError>)
    ensures r.Success? <==> 0 <= command < 0x100
    ensures r.Failure? ==> r.error == ByteOutOfRange(command)
    ensures r.Success? ==> r.value.queue == Enqueue(e.queue, PackCommand(command, throttle).value, immediate)
    ensures r.Success? ==> r.value.(queue := e.queue) == e
  {
    var frame :- PackCommand(command, throttle);
    Success(EnqueueFrame(e, frame, immediate))
  }

  /** `send_binary_payload`. */
  function SendBinaryPayload(e: Engine, payload: Bytes, immediate: bool): (r: Engine)
    ensures r.queue == Enqueue(e.queue, PackBinary(payload), immediate)
    ensures r.(queue := e.queue) == e
  {
    EnqueueFrame(e, PackBinary(payload), immediate)
  }

  /** `_handle_data`: fire the callback the frame asks for, or raise the unpack error. */
  function HandleData(e: Engine, frame: Bytes): (r: Result<Engine, StructError>)
    ensures r.Success? <==> Decode(frame).Success?
    ensures r.Success? ==> r.value.(callbackLog := e.callbackLog) == e
    ensures r.Success? ==> |e.callbackLog| <= |r.value.callbackLog| <= |e.callbackLog| + 1
  {
    match Decode(frame)
    case Failure(err) => Failure(err)
    case Success(Command(c, t)) => Success(e.(callbackLog := e.callbackLog + [OnCommandPayload(c, t)]))
    case Success(Binary(p)) => Success(e.(callbackLog := e.callbackLog + [OnBinaryPayload(p)]))
    case Success(Unrecognized(_)) => Success(e)
  }

  /**
   * One iteration of `_run` after its sleep: if `_check()` returns non-empty
   * bytes they are handled, otherwise the queue head is popped and handed to
   * `_send_data`. Any exception ends the loop. A task that is no longer
   * running takes no further ticks.
   */
  function Tick(e: Engine, step: Step): (r: Engine)
    ensures !e.status.Running? ==> r == e
    ensures r.name == e.name
    // no frame is lost or duplicated between the queue and the transport
    ensures r.sendLog + r.queue == e.sendLog + e.queue
    // half duplex: a tick never both fires a callback and sends
    ensures r.sendLog == e.sendLog || r.callbackLog == e.callbackLog
    // the transport and the callbacks only ever see more, never less
    ensures e.sendLog <= r.sendLog && e.callbackLog <= r.callbackLog
    // a raising probe ends the loop
    ensures e.status.Running? && step.probe.CheckRaised? ==> r == Fail(e, CheckFailed)
    // the only change of status is a running task failing with the class-named message
    ensures r.status != e.status ==>
      e.status.Running? && r.status.Failed? && r.status.failure.message == FailureMessage(e.name)
  {
    if !e.status.Running? then e
    else if step.probe.CheckRaised? then Fail(e, CheckFailed)
    else if step.probe.Received? && step.probe.data != [] then
      match HandleData(e, step.probe.data)
      case Success(handled) => handled
      case Failure(err) => Fail(e, Unpack(err))
    else
      match PopFront(e.queue)
      case Failure(_) => Fail(e, PopFromEmpty)
      case Success((frame, rest)) =>
        var sent := e.(queue := rest, sendLog := e.sendLog + [frame]);
        if step.transmit.TransmitRaised? then Fail(sent, SendFailed(step.transmit.error)) else sent
  }

  /** `stop()`: cancel the task; cancelling a finished task does nothing. */
  function Stop(e: Engine): (r: Engine)
    ensures !r.status.Running?
    ensures e.status.Running? ==> r.status == Cancelled
    // cancelling a task that has already ended leaves it as it is
    ensures !e.status.Running? ==> r == e
    ensures r.(status := e.status) == e
  {
    if e.status.Running? then e.(status := Cancelled) else e
  }

  /** The loop run over a sequence of environment steps. */
  function RunTicks(e: Engine, steps: seq<Step>): (r: Engine)
    ensures r.name == e.name
    // over a whole run, sends and callbacks are only ever added
    ensures e.sendLog <= r.sendLog && e.callbackLog <= r.callbackLog
    // a run ends the task at most once, and only by a class-named failure
    ensures r.status != e.status ==>
      e.status.Running? && r.status.Failed? && r.status.failure.message == FailureMessage(e.name)
    decreases |steps|
  {
    if steps == [] then e else RunTicks(Tick(e, steps[0]), steps[1..])
  }

  /** Running one more tick after a run is the same as running the longer sequence. */
  lemma {:induction false} RunTicksSnoc(e: Engine, steps: seq<Step>, last: Step)
    ensures RunTicks(e, steps + [last]) == Tick(RunTicks(e, steps), last)
    decreases |steps|
  {
    if steps == [] {
      assert [last][1..] == [];
    } else {
      assert (steps + [last])[1..] == steps[1..] + [last];
      RunTicksSnoc(Tick(e, steps[0]), steps[1..], last);
    }
  }

  /** A run over two sequences of steps is the second run started where the first ended. */
  lemma {:induction false} RunTicksComposes(e: Engine, first: seq<Step>, second: seq<Step>)
    ensures RunTicks(e, first + second) == RunTicks(RunTicks(e, first), second)
    decreases |first|
  {
    if first == [] {
      assert first + second == second;
    } else {
      assert (first + second)[1..] == first[1..] + second;
      RunTicksComposes(Tick(e, first[0]), first[1..], second);
    }
  }

  /** Once stopped or failed, the task takes no more ticks: any run leaves it as it is. */
  lemma {:induction false} NoTicksAfterTaskEnds(e: Engine, steps: seq<Step>)
    requires !e.status.Running?
    ensures RunTicks(e, steps) == e
    decreases |steps|
  {
    if steps != [] {
      NoTicksAfterTaskEnds(Tick(e, steps[0]), steps[1..]);
    }
  }

  /** Over any run, the frames sent followed by the frames still queued are the frames there were. */
  lemma {:induction false} RunConservesFrames(e: Engine, steps: seq<Step>)
    ensures RunTicks(e, steps).sendLog + RunTicks(e, steps).queue == e.sendLog + e.queue
    decreases |steps|
  {
    if steps != [] {
      RunConservesFrames(Tick(e, steps[0]), steps[1..]);
    }
  }

  /** An ended task never runs again, over any run. */
  lemma {:induction false} EndedStaysEnded(e: Engine, steps: seq<Step>)
    requires RunTicks(e, steps).status.Running?
    ensures e.status.Running?
    decreases |steps|
  {
    if steps != [] {
      EndedStaysEnded(Tick(e, steps[0]), steps[1..]);
    }
  }

  /**
   * The receive branch: non-empty data from `_check()` is handled, no frame is
   * sent and the queue is untouched; an unpack error ends the loop.
   */
  lemma ReceiveTickSendsNothing(e: Engine, data: Bytes, transmit: Transmit)
    requires e.status.Running? && data != []
    ensures Tick(e, Step(Received(data), transmit)).queue == e.queue
    ensures Tick(e, Step(Received(data), transmit)).sendLog == e.sendLog
    ensures Tick(e, Step(Received(data), transmit)).status ==
      match Decode(data)
      case Success(_) => Running
      case Failure(err) => Failed(DataFetchFailure(Unpack(err), FailureMessage(e.name)))
    // an unpack error is raised before any callback fires
    ensures Decode(data).Failure? ==>
      Tick(e, Step(Received(data), transmit)) == Fail(e, Unpack(Decode(data).error))
  {
  }

  /** A received command frame fires the command callback once with its command and throttle. */
  lemma ReceivedCommandFiresCommandCallback(e: Engine, command: Byte, throttle: Throttle, transmit: Transmit)
    requires e.status.Running?
    ensures Tick(e, Step(Received(PackCommand(command as int, throttle).value), transmit)) ==
      e.(callbackLog := e.callbackLog + [OnCommandPayload(command, throttle)])
  {
    CommandRoundTrip(command, throttle);
  }

  /** A received binary frame fires the binary callback once with exactly its payload. */
  lemma ReceivedBinaryFiresBinaryCallback(e: Engine, payload: Bytes, transmit: Transmit)
    requires e.status.Running?
    ensures Tick(e, Step(Received(PackBinary(payload)), transmit)) ==
      e.(callbackLog := e.callbackLog + [OnBinaryPayload(payload)])
  {
    BinaryRoundTrip(payload);
  }

  /** A frame with an unknown header fires no callback and leaves the loop running. */
  lemma UnknownFrameIsDropped(e: Engine, data: Bytes, transmit: Transmit)
    requires e.status.Running? && |data| >= 2
    requires data[..2] != U16BE(CommandMagic) && data[..2] != U16BE(BinaryMagic)
    ensures Tick(e, Step(Received(data), transmit)) == e
  {
    UnknownHeaderIsPassedOver(data);
  }

  /**
   * The send branch: with no data (None or b""), exactly the old queue head is
   * handed to the transport and only it leaves the queue; no callback fires.
   */
  lemma IdleTickSendsQueueHead(e: Engine, probe: Probe, transmit: Transmit)
    requires e.status.Running? && e.queue != []
    requires probe.NoData? || probe == Received([])
    ensures Tick(e, Step(probe, transmit)).sendLog == e.sendLog + [e.queue[0]]
    ensures Tick(e, Step(probe, transmit)).queue == e.queue[1..]
    ensures Tick(e, Step(probe, transmit)).callbackLog == e.callbackLog
    ensures Tick(e, Step(probe, transmit)).status ==
      if transmit.TransmitRaised?
      then Failed(DataFetchFailure(SendFailed(transmit.error), FailureMessage(e.name)))
      else Running
  {
  }

  /** With no data and an empty queue, removing the front raises and the loop ends; nothing else changes. */
  lemma IdleTickOnEmptyQueueFails(e: Engine, probe: Probe, transmit: Transmit)
    requires e.status.Running? && e.queue == []
    requires probe.NoData? || probe == Received([])
    ensures Tick(e, Step(probe, transmit)) ==
      e.(status := Failed(DataFetchFailure(PopFromEmpty, e.name + " connection could not process data")))
  {
  }

  /** When `_check()` raises, the loop ends with the class-named failure; nothing else changes. */
  lemma CheckRaisedTickFails(e: Engine, transmit: Transmit)
    requires e.status.Running?
    ensures Tick(e, Step(CheckRaised, transmit)) ==
      e.(status := Failed(DataFetchFailure(CheckFailed, e.name + " connection could not process data")))
  {
  }

  /** Calling `stop()` twice is the same as calling it once. */
  lemma StopIsIdempotent(e: Engine)
    ensures Stop(Stop(e)) == Stop(e)
  {
  }

  /**
   * Scenario: with nothing queued, a tick whose probe returns the frame for
   * command 5 fires the command callback exactly once, with that command.
   */
  lemma ScenarioCommandReceived(name: string, throttle: Throttle)
    ensures RunTicks(Initial(name), [Step(Received(PackCommand(5, throttle).value), Transmitted(true))]).callbackLog ==
      [OnCommandPayload(5, throttle)]
  {
    ReceivedCommandFiresCommandCallback(Initial(name), 5, throttle, Transmitted(true));
  }

  /**
   * Scenario: `send_binary_payload(b"\x01\x02")` and then
   * `send_command(3, throttle, send_immediately=True)`; on an idle tick the
   * transport receives the command frame first.
   */
  lemma ScenarioImmediateCommandGoesFirst(name: string, throttle: Throttle)
    ensures SendCommand(SendBinaryPayload(Initial(name), [1, 2], false), 3, throttle, true).Success?
    ensures
      var queued := SendCommand(SendBinaryPayload(Initial(name), [1, 2], false), 3, throttle, true).value;
      var after := RunTicks(queued, [Step(NoData, Transmitted(true))]);
      && after.sendLog == [PackCommand(3, throttle).value]
      && after.queue == [PackBinary([1, 2])]
      && |after.sendLog[0]| == 7 && after.sendLog[0][2] == 3
  {
  }

  // As written, `Connection.__init__` never binds `self._queue`: the
  // class-level `_queue: List[bytes]` is an annotation only, so every
  // `self._queue` lookup raises AttributeError.

  /** An instance attribute that may never have been assigned. */
  datatype Attribute<T> = Unbound | Bound(value: T)

  /** `AttributeError` raised by a lookup of an unbound attribute. */
  datatype AttributeError = NoAttribute(attribute: string)

  /** `send_*`'s queue update as the source has it, starting from the attribute. */
  function EnqueueAsWritten(queue: Attribute<seq<Bytes>>, frame: Bytes, immediate: bool): (r: Result<seq<Bytes>, AttributeError>)
    ensures queue.Bound? ==> r == Success(Enqueue(queue.value, frame, immediate))
  {
    match queue
    case Unbound => Failure(NoAttribute("_queue"))
    case Bound(q) => Success(Enqueue(q, frame, immediate))
  }

  /** On a freshly constructed connection, as written, every send raises AttributeError. */
  lemma FreshConnectionRejectsSendAsWritten(frame: Bytes, immediate: bool)
    ensures EnqueueAsWritten(Unbound, frame, immediate) == Failure(NoAttribute("_queue"))
  {
  }

  /**
   * With the queue starting empty, a frame sent on a fresh connection is the
   * one the first idle tick hands to the transport.
   */
  lemma FreshConnectionSendsFirstFrame(name: string, frame: Bytes, immediate: bool, transmit: Transmit)
    ensures
      var after := Tick(EnqueueFrame(Initial(name), frame, immediate), Step(NoData, transmit));
      after.sendLog == [frame] && after.queue == []
  {
  }
}
