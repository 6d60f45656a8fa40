/**
 * The connection object: its send queue is a list that `send_command` and
 * `send_binary_payload` change in place and that the polling loop pops;
 * `stop()` cancels the polling task. Each method is proved against the
 * function of module ConnectionEngine that gives its effect on the whole
 * object, so the properties proved there hold of the object.
 */
module Connections {
  import opened Wrappers
  import opened FrameCodec
  import opened ConnectionEngine

  class Connection {
    /** The concrete connection's class name, used in failure messages. */
    const name: string
    var queue: seq<Bytes>
    var status: Status
    /** Every frame handed to the transport's `_send_data`, in order. */
    var sendLog: seq<Bytes>
    /** Every callback fired, with its arguments, in order. */
    var callbackLog: seq<Callback>

    /** The object as a value of the engine model. */
    function Snapshot(): Engine
      reads this
    {
      Engine(name, queue, status, sendLog, callbackLog)
    }

    /**
     * `__init__`: the task starts running. The source never assigns `_queue`
     * here (it is only annotated at class level); the model starts it empty.
     */
    constructor (name: string)
      ensures Snapshot() == Initial(name)
    {
      this.name := name;
      queue := [];
      status := Running;
      sendLog := [];
      callbackLog := [];
    }

    /** Inserts the frame at the front of the queue when `immediate`, else appends it. */
    method Push(frame: Bytes, immediate: bool)
      modifies this
      ensures Snapshot() == EnqueueFrame(old(Snapshot()), frame, immediate)
    {
      if immediate {
        queue := [frame] + queue;
      } else {
        queue := queue + [frame];
      }
    }

    /**
     * `send_command`: raises (and queues nothing) when the command is not a byte.
     * The default throttle is the encoding of 0.0; by default the frame is appended.
     */
    method SendCommand(command: int, throttle: Throttle := [0, 0, 0, 0], sendImmediately: bool := false) returns (error: Option<StructError>)
      modifies this
      ensures match ConnectionEngine.SendCommand(old(Snapshot()), command, throttle, sendImmediately)
        case Success(e) => error == None && Snapshot() == e
        case Failure(err) => error == Some(err) && Snapshot() == old(Snapshot())
    {
      match PackCommand(command, throttle)
      case Failure(err) =>
        error := Some(err);
      case Success(frame) =>
        Push(frame, sendImmediately);
        error := None;
    }

    /** `send_binary_payload`; by default the frame is appended. */
    method SendBinaryPayload(payload: Bytes, sendImmediately: bool := false)
      modifies this
      ensures Snapshot() == ConnectionEngine.SendBinaryPayload(old(Snapshot()), payload, sendImmediately)
    {
      Push(PackBinary(payload), sendImmediately);
    }

    /** `_handle_data`: fires at most one callback, or raises the unpack error. */
    method HandleData(frame: Bytes) returns (error: Option<StructError>)
      modifies this
      ensures match ConnectionEngine.HandleData(old(Snapshot()), frame)
        case Success(e) => error == None && Snapshot() == e
        case Failure(err) => error == Some(err) && Snapshot() == old(Snapshot())
    {
      match Decode(frame)
      case Failure(err) =>
        error := Some(err);
      case Success(payload) =>
        error := None;
        match payload {
          case Command(c, t) =>
            callbackLog := callbackLog + [OnCommandPayload(c, t)];
          case Binary(p) =>
            callbackLog := callbackLog + [OnBinaryPayload(p)];
          case Unrecognized(_) =>
        }
    }

    /** Ends the loop with the exception wrapped into a data fetch failure. */
    method Abort(cause: Cause)
      modifies this
      ensures Snapshot() == Fail(old(Snapshot()), cause)
    {
      status := Failed(DataFetchFailure(cause, FailureMessage(name)));
    }

    /**
     * One iteration of `_run` after its sleep, with the transport's answers
     * to `_check()` and `_send_data` given by `step`.
     */
    method Tick(step: Step)
      modifies this
      ensures Snapshot() == ConnectionEngine.Tick(old(Snapshot()), step)
    {
      if !status.Running? {
        return;
      }
      if step.probe.CheckRaised? {
        Abort(CheckFailed);
      } else if step.probe.Received? && step.probe.data != [] {
        var error := HandleData(step.probe.data);
        if error.Some? {
          Abort(Unpack(error.value));
        }
      } else if queue == [] {
        Abort(PopFromEmpty);
      } else {
        var frame := queue[0];
        queue := queue[1..];
        sendLog := sendLog + [frame];
        if step.transmit.TransmitRaised? {
          Abort(SendFailed(step.transmit.error));
        }
      }
    }

    /**
     * `_run`'s `while True` loop, driven by the transport's answers for
     * successive ticks; it leaves as soon as the task is no longer running.
     * Returns the number of ticks taken.
     */
    method Run(steps: seq<Step>) returns (ticks: nat)
      modifies this
      ensures ticks <= |steps|
      ensures Snapshot() == RunTicks(old(Snapshot()), steps)
      ensures ticks < |steps| ==> !status.Running?
      ensures ticks > 0 ==> RunTicks(old(Snapshot()), steps[..ticks - 1]).status.Running?
    {
      ticks := 0;
      while ticks < |steps| && status.Running?
        invariant ticks <= |steps|
        invariant Snapshot() == RunTicks(old(Snapshot()), steps[..ticks])
        invariant ticks > 0 ==> RunTicks(old(Snapshot()), steps[..ticks - 1]).status.Running?
      {
        RunTicksSnoc(old(Snapshot()), steps[..ticks], steps[ticks]);
        assert steps[..ticks + 1] == steps[..ticks] + [steps[ticks]];
        Tick(steps[ticks]);
        ticks := ticks + 1;
      }
      assert steps == steps[..ticks] + steps[ticks..];
      RunTicksComposes(old(Snapshot()), steps[..ticks], steps[ticks..]);
      if ticks < |steps| {
        NoTicksAfterTaskEnds(Snapshot(), steps[ticks..]);
      }
    }

    /** `stop()`: cancels the task; later calls change nothing. */
    method Stop()
      modifies this
      ensures Snapshot() == ConnectionEngine.Stop(old(Snapshot()))
    {
      if status.Running? {
        status := Cancelled;
      }
    }
  }
}
