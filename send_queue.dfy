/**
 * The ordering rules of a connection's send queue, a list of frames: an
 * immediate send inserts at the front, any other send appends at the back,
 * and the polling loop removes the front frame to transmit it.
 */
module SendQueue {
  import opened Wrappers

  /** Removing the front of an empty list raises `IndexError`. */
  datatype PopError = PopFromEmptyList

  /** The queue after one `send_command` / `send_binary_payload`. */
  function Enqueue<T>(queue: seq<T>, frame: T, immediate: bool): (r: seq<T>)
    ensures |r| == |queue| + 1
    ensures immediate ==> r[0] == frame && r[1..] == queue
    ensures !immediate ==> r[..|queue|] == queue && r[|queue|] == frame
  {
    if immediate then [frame] + queue else queue + [frame]
  }

  /** Removing the front frame: the head and the rest, or `IndexError` on an empty queue. */
  function PopFront<T>(queue: seq<T>): (r: Result<(T, seq<T>), PopError>)
    ensures r.Success? <==> queue != []
    ensures r.Success? ==> [r.value.0] + r.value.1 == queue
  {
    if queue == [] then Failure(PopFromEmptyList) else Success((queue[0], queue[1..]))
  }

  /** Enqueueing several frames one after another, all with the same priority flag. */
  function EnqueueAll<T>(queue: seq<T>, frames: seq<T>, immediate: bool): seq<T>
    decreases |frames|
  {
    if frames == [] then queue
    else EnqueueAll(Enqueue(queue, frames[0], immediate), frames[1..], immediate)
  }

  /** The frames of `s`, last first. */
  function Reversed<T>(s: seq<T>): (r: seq<T>)
    ensures |r| == |s|
  {
    if s == [] then [] else Reversed(s[1..]) + [s[0]]
  }

  /** The order in which removing the front again and again hands out the frames of a queue. */
  function PopOrder<T>(queue: seq<T>): (r: seq<T>)
    decreases |queue|
  {
    match PopFront(queue)
    case Failure(_) => []
    case Success((head, rest)) => [head] + PopOrder(rest)
  }

  /** Popping a queue until it is empty hands out its frames front to back. */
  lemma {:induction false} PopOrderIsQueueOrder<T>(queue: seq<T>)
    ensures PopOrder(queue) == queue
    decreases |queue|
  {
    if queue != [] {
      PopOrderIsQueueOrder(queue[1..]);
    }
  }

  /** Normal sends are first in, first out behind whatever is already queued. */
  lemma {:induction false} NormalSendsAreFifo<T>(queue: seq<T>, frames: seq<T>)
    ensures EnqueueAll(queue, frames, false) == queue + frames
    decreases |frames|
  {
    if frames != [] {
      NormalSendsAreFifo(queue + [frames[0]], frames[1..]);
      assert queue + [frames[0]] + frames[1..] == queue + frames;
    }
  }

  /** Immediate sends jump ahead of everything queued, the latest one first. */
  lemma {:induction false} ImmediateSendsJumpAhead<T>(queue: seq<T>, frames: seq<T>)
    ensures EnqueueAll(queue, frames, true) == Reversed(frames) + queue
    decreases |frames|
  {
    if frames != [] {
      ImmediateSendsJumpAhead([frames[0]] + queue, frames[1..]);
      assert Reversed(frames[1..]) + ([frames[0]] + queue) == Reversed(frames) + queue;
    }
  }

  /** Enqueueing A and B normally and then C immediately pops C, A, B. */
  lemma PriorityOvertakesBacklog<T>(a: T, b: T, c: T)
    ensures PopOrder(Enqueue(Enqueue(Enqueue([], a, false), b, false), c, true)) == [c, a, b]
  {
    PopOrderIsQueueOrder([c, a, b]);
  }
}
