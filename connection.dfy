/** One connection's shared state: the attribute bag the two hygiene handlers
    share, what the pipeline has handed to the codec, and the queue of the
    connection executor's deferred tasks. */
module Connection {
  import opened Http

  /** A deferred task of the application, by what its closure captured: the tail of
      the "/" page, or the final chunk handed to `delayFinalChunk`. */
  datatype Task = RootTail | FinalChunk(chunk: seq<byte>)

  /** What the pipeline hands to the codec, in order. The transport discards any
      message handed to it after `Closed`. */
  datatype Event = Sent(msg: Msg) | Flushed | Closed

  /** A snapshot of the connection.
      request     - the KEY_REQUEST attribute (the stashed request head)
      shouldClose - the KEY_SHOULD_CLOSE attribute (false when unset)
      closeNow    - the KEY_CLOSE_NOW attribute (false when unset)
      closed      - whether the channel has been closed
      log         - everything handed to the codec
      tasks       - the executor's pending tasks, first to run first
      passed      - the inbound messages the capture stage passed on */
  datatype State = State(
    request: Option<Request>,
    shouldClose: bool,
    closeNow: bool,
    closed: bool,
    log: seq<Event>,
    tasks: seq<Task>,
    passed: seq<InMsg>)

  /** A connection just accepted. */
  const Fresh: State := State(None, false, false, false, [], [], [])

  /** The codec receives a message. */
  function Forward(s: State, m: Msg): State
  {
    s.(log := s.log + [Sent(m)])
  }

  /** The codec receives a flush. */
  function FlushOut(s: State): State
  {
    s.(log := s.log + [Flushed])
  }

  /** The channel is closed; closing a closed channel does nothing. */
  function CloseOut(s: State): State
  {
    if s.closed then s else s.(closed := true, log := s.log + [Closed])
  }

  /** The executor queues a task behind the pending ones. */
  function Enqueue(s: State, t: Task): State
  {
    s.(tasks := s.tasks + [t])
  }

  class Channel {
    var request: Option<Request>
    var shouldClose: bool
    var closeNow: bool
    var closed: bool
    var log: seq<Event>
    var tasks: seq<Task>
    var passed: seq<InMsg>

    function Snapshot(): State
      reads this
    {
      State(request, shouldClose, closeNow, closed, log, tasks, passed)
    }

    constructor ()
      ensures Snapshot() == Fresh
    {
      request, shouldClose, closeNow, closed := None, false, false, false;
      log, tasks, passed := [], [], [];
    }

    method TransportWrite(m: Msg)
      modifies this
      ensures Snapshot() == Forward(old(Snapshot()), m)
    {
      log := log + [Sent(m)];
    }

    method TransportFlush()
      modifies this
      ensures Snapshot() == FlushOut(old(Snapshot()))
    {
      log := log + [Flushed];
    }

    method TransportClose()
      modifies this
      ensures Snapshot() == CloseOut(old(Snapshot()))
    {
      if !closed {
        closed := true;
        log := log + [Closed];
      }
    }

    method Schedule(t: Task)
      modifies this
      ensures Snapshot() == Enqueue(old(Snapshot()), t)
    {
      tasks := tasks + [t];
    }

    /** The executor takes the deferred task whose delay ends first. Assuming the pause
        does not change between schedules, that is the oldest one. */
    method TakeTask() returns (t: Option<Task>)
      modifies this
      ensures old(tasks) == [] ==> t == None && Snapshot() == old(Snapshot())
      ensures old(tasks) != [] ==> t == Some(old(tasks)[0]) && Snapshot() == old(Snapshot()).(tasks := old(tasks)[1..])
    {
      if tasks == [] {
        t := None;
      } else {
        t := Some(tasks[0]);
        tasks := tasks[1..];
      }
    }
  }
}
