/** The request capture stage: stashes every request head on the connection and
    passes every inbound message on unchanged. */
module Inbound {
  import opened Http
  import opened Connection
  import opened Context
  import Utils
  import OutboundFault

  /** The connection after the stage's `channelRead` of `m`. */
  function CaptureStep(s: State, m: InMsg): (r: State)
    ensures r.passed == s.passed + [m]
    ensures m.RequestHead? ==> r.request == Some(m.request)
    ensures !m.RequestHead? ==> r.request == s.request
    ensures r.log == s.log && r.tasks == s.tasks
    ensures r.shouldClose == s.shouldClose && r.closeNow == s.closeNow && r.closed == s.closed
  {
    var s1 := if m.RequestHead? then s.(request := Some(m.request)) else s;
    s1.(passed := s1.passed + [m])
  }

  method ChannelRead(ch: Channel, m: InMsg)
    modifies ch
    ensures ch.Snapshot() == CaptureStep(old(ch.Snapshot()), m)
  {
    if m.RequestHead? {
      ch.request := Some(m.request);
    }
    ch.passed := ch.passed + [m];
  }

  /** The connection after the stage's `exceptionCaught`: whether or not a request
      is stashed (the stash only chooses the log line), the default error response
      goes from this stage's context straight to the codec. */
  function FaultStep(s: State): (r: State)
    ensures r == s.(log := s.log + [Sent(Head(Utils.DefaultErrorHead())), Sent(Last), Flushed])
  {
    Utils.ErrorBypassingFilter(s, CaptureCtx);
    Run(s, CaptureCtx, Utils.DefaultErrorOps())
  }

  method ExceptionCaught(ch: Channel)
    modifies ch
    ensures ch.Snapshot() == FaultStep(old(ch.Snapshot()))
  {
    Utils.SendDefaultErrorResponse(ch, CaptureCtx);
  }

  /** The capture stage's error path sends the error response with or without a
      stash and never changes the stash; the filter's sends nothing without one. */
  lemma FaultPathsCompared(s: State)
    requires s.request.None?
    ensures |FaultStep(s).log| == |s.log| + 3 && FaultStep(s).request == s.request
    ensures OutboundFault.FaultStep(s) == s
  {
  }
}
