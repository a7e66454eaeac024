/** The hygiene filter's `exceptionCaught`. It reads the stashed request (for its
    log line) and sends the default error response from its own context, which lies
    in front of the filter: the response goes to the codec untouched. */
module OutboundFault {
  import opened Http
  import opened Connection
  import opened Context
  import Utils

  /** The connection after the filter's `exceptionCaught`. With no stash the log
      line's dereference throws before anything is sent. */
  function FaultStep(s: State): (r: State)
    ensures s.request.None? ==> r == s
    ensures s.request.Some? ==>
              r == s.(log := s.log + [Sent(Head(Utils.DefaultErrorHead())), Sent(Last), Flushed])
  {
    Utils.ErrorBypassingFilter(s, FilterCtx);
    if s.request.None? then s else Run(s, FilterCtx, Utils.DefaultErrorOps())
  }

  /** Returns whether the handler itself threw. */
  method ExceptionCaught(ch: Channel) returns (threw: bool)
    modifies ch
    ensures threw == old(ch.request).None?
    ensures ch.Snapshot() == FaultStep(old(ch.Snapshot()))
  {
    match ch.request
    case None =>
      threw := true;
    case Some(_) =>
      Utils.SendDefaultErrorResponse(ch, FilterCtx);
      threw := false;
  }
}
