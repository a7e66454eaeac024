/** The default error response: a `500` head declaring an empty body, then an
    empty end-of-message, then a flush. */
module Utils {
  import opened Http
  import opened Connection
  import opened Context
  import Outbound

  function DefaultErrorHead(): (r: Response)
    ensures r.status == 500 && r.version == HTTP_1_1 && !r.keepAlive
    ensures Values(r.headers, ContentLength) == [Decimal(0)] && ParseDecimal(Decimal(0)) == Some(0)
    ensures Values(r.headers, TransferEncoding) == [] && ExactlyOneFraming(r)
  {
    Response(HTTP_1_1, 500, Set(NoHeaders, ContentLength, Decimal(0)), false)
  }

  /** The operations `sendDefaultErrorResponse` issues: two writes, then a flush. */
  function DefaultErrorOps(): (ops: seq<Op>)
    ensures |ops| == 3 && ops[2] == FlushOp
    ensures ops[0] == WriteOp(Head(DefaultErrorHead())) && ops[1] == WriteOp(Last)
  {
    [WriteOp(Head(DefaultErrorHead())), WriteOp(Last), FlushOp]
  }

  method SendDefaultErrorResponse(ch: Channel, c: Ctx)
    modifies ch
    ensures ch.Snapshot() == Run(old(ch.Snapshot()), c, DefaultErrorOps())
  {
    ghost var s0 := ch.Snapshot();
    Write(ch, c, Head(DefaultErrorHead()));
    RunOne(s0, c, WriteOp(Head(DefaultErrorHead())));
    WriteAndFlush(ch, c, Last);
    RunAppend(s0, c, [WriteOp(Head(DefaultErrorHead()))], [WriteOp(Last), FlushOp]);
  }

  /** Sent from the application's context, the error response passes the filter:
      with a stash, its head keeps its Content-Length, gets no Transfer-Encoding and
      follows the request's version; without one, the head's write fails and only
      the end-of-message goes out. Either way the flush closes the connection
      exactly when the response (or an earlier one) called for closing. */
  lemma {:induction false} ErrorThroughFilter(s: State)
    ensures var r := Run(s, AppCtx, DefaultErrorOps());
      && r.request == None && r.tasks == s.tasks && r.passed == s.passed
      && (s.request.Some? ==>
            var h := Outbound.FixHead(DefaultErrorHead(), s.request.value);
            && h.status == 500 && h.version == s.request.value.version
            && Values(h.headers, TransferEncoding) == [] && ContentLengthSet(h)
            && r.log == s.log + [Sent(Head(h)), Sent(Last), Flushed]
                          + (if r.closed && !s.closed then [Closed] else [])
            && r.closed == (s.closed || s.closeNow || s.shouldClose || !KeepAlive(s.request.value)))
      && (s.request.None? ==>
            && r.log == s.log + [Sent(Last), Flushed] + (if r.closed && !s.closed then [Closed] else [])
            && r.closed == (s.closed || s.closeNow || s.shouldClose))
  {
    var ops := DefaultErrorOps();
    var s1 := Issue(s, AppCtx, ops[0]);
    var s2 := Issue(s1, AppCtx, ops[1]);
    var s3 := Issue(s2, AppCtx, ops[2]);
    RunOne(s, AppCtx, ops[0]);
    RunSnoc(s, AppCtx, [ops[0]], ops[1]);
    assert [ops[0]] + [ops[1]] == ops[..2];
    RunSnoc(s, AppCtx, ops[..2], ops[2]);
    assert ops[..2] + [ops[2]] == ops;
    assert Run(s, AppCtx, ops) == s3;
  }

  /** Sent from a context in front of the filter, the error response reaches the
      codec untouched and leaves the stash and the close flags as they were. */
  lemma {:induction false} ErrorBypassingFilter(s: State, c: Ctx)
    requires c != AppCtx
    ensures Run(s, c, DefaultErrorOps()) ==
              s.(log := s.log + [Sent(Head(DefaultErrorHead())), Sent(Last), Flushed])
  {
    var ops := DefaultErrorOps();
    RunOne(s, c, ops[0]);
    RunSnoc(s, c, [ops[0]], ops[1]);
    assert [ops[0]] + [ops[1]] == ops[..2];
    RunSnoc(s, c, ops[..2], ops[2]);
    assert ops[..2] + [ops[2]] == ops;
  }
}
