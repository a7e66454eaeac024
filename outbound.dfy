/** The outbound hygiene filter: fixes up each response head from the stashed
    request, decides whether the connection closes after the response, and closes
    it on the first flush after the end-of-message of such a response. */
module Outbound {
  import opened Http
  import opened Connection

  /** The head after the filter's fix-ups for request `req`: the version follows the
      request, chunked coding is added when no framing is declared, and the keep-alive
      decision is marked on it. */
  function FixHead(resp: Response, req: Request): (r: Response)
    ensures r.version == req.version && r.status == resp.status
    ensures ContentLengthSet(r) == ContentLengthSet(resp)
    ensures ChunkedSet(r) == (ChunkedSet(resp) || !ContentLengthSet(resp))
    ensures ContentLengthSet(resp) || ChunkedSet(resp) ==>
              Values(r.headers, TransferEncoding) == Values(resp.headers, TransferEncoding)
    ensures ExactlyOneFraming(r) <==> AtMostOneFraming(resp)
    ensures r.keepAlive == (resp.keepAlive || KeepAlive(req))
    ensures Values(r.headers, Connection) ==
              if !KeepAlive(req) && req.version == HTTP_1_0 then ["close"] else Values(resp.headers, Connection)
    ensures forall n :: n !in {TransferEncoding, Connection} ==> Values(r.headers, n) == Values(resp.headers, n)
  {
    var versioned := if resp.version != req.version then resp.(version := req.version) else resp;
    var framed :=
      if !ContentLengthSet(versioned) && !ChunkedSet(versioned)
      then versioned.(headers := Add(versioned.headers, TransferEncoding, "chunked"))
      else versioned;
    if KeepAlive(req) then framed.(keepAlive := true)
    else if req.version == HTTP_1_0 then framed.(headers := Set(framed.headers, Connection, "close"))
    else framed
  }

  /** The filter passes every message on, except a response head that finds no
      stashed request: dereferencing the missing stash throws, and the failed write
      goes no further. */
  predicate Passes(s: State, m: Msg)
  {
    !IsResponse(m) || s.request.Some?
  }

  /** The message as the filter passes it on. */
  function Fixed(s: State, m: Msg): Msg
    requires Passes(s, m)
  {
    if IsResponse(m) then WithResponse(m, FixHead(m.response, s.request.value)) else m
  }

  /** The connection after the filter's `write` of `m`. */
  function WriteStep(s: State, m: Msg): (r: State)
    ensures r.log == if Passes(s, m) then s.log + [Sent(Fixed(s, m))] else s.log
    ensures r.request == if IsResponse(m) then None else s.request
    ensures r.shouldClose ==
              (s.shouldClose || (IsResponse(m) && s.request.Some? && !KeepAlive(s.request.value)))
    ensures r.closeNow == (s.closeNow || (Passes(s, m) && IsLast(m) && r.shouldClose))
    ensures r.closed == s.closed && r.tasks == s.tasks && r.passed == s.passed
  {
    if IsResponse(m) then
      match s.request
      case None => s
      case Some(req) =>
        var s1 := s.(request := None, shouldClose := s.shouldClose || !KeepAlive(req));
        var s2 := Forward(s1, WithResponse(m, FixHead(m.response, req)));
        s2.(closeNow := s2.closeNow || (IsLast(m) && s2.shouldClose))
    else
      var s2 := Forward(s, m);
      s2.(closeNow := s2.closeNow || (IsLast(m) && s2.shouldClose))
  }

  /** The connection after the filter's `flush`: the flush goes on, then the channel
      closes if KEY_CLOSE_NOW is set. */
  function FlushStep(s: State): (r: State)
    ensures r.closed == (s.closed || s.closeNow)
    ensures r.log == s.log + [Flushed] + (if s.closeNow && !s.closed then [Closed] else [])
    ensures r.request == s.request && r.shouldClose == s.shouldClose && r.closeNow == s.closeNow
    ensures r.tasks == s.tasks && r.passed == s.passed
  {
    var s1 := FlushOut(s);
    if s1.closeNow then CloseOut(s1) else s1
  }

  lemma WriteStepOfResponse(s: State, m: Msg, req: Request)
    requires IsResponse(m) && s.request == Some(req)
    ensures var shouldClose := s.shouldClose || !KeepAlive(req);
      WriteStep(s, m) == s.(request := None, shouldClose := shouldClose,
                            log := s.log + [Sent(WithResponse(m, FixHead(m.response, req)))],
                            closeNow := s.closeNow || (IsLast(m) && shouldClose))
  {
  }

  lemma WriteStepOfOther(s: State, m: Msg)
    requires !IsResponse(m)
    ensures WriteStep(s, m) == s.(log := s.log + [Sent(m)], closeNow := s.closeNow || (IsLast(m) && s.shouldClose))
  {
  }

  /** The filter's fix-ups of a response head for the stashed request `req`. */
  method FixUp(ch: Channel, resp: Response, req: Request) returns (response: Response)
    modifies ch
    ensures response == FixHead(resp, req)
    ensures ch.Snapshot() == old(ch.Snapshot()).(shouldClose := old(ch.shouldClose) || !KeepAlive(req))
  {
    response := resp;
    if response.version != req.version {
      response := response.(version := req.version);
    }
    if !ContentLengthSet(response) && !ChunkedSet(response) {
      response := response.(headers := Add(response.headers, TransferEncoding, "chunked"));
    }
    if KeepAlive(req) {
      response := response.(keepAlive := true);
    } else {
      if req.version == HTTP_1_0 {
        response := response.(headers := Set(response.headers, Connection, "close"));
      }
      ch.shouldClose := true;
    }
  }

  /** The filter's `write`. */
  method Write(ch: Channel, m: Msg)
    modifies ch
    ensures ch.Snapshot() == WriteStep(old(ch.Snapshot()), m)
  {
    ghost var s0 := ch.Snapshot();
    var out := m;
    if IsResponse(m) {
      match ch.request
      case None =>
        // The dereference of the missing stash throws; the removal in the cleanup
        // finds nothing to remove and the write fails.
        return;
      case Some(req) =>
        var response := FixUp(ch, m.response, req);
        ch.request := None;
        out := WithResponse(m, response);
        WriteStepOfResponse(s0, m, req);
    } else {
      WriteStepOfOther(s0, m);
    }
    ch.TransportWrite(out);
    if IsLast(m) && ch.shouldClose {
      ch.closeNow := true;
    }
  }

  /** The filter's `flush`. */
  method Flush(ch: Channel)
    modifies ch
    ensures ch.Snapshot() == FlushStep(old(ch.Snapshot()))
  {
    ch.TransportFlush();
    if ch.closeNow {
      ch.TransportClose();
    }
  }

  /** The filter's `close`: a close requested by a later handler is dropped, since
      the filter decides itself when the channel closes. */
  method Close(ch: Channel)
    ensures ch.Snapshot() == old(ch.Snapshot())
  {
  }

  /** Neither `write` nor `flush` ever clears KEY_SHOULD_CLOSE or KEY_CLOSE_NOW, or
      reopens the channel. */
  lemma FlagsNeverCleared(s: State, m: Msg)
    ensures var w := WriteStep(s, m);
      (s.shouldClose ==> w.shouldClose) && (s.closeNow ==> w.closeNow) && (s.closed ==> w.closed)
    ensures var f := FlushStep(s);
      (s.shouldClose ==> f.shouldClose) && (s.closeNow ==> f.closeNow) && (s.closed ==> f.closed)
  {
  }

  /** A response head written with a stashed request `req` leaves the connection
      open afterwards exactly when `req` is keep-alive (or the flag was already set);
      a keep-alive request leaves KEY_SHOULD_CLOSE as it was. */
  lemma KeepAliveDecision(s: State, m: Msg)
    requires IsResponse(m) && s.request.Some?
    ensures var r := WriteStep(s, m); var req := s.request.value;
      && (KeepAlive(req) ==> r.shouldClose == s.shouldClose && Fixed(s, m).response.keepAlive)
      && (!KeepAlive(req) ==> r.shouldClose)
      && (ContainsConnectionClose(Fixed(s, m).response) <==>
            (!KeepAlive(req) && req.version == HTTP_1_0) || ContainsConnectionClose(m.response))
  {
  }

  predicate ContainsConnectionClose(r: Response)
  {
    "close" in Values(r.headers, Connection)
  }
}
