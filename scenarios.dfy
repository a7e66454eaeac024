/** Whole exchanges on a fresh connection, from the first decoded message to what
    the codec receives. */
module Scenarios {
  import opened Http
  import opened Connection
  import opened Context
  import Outbound
  import Utils
  import Routes
  import App
  import Inbound
  import opened Pipeline

  lemma {:induction false} TraceCons(sys: Sys, st: Stimulus, rest: seq<Stimulus>, assets: App.Assets)
    ensures Trace(sys, [st] + rest, assets) == Trace(Step(sys, st, assets), rest, assets)
  {
    assert ([st] + rest)[1..] == rest;
  }

  /** A request head on a fresh connection is stashed by both the capture stage
      and the application, and nothing is written. */
  lemma {:induction false} HeadArrives(req: Request, assets: App.Assets)
    ensures Step(Sys(Fresh, None), Arrive(RequestHead(req)), assets) ==
              Sys(Fresh.(request := Some(req), passed := [RequestHead(req)]), Some(req))
  {
    assert Run(Fresh.(request := Some(req), passed := [RequestHead(req)]), AppCtx, []) ==
             Fresh.(request := Some(req), passed := [RequestHead(req)]);
  }

  /** The end of a request whose reaction is known and whose operations' effect is
      known. */
  lemma {:induction false} LastArrives(c: State, req: Request, assets: App.Assets, ops: seq<Op>, t: State)
    requires App.OnRead(Some(req), RequestLast, assets) == App.Reaction(Some(req), ops, false)
    requires Run(c.(passed := c.passed + [RequestLast]), AppCtx, ops) == t
    ensures Step(Sys(c, Some(req)), Arrive(RequestLast), assets) == Sys(t, Some(req))
  {
    assert Inbound.CaptureStep(c, RequestLast) == c.(passed := c.passed + [RequestLast]);
  }

  /** The end of `GET /` over HTTP/1.1: the head and the first chunk go out. */
  lemma {:induction false} RootEndArrives(req: Request, assets: App.Assets)
    requires req == Request(HTTP_1_1, "GET", "/", [])
    ensures var c := Fresh.(request := Some(req), passed := [RequestHead(req)]);
      Step(Sys(c, Some(req)), Arrive(RequestLast), assets) ==
        Sys(Fresh.(log := [Sent(Head(App.ChunkedHtmlHead().(keepAlive := true))), Sent(Content(Ascii(App.FIRST_CHUNK))), Flushed],
                   tasks := [RootTail], passed := [RequestHead(req), RequestLast]),
            Some(req))
  {
    var c := Fresh.(request := Some(req), passed := [RequestHead(req)]);
    assert c.passed + [RequestLast] == [RequestHead(req), RequestLast];
    App.RootPage(req, assets);
    assert App.RespondPlan(Some(req), assets) == App.RootPlan();
    RootRuns(req);
    LastArrives(c, req, assets, App.RootPlan().ops,
      Fresh.(log := [Sent(Head(App.ChunkedHtmlHead().(keepAlive := true))), Sent(Content(Ascii(App.FIRST_CHUNK))), Flushed],
             tasks := [RootTail], passed := [RequestHead(req), RequestLast]));
  }

  lemma {:induction false} RootRuns(req: Request)
    requires req == Request(HTTP_1_1, "GET", "/", [])
    ensures Run(Fresh.(request := Some(req), passed := [RequestHead(req), RequestLast]), AppCtx, App.RootPlan().ops) ==
              Fresh.(log := [Sent(Head(App.ChunkedHtmlHead().(keepAlive := true))), Sent(Content(Ascii(App.FIRST_CHUNK))), Flushed],
                     tasks := [RootTail], passed := [RequestHead(req), RequestLast])
  {
    var c0 := Fresh.(request := Some(req), passed := [RequestHead(req), RequestLast]);
    var ops := App.RootPlan().ops;
    Run4(c0, AppCtx, ops[0], ops[1], ops[2], ops[3]);
    assert ops == [ops[0], ops[1], ops[2], ops[3]];
    var head := App.ChunkedHtmlHead().(keepAlive := true);
    assert KeepAlive(req);
    assert Outbound.FixHead(App.ChunkedHtmlHead(), req) == head;
    var c1 := Issue(c0, AppCtx, ops[0]);
    assert c1 == c0.(log := [Sent(Head(head))], request := None);
    var c2 := Issue(c1, AppCtx, ops[1]);
    assert c2 == c1.(log := c1.log + [Sent(Content(Ascii(App.FIRST_CHUNK)))]);
    var c3 := Issue(c2, AppCtx, ops[2]);
    assert c3 == c2.(log := c2.log + [Flushed]);
  }

  /** The root page's task: the second chunk, the end-of-message, then flushes. */
  lemma {:induction false} RootTailFires(c: State, request: Option<Request>, assets: App.Assets)
    requires c.tasks == [RootTail] && c.request.None? && !c.shouldClose && !c.closeNow
    ensures Step(Sys(c, request), Timer, assets) ==
              Sys(c.(tasks := [], log := c.log + [Sent(Content(Ascii(App.SECOND_CHUNK))), Flushed, Sent(Last), Flushed]), None)
  {
    var tail := App.TaskOps(RootTail);
    assert c.tasks[1..] == [] && c.tasks[0] == RootTail;
    var c0 := c.(tasks := []);
    Run4(c0, AppCtx, tail[0], tail[1], tail[2], tail[3]);
    assert tail == [tail[0], tail[1], tail[2], tail[3]];
    var c1 := Issue(c0, AppCtx, tail[0]);
    assert c1 == c0.(log := c.log + [Sent(Content(Ascii(App.SECOND_CHUNK)))]);
    var c2 := Issue(c1, AppCtx, tail[1]);
    assert c2 == c0.(log := c1.log + [Flushed]);
    var c3 := Issue(c2, AppCtx, tail[2]);
    assert c3 == c0.(log := c2.log + [Sent(Last)]);
    var c4 := Issue(c3, AppCtx, tail[3]);
    assert c4 == c0.(log := c3.log + [Flushed]);
  }

  /** `GET /` over HTTP/1.1: the chunked head (marked keep-alive), the first chunk
      and a flush; then, when the deferred task runs, the second chunk, the end-of-message
      and flushes; the connection stays open and both stashes end empty. */
  lemma RootPageOverKeepAlive(assets: App.Assets)
    ensures var req := Request(HTTP_1_1, "GET", "/", []);
      var r := Trace(Sys(Fresh, None), [Arrive(RequestHead(req)), Arrive(RequestLast), Timer], assets);
      && r.conn.log == [Sent(Head(App.ChunkedHtmlHead().(keepAlive := true))), Sent(Content(Ascii(App.FIRST_CHUNK))), Flushed,
                        Sent(Content(Ascii(App.SECOND_CHUNK))), Flushed, Sent(Last), Flushed]
      && !r.conn.closed && r.conn.tasks == [] && r.conn.request == None && r.appRequest == None
  {
    var req := Request(HTTP_1_1, "GET", "/", []);
    var s0 := Sys(Fresh, None);
    HeadArrives(req, assets);
    var s1 := Step(s0, Arrive(RequestHead(req)), assets);
    RootEndArrives(req, assets);
    var s2 := Step(s1, Arrive(RequestLast), assets);
    RootTailFires(s2.conn, s2.appRequest, assets);
    TraceCons(s0, Arrive(RequestHead(req)), [Arrive(RequestLast), Timer], assets);
    TraceCons(s1, Arrive(RequestLast), [Timer], assets);
    TraceCons(s2, Timer, [], assets);
  }

  lemma UnknownUri()
    ensures Routes.RouteOf("/nope") == Routes.NotFound
  {
    var uri := "/nope";
    assert uri[1] == 'n';
    assert Routes.CLEAN_QUERY[1] == 'c' && Routes.IG_FILES[1] == 'i' && Routes.IG_PAGE[1] == 'i';
    assert Routes.CLEAN[1] == 'c' && Routes.FAVICON[1] == 'f';
  }

  /** The end of a request for an unknown URI over HTTP/1.0 without keep-alive. */
  lemma {:induction false} NotFoundEndArrives(req: Request, assets: App.Assets)
    requires req == Request(HTTP_1_0, "GET", "/nope", [])
    ensures var c := Fresh.(request := Some(req), passed := [RequestHead(req)]);
      var h := Outbound.FixHead(App.NotFoundHead(), req);
      Step(Sys(c, Some(req)), Arrive(RequestLast), assets) ==
        Sys(Fresh.(log := [Sent(Head(h)), Sent(Last), Flushed, Closed], shouldClose := true, closeNow := true, closed := true,
                   passed := [RequestHead(req), RequestLast]),
            Some(req))
  {
    var c := Fresh.(request := Some(req), passed := [RequestHead(req)]);
    assert c.passed + [RequestLast] == [RequestHead(req), RequestLast];
    UnknownUri();
    assert App.RespondPlan(Some(req), assets) == App.NotFoundPlan();
    NotFoundRuns(req);
    LastArrives(c, req, assets, App.NotFoundPlan().ops,
      Fresh.(log := [Sent(Head(Outbound.FixHead(App.NotFoundHead(), req))), Sent(Last), Flushed, Closed],
             shouldClose := true, closeNow := true, closed := true, passed := [RequestHead(req), RequestLast]));
  }

  lemma {:induction false} NotFoundRuns(req: Request)
    requires req == Request(HTTP_1_0, "GET", "/nope", [])
    ensures Run(Fresh.(request := Some(req), passed := [RequestHead(req), RequestLast]), AppCtx, App.NotFoundPlan().ops) ==
              Fresh.(log := [Sent(Head(Outbound.FixHead(App.NotFoundHead(), req))), Sent(Last), Flushed, Closed],
                     shouldClose := true, closeNow := true, closed := true, passed := [RequestHead(req), RequestLast])
  {
    var c0 := Fresh.(request := Some(req), passed := [RequestHead(req), RequestLast]);
    var ops := App.NotFoundPlan().ops;
    Run3(c0, AppCtx, ops[0], ops[1], ops[2]);
    assert ops == [ops[0], ops[1], ops[2]];
    assert !KeepAlive(req);
    var head := Outbound.FixHead(App.NotFoundHead(), req);
    var c1 := Issue(c0, AppCtx, ops[0]);
    assert c1 == c0.(log := [Sent(Head(head))], request := None, shouldClose := true);
    var c2 := Issue(c1, AppCtx, ops[1]);
    assert c2 == c1.(log := c1.log + [Sent(Last)], closeNow := true);
    var c3 := Issue(c2, AppCtx, ops[2]);
    assert c3 == c2.(log := c2.log + [Flushed, Closed], closed := true);
  }

  /** An unknown URI over HTTP/1.0 without keep-alive: the 404 head gets the
      request's version, chunked coding and `Connection: close`; after the
      end-of-message the flush closes the channel. */
  lemma NotFoundOverHttp10(assets: App.Assets)
    ensures var req := Request(HTTP_1_0, "GET", "/nope", []);
      var r := Trace(Sys(Fresh, None), [Arrive(RequestHead(req)), Arrive(RequestLast)], assets);
      && |r.conn.log| == 4 && r.conn.log[1..] == [Sent(Last), Flushed, Closed]
      && r.conn.closed && r.conn.log[0].Sent? && r.conn.log[0].msg.Head?
      && var h := r.conn.log[0].msg.response;
         && h.status == 404 && h.version == HTTP_1_0
         && Values(h.headers, TransferEncoding) == ["chunked"]
         && Values(h.headers, Connection) == ["close"]
  {
    var req := Request(HTTP_1_0, "GET", "/nope", []);
    var s0 := Sys(Fresh, None);
    HeadArrives(req, assets);
    var s1 := Step(s0, Arrive(RequestHead(req)), assets);
    NotFoundEndArrives(req, assets);
    var h := Outbound.FixHead(App.NotFoundHead(), req);
    assert !KeepAlive(req);
    assert Values(h.headers, TransferEncoding) == ["chunked"];
    TraceCons(s0, Arrive(RequestHead(req)), [Arrive(RequestLast)], assets);
    TraceCons(s1, Arrive(RequestLast), [], assets);
  }

  lemma ArticleUri()
    ensures Routes.RouteOf(Routes.IG_PAGE) == Routes.IgPage
  {
  }

  /** The end of a request for the article page whose first fragment is missing. */
  lemma {:induction false} ArticleEndArrives(req: Request, assets: App.Assets)
    requires req == Request(HTTP_1_1, "GET", Routes.IG_PAGE, []) && App.IG_FRAG1 !in assets
    ensures var c := Fresh.(request := Some(req), passed := [RequestHead(req)]);
      Step(Sys(c, Some(req)), Arrive(RequestLast), assets) ==
        Sys(Fresh.(log := [Sent(Head(App.ChunkedHtmlHead().(keepAlive := true))), Sent(Last), Flushed],
                   passed := [RequestHead(req), RequestLast]),
            Some(req))
  {
    var c := Fresh.(request := Some(req), passed := [RequestHead(req)]);
    assert c.passed + [RequestLast] == [RequestHead(req), RequestLast];
    ArticleUri();
    var ops := App.IgPagePlan(assets).ops + Utils.DefaultErrorOps();
    assert App.OnRead(Some(req), RequestLast, assets) == App.Reaction(Some(req), ops, false);
    ArticleRuns(req, ops);
    LastArrives(c, req, assets, ops,
      Fresh.(log := [Sent(Head(App.ChunkedHtmlHead().(keepAlive := true))), Sent(Last), Flushed],
             passed := [RequestHead(req), RequestLast]));
  }

  lemma {:induction false} ArticleRuns(req: Request, ops: seq<Op>)
    requires req == Request(HTTP_1_1, "GET", Routes.IG_PAGE, [])
    requires ops == [WriteOp(Head(App.ChunkedHtmlHead()))] + Utils.DefaultErrorOps()
    ensures Run(Fresh.(request := Some(req), passed := [RequestHead(req), RequestLast]), AppCtx, ops) ==
              Fresh.(log := [Sent(Head(App.ChunkedHtmlHead().(keepAlive := true))), Sent(Last), Flushed],
                     passed := [RequestHead(req), RequestLast])
  {
    var c0 := Fresh.(request := Some(req), passed := [RequestHead(req), RequestLast]);
    assert ops == [ops[0], ops[1], ops[2], ops[3]];
    Run4(c0, AppCtx, ops[0], ops[1], ops[2], ops[3]);
    var head := App.ChunkedHtmlHead().(keepAlive := true);
    assert KeepAlive(req);
    assert Outbound.FixHead(App.ChunkedHtmlHead(), req) == head;
    var c1 := Issue(c0, AppCtx, ops[0]);
    assert c1 == c0.(log := [Sent(Head(head))], request := None);
    var c2 := Issue(c1, AppCtx, ops[1]);
    assert c2 == c1;
    var c3 := Issue(c2, AppCtx, ops[2]);
    assert c3 == c1.(log := c1.log + [Sent(Last)]);
  }

  /** The article page with its first fragment missing: the chunked `200` head has
      already gone out, so the default `500` head finds no stashed request and is
      lost; the client receives the `200` head and an empty body. */
  lemma ArticleFragmentMissing(assets: App.Assets)
    requires App.IG_FRAG1 !in assets
    ensures var req := Request(HTTP_1_1, "GET", Routes.IG_PAGE, []);
      var r := Trace(Sys(Fresh, None), [Arrive(RequestHead(req)), Arrive(RequestLast)], assets);
      && r.conn.log == [Sent(Head(App.ChunkedHtmlHead().(keepAlive := true))), Sent(Last), Flushed]
      && !r.conn.closed && r.conn.tasks == []
  {
    var req := Request(HTTP_1_1, "GET", Routes.IG_PAGE, []);
    var s0 := Sys(Fresh, None);
    HeadArrives(req, assets);
    var s1 := Step(s0, Arrive(RequestHead(req)), assets);
    ArticleEndArrives(req, assets);
    TraceCons(s0, Arrive(RequestHead(req)), [Arrive(RequestLast)], assets);
    TraceCons(s1, Arrive(RequestLast), [], assets);
  }

  /** A fault while a request is stashed sends the default error response twice,
      once from each hygiene stage, both around the filter; the stash stays. */
  lemma FaultWithStash(sys: Sys, assets: App.Assets)
    requires sys.conn.request.Some?
    ensures var es := [Sent(Head(Utils.DefaultErrorHead())), Sent(Last), Flushed];
      Step(sys, Fault, assets) == sys.(conn := sys.conn.(log := sys.conn.log + es + es))
  {
  }

  /** A fault with nothing stashed sends the default error response once. */
  lemma FaultWithoutStash(sys: Sys, assets: App.Assets)
    requires sys.conn.request.None?
    ensures var es := [Sent(Head(Utils.DefaultErrorHead())), Sent(Last), Flushed];
      Step(sys, Fault, assets) == sys.(conn := sys.conn.(log := sys.conn.log + es))
  {
  }
}
