/** The application handler: on the end of each request it writes one of three
    response shapes for the request's URI, deferring the tail of the chunked and
    buffered pages to a task on the connection's executor. */
module App {
  import opened Http
  import opened Connection
  import opened Context
  import opened Routes
  import Utils

  const FIRST_CHUNK: string := "<html><head><title>Chunking Test</title></head><body><p>First Chunk</p>"
  const SECOND_CHUNK: string := "<p>2nd Chunk</p></body></html>"
  const IG_FRAG1: string := WEB_ROOT + "/Eliminating-Roundtrips-with-Preconnect_igvita.com_frag1.html"
  const IG_FRAG2: string := WEB_ROOT + "/Eliminating-Roundtrips-with-Preconnect_igvita.com_frag2.html"
  const CLEAN_FRAG1: string := "/web/clean/index_frag1.html"
  const CLEAN_FRAG2: string := "/web/clean/index_frag2.html"
  const CACHE_POLICY: string := "max-age=60, public"

  /** The packaged resources, by path; a path that is absent cannot be read. */
  type Assets = map<string, seq<byte>>

  function HtmlHead(): Response
  {
    Response(HTTP_1_1, 200, Set(NoHeaders, ContentType, "text/html"), false)
  }

  function ChunkedHtmlHead(): Response
  {
    HtmlHead().(headers := Set(HtmlHead().headers, TransferEncoding, "chunked"))
  }

  function BufferedHtmlHead(length: nat): Response
  {
    HtmlHead().(headers := Set(HtmlHead().headers, ContentLength, Decimal(length)))
  }

  function FileHead(path: string, length: nat): Response
  {
    var h := Set(NoHeaders, ContentType, GuessContentType(path));
    var h := Set(h, ContentLength, Decimal(length));
    Response(HTTP_1_1, 200, Set(h, CacheControl, CACHE_POLICY), false)
  }

  function NotFoundHead(): Response
  {
    Response(HTTP_1_1, 404, NoHeaders, false)
  }

  /** What a call issues on the application's context, and whether it then threw. */
  datatype Outcome = Outcome(ops: seq<Op>, threw: bool)

  /** `serveFile`: a full response for the asset, then an empty end-of-message. */
  function ServeFilePlan(path: string, assets: Assets): Outcome
  {
    if path !in assets then Outcome([], true)
    else
      var bytes := assets[path];
      Outcome([WriteOp(Full(FileHead(path, |bytes|), bytes)), WriteOp(Last), FlushOp], false)
  }

  /** The page at the root: a chunked head and the first chunk now, the rest later. */
  function RootPlan(): Outcome
  {
    Outcome([WriteOp(Head(ChunkedHtmlHead())), WriteOp(Content(Ascii(FIRST_CHUNK))), FlushOp, ScheduleOp(RootTail)], false)
  }

  /** The article page: its head goes out before either fragment is read. */
  function IgPagePlan(assets: Assets): Outcome
  {
    var head := [WriteOp(Head(ChunkedHtmlHead()))];
    if IG_FRAG1 !in assets then Outcome(head, true)
    else
      var first := head + [WriteOp(Content(assets[IG_FRAG1])), FlushOp];
      if IG_FRAG2 !in assets then Outcome(first, true)
      else Outcome(first + [ScheduleOp(FinalChunk(assets[IG_FRAG2]))], false)
  }

  /** The clean page: both fragments are read before anything is written; buffered,
      the head declares the whole page's length and the page goes out in one piece. */
  function CleanPagePlan(chunked: bool, assets: Assets): Outcome
  {
    if CLEAN_FRAG1 !in assets || CLEAN_FRAG2 !in assets then Outcome([], true)
    else
      var f1, f2 := assets[CLEAN_FRAG1], assets[CLEAN_FRAG2];
      if !chunked then
        Outcome([WriteOp(Head(BufferedHtmlHead(|f1| + |f2|))), ScheduleOp(FinalChunk(f1 + f2))], false)
      else
        Outcome([WriteOp(Head(ChunkedHtmlHead())), WriteOp(Content(f1)), FlushOp, ScheduleOp(FinalChunk(f2))], false)
  }

  function NotFoundPlan(): Outcome
  {
    Outcome([WriteOp(Head(NotFoundHead())), WriteOp(Last), FlushOp], false)
  }

  /** `respond` for the request in the handler's field. */
  function RespondPlan(request: Option<Request>, assets: Assets): Outcome
  {
    match request
    case None => Outcome([], true)
    case Some(req) =>
      match RouteOf(req.uri)
      case Root => RootPlan()
      case IgPage => IgPagePlan(assets)
      case CleanPage(chunked) => CleanPagePlan(chunked, assets)
      case IgFile(path) => ServeFilePlan(path, assets)
      case CleanFile(path) => ServeFilePlan(path, assets)
      case Favicon => ServeFilePlan(FAVICON_ASSET, assets)
      case NotFound => NotFoundPlan()
  }

  /** What a deferred task issues when it runs. */
  function TaskOps(t: Task): seq<Op>
  {
    match t
    case RootTail => [WriteOp(Content(Ascii(SECOND_CHUNK))), FlushOp, WriteOp(Last), FlushOp]
    case FinalChunk(chunk) => [WriteOp(Content(chunk)), WriteOp(Last), FlushOp]
  }

  /** The handler's field after a read, what the read issues, and whether an
      exception escaped `channelRead`. */
  datatype Reaction = Reaction(request: Option<Request>, ops: seq<Op>, escaped: bool)

  /** `channelRead`: a request head is remembered; an end-of-message is answered, and
      if answering throws the default error response follows, unless the field is
      empty, in which case building the error's log line throws as well. */
  function OnRead(request: Option<Request>, m: InMsg, assets: Assets): Reaction
  {
    match m
    case RequestHead(r) => Reaction(Some(r), [], false)
    case RequestContent(_) => Reaction(request, [], false)
    case RequestLast =>
      var o := RespondPlan(request, assets);
      if !o.threw then Reaction(request, o.ops, false)
      else if request.None? then Reaction(request, o.ops, true)
      else Reaction(request, o.ops + Utils.DefaultErrorOps(), false)
  }

  /** The executor runs the oldest pending task, which empties the handler's field;
      with none pending nothing happens. */
  function FireStep(s: State, request: Option<Request>): (State, Option<Request>)
  {
    if s.tasks == [] then (s, request)
    else (Run(s.(tasks := s.tasks[1..]), AppCtx, TaskOps(s.tasks[0])), None)
  }

  /** The body bytes one operation writes. */
  function Body(op: Op): seq<byte>
  {
    if op.WriteOp? && (op.msg.Content? || op.msg.Full?) then op.msg.body else []
  }

  /** The body bytes the operations write, in order. */
  function Bodies(ops: seq<Op>): seq<byte>
  {
    if ops == [] then [] else Body(ops[0]) + Bodies(ops[1..])
  }

  lemma {:induction false} BodiesAppend(a: seq<Op>, b: seq<Op>)
    ensures Bodies(a + b) == Bodies(a) + Bodies(b)
  {
    if a == [] {
      assert a + b == b;
    } else {
      assert (a + b)[1..] == a[1..] + b;
      BodiesAppend(a[1..], b);
    }
  }

  lemma {:induction false} BodiesEmpty(ops: seq<Op>)
    requires forall i :: 0 <= i < |ops| ==> Body(ops[i]) == []
    ensures Bodies(ops) == []
  {
    if ops != [] {
      assert Body(ops[0]) == [];
      BodiesEmpty(ops[1..]);
    }
  }

  /** Operations of which only the one at `k` writes body bytes write those. */
  lemma {:induction false} BodiesOfOne(ops: seq<Op>, k: nat)
    requires k < |ops|
    requires forall i :: 0 <= i < |ops| && i != k ==> Body(ops[i]) == []
    ensures Bodies(ops) == Body(ops[k])
  {
    var rest := ops[1..];
    assert forall i :: 0 <= i < |rest| ==> rest[i] == ops[i + 1];
    if k == 0 {
      BodiesEmpty(rest);
    } else {
      assert Body(ops[0]) == [];
      BodiesOfOne(rest, k - 1);
    }
  }

  /** Every head the operations write declares at most one framing. */
  predicate FramingSound(ops: seq<Op>)
  {
    forall i :: 0 <= i < |ops| && ops[i].WriteOp? && IsResponse(ops[i].msg) ==> AtMostOneFraming(ops[i].msg.response)
  }

  /** No operation writes an end-of-message. */
  predicate NoEnd(ops: seq<Op>)
  {
    forall i :: 0 <= i < |ops| && ops[i].WriteOp? ==> !IsLast(ops[i].msg)
  }

  /** The operations schedule no task. */
  predicate NoSchedule(ops: seq<Op>)
  {
    forall i :: 0 <= i < |ops| ==> !ops[i].ScheduleOp?
  }

  /** The assets a route reads. */
  function NeededAssets(route: Route): set<string>
  {
    match route
    case IgPage => {IG_FRAG1, IG_FRAG2}
    case CleanPage(_) => {CLEAN_FRAG1, CLEAN_FRAG2}
    case IgFile(path) => {path}
    case CleanFile(path) => {path}
    case Favicon => {FAVICON_ASSET}
    case _ => {}
  }

  /** `respond` throws exactly when there is no request or an asset its route reads
      is missing; a call that throws schedules nothing. */
  lemma RespondThrowsIffAssetMissing(request: Option<Request>, assets: Assets)
    ensures RespondPlan(request, assets).threw <==>
              request.None? || !(NeededAssets(RouteOf(request.value.uri)) <= assets.Keys)
    ensures RespondPlan(request, assets).threw ==> NoSchedule(RespondPlan(request, assets).ops)
  {
  }

  /** A chunked page's plan: a head declaring chunked framing (and no length), then
      the `first` part, written and flushed before any task runs; the scheduled task
      writes `rest` first and then the end-of-message, so the whole body is the two
      parts in order. */
  predicate ChunkedShape(o: Outcome, first: seq<byte>, rest: seq<byte>)
  {
    && !o.threw && |o.ops| == 4 && NoEnd(o.ops)
    && o.ops[0] == WriteOp(Head(ChunkedHtmlHead()))
    && o.ops[1] == WriteOp(Content(first)) && o.ops[2] == FlushOp && o.ops[3].ScheduleOp?
    && TaskOps(o.ops[3].task)[0] == WriteOp(Content(rest))
    && ChunkedSet(ChunkedHtmlHead()) && !ContentLengthSet(ChunkedHtmlHead())
    && Bodies(o.ops + TaskOps(o.ops[3].task)) == first + rest
  }

  lemma {:induction false} ChunkedShapeOf(o: Outcome, first: seq<byte>, t: Task)
    requires o == Outcome([WriteOp(Head(ChunkedHtmlHead())), WriteOp(Content(first)), FlushOp, ScheduleOp(t)], false)
    ensures ChunkedShape(o, first, TaskOps(t)[0].msg.body)
  {
    var tail := TaskOps(t);
    assert Values(ChunkedHtmlHead().headers, TransferEncoding) == ["chunked"];
    BodiesOfOne(o.ops, 1);
    BodiesOfOne(tail, 0);
    BodiesAppend(o.ops, tail);
  }

  /** The root page: the first chunk now, the second by the deferred task. */
  lemma RootPage(request: Request, assets: Assets)
    requires RouteOf(request.uri) == Root
    ensures ChunkedShape(RespondPlan(Some(request), assets), Ascii(FIRST_CHUNK), Ascii(SECOND_CHUNK))
  {
    ChunkedShapeOf(RootPlan(), Ascii(FIRST_CHUNK), RootTail);
  }

  /** The article page, when both fragments exist. */
  lemma IgPageChunked(request: Request, assets: Assets)
    requires RouteOf(request.uri) == IgPage && IG_FRAG1 in assets && IG_FRAG2 in assets
    ensures ChunkedShape(RespondPlan(Some(request), assets), assets[IG_FRAG1], assets[IG_FRAG2])
  {
    ChunkedShapeOf(IgPagePlan(assets), assets[IG_FRAG1], FinalChunk(assets[IG_FRAG2]));
  }

  /** The clean page without `chunked=false`, when both fragments exist. */
  lemma CleanPageChunked(request: Request, assets: Assets)
    requires RouteOf(request.uri) == CleanPage(true) && CLEAN_FRAG1 in assets && CLEAN_FRAG2 in assets
    ensures ChunkedShape(RespondPlan(Some(request), assets), assets[CLEAN_FRAG1], assets[CLEAN_FRAG2])
  {
    ChunkedShapeOf(CleanPagePlan(true, assets), assets[CLEAN_FRAG1], FinalChunk(assets[CLEAN_FRAG2]));
  }

  /** The article page with fragment 1 present and fragment 2 missing: the head,
      fragment 1 and a flush have gone out when the read of fragment 2 throws, so the
      default error operations follow them. */
  lemma IgPageSecondFragmentMissing(request: Request, assets: Assets)
    requires RouteOf(request.uri) == IgPage && IG_FRAG1 in assets && IG_FRAG2 !in assets
    ensures OnRead(Some(request), RequestLast, assets) ==
              Reaction(Some(request),
                       [WriteOp(Head(ChunkedHtmlHead())), WriteOp(Content(assets[IG_FRAG1])), FlushOp]
                         + Utils.DefaultErrorOps(),
                       false)
  {
  }

  /** `/favicon.ico` serves the asset `/web/clean/favicon.ico`, typed `image/x-icon`. */
  lemma FaviconServed(request: Request, assets: Assets)
    requires request.uri == FAVICON
    ensures RespondPlan(Some(request), assets) == ServeFilePlan(FAVICON_ASSET, assets)
    ensures FAVICON_ASSET == "/web/clean/favicon.ico"
    ensures GuessContentType(FAVICON_ASSET) == "image/x-icon"
  {
    FaviconRoute(request.uri);
  }

  /** With `chunked=false` the clean page is buffered: one head declaring the length
      of the whole page (and no chunked framing), no flush before the deferred task runs, and
      a task that writes exactly that many bytes, then the end-of-message. */
  lemma {:induction false} BufferedCleanPage(request: Request, assets: Assets)
    requires RouteOf(request.uri) == CleanPage(false)
    requires CLEAN_FRAG1 in assets && CLEAN_FRAG2 in assets
    ensures var o := RespondPlan(Some(request), assets);
      && !o.threw && |o.ops| == 2 && FlushOp !in o.ops && NoEnd(o.ops)
      && o.ops[0].WriteOp? && o.ops[0].msg.Head? && o.ops[1].ScheduleOp?
      && var h := o.ops[0].msg.response;
         var body := Bodies(o.ops + TaskOps(o.ops[1].task));
         && body == assets[CLEAN_FRAG1] + assets[CLEAN_FRAG2]
         && |Values(h.headers, ContentLength)| == 1
         && ParseDecimal(Values(h.headers, ContentLength)[0]) == Some(|body|)
         && !ChunkedSet(h)
  {
    var page := assets[CLEAN_FRAG1] + assets[CLEAN_FRAG2];
    var ops := [WriteOp(Head(BufferedHtmlHead(|page|))), ScheduleOp(FinalChunk(page))];
    assert RespondPlan(Some(request), assets) == Outcome(ops, false);
    BufferedBody(page);
    BufferedHeadLength(|page|);
  }

  lemma {:induction false} BufferedBody(page: seq<byte>)
    ensures var ops := [WriteOp(Head(BufferedHtmlHead(|page|))), ScheduleOp(FinalChunk(page))];
      Bodies(ops + TaskOps(FinalChunk(page))) == page
  {
    var ops := [WriteOp(Head(BufferedHtmlHead(|page|))), ScheduleOp(FinalChunk(page))];
    var tail := TaskOps(FinalChunk(page));
    BodiesEmpty(ops);
    BodiesOfOne(tail, 0);
    BodiesAppend(ops, tail);
  }

  lemma BufferedHeadLength(n: nat)
    ensures Values(BufferedHtmlHead(n).headers, ContentLength) == [Decimal(n)]
    ensures ParseDecimal(Decimal(n)) == Some(n) && !ChunkedSet(BufferedHtmlHead(n))
  {
    ParseDecimalOfDecimal(n);
  }

  /** A file is served as one full response whose length header is the asset's
      size, with the type guessed from its name and the cache policy, followed by a
      separate empty end-of-message; a missing asset throws before anything is
      written. */
  lemma ServedFile(path: string, assets: Assets)
    ensures path !in assets ==> ServeFilePlan(path, assets) == Outcome([], true)
    ensures path in assets ==>
      var o := ServeFilePlan(path, assets);
      && !o.threw && |o.ops| == 3 && o.ops[1] == WriteOp(Last) && o.ops[2] == FlushOp
      && o.ops[0].WriteOp? && o.ops[0].msg.Full? && o.ops[0].msg.body == assets[path]
      && var h := o.ops[0].msg.response;
         && h.status == 200 && ContentLengthSet(h) && !ChunkedSet(h)
         && ParseDecimal(Values(h.headers, ContentLength)[0]) == Some(|assets[path]|)
         && Values(h.headers, ContentType) == [GuessContentType(path)]
         && Values(h.headers, CacheControl) == [CACHE_POLICY]
  {
    if path in assets {
      ParseDecimalOfDecimal(|assets[path]|);
    }
  }

  /** An unknown URI gets a `404` head with no framing header, then an empty
      end-of-message and a flush. */
  lemma NotFoundResponse(request: Request, assets: Assets)
    requires RouteOf(request.uri) == NotFound
    ensures var o := RespondPlan(Some(request), assets);
      && !o.threw && o.ops == [WriteOp(Head(NotFoundHead())), WriteOp(Last), FlushOp]
      && NotFoundHead().status == 404
      && !ContentLengthSet(NotFoundHead()) && !ChunkedSet(NotFoundHead())
  {
  }

  /** Each task writes its content, no head, and ends the message exactly once, last. */
  lemma TaskEndsMessage(t: Task)
    ensures var ops := TaskOps(t);
      && |ops| >= 3 && ops[|ops| - 2] == WriteOp(Last) && ops[|ops| - 1] == FlushOp
      && NoEnd(ops[..|ops| - 2]) && FramingSound(ops) && NoSchedule(ops)
      && (forall i :: 0 <= i < |ops| && ops[i].WriteOp? ==> !IsResponse(ops[i].msg))
  {
  }

  /** What running a task guarantees, for `FireEndsMessage`. */
  predicate FiredWell(s: State, r: State)
  {
    && r.tasks == s.tasks && r.request == s.request && r.passed == s.passed
    && r.shouldClose == s.shouldClose
    && r.closed == (s.closed || s.closeNow || s.shouldClose)
    && |r.log| > |s.log| && r.log[..|s.log|] == s.log
  }

  lemma {:induction false} RootTailRuns(s: State)
    ensures FiredWell(s, Run(s, AppCtx, TaskOps(RootTail)))
  {
    var ops := TaskOps(RootTail);
    Run4(s, AppCtx, ops[0], ops[1], ops[2], ops[3]);
    assert ops == [ops[0], ops[1], ops[2], ops[3]];
    var s1 := Issue(s, AppCtx, ops[0]);
    var s2 := Issue(s1, AppCtx, ops[1]);
    var s3 := Issue(s2, AppCtx, ops[2]);
    var s4 := Issue(s3, AppCtx, ops[3]);
    assert s1.closeNow == s.closeNow && s1.closed == s.closed && s1.shouldClose == s.shouldClose;
    assert s2.closed == (s.closed || s.closeNow) && s2.closeNow == s.closeNow && s2.shouldClose == s.shouldClose;
    assert s3.closeNow == (s.closeNow || s.shouldClose) && s3.shouldClose == s.shouldClose && s3.closed == s2.closed;
    assert s3.log[..|s.log|] == s.log;
    assert s4.log[..|s.log|] == s.log;
  }

  lemma {:induction false} FinalChunkRuns(s: State, chunk: seq<byte>)
    ensures FiredWell(s, Run(s, AppCtx, TaskOps(FinalChunk(chunk))))
  {
    var ops := TaskOps(FinalChunk(chunk));
    Run3(s, AppCtx, ops[0], ops[1], ops[2]);
    assert ops == [ops[0], ops[1], ops[2]];
    var s1 := Issue(s, AppCtx, ops[0]);
    var s2 := Issue(s1, AppCtx, ops[1]);
    var s3 := Issue(s2, AppCtx, ops[2]);
    assert s1.closeNow == s.closeNow && s1.closed == s.closed && s1.shouldClose == s.shouldClose;
    assert s2.closeNow == (s.closeNow || s.shouldClose) && s2.shouldClose == s.shouldClose && s2.closed == s.closed;
    assert s2.log[..|s.log|] == s.log;
    assert s3.log[..|s.log|] == s.log;
  }

  /** When the executor runs a pending task, the deferred task ends the message and the
      handler's field is emptied; the flush that follows the end-of-message closes
      the channel exactly when a response on it called for closing. The stash and
      the capture log are not touched. */
  lemma {:induction false} FireEndsMessage(s: State, request: Option<Request>)
    requires s.tasks != []
    ensures var (r, req) := FireStep(s, request);
      && req == None && r.tasks == s.tasks[1..] && r.request == s.request && r.passed == s.passed
      && r.shouldClose == s.shouldClose
      && r.closed == (s.closed || s.closeNow || s.shouldClose)
      && |r.log| > |s.log| && r.log[..|s.log|] == s.log
  {
    var s0 := s.(tasks := s.tasks[1..]);
    match s.tasks[0]
    case RootTail => RootTailRuns(s0);
    case FinalChunk(chunk) => FinalChunkRuns(s0, chunk);
  }

  /** `channelRead` lets an exception escape only on an end-of-message with no
      request; when answering a known request throws, the default error response
      follows what was already written. A read other than an end-of-message writes
      nothing. */
  lemma ReadOutcomes(request: Option<Request>, m: InMsg, assets: Assets)
    ensures var r := OnRead(request, m, assets);
      && (r.escaped <==> m.RequestLast? && request.None?)
      && (r.escaped ==> r.ops == [])
      && (!m.RequestLast? ==> r.ops == [])
      && (m.RequestHead? ==> r.request == Some(m.request))
      && (!m.RequestHead? ==> r.request == request)
      && (m.RequestLast? && request.Some? && RespondPlan(request, assets).threw ==>
            |r.ops| >= 3 && r.ops[|r.ops| - 3..] == Utils.DefaultErrorOps())
  {
  }

  lemma {:induction false} FramingSoundAppend(a: seq<Op>, b: seq<Op>)
    requires FramingSound(a) && FramingSound(b)
    ensures FramingSound(a + b)
  {
    forall i | 0 <= i < |a + b| && (a + b)[i].WriteOp? && IsResponse((a + b)[i].msg)
      ensures AtMostOneFraming((a + b)[i].msg.response)
    {
      if i >= |a| {
        assert (a + b)[i] == b[i - |a|];
      }
    }
  }

  /** Each head the handler builds declares at most one framing. */
  lemma ChunkedHeadFramed()
    ensures ExactlyOneFraming(ChunkedHtmlHead())
  {
    assert Values(ChunkedHtmlHead().headers, TransferEncoding) == ["chunked"];
  }

  lemma BufferedHeadFramed(n: nat)
    ensures ExactlyOneFraming(BufferedHtmlHead(n))
  {
  }

  lemma FileHeadFramed(path: string, n: nat)
    ensures ExactlyOneFraming(FileHead(path, n))
  {
  }

  lemma ServeFileFramingSound(path: string, assets: Assets)
    ensures FramingSound(ServeFilePlan(path, assets).ops)
  {
    if path in assets {
      FileHeadFramed(path, |assets[path]|);
    }
  }

  lemma RootFramingSound()
    ensures FramingSound(RootPlan().ops)
  {
    ChunkedHeadFramed();
  }

  lemma IgPageFramingSound(assets: Assets)
    ensures FramingSound(IgPagePlan(assets).ops)
  {
    ChunkedHeadFramed();
  }

  lemma CleanPageFramingSound(chunked: bool, assets: Assets)
    ensures FramingSound(CleanPagePlan(chunked, assets).ops)
  {
    ChunkedHeadFramed();
    if CLEAN_FRAG1 in assets && CLEAN_FRAG2 in assets {
      BufferedHeadFramed(|assets[CLEAN_FRAG1]| + |assets[CLEAN_FRAG2]|);
    }
  }

  lemma NotFoundFramingSound()
    ensures FramingSound(NotFoundPlan().ops)
  {
  }

  lemma PagesFramingSound(assets: Assets)
    ensures FramingSound(RootPlan().ops) && FramingSound(IgPagePlan(assets).ops)
    ensures FramingSound(CleanPagePlan(true, assets).ops) && FramingSound(CleanPagePlan(false, assets).ops)
    ensures FramingSound(NotFoundPlan().ops)
  {
    RootFramingSound();
    IgPageFramingSound(assets);
    CleanPageFramingSound(true, assets);
    CleanPageFramingSound(false, assets);
    NotFoundFramingSound();
  }

  lemma RespondFramingSound(request: Option<Request>, assets: Assets)
    ensures FramingSound(RespondPlan(request, assets).ops)
  {
    if request.Some? {
      PagesFramingSound(assets);
      match RouteOf(request.value.uri)
      case IgFile(path) => ServeFileFramingSound(path, assets);
      case CleanFile(path) => ServeFileFramingSound(path, assets);
      case Favicon => ServeFileFramingSound(FAVICON_ASSET, assets);
      case _ =>
    }
  }

  /** Every head the handler writes, on any path, declares at most one framing. */
  lemma ReadFramingSound(request: Option<Request>, m: InMsg, assets: Assets)
    ensures FramingSound(OnRead(request, m, assets).ops)
  {
    if m.RequestLast? {
      var o := RespondPlan(request, assets);
      RespondFramingSound(request, assets);
      assert FramingSound(Utils.DefaultErrorOps());
      FramingSoundAppend(o.ops, Utils.DefaultErrorOps());
    }
  }

  class AppHandler {
    var request: Option<Request>
    const assets: Assets

    constructor (assets: Assets)
      ensures request == None && this.assets == assets
    {
      request := None;
      this.assets := assets;
    }

    method ChannelRead(ch: Channel, m: InMsg) returns (escaped: bool)
      modifies this, ch
      ensures var r := OnRead(old(request), m, assets);
        request == r.request && escaped == r.escaped && ch.Snapshot() == Run(old(ch.Snapshot()), AppCtx, r.ops)
    {
      escaped := false;
      if m.RequestHead? {
        request := Some(m.request);
      } else if m.RequestLast? {
        ghost var s0 := ch.Snapshot();
        var threw := Respond(ch);
        if threw {
          if request.None? {
            // Building the error's log line dereferences the empty field again.
            escaped := true;
          } else {
            Utils.SendDefaultErrorResponse(ch, AppCtx);
            RunAppend(s0, AppCtx, RespondPlan(request, assets).ops, Utils.DefaultErrorOps());
          }
        }
      } else {
        assert Run(ch.Snapshot(), AppCtx, []) == ch.Snapshot();
      }
    }

    method Respond(ch: Channel) returns (threw: bool)
      modifies ch
      ensures threw == RespondPlan(request, assets).threw
      ensures ch.Snapshot() == Run(old(ch.Snapshot()), AppCtx, RespondPlan(request, assets).ops)
    {
      if request.None? {
        // The dereference of the empty field throws.
        assert Run(ch.Snapshot(), AppCtx, []) == ch.Snapshot();
        return true;
      }
      var uri := request.value.uri;
      ghost var plan := RespondPlan(request, assets);
      if uri == "/" {
        assert RouteOf(uri) == Root;
        assert plan == RootPlan();
        RespondRoot(ch);
        threw := false;
      } else if uri == IG_PAGE {
        assert RouteOf(uri) == IgPage;
        assert plan == IgPagePlan(assets);
        threw := RespondIgPage(ch);
      } else if uri == CLEAN || StartsWith(uri, CLEAN_QUERY) {
        assert RouteOf(uri) == CleanPage(!Contains(uri, NOT_CHUNKED));
        assert plan == CleanPagePlan(!Contains(uri, NOT_CHUNKED), assets);
        threw := RespondCleanPage(ch, !Contains(uri, NOT_CHUNKED));
      } else if StartsWith(uri, IG_FILES) {
        var startIndex := |IG_PREFIX|;
        var path := WEB_ROOT + uri[startIndex..];
        assert RouteOf(uri) == IgFile(path);
        assert plan == ServeFilePlan(path, assets);
        threw := ServeFile(ch, path);
      } else if StartsWith(uri, CLEAN) {
        var path := WEB_ROOT + uri;
        assert RouteOf(uri) == CleanFile(path);
        assert plan == ServeFilePlan(path, assets);
        threw := ServeFile(ch, path);
      } else if uri == FAVICON {
        var path := FAVICON_ASSET;
        assert RouteOf(uri) == Favicon;
        assert plan == ServeFilePlan(path, assets);
        threw := ServeFile(ch, path);
      } else {
        assert RouteOf(uri) == NotFound;
        assert plan == NotFoundPlan();
        RespondNotFound(ch);
        threw := false;
      }
    }

    method RespondRoot(ch: Channel)
      modifies ch
      ensures ch.Snapshot() == Run(old(ch.Snapshot()), AppCtx, RootPlan().ops)
    {
      ghost var s0 := ch.Snapshot();
      var response := Response(HTTP_1_1, 200, NoHeaders, false);
      response := response.(headers := Set(response.headers, ContentType, "text/html"));
      response := response.(headers := Set(response.headers, TransferEncoding, "chunked"));
      assert response == ChunkedHtmlHead();
      Write(ch, AppCtx, Head(response));
      RunOne(s0, AppCtx, WriteOp(Head(response)));
      WriteAndFlush(ch, AppCtx, Content(Ascii(FIRST_CHUNK)));
      RunAppend(s0, AppCtx, [WriteOp(Head(response))], [WriteOp(Content(Ascii(FIRST_CHUNK))), FlushOp]);
      ghost var done := [WriteOp(Head(response))] + [WriteOp(Content(Ascii(FIRST_CHUNK))), FlushOp];
      Schedule(ch, RootTail);
      RunSnoc(s0, AppCtx, done, ScheduleOp(RootTail));
      assert done + [ScheduleOp(RootTail)] == RootPlan().ops;
    }

    method RespondIgPage(ch: Channel) returns (threw: bool)
      modifies ch
      ensures threw == IgPagePlan(assets).threw
      ensures ch.Snapshot() == Run(old(ch.Snapshot()), AppCtx, IgPagePlan(assets).ops)
    {
      ghost var s0 := ch.Snapshot();
      var response := Response(HTTP_1_1, 200, NoHeaders, false);
      response := response.(headers := Set(response.headers, ContentType, "text/html"));
      response := response.(headers := Set(response.headers, TransferEncoding, "chunked"));
      assert response == ChunkedHtmlHead();
      Write(ch, AppCtx, Head(response));
      RunOne(s0, AppCtx, WriteOp(Head(response)));
      ghost var done := [WriteOp(Head(response))];
      if IG_FRAG1 !in assets {
        // Reading the first fragment throws after the head went out.
        return true;
      }
      var firstChunk := assets[IG_FRAG1];
      WriteAndFlush(ch, AppCtx, Content(firstChunk));
      RunAppend(s0, AppCtx, done, [WriteOp(Content(firstChunk)), FlushOp]);
      done := done + [WriteOp(Content(firstChunk)), FlushOp];
      if IG_FRAG2 !in assets {
        return true;
      }
      var secondChunk := assets[IG_FRAG2];
      DelayFinalChunk(ch, secondChunk);
      RunSnoc(s0, AppCtx, done, ScheduleOp(FinalChunk(secondChunk)));
      threw := false;
    }

    method RespondCleanPage(ch: Channel, chunked: bool) returns (threw: bool)
      modifies ch
      ensures threw == CleanPagePlan(chunked, assets).threw
      ensures ch.Snapshot() == Run(old(ch.Snapshot()), AppCtx, CleanPagePlan(chunked, assets).ops)
    {
      ghost var s0 := ch.Snapshot();
      var response := Response(HTTP_1_1, 200, NoHeaders, false);
      response := response.(headers := Set(response.headers, ContentType, "text/html"));
      assert response == HtmlHead();
      if CLEAN_FRAG1 !in assets || CLEAN_FRAG2 !in assets {
        // Reading a fragment throws before anything is written.
        assert Run(s0, AppCtx, []) == s0;
        return true;
      }
      var firstChunk, secondChunk := assets[CLEAN_FRAG1], assets[CLEAN_FRAG2];
      if !chunked {
        var wholePage := firstChunk + secondChunk;
        assert CleanPagePlan(chunked, assets).ops == [WriteOp(Head(BufferedHtmlHead(|wholePage|))), ScheduleOp(FinalChunk(wholePage))];
        response := response.(headers := Set(response.headers, ContentLength, Decimal(|wholePage|)));
        assert response == BufferedHtmlHead(|wholePage|);
        Write(ch, AppCtx, Head(response));
        RunOne(s0, AppCtx, WriteOp(Head(response)));
        DelayFinalChunk(ch, wholePage);
        RunSnoc(s0, AppCtx, [WriteOp(Head(response))], ScheduleOp(FinalChunk(wholePage)));
        assert [WriteOp(Head(response))] + [ScheduleOp(FinalChunk(wholePage))] == CleanPagePlan(chunked, assets).ops;
      } else {
        assert CleanPagePlan(chunked, assets).ops ==
          [WriteOp(Head(ChunkedHtmlHead())), WriteOp(Content(firstChunk)), FlushOp, ScheduleOp(FinalChunk(secondChunk))];
        response := response.(headers := Set(response.headers, TransferEncoding, "chunked"));
        assert response == ChunkedHtmlHead();
        Write(ch, AppCtx, Head(response));
        RunOne(s0, AppCtx, WriteOp(Head(response)));
        WriteAndFlush(ch, AppCtx, Content(firstChunk));
        RunAppend(s0, AppCtx, [WriteOp(Head(response))], [WriteOp(Content(firstChunk)), FlushOp]);
        ghost var done := [WriteOp(Head(response))] + [WriteOp(Content(firstChunk)), FlushOp];
        DelayFinalChunk(ch, secondChunk);
        RunSnoc(s0, AppCtx, done, ScheduleOp(FinalChunk(secondChunk)));
        assert done + [ScheduleOp(FinalChunk(secondChunk))] ==
          [WriteOp(Head(ChunkedHtmlHead())), WriteOp(Content(firstChunk)), FlushOp, ScheduleOp(FinalChunk(secondChunk))];
      }
      threw := false;
    }

    method RespondNotFound(ch: Channel)
      modifies ch
      ensures ch.Snapshot() == Run(old(ch.Snapshot()), AppCtx, NotFoundPlan().ops)
    {
      ghost var s0 := ch.Snapshot();
      var response := Response(HTTP_1_1, 404, NoHeaders, false);
      Write(ch, AppCtx, Head(response));
      RunOne(s0, AppCtx, WriteOp(Head(response)));
      WriteAndFlush(ch, AppCtx, Last);
      RunAppend(s0, AppCtx, [WriteOp(Head(response))], [WriteOp(Last), FlushOp]);
      assert [WriteOp(Head(response))] + [WriteOp(Last), FlushOp] == NotFoundPlan().ops;
    }

    method DelayFinalChunk(ch: Channel, chunk: seq<byte>)
      modifies ch
      ensures ch.Snapshot() == Enqueue(old(ch.Snapshot()), FinalChunk(chunk))
    {
      Schedule(ch, FinalChunk(chunk));
    }

    method ServeFile(ch: Channel, path: string) returns (threw: bool)
      modifies ch
      ensures threw == ServeFilePlan(path, assets).threw
      ensures ch.Snapshot() == Run(old(ch.Snapshot()), AppCtx, ServeFilePlan(path, assets).ops)
    {
      ghost var s0 := ch.Snapshot();
      if path !in assets {
        // Reading the resource throws.
        assert Run(s0, AppCtx, []) == s0;
        return true;
      }
      var bb := assets[path];
      var contentType := GuessContentType(path);
      var response := Response(HTTP_1_1, 200, NoHeaders, false);
      response := response.(headers := Set(response.headers, ContentType, contentType));
      response := response.(headers := Set(response.headers, ContentLength, Decimal(|bb|)));
      response := response.(headers := Set(response.headers, CacheControl, CACHE_POLICY));
      assert response == FileHead(path, |bb|);
      Write(ch, AppCtx, Full(response, bb));
      RunOne(s0, AppCtx, WriteOp(Full(response, bb)));
      WriteAndFlush(ch, AppCtx, Last);
      RunAppend(s0, AppCtx, [WriteOp(Full(response, bb))], [WriteOp(Last), FlushOp]);
      assert [WriteOp(Full(response, bb))] + [WriteOp(Last), FlushOp] == ServeFilePlan(path, assets).ops;
      threw := false;
    }

    /** The executor runs the oldest pending task; returns whether there was one. */
    method RunTask(ch: Channel) returns (ran: bool)
      modifies this, ch
      ensures (ch.Snapshot(), request) == FireStep(old(ch.Snapshot()), old(request))
      ensures ran == (old(ch.tasks) != [])
    {
      var t := ch.TakeTask();
      ghost var s0 := ch.Snapshot();
      match t
      case None =>
        ran := false;
      case Some(RootTail) =>
        var content2 := Content(Ascii(SECOND_CHUNK));
        WriteAndFlush(ch, AppCtx, content2);
        WriteAndFlush(ch, AppCtx, Last);
        RunAppend(s0, AppCtx, [WriteOp(content2), FlushOp], [WriteOp(Last), FlushOp]);
        assert [WriteOp(content2), FlushOp] + [WriteOp(Last), FlushOp] == TaskOps(RootTail);
        request := None;
        ran := true;
      case Some(FinalChunk(chunk)) =>
        Write(ch, AppCtx, Content(chunk));
        RunOne(s0, AppCtx, WriteOp(Content(chunk)));
        WriteAndFlush(ch, AppCtx, Last);
        RunAppend(s0, AppCtx, [WriteOp(Content(chunk))], [WriteOp(Last), FlushOp]);
        assert [WriteOp(Content(chunk))] + [WriteOp(Last), FlushOp] == TaskOps(FinalChunk(chunk));
        request := None;
        ran := true;
    }
  }
}
