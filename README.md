# A verified model of the chunking test server's response pipeline

The chunking test server serves a handful of pages over HTTP/1.x to observe how
browsers render chunked and deferred responses. On each connection, Netty's
decoded messages pass the capture stage and then reach the application, and the
hygiene filter sees the application's writes and flushes on their way out:
- the **capture stage** (`InboundPoliteHTTPHandler`), which stashes the request
  head in the connection's attribute bag;
- the **hygiene filter** (`OutboundPoliteHTTPHandler`), outbound only, which fixes
  up every response the application writes: the version, the framing headers and the
  keep-alive decision. It closes the connection on the first flush after the end
  of a response that must not persist;
- the **application** (`AppHandler`), which routes the URI to one of three
  response shapes:
  - a full file;
  - a chunked head and first chunk, with the tail deferred to the connection's
    executor;
  - a `Content-Length` head whose whole body is deferred.

`Utils.sendDefaultErrorResponse` writes a fixed `500` with `Content-Length: 0`.

The model is split into modules:
- `Http`: messages, heads, headers, the keep-alive rule of section 6.3 of RFC 7230,
  and decimal Content-Length values.
- `Connection`: the shared per-connection state as a `Channel` class. A
  `State` snapshot holds:
  - the KEY_REQUEST stash;
  - the KEY_SHOULD_CLOSE and KEY_CLOSE_NOW flags;
  - whether the channel is closed;
  - the log of what reaches the codec;
  - the executor's FIFO of deferred tasks;
  - the messages the capture stage passed on.
- `Outbound`: the filter's `write`, `flush` and `close`.
- `OutboundFault`: the filter's `exceptionCaught`.
- `Context`: `ctx.write`/`flush`/`schedule` issued from a handler's context.
  The handler order in `Server.java:103-108` decides which contexts pass through
  the filter. Only the application's writes do; writes issued from the capture
  stage's or the filter's own context go straight to the codec.
- `Utils`: the default error response.
- `Inbound`: the capture stage.
- `Routes`: the pure URI logic: route selection, path building and the
  media-type table.
- `App`: the `AppHandler` class and the plans its calls issue.
- `Pipeline`: one connection as a step function over decoded messages, timer
  firings and faults, with an invariant proved for every sequence of them.
- `Scenarios`: whole exchanges on a fresh connection.

Each imperative method mirrors the Java statement by statement. Its `ensures`
ties the channel's new snapshot to a pure step function or plan of the old one.
The properties are proved about those functions.

Where the code and its documentation disagree, the model follows the code:
- Only the application's default error response passes the filter. The capture
  stage and the filter send theirs from a context in front of the filter, so
  those heads are neither fixed up nor able to close the connection
  (`Utils.ErrorBypassingFilter`, `Inbound.FaultStep`).
- A fault while a request is stashed sends the default error response twice,
  once from each hygiene stage (`Scenarios.FaultWithStash`).
- On `/ig-eliminating-roundtrips/` the chunked head is written before the
  fragments are read. A missing fragment therefore leaves the default `500` head
  with no stash, and the filter fails that write. With fragment 1 missing, only
  the end-of-message and a flush follow the `200` head
  (`Scenarios.ArticleFragmentMissing`). With fragment 2 missing, fragment 1 and a
  flush have already gone out, and the end-of-message and a flush follow them
  (`App.IgPageSecondFragmentMissing`).
- Responses are not held back for request order. A request that arrives while a
  chunked response still waits for its deferred task is answered at once, so its
  head and body reach the codec between the earlier head and that head's tail. In
  the model an `Arrive` stimulus runs the reaction at once, whatever tasks are
  pending (`Pipeline.Step`).
- When `channelRead` answers with no request head seen, both `respond` and the
  error log line dereference the empty field. The exception escapes
  `channelRead` and nothing is written (`App.ReadOutcomes`).

## Model

| member | source | states |
|---|---|---|
| Http.ParseDecimalOfDecimal | src/main/java/com/kerumai/chunking/AppHandler.java:99 | a length rendered as a Content-Length value reads back as the same number |
| Outbound.FixHead | src/main/java/com/kerumai/chunking/OutboundPoliteHTTPHandler.java:30-55 | the response's version becomes the request's and the status is kept; chunked coding is added exactly when no framing was declared, and declared framing is left as it was; the result has exactly one framing iff the input had at most one; the response is marked keep-alive iff the request is; `Connection: close` is set only for a non-persistent HTTP/1.0 request; no other header changes |
| Outbound.WriteStep | src/main/java/com/kerumai/chunking/OutboundPoliteHTTPHandler.java:25-78 | every message is forwarded exactly once with only the head fix-ups applied, except a head that finds no stash, which is dropped; any response head removes the stash, even when the fix-ups throw; KEY_SHOULD_CLOSE becomes set exactly when a stashed request is not keep-alive; KEY_CLOSE_NOW becomes set exactly when a forwarded end-of-message (a full response included) meets KEY_SHOULD_CLOSE; the channel, the deferred task queue and the capture log are untouched |
| Outbound.FlushStep | src/main/java/com/kerumai/chunking/OutboundPoliteHTTPHandler.java:81-93 | the flush is forwarded, and the channel closes afterwards iff KEY_CLOSE_NOW is set and it is still open; nothing else changes |
| Outbound.FixUp | src/main/java/com/kerumai/chunking/OutboundPoliteHTTPHandler.java:30-55 | the in-place fix-ups produce exactly `FixHead` of the head for the stashed request, and set KEY_SHOULD_CLOSE exactly when that request is not keep-alive; nothing else on the channel changes |
| Outbound.Write | src/main/java/com/kerumai/chunking/OutboundPoliteHTTPHandler.java:25-78 | the in-place `write` changes the channel exactly as `WriteStep` says |
| Outbound.Flush | src/main/java/com/kerumai/chunking/OutboundPoliteHTTPHandler.java:81-93 | the in-place `flush` changes the channel exactly as `FlushStep` says |
| Outbound.Close | src/main/java/com/kerumai/chunking/OutboundPoliteHTTPHandler.java:96-99 | a close request from a later handler changes nothing |
| Outbound.FlagsNeverCleared | src/main/java/com/kerumai/chunking/OutboundPoliteHTTPHandler.java:54 | neither `write` nor `flush` ever clears KEY_SHOULD_CLOSE or KEY_CLOSE_NOW, or reopens the channel |
| Outbound.KeepAliveDecision | src/main/java/com/kerumai/chunking/OutboundPoliteHTTPHandler.java:44-55 | a keep-alive request marks the response keep-alive and leaves KEY_SHOULD_CLOSE as it was; any other request sets it; the response carries `Connection: close` iff it did already or the request is a non-persistent HTTP/1.0 one |
| OutboundFault.FaultStep | src/main/java/com/kerumai/chunking/OutboundPoliteHTTPHandler.java:102-111 | with no stash the log line's dereference throws and nothing changes; with one, the default error response reaches the codec untouched and nothing else changes |
| OutboundFault.ExceptionCaught | src/main/java/com/kerumai/chunking/OutboundPoliteHTTPHandler.java:102-111 | the handler throws iff nothing is stashed, and changes the channel as `FaultStep` says |
| Inbound.CaptureStep | src/main/java/com/kerumai/chunking/InboundPoliteHTTPHandler.java:24-35 | every message is passed on exactly once and unchanged; a request head overwrites the stash, and any other message leaves it as it was; nothing is written |
| Inbound.ChannelRead | src/main/java/com/kerumai/chunking/InboundPoliteHTTPHandler.java:24-35 | the in-place `channelRead` changes the channel as `CaptureStep` says |
| Inbound.FaultStep | src/main/java/com/kerumai/chunking/InboundPoliteHTTPHandler.java:38-51 | with or without a stash, the default error response goes to the codec untouched, and the stash and the flags stay as they were |
| Inbound.ExceptionCaught | src/main/java/com/kerumai/chunking/InboundPoliteHTTPHandler.java:38-51 | the in-place `exceptionCaught` changes the channel as `FaultStep` says |
| Inbound.FaultPathsCompared | src/main/java/com/kerumai/chunking/InboundPoliteHTTPHandler.java:40-48 | with nothing stashed, the capture stage's error path still sends its three events and keeps the stash, while the filter's sends nothing |
| Utils.DefaultErrorHead | src/main/java/com/kerumai/chunking/Utils.java:15-16 | status 500, HTTP/1.1, Content-Length reading as 0, no Transfer-Encoding, so exactly one framing |
| Utils.DefaultErrorOps | src/main/java/com/kerumai/chunking/Utils.java:17-18 | the head, then an empty end-of-message, then a flush |
| Utils.SendDefaultErrorResponse | src/main/java/com/kerumai/chunking/Utils.java:13-19 | the channel changes as issuing `DefaultErrorOps` from the caller's context |
| Utils.ErrorThroughFilter | src/main/java/com/kerumai/chunking/Utils.java:13-19 | from the application's context, with a stash the log gets the fixed-up 500 head, then the end-of-message and a flush; the head has the request's version, a Content-Length and no chunked coding; the channel is closed afterwards iff it was, or KEY_CLOSE_NOW or KEY_SHOULD_CLOSE was set, or the request does not persist; without a stash the head is dropped; the stash ends empty either way |
| Utils.ErrorBypassingFilter | src/main/java/com/kerumai/chunking/Utils.java:13-19 | from a context in front of the filter, exactly the three events reach the codec and nothing else changes |
| Context.Write | src/main/java/com/kerumai/chunking/Server.java:103-108 | a write from the application's context goes through the filter, and one from a context in front of it goes straight to the codec |
| Context.Flush | src/main/java/com/kerumai/chunking/Server.java:103-108 | the same routing for a flush |
| Context.WriteAndFlush | src/main/java/com/kerumai/chunking/Server.java:103-108 | `writeAndFlush` is a write followed by a flush from the same context |
| Context.Schedule | src/main/java/com/kerumai/chunking/AppHandler.java:61-71 | scheduling queues the deferred task behind the pending ones |
| Context.RunAppend | src/main/java/com/kerumai/chunking/Server.java:103-108 | issuing two sequences of operations one after the other is issuing their concatenation |
| Connection.Channel.TakeTask | src/main/java/com/kerumai/chunking/AppHandler.java:139-147 | the executor takes the oldest pending task, or finds none and changes nothing |
| Routes.Contains | src/main/java/com/kerumai/chunking/AppHandler.java:96 | true iff the text occurs in the URI at some position |
| Routes.FirstMatchWins | src/main/java/com/kerumai/chunking/AppHandler.java:50-135 | a route table chooses nothing iff no row matches; otherwise it chooses the kind of a matching row with no matching row before it |
| Routes.RouteOfIsFirstMatch | src/main/java/com/kerumai/chunking/AppHandler.java:50-135 | the dispatcher's choice is the first match in the fixed table, in the source's order, and the 404 is chosen iff no row matches |
| Routes.CleanPageRoute | src/main/java/com/kerumai/chunking/AppHandler.java:89-96 | the fragment page is chosen iff the URI is `/clean/` or starts with `/clean/?`, and it is chunked iff the URI does not contain `chunked=false` |
| Routes.CleanFileRoute | src/main/java/com/kerumai/chunking/AppHandler.java:120-123 | every other URI under `/clean/` is served as a file at `/web` followed by the whole URI |
| Routes.IgFileRoute | src/main/java/com/kerumai/chunking/AppHandler.java:114-118 | URIs under the ig-files prefix are served as files: the 26-character `/ig-eliminating-roundtrips` is replaced by `/web`, and the mapping is invertible |
| Routes.FaviconRoute | src/main/java/com/kerumai/chunking/AppHandler.java:125-128 | `/favicon.ico`, and only it, is chosen as the favicon route |
| App.FaviconServed | src/main/java/com/kerumai/chunking/AppHandler.java:125-128 | `/favicon.ico` serves the asset `/web/clean/favicon.ico`, with the type `image/x-icon` |
| Routes.GuessIsTableLookup | src/main/java/com/kerumai/chunking/AppHandler.java:165-186 | the media type is the first matching suffix in the order `.js`, `.css`, `.webp`, `.png`, `.ico`, `.woff2`, and `text/html` otherwise |
| Routes.GuessDependsOnSuffix | src/main/java/com/kerumai/chunking/AppHandler.java:165-186 | the media type depends only on the last six characters of the path |
| App.RespondThrowsIffAssetMissing | src/main/java/com/kerumai/chunking/AppHandler.java:48-135 | `respond` throws iff no request was seen or an asset its route reads is missing, and a call that throws schedules nothing |
| App.RootPage | src/main/java/com/kerumai/chunking/AppHandler.java:50-72 | `/` writes a `text/html` head with chunked coding and no length, then writes the first chunk and flushes it, with no end-of-message; the deferred task's first write is the second chunk, and the whole body is the first chunk then the second |
| App.IgPageChunked | src/main/java/com/kerumai/chunking/AppHandler.java:74-87 | the article page writes the same head, then writes fragment 1 and flushes it; the deferred task's first write is fragment 2, and the whole body is fragment 1 then fragment 2 |
| App.IgPageSecondFragmentMissing | src/main/java/com/kerumai/chunking/AppHandler.java:74-87 | with fragment 2 missing, the head, fragment 1 and a flush are issued, then the default error operations; no task is scheduled and nothing escapes |
| App.CleanPageChunked | src/main/java/com/kerumai/chunking/AppHandler.java:104-111 | the chunked clean page writes the same head, then writes fragment 1 and flushes it; the deferred task's first write is fragment 2, and the whole body is fragment 1 then fragment 2 |
| App.BufferedCleanPage | src/main/java/com/kerumai/chunking/AppHandler.java:96-103 | with `chunked=false`, one head declares a Content-Length equal to the page's length and no chunked coding; nothing is flushed before the deferred task; the only body written is fragment 1 then fragment 2 |
| App.ServedFile | src/main/java/com/kerumai/chunking/AppHandler.java:150-163 | a file is one full `200` response whose Content-Length is the asset's size, with the guessed type and `max-age=60, public`, then an extra empty end-of-message and a flush; a missing asset throws before anything is written |
| App.NotFoundResponse | src/main/java/com/kerumai/chunking/AppHandler.java:130-134 | an unknown URI gets a `404` head with no framing header and no body, then an end-of-message and a flush |
| App.TaskEndsMessage | src/main/java/com/kerumai/chunking/AppHandler.java:137-148 | each deferred task writes no head and ends the message exactly once, just before its last flush |
| App.FireEndsMessage | src/main/java/com/kerumai/chunking/AppHandler.java:137-148 | running the oldest task empties the handler's field and removes the deferred task; the log only grows; the channel is closed afterwards iff it was, or KEY_CLOSE_NOW or KEY_SHOULD_CLOSE was set; the stash and the capture log are untouched |
| App.ReadOutcomes | src/main/java/com/kerumai/chunking/AppHandler.java:28-46 | an exception escapes `channelRead` iff an end-of-message arrives with no request seen, and then nothing is written; only an end-of-message writes anything; a request head is remembered; when answering a known request throws, the default error response follows what was written |
| App.ReadFramingSound | src/main/java/com/kerumai/chunking/AppHandler.java:48-163 | every head the application writes, on any path, declares at most one framing |
| App.AppHandler.ChannelRead | src/main/java/com/kerumai/chunking/AppHandler.java:28-46 | the handler's field, the escape and the channel change as `OnRead` says |
| App.AppHandler.Respond | src/main/java/com/kerumai/chunking/AppHandler.java:48-135 | the channel changes as issuing the route's plan from the application's context, and the method throws as the plan says |
| App.AppHandler.RespondRoot | src/main/java/com/kerumai/chunking/AppHandler.java:50-72 | the `/` branch issues `RootPlan` |
| App.AppHandler.RespondIgPage | src/main/java/com/kerumai/chunking/AppHandler.java:74-87 | the article branch issues `IgPagePlan`, throwing after the head when a fragment is missing |
| App.AppHandler.RespondCleanPage | src/main/java/com/kerumai/chunking/AppHandler.java:89-112 | the clean-page branch issues `CleanPagePlan` |
| App.AppHandler.RespondNotFound | src/main/java/com/kerumai/chunking/AppHandler.java:130-134 | the fallback branch issues `NotFoundPlan` |
| App.AppHandler.DelayFinalChunk | src/main/java/com/kerumai/chunking/AppHandler.java:137-148 | the final chunk's task is queued behind the pending ones |
| App.AppHandler.ServeFile | src/main/java/com/kerumai/chunking/AppHandler.java:150-163 | the channel changes as issuing `ServeFilePlan` |
| App.AppHandler.RunTask | src/main/java/com/kerumai/chunking/AppHandler.java:139-147 | the channel and the handler's field change as `FireStep` says, and the method reports whether a task was pending |
| Pipeline.StepPreserves | src/main/java/com/kerumai/chunking/Server.java:103-108 | every decoded message, timer firing and fault keeps the connection invariant: every head reaching the codec has exactly one framing; the channel closes only straight after a flush that follows an end-of-message, and at most once; KEY_CLOSE_NOW implies KEY_SHOULD_CLOSE |
| Pipeline.TracePreserves | src/main/java/com/kerumai/chunking/Server.java:103-108 | the invariant holds after any sequence of stimuli |
| Pipeline.RunKeepsOpen | src/main/java/com/kerumai/chunking/OutboundPoliteHTTPHandler.java:44-93 | whatever the application issues, a connection with no close pending and only a persistent request stashed keeps no close pending and stays open |
| Pipeline.StepKeepsOpen | src/main/java/com/kerumai/chunking/OutboundPoliteHTTPHandler.java:44-93 | an arrival whose request head (if any) is persistent, a timer firing or a fault keeps such a connection open with no close pending |
| Pipeline.TraceKeepsOpen | src/main/java/com/kerumai/chunking/OutboundPoliteHTTPHandler.java:44-93 | any sequence of stimuli whose request heads are all persistent keeps such a connection open with no close pending |
| Pipeline.KeepAliveNeverCloses | src/main/java/com/kerumai/chunking/OutboundPoliteHTTPHandler.java:44-93 | on a fresh connection whose requests are all persistent, whatever happens, the channel is never closed and no close reaches the codec |
| Pipeline.RunKeepsClosing | src/main/java/com/kerumai/chunking/OutboundPoliteHTTPHandler.java:54-91 | from any context, issued operations never clear KEY_SHOULD_CLOSE or reopen the channel |
| Pipeline.NonPersistentCloses | src/main/java/com/kerumai/chunking/OutboundPoliteHTTPHandler.java:44-93 | once the application writes a response head for a stashed non-persistent request, whatever it issues next, the flush after its next end-of-message closes the channel, and the close reaches the codec |
| Pipeline.Safety | src/main/java/com/kerumai/chunking/Server.java:103-108 | on a fresh connection, whatever arrives, every response head the codec receives has exactly one of Content-Length or chunked coding, and the channel closes at most once and only after a flushed end-of-message |
| Pipeline.Receive | src/main/java/com/kerumai/chunking/Server.java:105-108 | a decoded message passes the capture stage and then the application, as `Step` says |
| Pipeline.Tick | src/main/java/com/kerumai/chunking/AppHandler.java:61-71 | the executor's firing changes the connection as `Step` says |
| Pipeline.RaiseFault | src/main/java/com/kerumai/chunking/InboundPoliteHTTPHandler.java:38-51 | a fault reaches the capture stage, then the filter, as `Step` says; the filter throws iff nothing is stashed |
| Scenarios.RootPageOverKeepAlive | src/main/java/com/kerumai/chunking/AppHandler.java:50-72 | `GET /` over HTTP/1.1 sends head, chunk, flush, chunk, flush, end, flush, in that order; the connection stays open and both request fields end empty |
| Scenarios.NotFoundOverHttp10 | src/main/java/com/kerumai/chunking/OutboundPoliteHTTPHandler.java:44-55 | an unknown URI over HTTP/1.0 gets a 404 head with version 1.0, chunked coding and `Connection: close`; the end-of-message and flush are followed by the close |
| Scenarios.ArticleFragmentMissing | src/main/java/com/kerumai/chunking/AppHandler.java:74-87 | with fragment 1 missing, the client gets the chunked 200 head and an end-of-message; the 500 head is lost |
| Scenarios.FaultWithStash | src/main/java/com/kerumai/chunking/InboundPoliteHTTPHandler.java:38-51 | a fault with a stash sends the default error response twice and changes nothing else |
| Scenarios.FaultWithoutStash | src/main/java/com/kerumai/chunking/OutboundPoliteHTTPHandler.java:102-111 | a fault with no stash sends it once |

## Left out

- Server bootstrap, transport, socket options, the idle-state handler, thread
  pools and shutdown (`Server.java`): I/O plumbing and concurrency.
- Real time in `ctx.executor().schedule` and the configured pause
  (`server.chunk.pause`). The pause is read again at each schedule, so a change
  of the property between two schedules could let a later task run first. The
  model assumes the pause stays the same, so tasks run in the order they were
  scheduled. A `Timer` stimulus runs the oldest one, and no delay is modelled.
- `readFileAsByteBuf`: the assets are a map from path to bytes, and an absent
  path throws, as a missing resource does.
- The codec's byte-level serialization and chunk framing. The log records what
  is handed to the codec. Writes handed to it after the channel closes are
  recorded too; the transport would fail them.
- Header names are a fixed enumeration and values are whole strings. The
  case-insensitive matching and comma splitting of header values are not
  modelled. The request's Connection header is given as its list of options.
- `HttpUtil.setKeepAlive` is modelled as a keep-alive mark on the response,
  without its header details.
- Http.KeepAlive: follows section 6.3 of RFC 7230. Netty's `HttpUtil.isKeepAlive`
  treats every version other than HTTP/1.0 as persistent by default, so it keeps
  a pre-1.0 request alive unless a `close` option is given.
  The model never lets a pre-1.0 request persist, whatever its options.
- Logging (`LOG.error`, the logging handler) and `script.js`, the browser clock
  animation.
- The failed promise of a response head written without a stash. The model drops
  the message and does not model the promise.
- Java's `String.getBytes()` encodes with the platform charset; the
  model's literals are ASCII, so each character is one byte.
