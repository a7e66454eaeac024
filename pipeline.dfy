/** One connection's pipeline: the codec's inbound messages pass the capture stage
    and reach the application; the application's writes pass the filter; errors
    raised in the pipeline reach both hygiene stages; the executor runs the
    application's deferred tasks. */
module Pipeline {
  import opened Http
  import opened Connection
  import opened Context
  import Outbound
  import Inbound
  import OutboundFault
  import App
  import Utils

  /** The connection together with the application handler's own field. */
  datatype Sys = Sys(conn: State, appRequest: Option<Request>)

  /** What can happen next on a connection: the codec decodes a message, the
      executor runs the oldest pending task, or an exception is raised in the
      pipeline in front of the capture stage. */
  datatype Stimulus = Arrive(m: InMsg) | Timer | Fault

  function Step(sys: Sys, st: Stimulus, assets: App.Assets): Sys
  {
    match st
    case Arrive(m) =>
      var captured := Inbound.CaptureStep(sys.conn, m);
      var r := App.OnRead(sys.appRequest, m, assets);
      Sys(Run(captured, AppCtx, r.ops), r.request)
    case Timer =>
      var (conn, request) := App.FireStep(sys.conn, sys.appRequest);
      Sys(conn, request)
    case Fault =>
      Sys(OutboundFault.FaultStep(Inbound.FaultStep(sys.conn)), sys.appRequest)
  }

  /** The stimuli in order, first one first. */
  function Trace(sys: Sys, sts: seq<Stimulus>, assets: App.Assets): Sys
    decreases |sts|
  {
    if sts == [] then sys else Trace(Step(sys, sts[0], assets), sts[1..], assets)
  }

  /** Every head handed to the codec declares exactly one framing. */
  predicate WellFramed(log: seq<Event>)
  {
    forall i :: 0 <= i < |log| && log[i].Sent? && IsResponse(log[i].msg) ==> ExactlyOneFraming(log[i].msg.response)
  }

  /** Some message that ends a response has gone out. */
  predicate EndIn(log: seq<Event>)
  {
    exists e :: e in log && e.Sent? && IsLast(e.msg)
  }

  /** The channel closes only straight after a flush, and only once a message that
      ends a response has gone out. */
  predicate CloseAfterEnd(log: seq<Event>)
  {
    forall i :: 0 <= i < |log| && log[i] == Closed ==> 0 < i && log[i - 1] == Flushed && EndIn(log[..i])
  }

  /** The channel closes at most once. */
  predicate ClosesOnce(log: seq<Event>)
  {
    forall i, j :: 0 <= i < j < |log| && log[i] == Closed ==> log[j] != Closed
  }

  predicate Inv(s: State)
  {
    && WellFramed(s.log) && CloseAfterEnd(s.log) && ClosesOnce(s.log)
    && (s.closeNow ==> s.shouldClose && EndIn(s.log))
    && (s.closed ==> s.closeNow)
    && (s.closed <==> Closed in s.log)
  }

  /** What a context may write: heads with at most one framing on the application's
      context, where the filter completes them; complete ones elsewhere. */
  predicate OpOk(c: Ctx, op: Op)
  {
    op.WriteOp? && IsResponse(op.msg) ==>
      if c == AppCtx then AtMostOneFraming(op.msg.response) else ExactlyOneFraming(op.msg.response)
  }

  predicate AllOk(c: Ctx, ops: seq<Op>)
  {
    forall i :: 0 <= i < |ops| ==> OpOk(c, ops[i])
  }

  lemma InvFresh()
    ensures Inv(Fresh)
  {
  }

  lemma {:induction false} AppendPreserves(s: State, es: seq<Event>)
    requires Inv(s)
    requires forall k :: 0 <= k < |es| ==> es[k] != Closed
    requires forall k :: 0 <= k < |es| && es[k].Sent? && IsResponse(es[k].msg) ==> ExactlyOneFraming(es[k].msg.response)
    ensures Inv(s.(log := s.log + es))
  {
    var log := s.log + es;
    assert forall k :: 0 <= k < |s.log| ==> log[k] == s.log[k];
    assert forall k :: |s.log| <= k < |log| ==> log[k] == es[k - |s.log|];
    forall i | 0 <= i < |log| && log[i] == Closed
      ensures 0 < i && log[i - 1] == Flushed && EndIn(log[..i])
    {
      assert log[..i] == s.log[..i];
    }
    if s.closeNow {
      var e :| e in s.log && e.Sent? && IsLast(e.msg);
      assert e in log;
    }
  }

  /** A write through the filter keeps the invariant. */
  lemma {:induction false} FilterWritePreserves(s: State, m: Msg)
    requires Inv(s) && (IsResponse(m) ==> AtMostOneFraming(m.response))
    ensures Inv(Outbound.WriteStep(s, m))
  {
    var r := Outbound.WriteStep(s, m);
    if Outbound.Passes(s, m) {
      var f := Outbound.Fixed(s, m);
      assert IsResponse(f) ==> ExactlyOneFraming(f.response);
      AppendPreserves(s, [Sent(f)]);
      var t := s.(log := s.log + [Sent(f)]);
      assert IsLast(m) ==> Sent(f) in r.log && IsLast(f);
      assert r == t.(request := r.request, shouldClose := r.shouldClose, closeNow := r.closeNow);
    } else {
      assert r == s.(request := r.request, shouldClose := r.shouldClose, closeNow := r.closeNow);
    }
  }

  /** A flush through the filter keeps the invariant, closing at most once. */
  lemma {:induction false} FilterFlushPreserves(s: State)
    requires Inv(s)
    ensures Inv(Outbound.FlushStep(s))
  {
    AppendPreserves(s, [Flushed]);
    var t := s.(log := s.log + [Flushed]);
    if s.closeNow && !s.closed {
      var log := t.log + [Closed];
      assert log == Outbound.FlushStep(s).log;
      forall i | 0 <= i < |log| && log[i] == Closed
        ensures 0 < i && log[i - 1] == Flushed && EndIn(log[..i])
      {
        assert forall k :: 0 <= k < |t.log| ==> log[k] == t.log[k] && t.log[k] != Closed;
        assert log[..i] == t.log;
        var e :| e in s.log && e.Sent? && IsLast(e.msg);
        assert e in t.log;
      }
    }
  }

  lemma {:induction false} IssuePreserves(s: State, c: Ctx, op: Op)
    requires Inv(s) && OpOk(c, op)
    ensures Inv(Issue(s, c, op))
  {
    match op
    case WriteOp(m) =>
      if c == AppCtx {
        FilterWritePreserves(s, m);
      } else {
        AppendPreserves(s, [Sent(m)]);
      }
    case FlushOp =>
      if c == AppCtx {
        FilterFlushPreserves(s);
      } else {
        AppendPreserves(s, [Flushed]);
      }
    case ScheduleOp(task) =>
  }

  lemma {:induction false} RunPreserves(s: State, c: Ctx, ops: seq<Op>)
    requires Inv(s) && AllOk(c, ops)
    ensures Inv(Run(s, c, ops))
    decreases |ops|
  {
    if ops != [] {
      var init := ops[..|ops| - 1];
      assert AllOk(c, init) by {
        forall i | 0 <= i < |init|
          ensures OpOk(c, init[i])
        {
          assert init[i] == ops[i];
        }
      }
      RunPreserves(s, c, init);
      assert OpOk(c, ops[|ops| - 1]);
      IssuePreserves(Run(s, c, init), c, ops[|ops| - 1]);
    }
  }

  lemma FramingSoundOk(ops: seq<Op>)
    requires App.FramingSound(ops)
    ensures AllOk(AppCtx, ops)
  {
    forall i | 0 <= i < |ops|
      ensures OpOk(AppCtx, ops[i])
    {
    }
  }

  /** Every stimulus keeps the invariant. */
  lemma {:induction false} StepPreserves(sys: Sys, st: Stimulus, assets: App.Assets)
    requires Inv(sys.conn)
    ensures Inv(Step(sys, st, assets).conn)
  {
    match st
    case Arrive(m) =>
      var captured := Inbound.CaptureStep(sys.conn, m);
      assert captured == sys.conn.(request := captured.request, passed := captured.passed);
      var r := App.OnRead(sys.appRequest, m, assets);
      App.ReadFramingSound(sys.appRequest, m, assets);
      FramingSoundOk(r.ops);
      RunPreserves(captured, AppCtx, r.ops);
    case Timer =>
      var s := sys.conn;
      if s.tasks != [] {
        App.TaskEndsMessage(s.tasks[0]);
        FramingSoundOk(App.TaskOps(s.tasks[0]));
        RunPreserves(s.(tasks := s.tasks[1..]), AppCtx, App.TaskOps(s.tasks[0]));
      }
    case Fault =>
      var s := sys.conn;
      var h := Utils.DefaultErrorHead();
      var es := [Sent(Head(h)), Sent(Last), Flushed];
      AppendPreserves(s, es);
      var s1 := Inbound.FaultStep(s);
      if s1.request.Some? {
        AppendPreserves(s1, es);
      }
  }

  /** Every sequence of stimuli keeps the invariant. */
  lemma {:induction false} TracePreserves(sys: Sys, sts: seq<Stimulus>, assets: App.Assets)
    requires Inv(sys.conn)
    ensures Inv(Trace(sys, sts, assets).conn)
    decreases |sts|
  {
    if sts != [] {
      StepPreserves(sys, sts[0], assets);
      TracePreserves(Step(sys, sts[0], assets), sts[1..], assets);
    }
  }

  /** On a fresh connection, whatever happens, every head the codec receives
      declares exactly one framing, the channel closes at most once, and only
      straight after a flush that follows an end-of-message. */
  lemma Safety(sts: seq<Stimulus>, assets: App.Assets)
    ensures var log := Trace(Sys(Fresh, None), sts, assets).conn.log;
      WellFramed(log) && CloseAfterEnd(log) && ClosesOnce(log)
  {
    InvFresh();
    TracePreserves(Sys(Fresh, None), sts, assets);
  }

  /** No close is pending or done, and any stashed request is persistent. */
  predicate Open(s: State)
  {
    && !s.shouldClose && !s.closeNow && !s.closed
    && (s.request.Some? ==> KeepAlive(s.request.value))
  }

  /** Every request head among the stimuli asks for a persistent connection. */
  predicate AllKeepAlive(sts: seq<Stimulus>)
  {
    forall i :: 0 <= i < |sts| && sts[i].Arrive? && sts[i].m.RequestHead? ==> KeepAlive(sts[i].m.request)
  }

  lemma {:induction false} RunKeepsOpen(s: State, ops: seq<Op>)
    requires Open(s)
    ensures Open(Run(s, AppCtx, ops))
    decreases |ops|
  {
    if ops != [] {
      RunKeepsOpen(s, ops[..|ops| - 1]);
    }
  }

  lemma {:induction false} StepKeepsOpen(sys: Sys, st: Stimulus, assets: App.Assets)
    requires Open(sys.conn)
    requires st.Arrive? && st.m.RequestHead? ==> KeepAlive(st.m.request)
    ensures Open(Step(sys, st, assets).conn)
  {
    match st
    case Arrive(m) =>
      RunKeepsOpen(Inbound.CaptureStep(sys.conn, m), App.OnRead(sys.appRequest, m, assets).ops);
    case Timer =>
      var s := sys.conn;
      if s.tasks != [] {
        RunKeepsOpen(s.(tasks := s.tasks[1..]), App.TaskOps(s.tasks[0]));
      }
    case Fault =>
  }

  lemma {:induction false} TraceKeepsOpen(sys: Sys, sts: seq<Stimulus>, assets: App.Assets)
    requires Open(sys.conn) && AllKeepAlive(sts)
    ensures Open(Trace(sys, sts, assets).conn)
    decreases |sts|
  {
    if sts != [] {
      StepKeepsOpen(sys, sts[0], assets);
      assert AllKeepAlive(sts[1..]) by {
        forall i | 0 <= i < |sts[1..]|
          ensures sts[1..][i] == sts[i + 1]
        {
        }
      }
      TraceKeepsOpen(Step(sys, sts[0], assets), sts[1..], assets);
    }
  }

  /** On a fresh connection whose requests are all persistent, whatever happens,
      the channel never closes. */
  lemma KeepAliveNeverCloses(sts: seq<Stimulus>, assets: App.Assets)
    requires AllKeepAlive(sts)
    ensures var r := Trace(Sys(Fresh, None), sts, assets).conn;
      !r.closed && Closed !in r.log
  {
    InvFresh();
    TracePreserves(Sys(Fresh, None), sts, assets);
    TraceKeepsOpen(Sys(Fresh, None), sts, assets);
  }

  /** The close flags and the closed channel are never undone. */
  lemma {:induction false} RunKeepsClosing(s: State, c: Ctx, ops: seq<Op>)
    ensures var r := Run(s, c, ops);
      (s.shouldClose ==> r.shouldClose) && (s.closed ==> r.closed)
    decreases |ops|
  {
    if ops != [] {
      RunKeepsClosing(s, c, ops[..|ops| - 1]);
    }
  }

  /** Once the application writes a response head for a non-persistent request,
      whatever it issues next, the flush that follows the next end-of-message it
      writes closes the channel. */
  lemma {:induction false} NonPersistentCloses(s: State, m: Msg, mid: seq<Op>)
    requires Inv(s) && s.request.Some? && !KeepAlive(s.request.value) && IsResponse(m)
    requires AllOk(AppCtx, [WriteOp(m)] + mid + [WriteOp(Last), FlushOp])
    ensures var r := Run(s, AppCtx, [WriteOp(m)] + mid + [WriteOp(Last), FlushOp]);
      r.closed && Closed in r.log
  {
    var ops := [WriteOp(m)] + mid + [WriteOp(Last), FlushOp];
    var s1 := Run(s, AppCtx, [WriteOp(m)]);
    RunOne(s, AppCtx, WriteOp(m));
    assert s1.shouldClose;
    var s2 := Run(s1, AppCtx, mid);
    RunKeepsClosing(s1, AppCtx, mid);
    Run2(s2, AppCtx, WriteOp(Last), FlushOp);
    var s3 := Outbound.WriteStep(s2, Last);
    assert s3.closeNow;
    RunAppend(s, AppCtx, [WriteOp(m)], mid);
    RunAppend(s, AppCtx, [WriteOp(m)] + mid, [WriteOp(Last), FlushOp]);
    RunPreserves(s, AppCtx, ops);
  }

  /** The codec decodes `m`: the capture stage, then the application. */
  method Receive(ch: Channel, app: App.AppHandler, m: InMsg) returns (escaped: bool)
    modifies ch, app
    ensures escaped == App.OnRead(old(app.request), m, app.assets).escaped
    ensures Sys(ch.Snapshot(), app.request) == Step(Sys(old(ch.Snapshot()), old(app.request)), Arrive(m), app.assets)
  {
    Inbound.ChannelRead(ch, m);
    escaped := app.ChannelRead(ch, m);
  }

  /** The executor runs the oldest pending task. */
  method Tick(ch: Channel, app: App.AppHandler) returns (ran: bool)
    modifies ch, app
    ensures ran == (old(ch.tasks) != [])
    ensures Sys(ch.Snapshot(), app.request) == Step(Sys(old(ch.Snapshot()), old(app.request)), Timer, app.assets)
  {
    ran := app.RunTask(ch);
  }

  /** An exception reaches the capture stage, which passes it on to the filter. */
  method RaiseFault(ch: Channel, app: App.AppHandler) returns (filterThrew: bool)
    modifies ch
    ensures filterThrew == old(ch.request).None?
    ensures Sys(ch.Snapshot(), app.request) == Step(Sys(old(ch.Snapshot()), app.request), Fault, app.assets)
  {
    Inbound.ExceptionCaught(ch);
    filterThrew := OutboundFault.ExceptionCaught(ch);
  }
}
