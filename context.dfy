/** Where a handler's `ctx.write`, `ctx.flush` and `executor().schedule` go. The
    pipeline is, from the socket inwards: codec, request capture, hygiene filter,
    application (the idle-state and logging handlers pass everything through). An
    outbound operation travels from the issuing handler towards the socket, so the
    application's writes and flushes pass through the filter, while those issued
    from the capture stage's or the filter's own context go straight to the codec. */
module Context {
  import opened Http
  import opened Connection
  import Outbound

  /** The handler whose context issues an operation. */
  datatype Ctx = AppCtx | CaptureCtx | FilterCtx

  /** An operation a handler issues on its context. */
  datatype Op = WriteOp(msg: Msg) | FlushOp | ScheduleOp(task: Task)

  function Issue(s: State, c: Ctx, op: Op): State
  {
    match op
    case WriteOp(m) => if c == AppCtx then Outbound.WriteStep(s, m) else Forward(s, m)
    case FlushOp => if c == AppCtx then Outbound.FlushStep(s) else FlushOut(s)
    case ScheduleOp(t) => Enqueue(s, t)
  }

  /** The connection after the operations `ops`, issued in order from context `c`. */
  function Run(s: State, c: Ctx, ops: seq<Op>): State
    decreases |ops|
  {
    if ops == [] then s else Issue(Run(s, c, ops[..|ops| - 1]), c, ops[|ops| - 1])
  }

  lemma RunOne(s: State, c: Ctx, op: Op)
    ensures Run(s, c, [op]) == Issue(s, c, op)
  {
    assert [op][..0] == [];
  }

  lemma RunSnoc(s: State, c: Ctx, ops: seq<Op>, op: Op)
    ensures Run(s, c, ops + [op]) == Issue(Run(s, c, ops), c, op)
  {
    assert (ops + [op])[..|ops|] == ops;
  }

  /** Issuing `a` and then `b` is issuing `a + b`. */
  lemma {:induction false} RunAppend(s: State, c: Ctx, a: seq<Op>, b: seq<Op>)
    ensures Run(s, c, a + b) == Run(Run(s, c, a), c, b)
    decreases |b|
  {
    if b == [] {
      assert a + b == a;
    } else {
      var b' := b[..|b| - 1];
      assert a + b == (a + b') + [b[|b| - 1]];
      RunSnoc(s, c, a + b', b[|b| - 1]);
      RunAppend(s, c, a, b');
      RunSnoc(Run(s, c, a), c, b', b[|b| - 1]);
      assert b == b' + [b[|b| - 1]];
    }
  }

  /** Issuing two, three or four operations, one at a time. */
  lemma {:induction false} Run2(s: State, c: Ctx, a: Op, b: Op)
    ensures Run(s, c, [a, b]) == Issue(Issue(s, c, a), c, b)
  {
    RunOne(s, c, a);
    RunSnoc(s, c, [a], b);
    assert [a] + [b] == [a, b];
  }

  lemma {:induction false} Run3(s: State, c: Ctx, a: Op, b: Op, d: Op)
    ensures Run(s, c, [a, b, d]) == Issue(Issue(Issue(s, c, a), c, b), c, d)
  {
    Run2(s, c, a, b);
    RunSnoc(s, c, [a, b], d);
    assert [a, b] + [d] == [a, b, d];
  }

  lemma {:induction false} Run4(s: State, c: Ctx, a: Op, b: Op, d: Op, e: Op)
    ensures Run(s, c, [a, b, d, e]) == Issue(Issue(Issue(Issue(s, c, a), c, b), c, d), c, e)
  {
    Run3(s, c, a, b, d);
    RunSnoc(s, c, [a, b, d], e);
    assert [a, b, d] + [e] == [a, b, d, e];
  }

  /** `ctx.write(m)` */
  method Write(ch: Channel, c: Ctx, m: Msg)
    modifies ch
    ensures ch.Snapshot() == Issue(old(ch.Snapshot()), c, WriteOp(m))
  {
    if c == AppCtx {
      Outbound.Write(ch, m);
    } else {
      ch.TransportWrite(m);
    }
  }

  /** `ctx.flush()` */
  method Flush(ch: Channel, c: Ctx)
    modifies ch
    ensures ch.Snapshot() == Issue(old(ch.Snapshot()), c, FlushOp)
  {
    if c == AppCtx {
      Outbound.Flush(ch);
    } else {
      ch.TransportFlush();
    }
  }

  /** `ctx.writeAndFlush(m)` */
  method WriteAndFlush(ch: Channel, c: Ctx, m: Msg)
    modifies ch
    ensures ch.Snapshot() == Run(old(ch.Snapshot()), c, [WriteOp(m), FlushOp])
  {
    ghost var s0 := ch.Snapshot();
    Write(ch, c, m);
    Flush(ch, c);
    RunOne(s0, c, WriteOp(m));
    RunSnoc(s0, c, [WriteOp(m)], FlushOp);
    assert [WriteOp(m)] + [FlushOp] == [WriteOp(m), FlushOp];
  }

  /** `ctx.executor().schedule(task, delay)`: the task joins the back of the queue.
      The model assumes the pause does not change between schedules, so tasks run
      in the order they were scheduled. */
  method Schedule(ch: Channel, t: Task)
    modifies ch
    ensures ch.Snapshot() == Issue(old(ch.Snapshot()), AppCtx, ScheduleOp(t))
  {
    ch.Schedule(t);
  }
}
