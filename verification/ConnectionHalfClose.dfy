// shutdown() while messages of other threads are under way: how often SHUT_WR is
// issued, and exactly when every SHUT_WR finds nothing left behind.
module ConnectionHalfClose {
  import opened Codec
  import opened Interest
  import opened Syscalls
  import opened Connection
  import opened ConnectionRuns

  // ---- counting ----

  function Shutdowns(ts: seq<LoopTask>): (n: nat) {
    if ts == [] then 0 else (if ts[0].QShutdown? then 1 else 0) + Shutdowns(ts[1..])
  }

  lemma {:induction false} ShutdownsConcat(a: seq<LoopTask>, b: seq<LoopTask>)
    ensures Shutdowns(a + b) == Shutdowns(a) + Shutdowns(b)
  {
    if a == [] {
      assert a + b == b;
    } else {
      assert (a + b)[1..] == a[1..] + b;
      ShutdownsConcat(a[1..], b);
    }
  }

  lemma ShutdownsAppend(ts: seq<LoopTask>, t: LoopTask)
    ensures Shutdowns(ts + [t]) == Shutdowns(ts) + if t.QShutdown? then 1 else 0
  {
    ShutdownsConcat(ts, [t]);
  }

  lemma ShutdownsRemove(ts: seq<LoopTask>, k: nat)
    requires k < |ts|
    ensures Shutdowns(ts) == Shutdowns(ts[..k] + ts[k + 1..]) + if ts[k].QShutdown? then 1 else 0
  {
    var front, back := ts[..k], ts[k + 1..];
    assert ts[..k + 1] == front + [ts[k]];
    assert ts == ts[..k + 1] + back;
    ShutdownsConcat(ts[..k + 1], back);
    ShutdownsAppend(front, ts[k]);
    ShutdownsConcat(front, back);
  }

  // Shutdown requests on their way to the loop.
  function Requests(c: Conn): (n: nat) {
    Shutdowns(c.batch) + Shutdowns(c.pending) + Shutdowns(c.late)
  }

  // ---- before the first shutdown ----

  predicate OnlySends(ts: seq<LoopTask>) {
    forall k :: 0 <= k < |ts| ==> ts[k].QSend?
  }

  lemma {:induction false} OnlySendsCount(ts: seq<LoopTask>)
    requires OnlySends(ts)
    ensures Shutdowns(ts) == 0
  {
    if ts != [] {
      OnlySendsCount(ts[1..]);
    }
  }

  predicate Fresh(c: Conn) {
    c.shuts == [] && OnlySends(c.batch) && OnlySends(c.pending) && OnlySends(c.late)
  }

  // Until shutdown() or forceClose() only sends are queued and nothing is shut.
  predicate FreshInv(c: Conn) {
    c.state == Connecting || c.state == Connected ==> Fresh(c)
  }

  lemma FreshTask(c: Conn, w: WriteResult)
    requires Inv(c) && FreshInv(c) && Possible(c, DoTask(w)) && RunTask(c, w).Ok?
    ensures FreshInv(RunTask(c, w).conn)
  {
    if c.batch[0].QSend? {
      SendInLoopFrame(c.(batch := c.batch[1..]), c.batch[0].msg, w);
    }
  }

  lemma FreshDispatch(c: Conn, res: ReadResult, w: WriteResult)
    requires Inv(c) && FreshInv(c) && Possible(c, DoDispatch(res, w)) && DispatchNext(c, res, w).Ok?
    ensures FreshInv(DispatchNext(c, res, w).conn)
  {
    PopTodo(c);
    if c.todo[0] == WriteCb {
      HandleWriteFrame(c.(todo := c.todo[1..]), w);
    }
  }

  lemma FreshFrame(c: Conn, d: Conn)
    requires Fresh(c) && SameQueues(c, d) && d.shuts == c.shuts
    ensures Fresh(d)
  {
  }

  lemma FreshQueued(c: Conn, msg: seq<Byte>)
    requires Fresh(c)
    ensures OnlySends(c.late + [QSend(msg)])
  {
  }

  lemma FreshSendNow(c: Conn, msg: seq<Byte>, w: WriteResult)
    requires Fresh(c) && c.state == Connected && KernelMayWrite(w, |msg|) && Send(c, msg, true, w).Ok?
    ensures Fresh(Send(c, msg, true, w).conn)
  {
    var d := c.(accepted := c.accepted + |msg|);
    SendInLoopFrame(d, msg, w);
    assert Send(c, msg, true, w) == SendInLoop(d, msg, w);
    FreshFrame(d, SendInLoop(d, msg, w).conn);
  }

  lemma FreshSend(c: Conn, msg: seq<Byte>, inLoop: bool, w: WriteResult)
    requires FreshInv(c) && KernelMayWrite(w, |msg|) && Send(c, msg, inLoop, w).Ok?
    ensures FreshInv(Send(c, msg, inLoop, w).conn)
  {
    if c.state == Connected {
      if inLoop {
        FreshSendNow(c, msg, w);
      } else {
        FreshQueued(c, msg);
      }
    }
  }

  lemma FreshStep(c: Conn, a: Step)
    requires Inv(c) && FreshInv(c) && Possible(c, a) && Safe(c, a) && Next(c, a).Ok?
    ensures FreshInv(Next(c, a).conn)
  {
    match a
    case DoTask(w) => FreshTask(c, w);
    case DoDispatch(res, w) => FreshDispatch(c, res, w);
    case DoSend(msg, inLoop, w) => FreshSend(c, msg, inLoop, w);
    case _ =>
  }

  lemma {:induction false} FreshRun(c: Conn, steps: seq<Step>, d: Conn)
    requires Inv(c) && FreshInv(c) && SafeRun(c, steps, d)
    ensures Inv(d) && FreshInv(d)
    decreases |steps|
  {
    if steps != [] {
      SafeStep(c, steps[0]);
      FreshStep(c, steps[0]);
      FreshRun(Next(c, steps[0]).conn, steps[1..], d);
    }
  }

  lemma ReachableFresh(mark: nat, hw: bool, wc: bool, steps: seq<Step>, c: Conn)
    requires SafeRun(Init(mark, hw, wc), steps, c)
    ensures Inv(c) && FreshInv(c)
  {
    InitInv(mark, hw, wc);
    FreshRun(Init(mark, hw, wc), steps, c);
  }

  // ---- how a half-closing connection moves ----

  // Callbacks and tasks other than the one that is about to close it leave the
  // parts of a half-closing connection that matter here in one of few ways.
  lemma WriteMoves(c: Conn, w: WriteResult)
    requires Inv(c) && c.state == Disconnecting && c.out != [] && KernelMayWrite(w, |c.out|) && HandleWrite(c, w).Ok?
    ensures var d := HandleWrite(c, w).conn;
            && SameControl(c, d)
            && if d.out == [] then d.shuts == c.shuts + [Shut(|d.sock|, d.accepted, FaultedBytes(d.handled), Waiting(c))]
               else d.shuts == c.shuts
  {
    HandleWriteFrame(c, w);
    if w.Wrote? && w.n == |c.out| {
      assert Out !in NewEvents(c.events, DisableWrite);
    }
  }

  lemma DispatchMoves(c: Conn, res: ReadResult, w: WriteResult)
    requires Inv(c) && c.state == Disconnecting && Possible(c, DoDispatch(res, w)) && DispatchNext(c, res, w).Ok?
    ensures var d := DispatchNext(c, res, w).conn;
            && d.todo == c.todo[1..] && SameQueues(c, d)
            && (d.state == Disconnecting || (d.state == Disconnected && d.shuts == c.shuts))
            && (c.todo[0] == CloseCb ==> d.state == Disconnected)
            && (d.out == [] && c.out != [] && d.state == Disconnecting ==>
                  c.todo[0] == WriteCb && |d.shuts| == |c.shuts| + 1 &&
                  d.shuts[..|c.shuts|] == c.shuts && d.shuts[|c.shuts|].queued == Waiting(c))
            && (d.out != [] || c.out == [] ==> d.shuts == c.shuts && (d.out != [] ==> c.out != []))
  {
    PopTodo(c);
    if c.todo[0] == WriteCb {
      WriteMoves(c.(todo := c.todo[1..]), w);
    } else {
      OtherMoves(c, res, w);
    }
  }

  lemma OtherMoves(c: Conn, res: ReadResult, w: WriteResult)
    requires c.state == Disconnecting && c.todo != [] && c.todo[0] != WriteCb && DispatchNext(c, res, w).Ok?
    ensures var d := DispatchNext(c, res, w).conn;
            && d.todo == c.todo[1..] && SameQueues(c, d) && d.out == c.out && d.shuts == c.shuts
            && (d.state == Disconnecting || d.state == Disconnected) && (c.todo[0] == CloseCb ==> d.state == Disconnected)
  {
  }

  lemma FaultedSend(c: Conn, msg: seq<Byte>)
    requires c.state == Disconnecting && Out !in c.events && c.out == []
    ensures SendInLoop(c, msg, WriteFailed(EPIPE)) == Ok(c.(handled := c.handled + [Handled(msg, Faulted)]))
  {
  }

  // ---- SHUT_WR at most once, or twice ----

  // SHUT_WRs issued, requests still on their way, and the one a drain may add
  // while there was none. After the first nothing can be buffered any more.
  function Budget(c: Conn): (n: nat) { |c.shuts| + Requests(c) + if c.shuts == [] then 1 else 0 }

  predicate BudgetInv(c: Conn, limit: nat) {
    || (c.state == Disconnected && |c.shuts| <= limit)
    || (c.state == Disconnecting && Budget(c) <= limit && (c.shuts != [] ==> c.out == []))
  }

  lemma BudgetTask(c: Conn, w: WriteResult, limit: nat)
    requires Inv(c) && BudgetInv(c, limit) && Possible(c, DoTask(w)) && RunTask(c, w).Ok?
    ensures BudgetInv(RunTask(c, w).conn, limit)
  {
    var d := c.(batch := c.batch[1..]);
    if c.batch[0].QSend? {
      SendInLoopFrame(d, c.batch[0].msg, w);
      if c.state == Disconnecting && c.shuts != [] {
        FaultedSend(d, c.batch[0].msg);
      }
    }
  }

  lemma BudgetDispatch(c: Conn, res: ReadResult, w: WriteResult, limit: nat)
    requires Inv(c) && BudgetInv(c, limit) && Possible(c, DoDispatch(res, w)) && DispatchNext(c, res, w).Ok?
    ensures BudgetInv(DispatchNext(c, res, w).conn, limit)
  {
    if c.state == Disconnecting {
      DispatchMoves(c, res, w);
    } else {
      ClosedDispatch(c, res, w);
    }
  }

  lemma BudgetOther(c: Conn, a: Step, limit: nat)
    requires Inv(c) && BudgetInv(c, limit) && Possible(c, a) && Safe(c, a) && Next(c, a).Ok? && !a.DoTask? && !a.DoDispatch?
    ensures BudgetInv(Next(c, a).conn, limit)
  {
    if a.DoForceClose? {
      ShutdownsAppend(c.pending, QForceClose);
      ShutdownsAppend(c.late, QForceClose);
    } else if a.DoPush? {
      ShutdownsAppend(c.pending, c.late[a.k]);
      ShutdownsRemove(c.late, a.k);
    }
  }

  lemma {:induction false} BudgetRun(c: Conn, steps: seq<Step>, d: Conn, limit: nat)
    requires Inv(c) && BudgetInv(c, limit) && SafeRun(c, steps, d)
    ensures BudgetInv(d, limit)
    decreases |steps|
  {
    if steps != [] {
      var a := steps[0];
      SafeStep(c, a);
      match a {
        case DoTask(w) => BudgetTask(c, w, limit);
        case DoDispatch(res, w) => BudgetDispatch(c, res, w, limit);
        case _ => BudgetOther(c, a, limit);
      }
      BudgetRun(Next(c, a).conn, steps[1..], d, limit);
    }
  }

  lemma ShutdownCounts(c: Conn, inLoop: bool)
    requires Inv(c) && FreshInv(c) && c.state == Connected
    ensures Shutdown(c, inLoop).Ok? && Inv(Shutdown(c, inLoop).conn)
    ensures var d := Shutdown(c, inLoop).conn;
            && d.state == Disconnecting && d.phase == c.phase && d.todo == c.todo && d.out == c.out
            && d.batch == c.batch && d.pending == c.pending && d.late == (if inLoop then c.late else c.late + [QShutdown])
            && Requests(d) == (if inLoop then 0 else 1) && Waiting(d) == Waiting(c)
            && QueuedBytes(d.late) == QueuedBytes(c.late)
            && if inLoop && c.out == [] then |d.shuts| == 1 && d.shuts[0].queued == Waiting(c) else d.shuts == []
  {
    ShutdownInv(c, inLoop);
    OnlySendsCount(c.batch);
    OnlySendsCount(c.pending);
    OnlySendsCount(c.late);
    ShutdownsAppend(c.late, QShutdown);
    QueuedAppend(c.late, QShutdown);
  }

  // Whatever the other threads send, shutdown() on the loop thread issues SHUT_WR
  // at most once, and on another thread at most twice.
  lemma ShutdownBound(mark: nat, hw: bool, wc: bool, before: seq<Step>, c: Conn, inLoop: bool, after: seq<Step>, d: Conn)
    requires SafeRun(Init(mark, hw, wc), before, c) && c.state == Connected
    requires Shutdown(c, inLoop).Ok? && SafeRun(Shutdown(c, inLoop).conn, after, d)
    ensures |d.shuts| <= if inLoop then 1 else 2
  {
    ReachableFresh(mark, hw, wc, before, c);
    ShutdownCounts(c, inLoop);
    BudgetRun(Shutdown(c, inLoop).conn, after, d, if inLoop then 1 else 2);
  }

  // ---- runs of the loop, step by step ----

  predicate Between(c: Conn) { Inv(c) && c.state == Disconnecting }

  // A callback for which the kernel has nothing.
  const Nothing: Step := DoDispatch(ReadFailed(EAGAIN), WriteFailed(EAGAIN))

  lemma Skips(c: Conn)
    requires Between(c) && c.todo != [] && CloseCb !in c.todo
    ensures Possible(c, Nothing) && Next(c, Nothing) == Ok(c.(todo := c.todo[1..])) && Between(c.(todo := c.todo[1..]))
  {
    assert c.todo[0] in c.todo;
    PopTodo(c);
  }

  lemma {:induction false} FinishTodo(c: Conn) returns (steps: seq<Step>, d: Conn)
    requires Between(c) && CloseCb !in c.todo
    ensures SafeRun(c, steps, d) && Between(d) && d == c.(todo := [])
    decreases |c.todo|
  {
    if c.todo == [] {
      steps, d := [], c;
    } else {
      Skips(c);
      var e := c.(todo := c.todo[1..]);
      var rest;
      rest, d := FinishTodo(e);
      steps := Chain(c, rest, d, Nothing, e);
    }
  }

  // One message that meets a full socket or a buffer in use.
  lemma Blocked(c: Conn, msg: seq<Byte>)
    requires ShapeInv(c) && c.state == Disconnecting && SendInLoop(c, msg, WriteFailed(EAGAIN)).Ok?
    ensures var d := SendInLoop(c, msg, WriteFailed(EAGAIN)).conn;
            SameControl(c, d) && d.shuts == c.shuts && d.out == c.out + msg
  {
    SendInLoopFrame(c, msg, WriteFailed(EAGAIN));
    if msg == [] {
      assert c.out + [] == c.out;
    }
  }

  lemma SendBlocks(c: Conn)
    requires Between(c) && c.shuts == [] && c.batch != [] && c.batch[0].QSend?
    ensures Possible(c, DoTask(WriteFailed(EAGAIN))) && RunTask(c, WriteFailed(EAGAIN)).Ok?
    ensures var d := RunTask(c, WriteFailed(EAGAIN)).conn;
            && Between(d) && SameControl(c.(batch := c.batch[1..]), d) && d.shuts == []
            && d.out == c.out + c.batch[0].msg
  {
    TaskInv(c, WriteFailed(EAGAIN));
    Blocked(c.(batch := c.batch[1..]), c.batch[0].msg);
  }

  // The whole batch is sends, and the socket is full.
  lemma {:induction false} BatchBlocks(c: Conn) returns (steps: seq<Step>, d: Conn)
    requires Between(c) && c.shuts == [] && OnlySends(c.batch)
    ensures SafeRun(c, steps, d) && Between(d) && SameControl(c.(batch := []), d) && d.shuts == []
    ensures |d.out| == |c.out| + QueuedBytes(c.batch)
    decreases |c.batch|
  {
    if c.batch == [] {
      steps, d := [], c;
    } else {
      SendBlocks(c);
      var a := DoTask(WriteFailed(EAGAIN));
      var e := Next(c, a).conn;
      var rest;
      rest, d := BatchBlocks(e);
      steps := Chain(c, rest, d, a, e);
    }
  }

  lemma {:induction false} JoinRuns(c: Conn, p: seq<Step>, d: Conn, q: seq<Step>, e: Conn) returns (r: seq<Step>)
    requires SafeRun(c, p, d) && SafeRun(d, q, e)
    ensures SafeRun(c, r, e)
    decreases |p|
  {
    if p == [] {
      r := q;
    } else {
      var e1 := Next(c, p[0]).conn;
      r := JoinRuns(e1, p[1..], d, q, e);
      r := Chain(c, r, e, p[0], e1);
    }
  }

  // From the swap to the next epoll_wait, with a full socket.
  lemma SwapAndRun(c: Conn) returns (steps: seq<Step>, d: Conn)
    requires Between(c) && c.shuts == [] && c.phase == Handling && c.todo == [] && OnlySends(c.pending)
    ensures SafeRun(c, steps, d) && Between(d) && d.shuts == [] && d.phase == AtPoll
    ensures d.batch == [] && d.pending == [] && d.late == c.late && d.todo == []
    ensures |d.out| == |c.out| + QueuedBytes(c.pending)
  {
    SwapInv(c);
    var e := Next(c, DoSwap).conn;
    var p, f := BatchBlocks(e);
    var q;
    q, d := BatchEnds(f);
    steps := JoinRuns(e, p, f, q, d);
    steps := Chain(c, steps, d, DoSwap, e);
  }

  lemma BatchEnds(c: Conn) returns (steps: seq<Step>, d: Conn)
    requires Between(c) && c.phase == InBatch && c.batch == []
    ensures SafeRun(c, steps, d) && Between(d) && d == c.(phase := AtPoll)
  {
    SafeStep(c, DoBatchEnd);
    d := c.(phase := AtPoll);
    steps := Chain(c, [], d, DoBatchEnd, d);
  }

  // What is in the output buffer when the loop gets to its next epoll_wait with a
  // full socket, and what is still in pendingTasks_ then.
  function BufferedByPoll(c: Conn): (n: nat) {
    |c.out| + QueuedBytes(c.batch) + if c.phase == Handling then QueuedBytes(c.pending) else 0
  }

  lemma ToPoll(c: Conn) returns (steps: seq<Step>, d: Conn)
    requires Between(c) && c.shuts == [] && CloseCb !in c.todo && OnlySends(c.batch) && OnlySends(c.pending)
    ensures SafeRun(c, steps, d) && Between(d) && d.shuts == [] && d.phase == AtPoll
    ensures d.batch == [] && d.late == c.late && d.todo == []
    ensures d.pending == if c.phase == Handling then [] else c.pending
    ensures |d.out| == BufferedByPoll(c)
  {
    match c.phase
    case AtPoll => steps, d := [], c;
    case InBatch =>
      var p, e := BatchBlocks(c);
      var q;
      q, d := BatchEnds(e);
      steps := JoinRuns(c, p, e, q, d);
    case Handling =>
      var p, e := FinishTodo(c);
      var q;
      q, d := SwapAndRun(e);
      steps := JoinRuns(c, p, e, q, d);
  }

  // epoll_wait returns for other reasons.
  lemma PollsNothing(c: Conn) returns (steps: seq<Step>, d: Conn)
    requires Between(c) && c.phase == AtPoll
    ensures SafeRun(c, steps, d) && Between(d) && d == c.(phase := Handling, todo := [])
  {
    assert Dispatch({}) == [];
    PollInv(c, {});
    d := c.(phase := Handling, todo := []);
    steps := Chain(c, [], d, DoPoll({}), d);
  }

  // The write callback finds room for everything.
  lemma WritesAll(c: Conn)
    requires c.state == Disconnecting && c.pooled && c.out != [] && Out in c.events && Pri in c.events
    ensures var r := HandleWrite(c, Wrote(|c.out|));
            && r.Ok? && SameControl(c, r.conn) && r.conn.out == [] && r.conn.sock == c.sock + c.out
            && r.conn.handled == c.handled
            && r.conn.shuts == c.shuts + [Shut(|c.sock| + |c.out|, c.accepted, FaultedBytes(c.handled), Waiting(c))]
  {
    assert Pri in NewEvents(c.events, DisableWrite);
    assert c.out[..|c.out|] == c.out;
  }

  lemma {:induction false} DrainsInDispatch(c: Conn) returns (steps: seq<Step>, d: Conn)
    requires Between(c) && WriteCb in c.todo && CloseCb !in c.todo
    ensures SafeRun(c, steps, d) && Between(d) && d.out == [] && SameQueues(c, d) && d.todo == []
    ensures d.sock == c.sock + c.out && d.handled == c.handled && d.accepted == c.accepted
    ensures |d.shuts| == |c.shuts| + 1 && d.shuts[..|c.shuts|] == c.shuts && d.shuts[|c.shuts|].queued == Waiting(c)
    decreases |c.todo|
  {
    if c.todo[0] == WriteCb {
      var a := DoDispatch(ReadFailed(EAGAIN), Wrote(|c.out|));
      PopTodo(c);
      DispatchInv(c, a.res, a.w);
      WritesAll(c.(todo := c.todo[1..]));
      var e := Next(c, a).conn;
      steps, d := FinishTodo(e);
      steps := Chain(c, steps, d, a, e);
    } else {
      Skips(c);
      var e := c.(todo := c.todo[1..]);
      var rest;
      rest, d := DrainsInDispatch(e);
      steps := Chain(c, rest, d, Nothing, e);
    }
  }

  // The socket has room again: the buffer drains and SHUT_WR follows.
  lemma DrainsAtPoll(c: Conn) returns (steps: seq<Step>, d: Conn)
    requires Between(c) && c.phase == AtPoll && c.out != []
    ensures SafeRun(c, steps, d) && Between(d) && d.out == [] && d.phase == Handling && d.todo == []
    ensures d.batch == c.batch && d.pending == c.pending && d.late == c.late
    ensures d.sock == c.sock + c.out && d.handled == c.handled && d.accepted == c.accepted
    ensures |d.shuts| == |c.shuts| + 1 && d.shuts[..|c.shuts|] == c.shuts && d.shuts[|c.shuts|].queued == Waiting(c)
  {
    assert Dispatch({Out}) == [WriteCb];
    PollInv(c, {Out});
    var p := c.(phase := Handling, todo := [WriteCb]);
    steps, d := DrainsInDispatch(p);
    steps := Chain(c, steps, d, DoPoll({Out}), p);
  }

  // ---- exactly when SHUT_WR may be issued twice ----

  // Nothing left to send, and one SHUT_WR at most, whether done, or due at the
  // drain, or requested; or the close callback comes first.
  predicate OnceInv(c: Conn) {
    || (c.state == Disconnected && |c.shuts| <= 1)
    || (c.state == Disconnecting && Waiting(c) == 0 && |c.shuts| + (if c.out == [] then 0 else 1) + Requests(c) <= 1)
    || (ClosesNext(c) && |c.shuts| <= 1)
  }

  predicate ClosesNext(c: Conn) { c.state == Disconnecting && c.todo != [] && c.todo[0] == CloseCb }

  lemma CloseIsFirst(c: Conn)
    requires Inv(c) && c.state == Disconnecting && CloseCb in c.todo
    ensures ClosesNext(c)
  {
    PopTodo(c);
    assert c.todo == [c.todo[0]] + c.todo[1..];
  }

  lemma OnceTask(c: Conn, w: WriteResult)
    requires Inv(c) && OnceInv(c) && Possible(c, DoTask(w)) && RunTask(c, w).Ok?
    ensures OnceInv(RunTask(c, w).conn)
  {
    var d := c.(batch := c.batch[1..]);
    if c.batch[0].QSend? {
      SendInLoopFrame(d, c.batch[0].msg, w);
      if c.state == Disconnecting {
        assert c.batch[0].msg == [];
        assert SendInLoop(d, [], w).conn.out == d.out + [];
      }
    }
  }

  lemma OnceDispatch(c: Conn, res: ReadResult, w: WriteResult)
    requires Inv(c) && OnceInv(c) && Possible(c, DoDispatch(res, w)) && DispatchNext(c, res, w).Ok?
    ensures OnceInv(DispatchNext(c, res, w).conn)
  {
    if c.state == Disconnecting {
      DispatchMoves(c, res, w);
    } else {
      ClosedDispatch(c, res, w);
    }
  }

  lemma OnceOther(c: Conn, a: Step)
    requires Inv(c) && OnceInv(c) && Possible(c, a) && Safe(c, a) && Next(c, a).Ok? && !a.DoTask? && !a.DoDispatch?
    ensures OnceInv(Next(c, a).conn)
  {
    if a.DoForceClose? {
      ForceCloseCounts(c, a.inLoop);
    } else if a.DoPush? {
      PushCounts(c, a.k);
    }
  }

  lemma ForceCloseCounts(c: Conn, inLoop: bool)
    ensures Requests(ForceClose(c, inLoop)) == Requests(c) && Waiting(ForceClose(c, inLoop)) == Waiting(c)
  {
    ShutdownsAppend(c.pending, QForceClose);
    ShutdownsAppend(c.late, QForceClose);
    QueuedAppend(c.pending, QForceClose);
    QueuedAppend(c.late, QForceClose);
  }

  lemma PushCounts(c: Conn, k: nat)
    requires Inv(c) && k < |c.late|
    ensures Requests(Push(c, k)) == Requests(c) && Waiting(Push(c, k)) == Waiting(c)
  {
    PushInv(c, k);
    ShutdownsAppend(c.pending, c.late[k]);
    ShutdownsRemove(c.late, k);
  }

  lemma {:induction false} OnceRun(c: Conn, steps: seq<Step>, d: Conn)
    requires Inv(c) && OnceInv(c) && SafeRun(c, steps, d)
    ensures OnceInv(d)
    decreases |steps|
  {
    if steps != [] {
      var a := steps[0];
      SafeStep(c, a);
      match a {
        case DoTask(w) => OnceTask(c, w);
        case DoDispatch(res, w) => OnceDispatch(c, res, w);
        case _ => OnceOther(c, a);
      }
      OnceRun(Next(c, a).conn, steps[1..], d);
    }
  }

  // One queued send after SHUT_WR.
  lemma SendFaults(c: Conn)
    requires Between(c) && c.out == [] && c.batch != [] && c.batch[0].QSend?
    ensures Possible(c, DoTask(WriteFailed(EPIPE))) && RunTask(c, WriteFailed(EPIPE)).Ok?
    ensures var d := RunTask(c, WriteFailed(EPIPE)).conn;
            && Between(d) && SameControl(c.(batch := c.batch[1..]), d) && d.shuts == c.shuts && d.out == []
            && d.sock == c.sock && FaultedBytes(d.handled) == FaultedBytes(c.handled) + |c.batch[0].msg|
  {
    TaskInv(c, WriteFailed(EPIPE));
    FaultedSend(c.(batch := c.batch[1..]), c.batch[0].msg);
    BooksAppend(c.handled, Handled(c.batch[0].msg, Faulted));
  }

  // A request carried out with nothing buffered.
  lemma RequestShuts(c: Conn)
    requires Between(c) && c.out == [] && c.batch != [] && c.batch[0] == QShutdown
    ensures Possible(c, DoTask(WriteFailed(EPIPE))) && RunTask(c, WriteFailed(EPIPE)).Ok?
    ensures var d := RunTask(c, WriteFailed(EPIPE)).conn;
            && Inv(d) && |d.shuts| == |c.shuts| + 1 && d.shuts[..|c.shuts|] == c.shuts
            && d.shuts[|c.shuts|].queued == Waiting(c)
            && d.sock == c.sock && d.accepted == c.accepted && d.handled == c.handled
  {
    TaskInv(c, WriteFailed(EPIPE));
  }

  // Sends followed by one request.
  predicate EndsInRequest(ts: seq<LoopTask>) {
    ts != [] && ts[|ts| - 1] == QShutdown && forall j :: 0 <= j < |ts| - 1 ==> ts[j].QSend?
  }

  // After the first SHUT_WR the queued sends are lost and the request behind them
  // issues another.
  lemma {:induction false} SecondShut(c: Conn) returns (steps: seq<Step>, d: Conn)
    requires Between(c) && c.out == [] && EndsInRequest(c.batch)
    ensures SafeRun(c, steps, d) && |d.shuts| == |c.shuts| + 1 && d.shuts[..|c.shuts|] == c.shuts
    ensures d.sock == c.sock && d.accepted == c.accepted
    ensures FaultedBytes(d.handled) == FaultedBytes(c.handled) + QueuedBytes(c.batch)
    decreases |c.batch|
  {
    var a := DoTask(WriteFailed(EPIPE));
    if |c.batch| == 1 {
      RequestShuts(c);
      assert c.batch[1..] == [];
      d := Next(c, a).conn;
      steps := Chain(c, [], d, a, d);
    } else {
      SendFaults(c);
      var e := Next(c, a).conn;
      RequestTail(c.batch);
      steps, d := SecondShut(e);
      steps := Chain(c, steps, d, a, e);
    }
  }

  lemma RequestTail(ts: seq<LoopTask>)
    requires EndsInRequest(ts) && |ts| > 1
    ensures EndsInRequest(ts[1..])
  {
  }

  // The thread that called shutdown() gets to its push only now.
  lemma PushesRequest(c: Conn, k: nat) returns (steps: seq<Step>, d: Conn)
    requires Between(c) && c.out == [] && c.phase == Handling && c.todo == [] && OnlySends(c.pending)
    requires k < |c.late| && c.late[k] == QShutdown
    ensures SafeRun(c, steps, d) && |d.shuts| == |c.shuts| + 1 && d.shuts[..|c.shuts|] == c.shuts
    ensures d.sock == c.sock && d.accepted == c.accepted
    ensures FaultedBytes(d.handled) == FaultedBytes(c.handled) + QueuedBytes(c.pending)
  {
    PushInv(c, k);
    var e := Push(c, k);
    SwapInv(e);
    var f := Next(e, DoSwap).conn;
    QueuedAppend(c.pending, QShutdown);
    steps, d := SecondShut(f);
    steps := Chain(e, steps, d, DoSwap, f);
    steps := Chain(c, steps, d, DoPush(k), e);
  }

  // A half-closing connection whose request has not been pushed yet.
  predicate Requested(c: Conn, k: nat) {
    && Between(c) && c.shuts == [] && CloseCb !in c.todo && OnlySends(c.batch) && OnlySends(c.pending)
    && OneRequest(c.late, k)
  }

  predicate OneRequest(ts: seq<LoopTask>, k: nat) {
    k < |ts| && ts[k] == QShutdown && forall j :: 0 <= j < |ts| && j != k ==> ts[j].QSend?
  }

  lemma RequestStays(ts: seq<LoopTask>, k: nat, i: nat)
    requires OneRequest(ts, k) && i < |ts| && i != k
    ensures OneRequest(ts[..i] + ts[i + 1..], if i < k then k - 1 else k)
  {
    var r := ts[..i] + ts[i + 1..];
    assert forall j :: 0 <= j < |r| ==> r[j] == if j < i then ts[j] else ts[j + 1];
  }

  lemma {:induction false} SomeMessage(ts: seq<LoopTask>) returns (k: nat)
    requires QueuedBytes(ts) > 0
    ensures k < |ts| && ts[k].QSend? && ts[k].msg != []
  {
    if ts[0].QSend? && ts[0].msg != [] {
      k := 0;
    } else {
      k := SomeMessage(ts[1..]);
      k := k + 1;
    }
  }

  // A message of another thread reaches pendingTasks_.
  lemma PushesMessage(c: Conn, k: nat) returns (steps: seq<Step>, d: Conn, m: nat)
    requires Requested(c, k) && QueuedBytes(c.late) > 0
    ensures SafeRun(c, steps, d) && Requested(d, m) && d.phase == c.phase && d.out == c.out && QueuedBytes(d.pending) > 0
  {
    var i := SomeMessage(c.late);
    PushInv(c, i);
    d := Push(c, i);
    m := if i < k then k - 1 else k;
    RequestStays(c.late, k, i);
    QueuedAppend(c.pending, c.late[i]);
    steps := Chain(c, [], d, DoPush(i), d);
  }

  // However the output is spread, all of it can be in the buffer while the
  // request is still with its thread.
  lemma Gathers(c: Conn, k: nat) returns (steps: seq<Step>, d: Conn, m: nat)
    requires Requested(c, k) && (c.out != [] || Waiting(c) > 0)
    ensures SafeRun(c, steps, d) && Requested(d, m) && d.phase == AtPoll && d.out != []
  {
    steps, d := ToPoll(c);
    m := k;
    if d.out == [] {
      if QueuedBytes(d.pending) == 0 {
        var p, e, n := PushesMessage(d, k);
        steps := JoinRuns(c, steps, d, p, e);
        d, m := e, n;
      }
      var p1, e1 := PollsNothing(d);
      var p2, e2 := SwapAndRun(e1);
      steps := JoinRuns(c, steps, d, p1, e1);
      steps := JoinRuns(c, steps, e1, p2, e2);
      d := e2;
    }
  }

  lemma TwoShutdowns(c: Conn, k: nat) returns (steps: seq<Step>, d: Conn)
    requires Requested(c, k) && (c.out != [] || Waiting(c) > 0)
    ensures SafeRun(c, steps, d) && |d.shuts| == 2
  {
    var m, e, f, p;
    steps, e, m := Gathers(c, k);
    p, f := DrainsAtPoll(e);
    steps := JoinRuns(c, steps, e, p, f);
    p, d := PushesRequest(f, m);
    steps := JoinRuns(c, steps, f, p, d);
  }

  ghost predicate ShutsOnce(c: Conn) {
    forall steps, d :: SafeRun(c, steps, d) ==> |d.shuts| <= 1
  }

  lemma RequestedAfter(c: Conn)
    requires Inv(c) && FreshInv(c) && c.state == Connected && CloseCb !in c.todo
    ensures Shutdown(c, false).Ok? && Requested(Shutdown(c, false).conn, |c.late|)
  {
    ShutdownCounts(c, false);
  }

  // shutdown() on another thread issues SHUT_WR at most once in every run exactly
  // when its exchange finds no accepted byte on this side of the kernel: none in
  // the output buffer, none queued, and none with a thread inside send(); or when
  // the close callback is about to run anyway.
  lemma ForeignShutdownOnceIff(mark: nat, hw: bool, wc: bool, before: seq<Step>, c: Conn)
    requires SafeRun(Init(mark, hw, wc), before, c) && c.state == Connected
    ensures Shutdown(c, false).Ok?
    ensures ShutsOnce(Shutdown(c, false).conn) <==> CloseCb in c.todo || (c.out == [] && Waiting(c) == 0)
  {
    ReachableFresh(mark, hw, wc, before, c);
    ShutdownCounts(c, false);
    var s := Shutdown(c, false).conn;
    if CloseCb in c.todo || (c.out == [] && Waiting(c) == 0) {
      if CloseCb in c.todo {
        CloseIsFirst(s);
      }
      forall steps, d | SafeRun(s, steps, d)
        ensures |d.shuts| <= 1
      {
        OnceRun(s, steps, d);
      }
    } else {
      RequestedAfter(c);
      var steps, d := TwoShutdowns(s, |c.late|);
      assert SafeRun(s, steps, d) && |d.shuts| > 1;
    }
  }

  // ---- exactly when SHUT_WR may leave a message behind ----

  // Nothing with a message in it is queued behind a request.
  predicate SendsFirst(ts: seq<LoopTask>) {
    forall i, j :: 0 <= i < j < |ts| && ts[i].QShutdown? ==> !(ts[j].QSend? && ts[j].msg != [])
  }

  lemma {:induction false} SendsOver(ts: seq<LoopTask>)
    requires forall j :: 0 <= j < |ts| ==> !(ts[j].QSend? && ts[j].msg != [])
    ensures QueuedBytes(ts) == 0
  {
    if ts != [] {
      SendsOver(ts[1..]);
    }
  }

  lemma SendsFirstTail(ts: seq<LoopTask>)
    requires ts != [] && SendsFirst(ts)
    ensures SendsFirst(ts[1..])
    ensures ts[0].QShutdown? ==> QueuedBytes(ts[1..]) == 0
  {
    if ts[0].QShutdown? {
      forall j | 0 <= j < |ts[1..]|
        ensures !(ts[1..][j].QSend? && ts[1..][j].msg != [])
      {
        assert ts[1..][j] == ts[j + 1];
      }
      SendsOver(ts[1..]);
    }
  }

  predicate AllClean(shuts: seq<Shut>) {
    forall k :: 0 <= k < |shuts| ==> shuts[k].queued == 0
  }

  // The output buffer can drain before pendingTasks_ is next swapped out.
  predicate DrainFirst(c: Conn) {
    match c.phase
    case Handling => WriteCb in c.todo
    case InBatch => c.out != [] || QueuedBytes(c.batch) > 0
    case AtPoll => c.out != []
  }

  predicate Orderly(c: Conn) {
    && QueuedBytes(c.late) == 0 && SendsFirst(c.batch) && SendsFirst(c.pending)
    && (QShutdown in c.batch ==> QueuedBytes(c.pending) == 0)
    && (DrainFirst(c) ==> QueuedBytes(c.pending) == 0)
  }

  predicate CleanInv(c: Conn) {
    AllClean(c.shuts) && (c.state == Disconnected || (c.state == Disconnecting && (Orderly(c) || ClosesNext(c))))
  }

  lemma CleanTask(c: Conn, w: WriteResult)
    requires Inv(c) && CleanInv(c) && Possible(c, DoTask(w)) && RunTask(c, w).Ok?
    ensures CleanInv(RunTask(c, w).conn)
  {
    var d := c.(batch := c.batch[1..]);
    if c.state == Disconnecting {
      assert Orderly(c);
      SendsFirstTail(c.batch);
      assert QShutdown in d.batch ==> QShutdown in c.batch;
      if c.batch[0].QSend? {
        SendInLoopFrame(d, c.batch[0].msg, w);
        if c.batch[0].msg == [] {
          EmptyTaskSend(d, w);
        }
      } else if c.batch[0] == QShutdown {
        assert QShutdown in c.batch;
      }
    }
  }

  lemma EmptyTaskSend(c: Conn, w: WriteResult)
    requires c.state == Disconnecting && KernelMayWrite(w, 0) && SendInLoop(c, [], w).Ok?
    ensures SendInLoop(c, [], w).conn.out == c.out
  {
    assert c.out + [] == c.out;
  }

  lemma CleanDispatch(c: Conn, res: ReadResult, w: WriteResult)
    requires Inv(c) && CleanInv(c) && Possible(c, DoDispatch(res, w)) && DispatchNext(c, res, w).Ok?
    ensures CleanInv(DispatchNext(c, res, w).conn)
  {
    if c.state == Disconnecting {
      DispatchMoves(c, res, w);
      assert c.todo[0] in c.todo && c.phase == Handling && c.batch == [];
    } else {
      ClosedDispatch(c, res, w);
    }
  }

  lemma CleanPush(c: Conn, k: nat)
    requires Inv(c) && CleanInv(c) && k < |c.late|
    ensures CleanInv(Push(c, k))
  {
    if Orderly(c) {
      PushInv(c, k);
      QueuedRemove(c.late, k);
      QueuedAppend(c.pending, c.late[k]);
    }
  }

  lemma CleanPoll(c: Conn, rev: Events)
    requires Inv(c) && CleanInv(c) && Possible(c, DoPoll(rev))
    ensures CleanInv(Next(c, DoPoll(rev)).conn)
  {
    DispatchMembers(rev);
  }

  lemma CleanOther(c: Conn, a: Step)
    requires Inv(c) && CleanInv(c) && Possible(c, a) && Safe(c, a) && Next(c, a).Ok?
    requires !a.DoTask? && !a.DoDispatch? && !a.DoPush? && !a.DoPoll?
    ensures CleanInv(Next(c, a).conn)
  {
    if a.DoForceClose? {
      QueuedAppend(c.pending, QForceClose);
      QueuedAppend(c.late, QForceClose);
    }
  }

  lemma {:induction false} CleanRun(c: Conn, steps: seq<Step>, d: Conn)
    requires Inv(c) && CleanInv(c) && SafeRun(c, steps, d)
    ensures Inv(d) && CleanInv(d)
    decreases |steps|
  {
    if steps != [] {
      var a := steps[0];
      SafeStep(c, a);
      match a {
        case DoTask(w) => CleanTask(c, w);
        case DoDispatch(res, w) => CleanDispatch(c, res, w);
        case DoPush(k) => CleanPush(c, k);
        case DoPoll(rev) => CleanPoll(c, rev);
        case _ => CleanOther(c, a);
      }
      CleanRun(Next(c, a).conn, steps[1..], d);
    }
  }

  // Every accepted byte is in the kernel, or was dropped on a fault, at every
  // SHUT_WR of every run.
  ghost predicate AlwaysClean(c: Conn) {
    forall steps, d, k :: SafeRun(c, steps, d) && 0 <= k < |d.shuts| ==>
      d.shuts[k].accepted == d.shuts[k].inKernel + d.shuts[k].faulted
  }

  lemma CleanForever(c: Conn)
    requires Inv(c) && CleanInv(c)
    ensures AlwaysClean(c)
  {
    forall steps, d, k | SafeRun(c, steps, d) && 0 <= k < |d.shuts|
      ensures d.shuts[k].accepted == d.shuts[k].inKernel + d.shuts[k].faulted
    {
      CleanRun(c, steps, d);
    }
  }

  lemma UncleanRun(c: Conn, steps: seq<Step>, d: Conn)
    requires SafeRun(c, steps, d) && ShutsInv(d) && d.shuts != [] && d.shuts[0].queued > 0
    ensures !AlwaysClean(c)
  {
    assert d.shuts[0].accepted != d.shuts[0].inKernel + d.shuts[0].faulted;
  }

  // ... a message is in pendingTasks_, and the buffer drains before the swap.
  lemma LeavesPending(c: Conn)
    requires Between(c) && c.shuts == [] && CloseCb !in c.todo && OnlySends(c.batch) && OnlySends(c.pending)
    requires QueuedBytes(c.pending) > 0 && DrainFirst(c)
    ensures !AlwaysClean(c)
  {
    if c.phase == Handling {
      var p, d := DrainsInDispatch(c);
      UncleanRun(c, p, d);
    } else {
      var p, e := ToPoll(c);
      var q, d := DrainsAtPoll(e);
      p := JoinRuns(c, p, e, q, d);
      UncleanRun(c, p, d);
    }
  }

  // ... a message is still with its thread when the buffer drains,
  lemma LeavesLate(c: Conn)
    requires Between(c) && c.shuts == [] && CloseCb !in c.todo && OnlySends(c.batch) && OnlySends(c.pending)
    requires QueuedBytes(c.late) > 0 && c.out != []
    ensures !AlwaysClean(c)
  {
    var p, e := ToPoll(c);
    var q, d := DrainsAtPoll(e);
    p := JoinRuns(c, p, e, q, d);
    UncleanRun(c, p, d);
  }

  // ... or when the request, pushed before it, finds nothing to wait for.
  lemma Overtakes(c: Conn, k: nat) returns (steps: seq<Step>, d: Conn)
    requires Requested(c, k) && QueuedBytes(c.late) > 0
    requires c.phase == AtPoll && c.out == [] && c.batch == [] && c.pending == []
    ensures SafeRun(c, steps, d) && Inv(d) && |d.shuts| == 1 && d.shuts[0].queued > 0
  {
    PushInv(c, k);
    QueuedRemove(c.late, k);
    var e := Push(c, k);
    var p, f := PollsNothing(e);
    SwapInv(f);
    var g := Next(f, DoSwap).conn;
    var a := DoTask(WriteFailed(EPIPE));
    assert g.batch == [QShutdown];
    RequestShuts(g);
    d := Next(g, a).conn;
    steps := Chain(g, [], d, a, d);
    steps := Chain(f, steps, d, DoSwap, g);
    steps := JoinRuns(e, p, f, steps, d);
    steps := Chain(c, steps, d, DoPush(k), e);
  }

  lemma ForeignLeavesLate(c: Conn, k: nat)
    requires Requested(c, k) && QueuedBytes(c.late) > 0
    ensures !AlwaysClean(c)
  {
    var p, e := ToPoll(c);
    var q, f := PollsNothing(e);
    var r, g := SwapAndRun(f);
    var t, d;
    if e.out != [] {
      t, d := DrainsAtPoll(e);
      p := JoinRuns(c, p, e, t, d);
    } else {
      p := JoinRuns(c, p, e, q, f);
      p := JoinRuns(c, p, f, r, g);
      if g.out != [] {
        t, d := DrainsAtPoll(g);
      } else {
        t, d := Overtakes(g, k);
      }
      p := JoinRuns(c, p, g, t, d);
    }
    UncleanRun(c, p, d);
  }

  // When shutdown() may leave accepted bytes behind. On the loop thread with an
  // empty buffer SHUT_WR is issued at once. Otherwise, unless the close callback
  // comes first: a thread is inside send() with a message, or one is in
  // pendingTasks_ and the buffer can drain before the swap.
  predicate MayLeaveBehind(c: Conn, inLoop: bool) {
    if inLoop && c.out == [] then Waiting(c) > 0
    else
      CloseCb !in c.todo && (QueuedBytes(c.late) > 0 || (QueuedBytes(c.pending) > 0 && DrainFirst(c)))
  }

  lemma NothingLeftBehind(c: Conn, inLoop: bool)
    requires Inv(c) && FreshInv(c) && c.state == Connected && !MayLeaveBehind(c, inLoop)
    ensures Shutdown(c, inLoop).Ok? && AlwaysClean(Shutdown(c, inLoop).conn)
  {
    ShutdownCounts(c, inLoop);
    var s := Shutdown(c, inLoop).conn;
    if CloseCb in c.todo {
      CloseIsFirst(s);
    }
    CleanForever(s);
  }

  lemma SomethingLeftBehind(c: Conn, inLoop: bool)
    requires Inv(c) && FreshInv(c) && c.state == Connected && MayLeaveBehind(c, inLoop)
    ensures Shutdown(c, inLoop).Ok? && !AlwaysClean(Shutdown(c, inLoop).conn)
  {
    ShutdownCounts(c, inLoop);
    var s := Shutdown(c, inLoop).conn;
    if inLoop && c.out == [] {
      UncleanRun(s, [], s);
    } else if QueuedBytes(c.late) == 0 {
      LeavesPending(s);
    } else if inLoop {
      LeavesLate(s);
    } else {
      RequestedAfter(c);
      ForeignLeavesLate(s, |c.late|);
    }
  }

  // Every SHUT_WR of every run after shutdown(), on whichever thread, finds all
  // accepted bytes sent or dropped on a fault, exactly when the call does not meet
  // one of those situations.
  lemma HalfCloseCleanIff(mark: nat, hw: bool, wc: bool, before: seq<Step>, c: Conn, inLoop: bool)
    requires SafeRun(Init(mark, hw, wc), before, c) && c.state == Connected
    ensures Shutdown(c, inLoop).Ok?
    ensures AlwaysClean(Shutdown(c, inLoop).conn) <==> !MayLeaveBehind(c, inLoop)
  {
    ReachableFresh(mark, hw, wc, before, c);
    if MayLeaveBehind(c, inLoop) {
      SomethingLeftBehind(c, inLoop);
    } else {
      NothingLeftBehind(c, inLoop);
    }
  }

  // ---- a message lost ----

  lemma Established(c: Conn)
    requires c == Init(c.mark, c.hasHighWater, c.hasWriteComplete)
    ensures Establish(c) == Ok(c.(state := Connected, events := {In, Pri}, pooled := true))
  {
    assert {} + {In, Pri} == {In, Pri} && Pri in {In, Pri};
  }

  lemma FirstBlocked(c: Conn, x: seq<Byte>)
    requires c.state == Connected && c.events == {In, Pri} && c.pooled && c.out == [] && !c.hasHighWater && x != []
    ensures Send(c, x, true, WriteFailed(EAGAIN)) ==
            Ok(c.(events := {In, Pri, Out}, out := x, handled := c.handled + [Handled(x, WouldBlock)],
                  accepted := c.accepted + |x|))
  {
    assert {In, Pri} + {Out} == {In, Pri, Out} && Pri in {In, Pri, Out};
    assert c.out + x == x;
    assert c.notes + [] == c.notes;
  }

  // Output x is buffered and the loop is in epoll_wait.
  lemma Waits(x: seq<Byte>) returns (steps: seq<Step>, c: Conn)
    requires x != []
    ensures SafeRun(Init(0, false, false), steps, c)
    ensures c == Init(0, false, false).(state := Connected, events := {In, Pri, Out}, pooled := true, phase := AtPoll,
                                        out := x, handled := [Handled(x, WouldBlock)], accepted := |x|)
  {
    var c0 := Init(0, false, false);
    Established(c0);
    var c1 := c0.(state := Connected, events := {In, Pri}, pooled := true);
    FirstBlocked(c1, x);
    var a := DoSend(x, true, WriteFailed(EAGAIN));
    var c2 := Next(c1, a).conn;
    var c3 := c2.(phase := InBatch);
    c := c2.(phase := AtPoll);
    steps := Chain(c3, [], c, DoBatchEnd, c);
    steps := Chain(c2, steps, c, DoSwap, c3);
    steps := Chain(c1, steps, c, a, c2);
    steps := Chain(c0, steps, c, DoEstablish, c1);
  }

  // Another thread's message reaches pendingTasks_.
  lemma OtherSends(c: Conn, y: seq<Byte>) returns (steps: seq<Step>, d: Conn)
    requires c.state == Connected && c.pending == [] && c.late == []
    ensures SafeRun(c, steps, d) && d == c.(accepted := c.accepted + |y|, pending := [QSend(y)])
  {
    var a := DoSend(y, false, WriteFailed(EAGAIN));
    var e := c.(accepted := c.accepted + |y|, late := [QSend(y)]);
    d := c.(accepted := c.accepted + |y|, pending := [QSend(y)]);
    assert e.late[..0] + e.late[1..] == [];
    steps := Chain(e, [], d, DoPush(0), d);
    steps := Chain(c, steps, d, a, e);
  }

  lemma Prepared(x: seq<Byte>, y: seq<Byte>) returns (steps: seq<Step>, c: Conn)
    requires x != []
    ensures SafeRun(Init(0, false, false), steps, c) && Inv(c) && FreshInv(c)
    ensures c.state == Connected && c.phase == AtPoll && c.todo == [] && c.out == x && c.pending == [QSend(y)]
    ensures c.batch == [] && c.late == [] && c.shuts == [] && c.sock == [] && c.accepted == |x| + |y|
    ensures FaultedBytes(c.handled) == 0
  {
    var b, p;
    steps, b := Waits(x);
    p, c := OtherSends(b, y);
    steps := JoinRuns(Init(0, false, false), steps, b, p, c);
    ReachableFresh(0, false, false, steps, c);
    NoneFaulted(x);
  }

  // A shutdown() from another thread is not clean: the drain of x issues SHUT_WR
  // while y, queued before it, still waits; y is then lost to EPIPE, and SHUT_WR
  // is issued a second time.
  lemma ForeignShutdownWitness(x: seq<Byte>, y: seq<Byte>) returns (steps: seq<Step>, d: Conn)
    requires x != []
    ensures SafeRun(Init(0, false, false), steps, d)
    ensures |d.shuts| == 2 && d.shuts[0].queued == |y|
    ensures d.accepted == |x| + |y| && d.sock == x && FaultedBytes(d.handled) == |y|
  {
    var c;
    steps, c := Prepared(x, y);
    ShutdownCounts(c, false);
    var s := Shutdown(c, false).conn;
    var p := Chain(c, [], s, DoShutdown(false), s);
    steps := JoinRuns(Init(0, false, false), steps, c, p, s);
    WitnessBytes(s, y);
    var e;
    p, e := DrainsAtPoll(s);
    steps := JoinRuns(Init(0, false, false), steps, s, p, e);
    p, d := PushesRequest(e, 0);
    steps := JoinRuns(Init(0, false, false), steps, e, p, d);
    assert d.shuts[0] == d.shuts[..1][0] == e.shuts[0];
  }

  lemma NoneFaulted(x: seq<Byte>)
    ensures FaultedBytes([Handled(x, WouldBlock)]) == 0
  {
    assert [Handled(x, WouldBlock)][..0] == [];
  }

  lemma WitnessBytes(c: Conn, y: seq<Byte>)
    requires c.batch == [] && c.pending == [QSend(y)] && c.late == [QShutdown]
    ensures Waiting(c) == |y| && QueuedBytes(c.pending) == |y|
  {
    assert c.pending[1..] == [] && c.late[1..] == [];
  }
}
