// What is bound to happen to a connection once it has been asked for.
module ConnectionProgress {
  import opened Codec
  import opened Interest
  import opened Syscalls
  import opened Connection
  import opened ConnectionRuns

  // ---- forced close ----

  // The connection's tasks in the order the loop will run them.
  function Queue(c: Conn): (q: seq<LoopTask>) { c.batch + c.pending }

  lemma DispatchKeepsQueues(c: Conn, res: ReadResult, w: WriteResult)
    requires Possible(c, DoDispatch(res, w)) && DispatchNext(c, res, w).Ok?
    ensures SameQueues(c, DispatchNext(c, res, w).conn)
  {
    if c.todo[0] == WriteCb {
      HandleWriteFrame(c.(todo := c.todo[1..]), w);
    }
  }

  lemma SendKeepsQueue(c: Conn, msg: seq<Byte>, inLoop: bool, w: WriteResult)
    requires KernelMayWrite(w, |msg|) && Send(c, msg, inLoop, w).Ok?
    ensures Queue(Send(c, msg, inLoop, w).conn) == Queue(c)
  {
    if c.state == Connected && inLoop {
      SendInLoopFrame(c.(accepted := c.accepted + |msg|), msg, w);
    }
  }

  lemma TaskPops(c: Conn, w: WriteResult)
    requires Possible(c, DoTask(w)) && RunTask(c, w).Ok?
    ensures var d := RunTask(c, w).conn;
            d.batch == c.batch[1..] && d.pending == c.pending && d.late == c.late && d.phase == c.phase
    ensures c.batch[0] == QForceClose ==> RunTask(c, w).conn.state == Disconnected
  {
    if c.batch[0].QSend? {
      SendInLoopFrame(c.(batch := c.batch[1..]), c.batch[0].msg, w);
    }
  }

  // The loop's queue is first in, first out.
  lemma StepQueue(c: Conn, a: Step)
    requires Inv(c) && Possible(c, a) && Next(c, a).Ok?
    ensures a.DoTask? ==> Queue(Next(c, a).conn) == Queue(c)[1..]
    ensures !a.DoTask? ==> Queue(c) <= Queue(Next(c, a).conn)
  {
    match a
    case DoTask(w) =>
      TaskPops(c, w);
      assert Queue(c)[1..] == c.batch[1..] + c.pending;
    case DoDispatch(res, w) => DispatchKeepsQueues(c, res, w);
    case DoSend(msg, inLoop, w) => SendKeepsQueue(c, msg, inLoop, w);
    case DoSwap => assert c.batch == [];
    case DoForceClose(_) => assert Queue(c) <= c.batch + (c.pending + [QForceClose]);
    case DoPush(k) => assert Queue(c) <= c.batch + (c.pending + [c.late[k]]);
    case _ =>
  }

  function TasksRun(steps: seq<Step>): (n: nat) {
    if steps == [] then 0 else (if steps[0].DoTask? then 1 else 0) + TasksRun(steps[1..])
  }

  // A forced close waiting at place i of the queue has closed the connection by
  // the time i + 1 tasks have run, whatever else happens in between.
  lemma {:induction false} ForceCloseTakesEffect(c: Conn, i: nat, steps: seq<Step>, d: Conn)
    requires Inv(c) && i < |Queue(c)| && Queue(c)[i] == QForceClose
    requires SafeRun(c, steps, d) && TasksRun(steps) > i
    ensures d.state == Disconnected && d.closes == 1
    decreases |steps|
  {
    var a := steps[0];
    var e := Next(c, a).conn;
    SafeStep(c, a);
    StepQueue(c, a);
    if a.DoTask? && i == 0 {
      TaskPops(c, a.w);
      DisconnectedIsAbsorbing(e, steps[1..], d);
    } else {
      ForceCloseTakesEffect(e, if a.DoTask? then i - 1 else i, steps[1..], d);
    }
  }

  lemma QueuedLast(c: Conn, d: Conn)
    requires d.batch == c.batch && d.pending == c.pending + [QForceClose]
    ensures |Queue(d)| == |Queue(c)| + 1 && Queue(d)[|Queue(c)|] == QForceClose
  {
  }

  // forceClose() on a live connection: once the tasks that were queued before it
  // and one more have run, the connection is closed, and only once.
  lemma ForceCloseCloses(c: Conn, steps: seq<Step>, d: Conn)
    requires Inv(c) && Alive(c) && SafeRun(ForceClose(c, true), steps, d) && TasksRun(steps) > |Queue(c)|
    ensures d.state == Disconnected && d.closes == 1
  {
    ForceCloseInv(c, true);
    var e := ForceClose(c, true);
    QueuedLast(c, e);
    ForceCloseTakesEffect(e, |Queue(c)|, steps, d);
  }

  // The same from the push on, when another thread calls it.
  lemma ForeignForceCloseCloses(c: Conn, k: nat, steps: seq<Step>, d: Conn)
    requires Inv(c) && k < |c.late| && c.late[k] == QForceClose
    requires SafeRun(Push(c, k), steps, d) && TasksRun(steps) > |Queue(c)|
    ensures d.state == Disconnected && d.closes == 1
  {
    PushInv(c, k);
    var e := Push(c, k);
    QueuedLast(c, e);
    ForceCloseTakesEffect(e, |Queue(c)|, steps, d);
  }

  // ---- half-close ----

  predicate ShutdownWaits(c: Conn) {
    QShutdown in c.batch || QShutdown in c.pending || QShutdown in c.late
  }

  // Asked to half-close: SHUT_WR has been issued, or output is still buffered, or
  // the request is on its way to the loop.
  predicate HalfCloseUnderWay(c: Conn) {
    c.state == Disconnecting && (c.shuts != [] || c.out != [] || ShutdownWaits(c))
  }

  lemma ShutdownStartsHalfClose(c: Conn, inLoop: bool)
    requires Inv(c) && c.state == Connected
    ensures Shutdown(c, inLoop).Ok? && HalfCloseUnderWay(Shutdown(c, inLoop).conn)
  {
  }

  lemma DispatchKeepsHalfClose(c: Conn, res: ReadResult, w: WriteResult)
    requires Inv(c) && HalfCloseUnderWay(c) && Possible(c, DoDispatch(res, w)) && DispatchNext(c, res, w).Ok?
    ensures var d := DispatchNext(c, res, w).conn; HalfCloseUnderWay(d) || d.state == Disconnected
  {
    PopTodo(c);
    DispatchKeepsQueues(c, res, w);
  }

  lemma TaskKeepsHalfClose(c: Conn, w: WriteResult)
    requires Inv(c) && HalfCloseUnderWay(c) && Possible(c, DoTask(w)) && RunTask(c, w).Ok?
    ensures var d := RunTask(c, w).conn; HalfCloseUnderWay(d) || d.state == Disconnected
  {
    TaskPops(c, w);
    assert c.batch == [c.batch[0]] + c.batch[1..];
    if c.batch[0].QSend? {
      SendInLoopFrame(c.(batch := c.batch[1..]), c.batch[0].msg, w);
    }
  }

  lemma PushKeepsShutdown(c: Conn, k: nat)
    requires k < |c.late|
    ensures ShutdownWaits(c) ==> ShutdownWaits(Push(c, k))
  {
    var d := Push(c, k);
    assert c.late == c.late[..k] + [c.late[k]] + c.late[k + 1..];
    assert d.pending[|c.pending|] == c.late[k];
  }

  lemma OtherKeepsHalfClose(c: Conn, a: Step)
    requires Inv(c) && HalfCloseUnderWay(c) && Possible(c, a) && Safe(c, a) && Next(c, a).Ok?
    requires !a.DoTask? && !a.DoDispatch?
    ensures HalfCloseUnderWay(Next(c, a).conn)
  {
    if a.DoPush? {
      PushKeepsShutdown(c, a.k);
    }
  }

  // A half-close is never forgotten: once under way, a connection that is still
  // alive with nothing left to send and no request on its way has had its SHUT_WR.
  lemma {:induction false} HalfCloseHappens(c: Conn, steps: seq<Step>, d: Conn)
    requires Inv(c) && HalfCloseUnderWay(c) && SafeRun(c, steps, d)
    ensures d.state == Disconnected ||
            (d.state == Disconnecting && (d.out == [] && !ShutdownWaits(d) ==> d.shuts != []))
    decreases |steps|
  {
    if steps != [] {
      var a := steps[0];
      SafeStep(c, a);
      match a {
        case DoTask(w) => TaskKeepsHalfClose(c, w);
        case DoDispatch(res, w) => DispatchKeepsHalfClose(c, res, w);
        case _ => OtherKeepsHalfClose(c, a);
      }
      var e := Next(c, a).conn;
      if e.state == Disconnected {
        DisconnectedIsAbsorbing(e, steps[1..], d);
      } else {
        HalfCloseHappens(e, steps[1..], d);
      }
    }
  }

  // ---- write-complete ----

  // A write-complete notification is queued only when the kernel has every byte
  // of every message processed so far, faulted ones apart.
  lemma WriteCompleteMeansSent(c: Conn, a: Step)
    requires Inv(c) && Possible(c, a) && Safe(c, a)
    ensures Next(c, a).Ok?
    ensures var d := Next(c, a).conn;
            WriteCompletes(d.notes) > WriteCompletes(c.notes) ==> d.sock == Sent(d.handled)
  {
    SafeStep(c, a);
    StepNotes(c, a);
    var d := Next(c, a).conn;
    if d.out == [] {
      assert d.sock + d.out == d.sock;
    }
  }
}
