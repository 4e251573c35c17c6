// What the calls made on a connection and the results of its system calls say
// about its books, over any run.
module ConnectionLedger {
  import opened Codec
  import opened Interest
  import opened Syscalls
  import opened Connection
  import opened ConnectionRuns

  // ---- the calls ----

  // One ::write: what it was offered and what it reported.
  datatype WriteCall = NoWrite | WriteCall(data: seq<Byte>, w: WriteResult)

  function Writes(c: Conn, a: Step): (r: WriteCall)
    requires Possible(c, a)
  {
    match a
    case DoSend(msg, inLoop, w) =>
      if inLoop && c.state == Connected && Out !in c.events then WriteCall(msg, w) else NoWrite
    case DoTask(w) =>
      if c.batch[0].QSend? && c.state != Disconnected && Out !in c.events then WriteCall(c.batch[0].msg, w) else NoWrite
    case DoDispatch(_, w) =>
      if c.todo[0] == WriteCb && c.state != Disconnected then WriteCall(c.out, w) else NoWrite
    case _ => NoWrite
  }

  // The bytes the kernel took from it.
  function Taken(call: WriteCall): (bs: seq<Byte>) {
    if call.WriteCall? && call.w.Wrote? && call.w.n <= |call.data| then call.data[..call.w.n] else []
  }

  // The message a step hands to sendInLoop.
  datatype Submission = NoMessage | Message(msg: seq<Byte>)

  function Submits(c: Conn, a: Step): (r: Submission)
    requires Possible(c, a)
  {
    match a
    case DoSend(msg, inLoop, _) => if inLoop && c.state == Connected then Message(msg) else NoMessage
    case DoTask(_) => if c.batch[0].QSend? then Message(c.batch[0].msg) else NoMessage
    case _ => NoMessage
  }

  // The bytes a step's readv delivers.
  function Reads(c: Conn, a: Step): (bs: seq<Byte>)
    requires Possible(c, a)
  {
    if a.DoDispatch? && c.todo[0] == ReadCb && a.res.ReadBytes? then a.res.bytes else []
  }

  predicate Fatal(errno: Errno) { errno == EPIPE || errno == ECONNRESET }

  // ---- one call at a time ----

  // What sendInLoop does with a message: behind a non-empty buffer it is kept
  // whole; otherwise what write took is gone, what it left is kept, and a message
  // refused for good is dropped.
  lemma SendInLoopExact(c: Conn, msg: seq<Byte>, w: WriteResult)
    requires Alive(c) && ShapeInv(c) && KernelMayWrite(w, |msg|) && SendInLoop(c, msg, w).Ok?
    ensures var d := SendInLoop(c, msg, w).conn;
            if c.out != [] then d.sock == c.sock && d.out == c.out + msg
            else match w
              case Wrote(n) => d.sock == c.sock + msg[..n] && d.out == msg[n..]
              case WriteFailed(errno) => d.sock == c.sock && d.out == if Fatal(errno) then [] else msg
    ensures SendInLoop(c, msg, w).conn.handled ==
            c.handled + [Handled(msg, if c.out != [] then NotTried
                                      else if w.Wrote? then WroteNow(w.n)
                                      else if Fatal(w.errno) then Faulted else WouldBlock)]
  {
    if Out in c.events {
      BufferRestFrame(c.(handled := c.handled + [Handled(msg, NotTried)]), msg);
    } else if w.Wrote? {
      var d := c.(sock := c.sock + msg[..w.n], handled := c.handled + [Handled(msg, WroteNow(w.n))],
                  notes := c.notes + if w.n == |msg| && c.hasWriteComplete then [WriteComplete] else []);
      BufferRestFrame(d, msg[w.n..]);
      assert [] + msg[w.n..] == msg[w.n..];
    } else if !Fatal(w.errno) {
      BufferRestFrame(c.(handled := c.handled + [Handled(msg, WouldBlock)]), msg);
      assert [] + msg == msg;
    }
  }

  // handleWrite: the kernel gets the front of the buffer, and only that leaves it.
  lemma HandleWriteExact(c: Conn, w: WriteResult)
    requires c.state != Disconnected && KernelMayWrite(w, |c.out|) && HandleWrite(c, w).Ok?
    ensures var d := HandleWrite(c, w).conn;
            match w
            case Wrote(n) => d.sock == c.sock + c.out[..n] && d.out == c.out[n..]
            case WriteFailed(_) => d == c
  {
    if w.Wrote? && w.n == |c.out| {
      var e := SetInterest(c.(sock := c.sock + c.out[..w.n], out := c.out[w.n..]), DisableWrite).conn;
      AfterDrainFrame(e);
    }
  }

  // handleRead: an error changes nothing, end of stream closes, data is appended
  // and only appended.
  lemma HandleReadExact(c: Conn, res: ReadResult)
    requires Inv(c) && Alive(c) && CloseCb !in c.todo && ReadCb !in c.todo
    ensures HandleRead(c, res).Ok?
    ensures var d := HandleRead(c, res).conn;
            match res
            case ReadFailed(_) => d == c
            case ReadBytes(bytes) =>
              if bytes == [] then d.state == Disconnected && d.input == c.input && d.received == c.received
              else d == c.(input := c.input + bytes, received := c.received + bytes)
  {
    if res == ReadBytes([]) {
      HandleCloseInv(c);
    }
  }

  // ---- the output side of a step ----

  // What is in the output buffer after step a.
  function Left(c: Conn, a: Step): (bs: seq<Byte>)
    requires Possible(c, a)
  {
    var call := Writes(c, a);
    if Submits(c, a).Message? && c.state != Disconnected then
      if call.NoWrite? then c.out + Submits(c, a).msg
      else match call.w
        case Wrote(n) => if n <= |call.data| then call.data[n..] else []
        case WriteFailed(errno) => if Fatal(errno) then [] else call.data
    else if call.WriteCall? && call.w.Wrote? && call.w.n <= |c.out| then c.out[call.w.n..]
    else c.out
  }

  predicate OutputExact(c: Conn, a: Step, d: Conn)
    requires Possible(c, a)
  {
    d.sock == c.sock + Taken(Writes(c, a)) && d.out == Left(c, a)
  }

  lemma SendOutput(c: Conn, msg: seq<Byte>, w: WriteResult)
    requires ShapeInv(c) && c.state == Connected && Possible(c, DoSend(msg, true, w)) && Send(c, msg, true, w).Ok?
    ensures OutputExact(c, DoSend(msg, true, w), Send(c, msg, true, w).conn)
  {
    var d := c.(accepted := c.accepted + |msg|);
    SendInLoopExact(d, msg, w);
    SentIsExact(c, msg, w, SendInLoop(d, msg, w).conn);
  }

  lemma SentIsExact(c: Conn, msg: seq<Byte>, w: WriteResult, d: Conn)
    requires c.state == Connected && ShapeInv(c) && Possible(c, DoSend(msg, true, w))
    requires if c.out != [] then d.sock == c.sock && d.out == c.out + msg
             else match w
               case Wrote(n) => d.sock == c.sock + msg[..n] && d.out == msg[n..]
               case WriteFailed(errno) => d.sock == c.sock && d.out == if Fatal(errno) then [] else msg
    ensures OutputExact(c, DoSend(msg, true, w), d)
  {
  }

  lemma TaskOutput(c: Conn, w: WriteResult)
    requires Inv(c) && Possible(c, DoTask(w)) && RunTask(c, w).Ok?
    ensures OutputExact(c, DoTask(w), RunTask(c, w).conn)
  {
    var d := c.(batch := c.batch[1..]);
    if c.batch[0].QSend? {
      if c.state != Disconnected {
        SendInLoopExact(d, c.batch[0].msg, w);
      }
    } else {
      QuietTask(c, w);
      QuietSock(c, w);
    }
  }

  lemma QuietSock(c: Conn, w: WriteResult)
    requires Possible(c, DoTask(w)) && !c.batch[0].QSend? && RunTask(c, w).Ok?
    ensures RunTask(c, w).conn.sock == c.sock
  {
  }

  lemma DispatchOutput(c: Conn, res: ReadResult, w: WriteResult)
    requires Inv(c) && Possible(c, DoDispatch(res, w)) && DispatchNext(c, res, w).Ok?
    ensures OutputExact(c, DoDispatch(res, w), DispatchNext(c, res, w).conn)
  {
    PopTodo(c);
    var d := c.(todo := c.todo[1..]);
    if c.todo[0] == WriteCb && c.state != Disconnected {
      HandleWriteExact(d, w);
    }
  }

  // Every byte given to the kernel, and every byte kept, follows from the results
  // of write.
  lemma StepOutput(c: Conn, a: Step)
    requires Inv(c) && Possible(c, a) && Safe(c, a) && Next(c, a).Ok?
    ensures OutputExact(c, a, Next(c, a).conn)
  {
    match a
    case DoSend(msg, inLoop, w) =>
      if inLoop && c.state == Connected {
        SendOutput(c, msg, w);
      }
    case DoTask(w) => TaskOutput(c, w);
    case DoDispatch(res, w) => DispatchOutput(c, res, w);
    case _ => OtherOutput(c, a);
  }

  lemma OtherOutput(c: Conn, a: Step)
    requires Possible(c, a) && Next(c, a).Ok? && !a.DoSend? && !a.DoTask? && !a.DoDispatch?
    ensures OutputExact(c, a, Next(c, a).conn)
  {
  }

  // ---- the input side of a step ----

  lemma StepInput(c: Conn, a: Step)
    requires Inv(c) && Possible(c, a) && Safe(c, a) && Next(c, a).Ok?
    ensures var d := Next(c, a).conn;
            && d.received == c.received + Reads(c, a)
            && d.input == (if a.DoConsume? then c.input[a.n..] else c.input + Reads(c, a))
            && d.consumed == c.consumed + (if a.DoConsume? then c.input[..a.n] else [])
  {
    match a
    case DoDispatch(res, w) => DispatchInput(c, res, w);
    case DoTask(w) => TaskInput(c, w);
    case DoSend(msg, inLoop, w) => CallInput(c, msg, inLoop, w);
    case _ => OtherInput(c, a);
  }

  lemma OtherInput(c: Conn, a: Step)
    requires Possible(c, a) && Next(c, a).Ok? && !a.DoSend? && !a.DoTask? && !a.DoDispatch?
    ensures var d := Next(c, a).conn;
            && d.received == c.received
            && d.input == (if a.DoConsume? then c.input[a.n..] else c.input)
            && d.consumed == c.consumed + (if a.DoConsume? then c.input[..a.n] else [])
  {
  }

  lemma CallInput(c: Conn, msg: seq<Byte>, inLoop: bool, w: WriteResult)
    requires KernelMayWrite(w, |msg|) && Send(c, msg, inLoop, w).Ok?
    ensures SameInput(c, Send(c, msg, inLoop, w).conn)
  {
    if inLoop && c.state == Connected {
      SendIsSendInLoop(c, msg, w);
      SendInput(c.(accepted := c.accepted + |msg|), msg, w);
    }
  }

  lemma SendInput(c: Conn, msg: seq<Byte>, w: WriteResult)
    requires KernelMayWrite(w, |msg|) && SendInLoop(c, msg, w).Ok?
    ensures var d := SendInLoop(c, msg, w).conn;
            d.received == c.received && d.input == c.input && d.consumed == c.consumed
  {
    SendInLoopFrame(c, msg, w);
  }

  lemma TaskInput(c: Conn, w: WriteResult)
    requires Possible(c, DoTask(w)) && RunTask(c, w).Ok?
    ensures var d := RunTask(c, w).conn;
            d.received == c.received && d.input == c.input && d.consumed == c.consumed
  {
    if c.batch[0].QSend? {
      SendInput(c.(batch := c.batch[1..]), c.batch[0].msg, w);
    }
  }

  lemma DispatchInput(c: Conn, res: ReadResult, w: WriteResult)
    requires Inv(c) && Possible(c, DoDispatch(res, w)) && DispatchNext(c, res, w).Ok?
    ensures var d := DispatchNext(c, res, w).conn;
            && d.received == c.received + Reads(c, DoDispatch(res, w))
            && d.input == c.input + Reads(c, DoDispatch(res, w)) && d.consumed == c.consumed
  {
    PopTodo(c);
    if c.todo[0] == ReadCb {
      HandleReadExact(c.(todo := c.todo[1..]), res);
    }
  }

  // ---- reading interest ----

  // Whether the connection is watched for input is changed by startRead and
  // stopRead and by nothing else while it lives.
  predicate ReadingExact(c: Conn, a: Step, d: Conn) {
    Alive(c) && Alive(d) ==>
      (In in d.events <==> match a case DoStopRead => false case DoStartRead => true case _ => In in c.events)
  }

  lemma SendReading(c: Conn, msg: seq<Byte>, w: WriteResult)
    requires KernelMayWrite(w, |msg|) && SendInLoop(c, msg, w).Ok?
    ensures In in SendInLoop(c, msg, w).conn.events <==> In in c.events
  {
  }

  lemma WriteReading(c: Conn, w: WriteResult)
    requires KernelMayWrite(w, |c.out|) && HandleWrite(c, w).Ok?
    ensures In in HandleWrite(c, w).conn.events <==> In in c.events
  {
  }

  lemma CallReading(c: Conn, msg: seq<Byte>, inLoop: bool, w: WriteResult)
    requires KernelMayWrite(w, |msg|) && Send(c, msg, inLoop, w).Ok?
    ensures In in Send(c, msg, inLoop, w).conn.events <==> In in c.events
  {
    if inLoop && c.state == Connected {
      SendIsSendInLoop(c, msg, w);
      SendReading(c.(accepted := c.accepted + |msg|), msg, w);
    }
  }

  lemma TaskReading(c: Conn, w: WriteResult)
    requires Possible(c, DoTask(w)) && RunTask(c, w).Ok?
    ensures ReadingExact(c, DoTask(w), RunTask(c, w).conn)
  {
    if c.batch[0].QSend? {
      SendReading(c.(batch := c.batch[1..]), c.batch[0].msg, w);
    }
  }

  lemma DispatchReading(c: Conn, res: ReadResult, w: WriteResult)
    requires Possible(c, DoDispatch(res, w)) && DispatchNext(c, res, w).Ok?
    ensures ReadingExact(c, DoDispatch(res, w), DispatchNext(c, res, w).conn)
  {
    if c.todo[0] == WriteCb {
      WriteReading(c.(todo := c.todo[1..]), w);
    }
  }

  lemma StepReading(c: Conn, a: Step)
    requires ShapeInv(c) && Possible(c, a) && Next(c, a).Ok?
    ensures ReadingExact(c, a, Next(c, a).conn)
  {
    match a
    case DoSend(msg, inLoop, w) => CallReading(c, msg, inLoop, w);
    case DoTask(w) => TaskReading(c, w);
    case DoDispatch(res, w) => DispatchReading(c, res, w);
    case _ => OtherReading(c, a);
  }

  lemma OtherReading(c: Conn, a: Step)
    requires ShapeInv(c) && Possible(c, a) && Next(c, a).Ok? && !a.DoSend? && !a.DoTask? && !a.DoDispatch?
    ensures ReadingExact(c, a, Next(c, a).conn)
  {
  }

  // ---- the state word ----

  // The state after step a: when each transition is made, and no other.
  function StateAfter(c: Conn, a: Step): (st: ConnState)
    requires Possible(c, a)
  {
    match a
    case DoEstablish => Connected
    case DoShutdown(_) => Disconnecting
    case DoForceClose(_) => if c.state == Disconnected then Disconnected else Disconnecting
    case DoDispatch(res, _) =>
      if c.todo[0] == CloseCb || (c.todo[0] == ReadCb && res == ReadBytes([])) then Disconnected else c.state
    case DoTask(_) => if c.batch[0] == QForceClose then Disconnected else c.state
    case _ => c.state
  }

  lemma StepState(c: Conn, a: Step)
    requires Inv(c) && Possible(c, a) && Safe(c, a) && Next(c, a).Ok?
    ensures Next(c, a).conn.state == StateAfter(c, a)
  {
    match a
    case DoSend(msg, inLoop, w) =>
      if inLoop && c.state == Connected {
        SendIsSendInLoop(c, msg, w);
        SendInLoopFrame(c.(accepted := c.accepted + |msg|), msg, w);
      }
    case DoTask(w) => TaskState(c, w);
    case DoDispatch(res, w) => DispatchState(c, res, w);
    case _ =>
  }

  lemma TaskState(c: Conn, w: WriteResult)
    requires Possible(c, DoTask(w)) && RunTask(c, w).Ok?
    ensures RunTask(c, w).conn.state == StateAfter(c, DoTask(w))
  {
    if c.batch[0].QSend? {
      SendInLoopFrame(c.(batch := c.batch[1..]), c.batch[0].msg, w);
    }
  }

  lemma DispatchState(c: Conn, res: ReadResult, w: WriteResult)
    requires Possible(c, DoDispatch(res, w)) && DispatchNext(c, res, w).Ok?
    ensures DispatchNext(c, res, w).conn.state == StateAfter(c, DoDispatch(res, w))
    ensures c.todo[0] == ErrorCb ==> DispatchNext(c, res, w) == Ok(c.(todo := c.todo[1..]))
  {
    if c.todo[0] == WriteCb {
      HandleWriteFrame(c.(todo := c.todo[1..]), w);
    }
  }

  // ---- whole runs ----

  // Everything the kernel took from write, in order.
  ghost function Written(c: Conn, steps: seq<Step>, d: Conn): (bs: seq<Byte>)
    requires SafeRun(c, steps, d)
    decreases |steps|
  {
    if steps == [] then [] else Taken(Writes(c, steps[0])) + Written(Next(c, steps[0]).conn, steps[1..], d)
  }

  // The sum of what write reported.
  ghost function Reported(c: Conn, steps: seq<Step>, d: Conn): (n: nat)
    requires SafeRun(c, steps, d)
    decreases |steps|
  {
    if steps == [] then 0 else
      var call := Writes(c, steps[0]);
      (if call.WriteCall? && call.w.Wrote? then call.w.n else 0) + Reported(Next(c, steps[0]).conn, steps[1..], d)
  }

  // Everything readv delivered, in order.
  ghost function Delivered(c: Conn, steps: seq<Step>, d: Conn): (bs: seq<Byte>)
    requires SafeRun(c, steps, d)
    decreases |steps|
  {
    if steps == [] then [] else Reads(c, steps[0]) + Delivered(Next(c, steps[0]).conn, steps[1..], d)
  }

  lemma ReportedStep(c: Conn, a: Step)
    requires Inv(c) && Possible(c, a)
    ensures var call := Writes(c, a); |Taken(call)| == if call.WriteCall? && call.w.Wrote? then call.w.n else 0
  {
  }

  lemma {:induction false} RunWrites(c: Conn, steps: seq<Step>, d: Conn)
    requires Inv(c) && SafeRun(c, steps, d)
    ensures d.sock == c.sock + Written(c, steps, d) && |Written(c, steps, d)| == Reported(c, steps, d)
    decreases |steps|
  {
    if steps != [] {
      var e := Next(c, steps[0]).conn;
      SafeStep(c, steps[0]);
      StepOutput(c, steps[0]);
      ReportedStep(c, steps[0]);
      RunWrites(e, steps[1..], d);
      Regroup(c.sock, Taken(Writes(c, steps[0])), Written(e, steps[1..], d));
    }
  }

  lemma Regroup(a: seq<Byte>, b: seq<Byte>, c: seq<Byte>)
    ensures (a + b) + c == a + (b + c)
  {
  }

  lemma {:induction false} RunReads(c: Conn, steps: seq<Step>, d: Conn)
    requires Inv(c) && SafeRun(c, steps, d)
    ensures d.received == c.received + Delivered(c, steps, d)
    decreases |steps|
  {
    if steps != [] {
      var e := Next(c, steps[0]).conn;
      SafeStep(c, steps[0]);
      StepInput(c, steps[0]);
      RunReads(e, steps[1..], d);
      Regroup(c.received, Reads(c, steps[0]), Delivered(e, steps[1..], d));
    }
  }

  // The bytes send() accepts in a step.
  function AcceptsBytes(c: Conn, a: Step): (n: nat) {
    if a.DoSend? && c.state == Connected then |a.msg| else 0
  }

  lemma StepAccepted(c: Conn, a: Step)
    requires Possible(c, a) && Next(c, a).Ok?
    ensures Next(c, a).conn.accepted == c.accepted + AcceptsBytes(c, a)
  {
    match a
    case DoSend(msg, inLoop, w) =>
      if inLoop && c.state == Connected {
        SendIsSendInLoop(c, msg, w);
        SendInLoopFrame(c.(accepted := c.accepted + |msg|), msg, w);
      }
    case DoTask(w) =>
      if c.batch[0].QSend? {
        SendInLoopFrame(c.(batch := c.batch[1..]), c.batch[0].msg, w);
      }
    case DoDispatch(res, w) =>
      if c.todo[0] == WriteCb {
        HandleWriteFrame(c.(todo := c.todo[1..]), w);
      }
    case _ =>
  }

  // All the bytes send() accepted.
  ghost function AcceptedBytes(c: Conn, steps: seq<Step>, d: Conn): (n: nat)
    requires SafeRun(c, steps, d)
    decreases |steps|
  {
    if steps == [] then 0 else AcceptsBytes(c, steps[0]) + AcceptedBytes(Next(c, steps[0]).conn, steps[1..], d)
  }

  lemma {:induction false} RunAccepted(c: Conn, steps: seq<Step>, d: Conn)
    requires SafeRun(c, steps, d)
    ensures d.accepted == c.accepted + AcceptedBytes(c, steps, d)
    decreases |steps|
  {
    if steps != [] {
      StepAccepted(c, steps[0]);
      RunAccepted(Next(c, steps[0]).conn, steps[1..], d);
    }
  }

  // Conservation on both sides. The kernel has exactly what write reported taking;
  // together with the output buffer that is the messages processed so far without
  // the faulted ones, in order; every accepted byte is accounted for; the input
  // buffer behind what the application took is exactly what readv delivered; and
  // EPOLLOUT interest holds exactly when the buffer is non-empty.
  lemma OutputConservation(mark: nat, hw: bool, wc: bool, steps: seq<Step>, d: Conn)
    requires SafeRun(Init(mark, hw, wc), steps, d)
    ensures d.sock == Written(Init(mark, hw, wc), steps, d) && |d.sock| == Reported(Init(mark, hw, wc), steps, d)
    ensures d.sock + d.out == Sent(d.handled)
    ensures |d.sock| + |d.out| + FaultedBytes(d.handled) + Waiting(d) + d.dropped ==
            AcceptedBytes(Init(mark, hw, wc), steps, d)
    ensures d.received == Delivered(Init(mark, hw, wc), steps, d) == d.consumed + d.input
    ensures Alive(d) ==> (Out in d.events <==> d.out != [])
    ensures Alive(d) ==> d.pooled && Pri in d.events
  {
    InitInv(mark, hw, wc);
    RunInv(Init(mark, hw, wc), steps, d);
    RunWrites(Init(mark, hw, wc), steps, d);
    RunReads(Init(mark, hw, wc), steps, d);
    RunAccepted(Init(mark, hw, wc), steps, d);
    SentLength(d.handled);
  }

  // ---- messages ----

  function InTasks(ts: seq<LoopTask>, x: seq<Byte>): (n: nat) {
    if ts == [] then 0 else (if ts[0] == QSend(x) then 1 else 0) + InTasks(ts[1..], x)
  }

  function InHandled(h: seq<Handled>, x: seq<Byte>): (n: nat) {
    if h == [] then 0 else InHandled(h[..|h| - 1], x) + if h[|h| - 1].msg == x then 1 else 0
  }

  lemma {:induction false} InTasksConcat(a: seq<LoopTask>, b: seq<LoopTask>, x: seq<Byte>)
    ensures InTasks(a + b, x) == InTasks(a, x) + InTasks(b, x)
  {
    if a == [] {
      assert a + b == b;
    } else {
      assert (a + b)[1..] == a[1..] + b;
      InTasksConcat(a[1..], b, x);
    }
  }

  lemma InTasksRemove(ts: seq<LoopTask>, k: nat, x: seq<Byte>)
    requires k < |ts|
    ensures InTasks(ts, x) == InTasks(ts[..k] + ts[k + 1..], x) + InTasks([ts[k]], x)
  {
    var front, back := ts[..k], ts[k + 1..];
    assert ts[..k + 1] == front + [ts[k]];
    assert ts == ts[..k + 1] + back;
    InTasksConcat(ts[..k + 1], back, x);
    InTasksConcat(front, [ts[k]], x);
    InTasksConcat(front, back, x);
  }

  lemma InHandledAppend(h: seq<Handled>, e: Handled, x: seq<Byte>)
    ensures InHandled(h + [e], x) == InHandled(h, x) + if e.msg == x then 1 else 0
  {
    assert (h + [e])[..|h + [e]| - 1] == h;
  }

  // How many messages equal to x the connection has processed or is holding.
  function Copies(c: Conn, x: seq<Byte>): (n: nat) {
    InHandled(c.handled, x) + InTasks(c.batch, x) + InTasks(c.pending, x) + InTasks(c.late, x)
  }

  // Calls of send() with message x that are not refused, and messages given up
  // because the connection was closed before their task ran.
  function Accepts(c: Conn, a: Step, x: seq<Byte>): (n: nat) {
    if a.DoSend? && c.state == Connected && a.msg == x then 1 else 0
  }

  function GivesUp(c: Conn, a: Step, x: seq<Byte>): (n: nat)
    requires Possible(c, a)
  {
    if a.DoTask? && c.state == Disconnected && c.batch[0] == QSend(x) then 1 else 0
  }

  lemma SendCopies(c: Conn, msg: seq<Byte>, w: WriteResult, x: seq<Byte>)
    requires Alive(c) && ShapeInv(c) && KernelMayWrite(w, |msg|) && SendInLoop(c, msg, w).Ok?
    ensures Copies(SendInLoop(c, msg, w).conn, x) == Copies(c, x) + if msg == x then 1 else 0
  {
    SendInLoopFrame(c, msg, w);
    SendInLoopExact(c, msg, w);
    var h := SendInLoop(c, msg, w).conn.handled;
    InHandledAppend(c.handled, h[|c.handled|], x);
  }

  lemma TaskCopies(c: Conn, w: WriteResult, x: seq<Byte>)
    requires Inv(c) && Possible(c, DoTask(w)) && RunTask(c, w).Ok?
    ensures Copies(RunTask(c, w).conn, x) + GivesUp(c, DoTask(w), x) == Copies(c, x)
  {
    var d := c.(batch := c.batch[1..]);
    if c.batch[0].QSend? && c.state != Disconnected {
      SendCopies(d, c.batch[0].msg, w, x);
    } else {
      QuietCopies(c, w, x);
    }
  }

  lemma QuietCopies(c: Conn, w: WriteResult, x: seq<Byte>)
    requires Possible(c, DoTask(w)) && RunTask(c, w).Ok? && (c.batch[0].QSend? ==> c.state == Disconnected)
    ensures Copies(RunTask(c, w).conn, x) + GivesUp(c, DoTask(w), x) == Copies(c, x)
  {
    var d := c.(batch := c.batch[1..]);
    SameBooks(c, w);
    assert InTasks(c.batch, x) == (if c.batch[0] == QSend(x) then 1 else 0) + InTasks(d.batch, x);
  }

  lemma SameBooks(c: Conn, w: WriteResult)
    requires Possible(c, DoTask(w)) && RunTask(c, w).Ok? && (c.batch[0].QSend? ==> c.state == Disconnected)
    ensures var d := RunTask(c, w).conn;
            d.handled == c.handled && d.batch == c.batch[1..] && d.pending == c.pending && d.late == c.late
  {
  }

  lemma DispatchCopies(c: Conn, res: ReadResult, w: WriteResult, x: seq<Byte>)
    requires Possible(c, DoDispatch(res, w)) && DispatchNext(c, res, w).Ok?
    ensures Copies(DispatchNext(c, res, w).conn, x) == Copies(c, x)
  {
    if c.todo[0] == WriteCb {
      HandleWriteFrame(c.(todo := c.todo[1..]), w);
    }
  }

  lemma CallCopiesNow(c: Conn, msg: seq<Byte>, w: WriteResult, x: seq<Byte>)
    requires ShapeInv(c) && c.state == Connected && KernelMayWrite(w, |msg|) && Send(c, msg, true, w).Ok?
    ensures Copies(Send(c, msg, true, w).conn, x) == Copies(c, x) + if msg == x then 1 else 0
  {
    var d := c.(accepted := c.accepted + |msg|);
    SendIsSendInLoop(c, msg, w);
    SendCopies(d, msg, w, x);
  }

  lemma CallCopiesLater(c: Conn, msg: seq<Byte>, w: WriteResult, x: seq<Byte>)
    requires c.state == Connected && KernelMayWrite(w, |msg|)
    ensures Send(c, msg, false, w).Ok?
    ensures Copies(Send(c, msg, false, w).conn, x) == Copies(c, x) + if msg == x then 1 else 0
  {
    InTasksConcat(c.late, [QSend(msg)], x);
    assert InTasks([QSend(msg)], x) == if msg == x then 1 else 0;
  }

  lemma CallCopies(c: Conn, msg: seq<Byte>, inLoop: bool, w: WriteResult, x: seq<Byte>)
    requires ShapeInv(c) && Possible(c, DoSend(msg, inLoop, w)) && Send(c, msg, inLoop, w).Ok?
    ensures Copies(Send(c, msg, inLoop, w).conn, x) == Copies(c, x) + Accepts(c, DoSend(msg, inLoop, w), x)
  {
    if c.state == Connected {
      if inLoop {
        CallCopiesNow(c, msg, w, x);
      } else {
        CallCopiesLater(c, msg, w, x);
      }
    }
  }

  lemma OtherCopies(c: Conn, a: Step, x: seq<Byte>)
    requires (c.phase == Handling ==> c.batch == []) && Possible(c, a) && Next(c, a).Ok? && !a.DoSend? && !a.DoTask? && !a.DoDispatch?
    ensures Copies(Next(c, a).conn, x) == Copies(c, x)
  {
    match a
    case DoPush(k) => PushCopies(c, k, x);
    case DoForceClose(inLoop) => ForceCloseCopies(c, inLoop, x);
    case DoShutdown(inLoop) => ShutdownCopies(c, inLoop, x);
    case _ =>
  }

  lemma PushCopies(c: Conn, k: nat, x: seq<Byte>)
    requires k < |c.late|
    ensures Copies(Push(c, k), x) == Copies(c, x)
  {
    InTasksConcat(c.pending, [c.late[k]], x);
    InTasksRemove(c.late, k, x);
  }

  lemma ForceCloseCopies(c: Conn, inLoop: bool, x: seq<Byte>)
    ensures Copies(ForceClose(c, inLoop), x) == Copies(c, x)
  {
    InTasksConcat(c.pending, [QForceClose], x);
    InTasksConcat(c.late, [QForceClose], x);
  }

  lemma ShutdownCopies(c: Conn, inLoop: bool, x: seq<Byte>)
    requires Shutdown(c, inLoop).Ok?
    ensures Copies(Shutdown(c, inLoop).conn, x) == Copies(c, x)
  {
    InTasksConcat(c.late, [QShutdown], x);
  }

  lemma StepCopies(c: Conn, a: Step, x: seq<Byte>)
    requires Inv(c) && Possible(c, a) && Next(c, a).Ok?
    ensures Copies(Next(c, a).conn, x) + GivesUp(c, a, x) == Copies(c, x) + Accepts(c, a, x)
  {
    match a
    case DoSend(msg, inLoop, w) => CallCopies(c, msg, inLoop, w, x);
    case DoTask(w) => TaskCopies(c, w, x);
    case DoDispatch(res, w) => DispatchCopies(c, res, w, x);
    case _ => OtherCopies(c, a, x);
  }

  ghost function Accepted(c: Conn, steps: seq<Step>, d: Conn, x: seq<Byte>): (n: nat)
    requires SafeRun(c, steps, d)
    decreases |steps|
  {
    if steps == [] then 0 else Accepts(c, steps[0], x) + Accepted(Next(c, steps[0]).conn, steps[1..], d, x)
  }

  ghost function GivenUp(c: Conn, steps: seq<Step>, d: Conn, x: seq<Byte>): (n: nat)
    requires SafeRun(c, steps, d)
    decreases |steps|
  {
    if steps == [] then 0 else GivesUp(c, steps[0], x) + GivenUp(Next(c, steps[0]).conn, steps[1..], d, x)
  }

  lemma {:induction false} RunCopies(c: Conn, steps: seq<Step>, d: Conn, x: seq<Byte>)
    requires Inv(c) && SafeRun(c, steps, d)
    ensures Copies(d, x) + GivenUp(c, steps, d, x) == Copies(c, x) + Accepted(c, steps, d, x)
    decreases |steps|
  {
    if steps != [] {
      SafeStep(c, steps[0]);
      StepCopies(c, steps[0], x);
      RunCopies(Next(c, steps[0]).conn, steps[1..], d, x);
    }
  }

  // Every message send() accepted, on whichever thread, is processed once, or is
  // still on its way, or was given up after the close; and there are no others.
  lemma MessagesConserved(mark: nat, hw: bool, wc: bool, steps: seq<Step>, d: Conn, x: seq<Byte>)
    requires SafeRun(Init(mark, hw, wc), steps, d)
    ensures Accepted(Init(mark, hw, wc), steps, d, x) ==
            InHandled(d.handled, x) + InTasks(d.batch, x) + InTasks(d.pending, x) + InTasks(d.late, x)
            + GivenUp(Init(mark, hw, wc), steps, d, x)
  {
    InitInv(mark, hw, wc);
    RunCopies(Init(mark, hw, wc), steps, d, x);
  }
}
