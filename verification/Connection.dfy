// One TCP connection as a value: every operation of TcpConnection, with the
// results of write and readv as parameters, and the callers as steps.
module Connection {
  import opened Codec
  import opened Interest
  import opened Syscalls

  datatype ConnState = Connecting | Connected | Disconnecting | Disconnected

  // What the connection puts in its loop's task queue for itself.
  datatype LoopTask = QSend(msg: seq<Byte>) | QShutdown | QForceClose

  // Where its loop is: on the way to the end of epoll_wait, running the handlers
  // of the active channels, or running the tasks it swapped out.
  datatype Phase = AtPoll | Handling | InBatch

  datatype Note = WriteComplete | HighWater(len: nat)

  // How sendInLoop disposed of a message.
  datatype Fate = WroteNow(n: nat) | NotTried | WouldBlock | Faulted
  datatype Handled = Handled(msg: seq<Byte>, fate: Fate)

  // One shutdown(SHUT_WR), with the books as they stood.
  datatype Shut = Shut(inKernel: nat, accepted: nat, faulted: nat, queued: nat)

  datatype Conn = Conn(
    state: ConnState,
    events: Events,              // channel_
    pooled: bool,
    out: seq<Byte>,              // outputBuffer_
    input: seq<Byte>,            // inputBuffer_
    mark: nat,                   // highWaterMark_
    hasHighWater: bool,          // highWaterMarkCallback_ is set
    hasWriteComplete: bool,      // writeCompleteCallback_ is set
    phase: Phase,
    batch: seq<LoopTask>,        // own tasks left in the vector the loop is running
    pending: seq<LoopTask>,      // own tasks in pendingTasks_
    late: seq<LoopTask>,         // own tasks of other threads that tested or exchanged state_ and have yet to push
    todo: seq<Callback>,         // callbacks of the current dispatch still to run
    sock: seq<Byte>,             // bytes the kernel has taken
    notes: seq<Note>,            // notifications queued so far
    handled: seq<Handled>,       // messages sendInLoop has processed
    shuts: seq<Shut>,
    closes: nat,                 // runs of closeCallback_
    accepted: nat,               // bytes of messages send() did not refuse
    dropped: nat,                // bytes given up by sendInLoop after the close
    received: seq<Byte>,         // bytes readv delivered
    consumed: seq<Byte>)         // bytes the application retrieved

  function Init(mark: nat, hasHighWater: bool, hasWriteComplete: bool): (c: Conn) {
    Conn(Connecting, {}, false, [], [], mark, hasHighWater, hasWriteComplete,
         Handling, [], [], [], [], [], [], [], [], 0, 0, 0, [], [])
  }

  // Fault is a failed assertion of the source.
  datatype Outcome = Ok(conn: Conn) | Fault

  predicate Alive(c: Conn) { c.state == Connected || c.state == Disconnecting }

  // ---- the operations ----

  function SetInterest(c: Conn, op: InterestOp): (r: Outcome) {
    var ev := NewEvents(c.events, op);
    var ctl := ChooseOp(Chan(ev, c.pooled));
    if ctl.None? then Fault else Ok(c.(events := ev, pooled := Pooled(ctl.value)))
  }

  function Establish(c: Conn): (r: Outcome) {
    if c.state != Connecting then Fault else SetInterest(c.(state := Connected), EnableRead)
  }

  function SendInLoop(c: Conn, msg: seq<Byte>, w: WriteResult): (r: Outcome)
    requires KernelMayWrite(w, |msg|)
  {
    if c.state == Disconnected then Ok(c.(dropped := c.dropped + |msg|))
    else if Out in c.events then
      BufferRest(c.(handled := c.handled + [Handled(msg, NotTried)]), msg)
    else if c.out != [] then Fault
    else match w
      case Wrote(n) =>
        BufferRest(c.(sock := c.sock + msg[..n],
                      handled := c.handled + [Handled(msg, WroteNow(n))],
                      notes := c.notes + if n == |msg| && c.hasWriteComplete then [WriteComplete] else []),
                   msg[n..])
      case WriteFailed(errno) =>
        if errno == EPIPE || errno == ECONNRESET then
          Ok(c.(handled := c.handled + [Handled(msg, Faulted)]))
        else
          BufferRest(c.(handled := c.handled + [Handled(msg, WouldBlock)]), msg)
  }

  function BufferRest(c: Conn, rest: seq<Byte>): (r: Outcome) {
    if rest == [] then Ok(c) else
      var newLen := |c.out| + |rest|;
      var crossed := c.hasHighWater && |c.out| < c.mark <= newLen;
      SetInterest(c.(notes := c.notes + (if crossed then [HighWater(newLen)] else []), out := c.out + rest),
                  EnableWrite)
  }

  function Send(c: Conn, msg: seq<Byte>, inLoop: bool, w: WriteResult): (r: Outcome)
    requires KernelMayWrite(w, |msg|)
  {
    if c.state != Connected then Ok(c)
    else
      var d := c.(accepted := c.accepted + |msg|);
      if inLoop then SendInLoop(d, msg, w) else Ok(d.(late := d.late + [QSend(msg)]))
  }

  function ShutdownInLoop(c: Conn): (r: Conn) {
    if c.state != Disconnected && Out !in c.events then
      c.(shuts := c.shuts + [Shut(|c.sock|, c.accepted, FaultedBytes(c.handled), Waiting(c))])
    else c
  }

  // Bytes of accepted messages that sendInLoop has not seen yet.
  function Waiting(c: Conn): (n: nat) {
    QueuedBytes(c.batch) + QueuedBytes(c.pending) + QueuedBytes(c.late)
  }

  function Shutdown(c: Conn, inLoop: bool): (r: Outcome) {
    if c.state == Disconnected then Fault
    else
      var d := c.(state := Disconnecting);
      if c.state != Connected then Ok(d)
      else if inLoop then Ok(ShutdownInLoop(d))
      else Ok(d.(late := d.late + [QShutdown]))
  }

  function ForceClose(c: Conn, inLoop: bool): (r: Conn) {
    if c.state == Disconnected then c
    else if inLoop then c.(state := Disconnecting, pending := c.pending + [QForceClose])
    else c.(state := Disconnecting, late := c.late + [QForceClose])
  }

  // The push of queueInLoop on another thread, some time after its test of state_.
  function Push(c: Conn, k: nat): (r: Conn)
    requires k < |c.late|
  {
    c.(pending := c.pending + [c.late[k]], late := c.late[..k] + c.late[k + 1..])
  }

  // A call on another thread that is not interrupted between its test of state_
  // and its push.
  function Delivered(c: Conn, r: Conn): (d: Conn)
    requires |r.late| > |c.late| ==> r.late[..|c.late|] == c.late
  {
    if |r.late| > |c.late| then Push(r, |c.late|) else r
  }

  function HandleClose(c: Conn): (r: Outcome) {
    if !Alive(c) then Fault else SetInterest(c.(state := Disconnected, closes := c.closes + 1), DisableAll)
  }

  function HandleRead(c: Conn, res: ReadResult): (r: Outcome) {
    if c.state == Disconnected then Fault
    else match res
      case ReadFailed(_) => Ok(c)
      case ReadBytes(bytes) =>
        if bytes == [] then HandleClose(c)
        else Ok(c.(input := c.input + bytes, received := c.received + bytes))
  }

  function HandleWrite(c: Conn, w: WriteResult): (r: Outcome)
    requires KernelMayWrite(w, |c.out|)
  {
    if c.state == Disconnected then Ok(c)
    else if c.out == [] || Out !in c.events then Fault
    else if w.WriteFailed? then Ok(c)
    else
      var d := c.(sock := c.sock + c.out[..w.n], out := c.out[w.n..]);
      if d.out != [] then Ok(d)
      else match SetInterest(d, DisableWrite)
        case Fault => Fault
        case Ok(e) =>
          var f := if e.state == Disconnecting then ShutdownInLoop(e) else e;
          Ok(f.(notes := f.notes + if f.hasWriteComplete then [WriteComplete] else []))
  }

  function StopRead(c: Conn): (r: Outcome) {
    if In in c.events then SetInterest(c, DisableRead) else Ok(c)
  }

  function StartRead(c: Conn): (r: Outcome) {
    if In !in c.events then SetInterest(c, EnableRead) else Ok(c)
  }

  function RunTask(c: Conn, w: WriteResult): (r: Outcome)
    requires c.batch != [] && (c.batch[0].QSend? ==> KernelMayWrite(w, |c.batch[0].msg|))
  {
    var d := c.(batch := c.batch[1..]);
    match c.batch[0]
    case QSend(msg) => SendInLoop(d, msg, w)
    case QShutdown => Ok(ShutdownInLoop(d))
    case QForceClose => if d.state != Disconnected then HandleClose(d) else Ok(d)
  }

  function DispatchNext(c: Conn, res: ReadResult, w: WriteResult): (r: Outcome)
    requires c.todo != [] && (c.todo[0] == WriteCb ==> KernelMayWrite(w, |c.out|))
  {
    var d := c.(todo := c.todo[1..]);
    match c.todo[0]
    case CloseCb => HandleClose(d)
    case ErrorCb => Ok(d)
    case ReadCb => HandleRead(d, res)
    case WriteCb => HandleWrite(d, w)
  }

  // ---- steps ----

  datatype Step =
    | DoEstablish
    | DoSend(msg: seq<Byte>, inLoop: bool, w: WriteResult)
    | DoShutdown(inLoop: bool)
    | DoForceClose(inLoop: bool)
    | DoPush(k: nat)                                // a call on another thread reaches its push
    | DoStopRead
    | DoStartRead
    | DoConsume(n: nat)                             // the application retrieves input
    | DoPoll(revents: Events)                       // epoll_wait returns, with this for this channel
    | DoDispatch(res: ReadResult, w: WriteResult)   // next callback of handleEvents
    | DoSwap                                        // doPendingTasks swaps pendingTasks_ out
    | DoTask(w: WriteResult)                        // doPendingTasks reaches an own task
    | DoBatchEnd                                    // doPendingTasks returns
    | StaleExchange                                 // exchange of shutdown/forceClose landing after the close

  // After SHUT_WR the kernel refuses to send any more.
  predicate KernelMaySend(c: Conn, w: WriteResult, len: nat) {
    KernelMayWrite(w, len) && (c.shuts != [] ==> w == WriteFailed(EPIPE))
  }

  // What the kernel and the loop can do: interest decides what is reported; user
  // code runs in handlers and tasks; every return of epoll_wait is followed by all
  // callbacks of the report, one swap, and all tasks swapped out.
  predicate Possible(c: Conn, a: Step) {
    match a
    case DoSend(msg, inLoop, w) => KernelMayWrite(w, |msg|) && (inLoop ==> c.phase != AtPoll)
    case DoConsume(n) => n <= |c.input| && c.phase != AtPoll
    case DoPoll(rev) => c.phase == AtPoll && (rev != {} ==> c.pooled && rev <= c.events + {Hup, Err})
    case DoDispatch(_, w) => c.todo != [] && (c.todo[0] == WriteCb ==> KernelMayWrite(w, |c.out|))
    case DoSwap => c.phase == Handling && c.todo == []
    case DoTask(w) => c.batch != [] && (c.batch[0].QSend? ==> KernelMaySend(c, w, |c.batch[0].msg|))
    case DoBatchEnd => c.phase == InBatch && c.batch == []
    case DoPush(k) => k < |c.late|
    case DoEstablish => c.phase != AtPoll
    case DoShutdown(inLoop) => inLoop ==> c.phase != AtPoll
    case DoForceClose(inLoop) => inLoop ==> c.phase != AtPoll
    case DoStopRead => c.phase != AtPoll
    case DoStartRead => c.phase != AtPoll
    case StaleExchange => c.state == Disconnected
  }

  function Next(c: Conn, a: Step): (r: Outcome)
    requires Possible(c, a)
  {
    match a
    case DoEstablish => Establish(c)
    case DoSend(msg, inLoop, w) => Send(c, msg, inLoop, w)
    case DoShutdown(inLoop) => Shutdown(c, inLoop)
    case DoForceClose(inLoop) => Ok(ForceClose(c, inLoop))
    case DoPush(k) => Ok(Push(c, k))
    case DoStopRead => StopRead(c)
    case DoStartRead => StartRead(c)
    case DoConsume(n) => Ok(c.(input := c.input[n..], consumed := c.consumed + c.input[..n]))
    case DoPoll(rev) => Ok(c.(phase := Handling, todo := Dispatch(rev)))
    case DoDispatch(res, w) => DispatchNext(c, res, w)
    case DoSwap => Ok(c.(phase := InBatch, batch := c.pending, pending := []))
    case DoTask(w) => RunTask(c, w)
    case DoBatchEnd => Ok(c.(phase := AtPoll))
    case StaleExchange => Ok(c.(state := Disconnecting))
  }

  // What the source leaves to its callers and to the kernel.
  predicate Safe(c: Conn, a: Step) {
    match a
    case DoEstablish => c.state == Connecting
    case DoShutdown(_) => Alive(c)
    case DoForceClose(_) => c.state != Connecting
    case DoStartRead => Alive(c)
    case DoPoll(rev) => !HupWithData(rev)
    case StaleExchange => false
    case _ => true
  }

  // ---- books ----

  // The bytes of the messages that were not dropped on a fault, in order.
  function Sent(h: seq<Handled>): (bs: seq<Byte>) {
    if h == [] then [] else
      var last := h[|h| - 1];
      Sent(h[..|h| - 1]) + if last.fate == Faulted then [] else last.msg
  }

  function HandledBytes(h: seq<Handled>): (n: nat) {
    if h == [] then 0 else HandledBytes(h[..|h| - 1]) + |h[|h| - 1].msg|
  }

  function FaultedBytes(h: seq<Handled>): (n: nat) {
    if h == [] then 0 else
      FaultedBytes(h[..|h| - 1]) + if h[|h| - 1].fate == Faulted then |h[|h| - 1].msg| else 0
  }

  function QueuedBytes(ts: seq<LoopTask>): (n: nat) {
    if ts == [] then 0 else (if ts[0].QSend? then |ts[0].msg| else 0) + QueuedBytes(ts[1..])
  }

  lemma BooksAppend(h: seq<Handled>, x: Handled)
    ensures Sent(h + [x]) == Sent(h) + if x.fate == Faulted then [] else x.msg
    ensures HandledBytes(h + [x]) == HandledBytes(h) + |x.msg|
    ensures FaultedBytes(h + [x]) == FaultedBytes(h) + if x.fate == Faulted then |x.msg| else 0
  {
    assert (h + [x])[..|h + [x]| - 1] == h;
  }

  lemma {:induction false} QueuedAppend(ts: seq<LoopTask>, t: LoopTask)
    ensures QueuedBytes(ts + [t]) == QueuedBytes(ts) + if t.QSend? then |t.msg| else 0
  {
    if ts != [] {
      assert (ts + [t])[1..] == ts[1..] + [t];
      QueuedAppend(ts[1..], t);
    }
  }

  lemma {:induction false} QueuedConcat(a: seq<LoopTask>, b: seq<LoopTask>)
    ensures QueuedBytes(a + b) == QueuedBytes(a) + QueuedBytes(b)
  {
    if a == [] {
      assert a + b == b;
    } else {
      assert (a + b)[1..] == a[1..] + b;
      QueuedConcat(a[1..], b);
    }
  }

  // Taking one task out of the middle.
  lemma QueuedRemove(ts: seq<LoopTask>, k: nat)
    requires k < |ts|
    ensures QueuedBytes(ts) == QueuedBytes(ts[..k] + ts[k + 1..]) + if ts[k].QSend? then |ts[k].msg| else 0
  {
    var front, back := ts[..k], ts[k + 1..];
    assert ts[..k + 1] == front + [ts[k]];
    assert ts == ts[..k + 1] + back;
    QueuedConcat(ts[..k + 1], back);
    QueuedAppend(front, ts[k]);
    QueuedConcat(front, back);
  }

  lemma {:induction false} SentLength(h: seq<Handled>)
    ensures |Sent(h)| + FaultedBytes(h) == HandledBytes(h)
  {
    if h != [] {
      SentLength(h[..|h| - 1]);
    }
  }

  // ---- the invariant ----

  predicate ShapeInv(c: Conn) {
    match c.state
    case Connecting => c == Init(c.mark, c.hasHighWater, c.hasWriteComplete).(phase := c.phase)
    case Disconnected => c.events == {} && !c.pooled && c.closes == 1
    case _ =>
      && c.pooled && Pri in c.events && c.events <= {In, Pri, Out}
      && (Out in c.events <==> c.out != [])
      && c.closes == 0 && c.dropped == 0
  }

  predicate TodoInv(c: Conn) {
    && (forall i, j :: 0 <= i < j < |c.todo| ==> Turn(c.todo[i]) < Turn(c.todo[j]))
    && !(CloseCb in c.todo && ReadCb in c.todo)
    && (CloseCb in c.todo || ReadCb in c.todo ==> Alive(c))
    && (WriteCb in c.todo && Alive(c) ==> Out in c.events)
    && (c.todo != [] ==> c.phase == Handling) && (c.batch != [] ==> c.phase == InBatch)
  }

  // Bytes given to the kernel followed by the output buffer are the messages
  // processed so far, without the faulted ones; likewise on the input side.
  predicate Conserved(c: Conn) {
    c.sock + c.out == Sent(c.handled) && c.received == c.consumed + c.input
  }

  // Every accepted byte is accounted for; extra is a message being processed.
  predicate Balanced(c: Conn, extra: nat) {
    c.accepted == HandledBytes(c.handled) + Waiting(c) + c.dropped + extra
  }

  predicate ShutsInv(c: Conn) {
    forall k :: 0 <= k < |c.shuts| ==>
      c.shuts[k].accepted == c.shuts[k].inKernel + c.shuts[k].faulted + c.shuts[k].queued
  }

  predicate Inv(c: Conn) {
    ShapeInv(c) && TodoInv(c) && Conserved(c) && Balanced(c, 0) && ShutsInv(c)
  }

  lemma InitInv(mark: nat, hasHighWater: bool, hasWriteComplete: bool)
    ensures Inv(Init(mark, hasHighWater, hasWriteComplete))
  {
  }

  // Inv with one accepted message in hand.
  predicate Pending(c: Conn, extra: nat) {
    ShapeInv(c) && TodoInv(c) && Conserved(c) && Balanced(c, extra) && ShutsInv(c) && c.state != Connecting
  }

  // Between the direct write of sendInLoop and the append of what is left.
  predicate Buffering(c: Conn, rest: seq<Byte>) {
    && Alive(c) && ShapeInv(c) && TodoInv(c) && Balanced(c, 0) && ShutsInv(c)
    && (c.sock + c.out) + rest == Sent(c.handled) && c.received == c.consumed + c.input
  }

  lemma BufferRestInv(c: Conn, rest: seq<Byte>)
    requires Buffering(c, rest)
    ensures BufferRest(c, rest).Ok? && Inv(BufferRest(c, rest).conn)
  {
    if rest == [] {
      assert c.sock + c.out == (c.sock + c.out) + rest;
    } else {
      assert c.sock + (c.out + rest) == (c.sock + c.out) + rest;
      assert Out in NewEvents(c.events, EnableWrite);
    }
  }

  lemma NotTriedInv(c: Conn, msg: seq<Byte>, fate: Fate)
    requires Pending(c, |msg|) && Alive(c) && (fate == NotTried || fate == WouldBlock)
    ensures Buffering(c.(handled := c.handled + [Handled(msg, fate)]), msg)
  {
    BooksAppend(c.handled, Handled(msg, fate));
  }

  lemma Rejoin(sock: seq<Byte>, msg: seq<Byte>, n: nat)
    requires n <= |msg|
    ensures (sock + msg[..n] + []) + msg[n..] == (sock + []) + msg
  {
  }

  // The direct write of sendInLoop, tried with an empty output buffer.
  lemma DirectBuffering(c: Conn, msg: seq<Byte>, n: nat, notes: seq<Note>)
    requires Pending(c, |msg|) && n <= |msg| && Alive(c) && Out !in c.events
    ensures Buffering(c.(sock := c.sock + msg[..n], handled := c.handled + [Handled(msg, WroteNow(n))], notes := notes),
                      msg[n..])
  {
    BooksAppend(c.handled, Handled(msg, WroteNow(n)));
    assert c.out == [];
    Rejoin(c.sock, msg, n);
  }

  lemma DirectWroteInv(c: Conn, msg: seq<Byte>, n: nat)
    requires Pending(c, |msg|) && n <= |msg| && Alive(c) && Out !in c.events
    ensures SendInLoop(c, msg, Wrote(n)).Ok? && Inv(SendInLoop(c, msg, Wrote(n)).conn)
  {
    var notes := c.notes + if n == |msg| && c.hasWriteComplete then [WriteComplete] else [];
    var d := c.(sock := c.sock + msg[..n], handled := c.handled + [Handled(msg, WroteNow(n))], notes := notes);
    DirectBuffering(c, msg, n, notes);
    assert SendInLoop(c, msg, Wrote(n)) == BufferRest(d, msg[n..]);
    BufferRestInv(d, msg[n..]);
  }

  lemma DirectFailedInv(c: Conn, msg: seq<Byte>, errno: Errno)
    requires Pending(c, |msg|) && Alive(c) && Out !in c.events
    ensures SendInLoop(c, msg, WriteFailed(errno)).Ok? && Inv(SendInLoop(c, msg, WriteFailed(errno)).conn)
  {
    if errno == EPIPE || errno == ECONNRESET {
      BooksAppend(c.handled, Handled(msg, Faulted));
    } else {
      NotTriedInv(c, msg, WouldBlock);
      BufferRestInv(c.(handled := c.handled + [Handled(msg, WouldBlock)]), msg);
    }
  }

  lemma SendInLoopInv(c: Conn, msg: seq<Byte>, w: WriteResult)
    requires Pending(c, |msg|) && KernelMayWrite(w, |msg|)
    ensures SendInLoop(c, msg, w).Ok? && Inv(SendInLoop(c, msg, w).conn)
  {
    if Alive(c) {
      if Out in c.events {
        NotTriedInv(c, msg, NotTried);
        BufferRestInv(c.(handled := c.handled + [Handled(msg, NotTried)]), msg);
      } else {
        match w
        case Wrote(n) => DirectWroteInv(c, msg, n);
        case WriteFailed(errno) => DirectFailedInv(c, msg, errno);
      }
    }
  }

  lemma ShutdownInLoopInv(c: Conn)
    requires Inv(c) && c.state != Connecting
    ensures Inv(ShutdownInLoop(c))
    ensures |ShutdownInLoop(c).shuts| > |c.shuts| <==> Alive(c) && c.out == []
  {
    SentLength(c.handled);
  }

  // What follows the emptying of the buffer in handleWrite.
  function AfterDrain(e: Conn): (r: Conn) {
    var f := if e.state == Disconnecting then ShutdownInLoop(e) else e;
    f.(notes := f.notes + if f.hasWriteComplete then [WriteComplete] else [])
  }

  lemma AfterDrainInv(e: Conn)
    requires Inv(e) && Alive(e)
    ensures Inv(AfterDrain(e))
  {
    if e.state == Disconnecting {
      ShutdownInLoopInv(e);
    }
  }

  // The buffer has become smaller by what the kernel took.
  lemma WrittenInv(c: Conn, n: nat)
    requires Inv(c) && Alive(c) && WriteCb !in c.todo && n <= |c.out| && Out in c.events
    ensures var d := c.(sock := c.sock + c.out[..n], out := c.out[n..]);
            if d.out != [] then Inv(d)
            else SetInterest(d, DisableWrite).Ok? && Inv(SetInterest(d, DisableWrite).conn)
  {
    var d := c.(sock := c.sock + c.out[..n], out := c.out[n..]);
    assert c.out == c.out[..n] + c.out[n..];
    assert d.sock + d.out == c.sock + c.out;
    if d.out == [] {
      assert Pri in NewEvents(d.events, DisableWrite);
    }
  }

  lemma HandleWriteInv(c: Conn, w: WriteResult)
    requires Inv(c) && c.state != Connecting && WriteCb !in c.todo
    requires KernelMayWrite(w, |c.out|) && (Alive(c) ==> Out in c.events)
    ensures HandleWrite(c, w).Ok? && Inv(HandleWrite(c, w).conn)
  {
    if Alive(c) && w.Wrote? {
      WrittenInv(c, w.n);
      var d := c.(sock := c.sock + c.out[..w.n], out := c.out[w.n..]);
      if d.out == [] {
        var e := SetInterest(d, DisableWrite).conn;
        AfterDrainInv(e);
        assert HandleWrite(c, w) == Ok(AfterDrain(e));
      }
    }
  }

  predicate SameQueues(c: Conn, d: Conn) {
    d.phase == c.phase && d.batch == c.batch && d.pending == c.pending && d.late == c.late
  }

  lemma HandleCloseInv(c: Conn)
    requires Inv(c) && Alive(c) && CloseCb !in c.todo && ReadCb !in c.todo
    ensures HandleClose(c).Ok? && Inv(HandleClose(c).conn)
    ensures var d := HandleClose(c).conn;
            && d.state == Disconnected && d.closes == 1 && c.closes == 0 && !d.pooled && d.events == {}
            && d.sock == c.sock && d.out == c.out && SameQueues(c, d) && d.shuts == c.shuts
  {
  }

  lemma PopTodo(c: Conn)
    requires Inv(c) && c.todo != []
    ensures Inv(c.(todo := c.todo[1..]))
    ensures c.todo[0] !in c.todo[1..] && forall cb :: cb in c.todo[1..] ==> Turn(c.todo[0]) < Turn(cb)
    ensures c.todo[0] == CloseCb || c.todo[0] == ReadCb ==>
              Alive(c) && CloseCb !in c.todo[1..] && ReadCb !in c.todo[1..]
    ensures c.todo[0] == WriteCb && Alive(c) ==> Out in c.events
  {
    var d := c.(todo := c.todo[1..]);
    assert c.todo[0] in c.todo;
    assert forall cb <- d.todo :: cb in c.todo;
    assert forall cb <- d.todo :: Turn(c.todo[0]) < Turn(cb);
  }

  lemma DispatchInv(c: Conn, res: ReadResult, w: WriteResult)
    requires Inv(c) && Possible(c, DoDispatch(res, w))
    ensures DispatchNext(c, res, w).Ok? && Inv(DispatchNext(c, res, w).conn)
  {
    var d := c.(todo := c.todo[1..]);
    PopTodo(c);
    match c.todo[0]
    case CloseCb => HandleCloseInv(d);
    case ErrorCb =>
    case ReadCb => HandleReadInv(d, res);
    case WriteCb => HandleWriteInv(d, w);
  }

  lemma HandleReadInv(c: Conn, res: ReadResult)
    requires Inv(c) && Alive(c) && CloseCb !in c.todo && ReadCb !in c.todo
    ensures HandleRead(c, res).Ok? && Inv(HandleRead(c, res).conn)
  {
    if res == ReadBytes([]) {
      HandleCloseInv(c);
    }
  }

  lemma TaskInv(c: Conn, w: WriteResult)
    requires Inv(c) && Possible(c, DoTask(w))
    ensures RunTask(c, w).Ok? && Inv(RunTask(c, w).conn)
  {
    var d := c.(batch := c.batch[1..]);
    match c.batch[0]
    case QSend(msg) => SendInLoopInv(d, msg, w);
    case QShutdown => ShutdownInLoopInv(d);
    case QForceClose =>
      if d.state != Disconnected {
        HandleCloseInv(d);
      }
  }

  lemma SendQueuedInv(c: Conn, msg: seq<Byte>)
    requires Inv(c) && c.state == Connected
    ensures Inv(c.(accepted := c.accepted + |msg|, late := c.late + [QSend(msg)]))
  {
    QueuedAppend(c.late, QSend(msg));
  }

  lemma AcceptPending(c: Conn, msg: seq<Byte>)
    requires Inv(c) && c.state == Connected
    ensures Pending(c.(accepted := c.accepted + |msg|), |msg|)
  {
  }

  lemma SendIsSendInLoop(c: Conn, msg: seq<Byte>, w: WriteResult)
    requires c.state == Connected && KernelMayWrite(w, |msg|)
    ensures Send(c, msg, true, w) == SendInLoop(c.(accepted := c.accepted + |msg|), msg, w)
  {
  }

  lemma SendNowInv(c: Conn, msg: seq<Byte>, w: WriteResult)
    requires Inv(c) && KernelMayWrite(w, |msg|) && c.state == Connected
    ensures Send(c, msg, true, w).Ok? && Inv(Send(c, msg, true, w).conn)
  {
    var d := c.(accepted := c.accepted + |msg|);
    AcceptPending(c, msg);
    SendIsSendInLoop(c, msg, w);
    SendInLoopInv(d, msg, w);
  }

  lemma SendInv(c: Conn, msg: seq<Byte>, inLoop: bool, w: WriteResult)
    requires Inv(c) && KernelMayWrite(w, |msg|)
    ensures Send(c, msg, inLoop, w).Ok? && Inv(Send(c, msg, inLoop, w).conn)
  {
    if c.state == Connected {
      if inLoop {
        SendNowInv(c, msg, w);
      } else {
        SendQueuedInv(c, msg);
      }
    }
  }

  lemma ShutdownInv(c: Conn, inLoop: bool)
    requires Inv(c) && Alive(c)
    ensures Shutdown(c, inLoop).Ok? && Inv(Shutdown(c, inLoop).conn)
  {
    var d := c.(state := Disconnecting);
    assert Inv(d);
    if inLoop {
      ShutdownInLoopInv(d);
    } else {
      QueuedAppend(d.late, QShutdown);
    }
  }

  lemma DispatchMembers(rev: Events)
    ensures CloseCb in Dispatch(rev) <==> Hup in rev && In !in rev
    ensures ReadCb in Dispatch(rev) <==> In in rev || Pri in rev || RdHup in rev
    ensures WriteCb in Dispatch(rev) <==> Out in rev
  {
    var a := if Hup in rev && In !in rev then [CloseCb] else [];
    var b := if Err in rev then [ErrorCb] else [];
    var c := if In in rev || Pri in rev || RdHup in rev then [ReadCb] else [];
    var d := if Out in rev then [WriteCb] else [];
    assert Dispatch(rev) == a + b + c + d;
    assert forall x :: x in a + b + c + d <==> x in a || x in b || x in c || x in d;
  }

  lemma SetTodo(c: Conn, cbs: seq<Callback>)
    requires Inv(c) && c.phase == AtPoll && (cbs != [] ==> Alive(c)) && (WriteCb in cbs ==> Out in c.events)
    requires forall i, j :: 0 <= i < j < |cbs| ==> Turn(cbs[i]) < Turn(cbs[j])
    ensures Inv(c.(phase := Handling, todo := cbs)) <==> !(CloseCb in cbs && ReadCb in cbs)
  {
  }

  lemma PollInv(c: Conn, rev: Events)
    requires Inv(c) && Possible(c, DoPoll(rev))
    ensures Inv(c.(phase := Handling, todo := Dispatch(rev))) <==> !HupWithData(rev)
  {
    DispatchOrder(rev);
    DispatchMembers(rev);
    SetTodo(c, Dispatch(rev));
  }

  lemma ConsumeInv(c: Conn, n: nat)
    requires Inv(c) && n <= |c.input|
    ensures Inv(c.(input := c.input[n..], consumed := c.consumed + c.input[..n]))
  {
    assert c.input == c.input[..n] + c.input[n..];
  }

  lemma StopReadInv(c: Conn)
    requires Inv(c)
    ensures StopRead(c).Ok? && Inv(StopRead(c).conn)
  {
    assert Pri in c.events ==> Pri in NewEvents(c.events, DisableRead);
  }

  lemma StartReadInv(c: Conn)
    requires Inv(c)
    ensures StartRead(c).Ok? && (Inv(StartRead(c).conn) <==> Alive(c))
  {
    assert Pri in NewEvents(c.events, EnableRead);
  }

  // stopRead withdraws EPOLLIN and nothing else, startRead brings it back, and
  // one undoes the other on an established connection.
  lemma ReadToggle(c: Conn)
    requires Inv(c) && Alive(c)
    ensures StopRead(c) == Ok(c.(events := c.events - {In}))
    ensures StartRead(c) == Ok(c.(events := c.events + {In}))
    ensures In in c.events ==> StartRead(StopRead(c).conn) == Ok(c)
  {
    assert Pri in c.events - {In} && Pri in c.events + {In, Pri};
    assert c.events + {In, Pri} == c.events + {In};
    assert In !in c.events ==> c.events - {In} == c.events;
    assert In in c.events ==> c.events + {In} == c.events && (c.events - {In}) + {In, Pri} == c.events;
  }

  lemma ForceCloseInv(c: Conn, inLoop: bool)
    requires Inv(c) && c.state != Connecting
    ensures Inv(ForceClose(c, inLoop))
  {
    QueuedAppend(c.pending, QForceClose);
    QueuedAppend(c.late, QForceClose);
  }

  lemma PushInv(c: Conn, k: nat)
    requires Inv(c) && k < |c.late|
    ensures Inv(Push(c, k)) && Waiting(Push(c, k)) == Waiting(c)
  {
    QueuedAppend(c.pending, c.late[k]);
    QueuedRemove(c.late, k);
  }

  lemma SwapInv(c: Conn)
    requires Inv(c) && Possible(c, DoSwap)
    ensures Inv(Next(c, DoSwap).conn)
  {
  }

  lemma SafeStep(c: Conn, a: Step)
    requires Inv(c) && Possible(c, a) && Safe(c, a)
    ensures Next(c, a).Ok? && Inv(Next(c, a).conn)
  {
    match a
    case DoEstablish => assert Pri in NewEvents(c.events, EnableRead);
    case DoSend(msg, inLoop, w) => SendInv(c, msg, inLoop, w);
    case DoShutdown(inLoop) => ShutdownInv(c, inLoop);
    case DoForceClose(inLoop) => ForceCloseInv(c, inLoop);
    case DoPush(k) => PushInv(c, k);
    case DoSwap => SwapInv(c);
    case DoBatchEnd =>
    case DoStopRead => StopReadInv(c);
    case DoStartRead => StartReadInv(c);
    case DoConsume(n) => ConsumeInv(c, n);
    case DoPoll(rev) => PollInv(c, rev);
    case DoDispatch(res, w) => DispatchInv(c, res, w);
    case DoTask(w) => TaskInv(c, w);
  }

  // ---- what the operations leave alone ----

  predicate SameControl(c: Conn, d: Conn) {
    SameQueues(c, d) && d.todo == c.todo && d.state == c.state && d.closes == c.closes && d.accepted == c.accepted
  }

  lemma BufferRestFrame(c: Conn, rest: seq<Byte>)
    requires BufferRest(c, rest).Ok?
    ensures var d := BufferRest(c, rest).conn;
            && SameControl(c, d) && d.shuts == c.shuts && d.dropped == c.dropped && d.handled == c.handled
            && d.sock == c.sock && d.out == c.out + rest && SameInput(c, d)
  {
  }

  predicate SameInput(c: Conn, d: Conn) {
    d.input == c.input && d.received == c.received && d.consumed == c.consumed
  }

  lemma SendInLoopFrame(c: Conn, msg: seq<Byte>, w: WriteResult)
    requires KernelMayWrite(w, |msg|) && SendInLoop(c, msg, w).Ok?
    ensures var d := SendInLoop(c, msg, w).conn;
            && SameControl(c, d) && d.shuts == c.shuts && (c.state != Disconnected ==> d.dropped == c.dropped)
            && c.out <= d.out && SameInput(c, d)
  {
    if c.state == Disconnected {
    } else if Out in c.events {
      BufferRestFrame(c.(handled := c.handled + [Handled(msg, NotTried)]), msg);
    } else if w.Wrote? {
      var d := c.(sock := c.sock + msg[..w.n], handled := c.handled + [Handled(msg, WroteNow(w.n))],
                  notes := c.notes + if w.n == |msg| && c.hasWriteComplete then [WriteComplete] else []);
      BufferRestFrame(d, msg[w.n..]);
    } else if w.errno != EPIPE && w.errno != ECONNRESET {
      BufferRestFrame(c.(handled := c.handled + [Handled(msg, WouldBlock)]), msg);
    }
  }

  lemma AfterDrainFrame(e: Conn)
    ensures var d := AfterDrain(e);
            && SameControl(e, d) && d.dropped == e.dropped && d.handled == e.handled && d.out == e.out && d.sock == e.sock
            && (e.state != Disconnecting ==> d.shuts == e.shuts)
            && (d.shuts == e.shuts || d.shuts == e.shuts + [Shut(|d.sock|, d.accepted, FaultedBytes(d.handled), Waiting(d))])
  {
  }

  lemma HandleWriteFrame(c: Conn, w: WriteResult)
    requires KernelMayWrite(w, |c.out|) && HandleWrite(c, w).Ok?
    ensures var d := HandleWrite(c, w).conn;
            && SameControl(c, d) && d.dropped == c.dropped && d.handled == c.handled
            && (d.out != [] ==> c.out != []) && (d.out != [] || c.state != Disconnecting ==> d.shuts == c.shuts)
            && (d.shuts == c.shuts || d.shuts == c.shuts + [Shut(|d.sock|, d.accepted, FaultedBytes(d.handled), Waiting(d))])
  {
    if c.state != Disconnected && w.Wrote? && w.n == |c.out| {
      var e := SetInterest(c.(sock := c.sock + c.out[..w.n], out := c.out[w.n..]), DisableWrite).conn;
      AfterDrainFrame(e);
      assert HandleWrite(c, w) == Ok(AfterDrain(e));
    }
  }
}
