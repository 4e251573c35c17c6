// What holds over whole runs of a connection, under any mix of partial writes,
// EAGAIN, faults, peer closes, forced closes and user calls.
module ConnectionRuns {
  import opened Codec
  import opened Interest
  import opened Syscalls
  import opened Connection

  ghost predicate SafeRun(c: Conn, steps: seq<Step>, d: Conn)
    decreases |steps|
  {
    if steps == [] then c == d
    else
      Possible(c, steps[0]) && Safe(c, steps[0]) && Next(c, steps[0]).Ok? &&
      SafeRun(Next(c, steps[0]).conn, steps[1..], d)
  }

  lemma {:induction false} RunInv(c: Conn, steps: seq<Step>, d: Conn)
    requires Inv(c) && SafeRun(c, steps, d)
    ensures Inv(d)
    decreases |steps|
  {
    if steps != [] {
      SafeStep(c, steps[0]);
      RunInv(Next(c, steps[0]).conn, steps[1..], d);
    }
  }

  lemma {:induction false} ExtendRun(c: Conn, steps: seq<Step>, d: Conn, a: Step, e: Conn)
    requires SafeRun(c, steps, d) && Possible(d, a) && Safe(d, a) && Next(d, a) == Ok(e)
    ensures SafeRun(c, steps + [a], e)
    decreases |steps|
  {
    if steps == [] {
      assert (steps + [a])[1..] == [];
    } else {
      ExtendRun(Next(c, steps[0]).conn, steps[1..], d, a, e);
      assert (steps + [a])[1..] == steps[1..] + [a];
    }
  }

  lemma Extend(c: Conn, steps: seq<Step>, d: Conn, a: Step, e: Conn) returns (longer: seq<Step>)
    requires Inv(c) && SafeRun(c, steps, d) && Possible(d, a) && Safe(d, a) && Next(d, a) == Ok(e)
    ensures longer == steps + [a] && SafeRun(c, longer, e) && Inv(e)
  {
    longer := steps + [a];
    ExtendRun(c, steps, d, a, e);
    RunInv(c, longer, e);
  }

  lemma PollRun(c: Conn, rev: Events)
    requires Inv(c) && Possible(c, DoPoll(rev)) && !HupWithData(rev)
    ensures var d := c.(phase := Handling, todo := Dispatch(rev)); SafeRun(c, [DoPoll(rev)], d) && Inv(d)
  {
    PollInv(c, rev);
    assert [DoPoll(rev)][1..] == [];
  }

  // ---- close ----

  predicate Settled(c: Conn, d: Conn) {
    d.state == Disconnected && d.closes == c.closes && d.sock == c.sock && d.shuts == c.shuts && d.out == c.out
  }

  lemma ClosedDispatch(c: Conn, res: ReadResult, w: WriteResult)
    requires Inv(c) && c.state == Disconnected && Possible(c, DoDispatch(res, w))
    ensures DispatchNext(c, res, w) == Ok(c.(todo := c.todo[1..]))
  {
    PopTodo(c);
  }

  lemma ClosedTask(c: Conn, w: WriteResult)
    requires Inv(c) && c.state == Disconnected && Possible(c, DoTask(w))
    ensures RunTask(c, w).Ok? && Settled(c, RunTask(c, w).conn)
  {
  }

  lemma ClosedStep(c: Conn, a: Step)
    requires Inv(c) && c.state == Disconnected && Possible(c, a) && Safe(c, a)
    ensures Next(c, a).Ok? && Settled(c, Next(c, a).conn)
  {
    match a
    case DoDispatch(res, w) => ClosedDispatch(c, res, w);
    case DoTask(w) => ClosedTask(c, w);
    case DoSend(_, _, _) =>
    case DoForceClose(_) =>
    case DoPush(_) =>
    case DoStopRead =>
    case DoConsume(_) =>
    case DoPoll(_) =>
    case DoSwap =>
    case DoBatchEnd =>
  }

  // Once disconnected the connection stays disconnected: nothing is written, no
  // SHUT_WR is issued and the close callback does not run again.
  lemma {:induction false} DisconnectedIsAbsorbing(c: Conn, steps: seq<Step>, d: Conn)
    requires Inv(c) && c.state == Disconnected && SafeRun(c, steps, d)
    ensures Settled(c, d)
    decreases |steps|
  {
    if steps != [] {
      SafeStep(c, steps[0]);
      ClosedStep(c, steps[0]);
      DisconnectedIsAbsorbing(Next(c, steps[0]).conn, steps[1..], d);
    }
  }

  lemma CloseExactlyOnce(mark: nat, hw: bool, wc: bool, steps: seq<Step>, d: Conn)
    requires SafeRun(Init(mark, hw, wc), steps, d)
    ensures d.closes == if d.state == Disconnected then 1 else 0
    ensures d.state == Disconnected ==> !d.pooled && d.events == {}
  {
    InitInv(mark, hw, wc);
    RunInv(Init(mark, hw, wc), steps, d);
  }

  // The separate load and exchange of forceClose matter: an exchange that lands
  // after the close lets a second forceClose reach handleClose again, where the
  // poller's assertion on the already deregistered channel fails.
  lemma StaleExchangeBreaksClose(c: Conn, w: WriteResult) returns (c1: Conn, c2: Conn, c3: Conn)
    requires Inv(c) && c.state == Disconnected && c.phase == Handling && c.pending == [] && c.todo == []
    ensures Possible(c, StaleExchange) && Next(c, StaleExchange) == Ok(c1)
    ensures Possible(c1, DoForceClose(true)) && Next(c1, DoForceClose(true)) == Ok(c2)
    ensures Possible(c2, DoSwap) && Next(c2, DoSwap) == Ok(c3)
    ensures Possible(c3, DoTask(w)) && Next(c3, DoTask(w)).Fault?
  {
    c1 := Next(c, StaleExchange).conn;
    c2 := Next(c1, DoForceClose(true)).conn;
    c3 := Next(c2, DoSwap).conn;
    UnwatchedCloseFails(c3, w);
  }

  lemma UnwatchedCloseFails(c: Conn, w: WriteResult)
    requires c.state == Disconnecting && c.events == {} && !c.pooled && c.batch == [QForceClose]
    ensures Possible(c, DoTask(w)) && Next(c, DoTask(w)).Fault?
  {
  }

  // ---- half-close ----

  // All sends and shutdowns are made on the loop thread.
  predicate CalledOnLoop(a: Step) {
    match a
    case DoSend(_, inLoop, _) => inLoop
    case DoShutdown(inLoop) => inLoop
    case _ => true
  }

  predicate OnlyForceClose(ts: seq<LoopTask>) {
    forall k :: 0 <= k < |ts| ==> ts[k].QForceClose?
  }

  predicate LoopInv(c: Conn) {
    && OnlyForceClose(c.batch) && OnlyForceClose(c.pending) && OnlyForceClose(c.late) && c.dropped == 0 && |c.shuts| <= 1
    && (c.shuts != [] ==>
          && (c.state == Disconnecting || c.state == Disconnected) && c.out == []
          && c.shuts[0] == Shut(|c.sock|, c.accepted, FaultedBytes(c.handled), 0))
  }

  lemma {:induction false} NothingQueued(ts: seq<LoopTask>)
    requires OnlyForceClose(ts)
    ensures QueuedBytes(ts) == 0
  {
    if ts != [] {
      assert ts[0].QForceClose?;
      NothingQueued(ts[1..]);
    }
  }

  lemma NothingWaiting(c: Conn)
    requires LoopInv(c)
    ensures Waiting(c) == 0
  {
    NothingQueued(c.batch);
    NothingQueued(c.pending);
    NothingQueued(c.late);
  }

  lemma SendKeepsLoopInv(c: Conn, msg: seq<Byte>, w: WriteResult)
    requires LoopInv(c) && KernelMayWrite(w, |msg|) && Send(c, msg, true, w).Ok?
    ensures LoopInv(Send(c, msg, true, w).conn)
  {
    if c.state == Connected {
      var d := c.(accepted := c.accepted + |msg|);
      assert Send(c, msg, true, w) == SendInLoop(d, msg, w);
      SendInLoopFrame(d, msg, w);
      LoopInvFrame(c, SendInLoop(d, msg, w).conn);
    }
  }

  lemma LoopInvFrame(c: Conn, d: Conn)
    requires LoopInv(c) && SameQueues(c, d) && d.dropped == c.dropped && c.shuts == d.shuts == []
    ensures LoopInv(d)
  {
  }

  lemma HandleWriteKeepsLoopInv(c: Conn, w: WriteResult)
    requires Inv(c) && LoopInv(c) && KernelMayWrite(w, |c.out|) && HandleWrite(c, w).Ok?
    ensures LoopInv(HandleWrite(c, w).conn)
  {
    NothingWaiting(c);
    SentLength(c.handled);
  }

  lemma HandleCloseKeepsLoopInv(c: Conn)
    requires LoopInv(c) && HandleClose(c).Ok?
    ensures LoopInv(HandleClose(c).conn)
  {
  }

  lemma DispatchKeepsLoopInv(c: Conn, res: ReadResult, w: WriteResult)
    requires Inv(c) && LoopInv(c) && Possible(c, DoDispatch(res, w)) && DispatchNext(c, res, w).Ok?
    ensures LoopInv(DispatchNext(c, res, w).conn)
  {
    var d := c.(todo := c.todo[1..]);
    PopTodo(c);
    match c.todo[0]
    case CloseCb => HandleCloseKeepsLoopInv(d);
    case ErrorCb =>
    case ReadCb =>
      if res == ReadBytes([]) {
        HandleCloseKeepsLoopInv(d);
      }
    case WriteCb => HandleWriteKeepsLoopInv(d, w);
  }

  lemma TaskKeepsLoopInv(c: Conn, w: WriteResult)
    requires LoopInv(c) && Possible(c, DoTask(w)) && RunTask(c, w).Ok?
    ensures LoopInv(RunTask(c, w).conn)
  {
    assert c.batch[0].QForceClose?;
    var d := c.(batch := c.batch[1..]);
    assert LoopInv(d);
    if d.state != Disconnected {
      HandleCloseKeepsLoopInv(d);
    }
  }

  lemma ShutdownKeepsLoopInv(c: Conn)
    requires Inv(c) && LoopInv(c) && Shutdown(c, true).Ok?
    ensures LoopInv(Shutdown(c, true).conn)
  {
    NothingWaiting(c);
  }

  lemma LoopStep(c: Conn, a: Step)
    requires Inv(c) && LoopInv(c) && Possible(c, a) && Safe(c, a) && CalledOnLoop(a) && Next(c, a).Ok?
    ensures LoopInv(Next(c, a).conn)
  {
    match a
    case DoSend(msg, _, w) => SendKeepsLoopInv(c, msg, w);
    case DoDispatch(res, w) => DispatchKeepsLoopInv(c, res, w);
    case DoTask(w) => TaskKeepsLoopInv(c, w);
    case DoShutdown(_) => ShutdownKeepsLoopInv(c);
    case _ => OtherKeepsLoopInv(c, a);
  }

  lemma OtherKeepsLoopInv(c: Conn, a: Step)
    requires LoopInv(c) && Possible(c, a) && Next(c, a).Ok?
    requires !a.DoSend? && !a.DoDispatch? && !a.DoTask? && !a.DoShutdown? && !a.StaleExchange?
    requires a.DoEstablish? ==> c.shuts == []
    ensures LoopInv(Next(c, a).conn)
  {
  }

  lemma {:induction false} LoopRun(c: Conn, steps: seq<Step>, d: Conn)
    requires Inv(c) && LoopInv(c) && SafeRun(c, steps, d)
    requires forall k :: 0 <= k < |steps| ==> CalledOnLoop(steps[k])
    ensures LoopInv(d)
    decreases |steps|
  {
    if steps != [] {
      assert CalledOnLoop(steps[0]);
      SafeStep(c, steps[0]);
      LoopStep(c, steps[0]);
      LoopRun(Next(c, steps[0]).conn, steps[1..], d);
    }
  }

  // With sends and shutdown on the loop thread SHUT_WR is issued at most once,
  // every accepted byte that was not dropped on a fault is in the kernel by
  // then, and none is written afterwards.
  lemma CleanHalfClose(mark: nat, hw: bool, wc: bool, steps: seq<Step>, d: Conn)
    requires SafeRun(Init(mark, hw, wc), steps, d)
    requires forall k :: 0 <= k < |steps| ==> CalledOnLoop(steps[k])
    ensures |d.shuts| <= 1
    ensures d.shuts != [] ==>
              && d.out == [] && |d.sock| == d.shuts[0].inKernel
              && d.shuts[0].accepted == d.shuts[0].inKernel + d.shuts[0].faulted
              && d.sock == Sent(d.handled)
  {
    InitInv(mark, hw, wc);
    RunInv(Init(mark, hw, wc), steps, d);
    LoopRun(Init(mark, hw, wc), steps, d);
  }

  lemma Chain(c: Conn, rest: seq<Step>, d: Conn, a: Step, e: Conn) returns (steps: seq<Step>)
    requires Possible(c, a) && Safe(c, a) && Next(c, a) == Ok(e) && SafeRun(e, rest, d)
    ensures SafeRun(c, steps, d)
  {
    steps := [a] + rest;
    assert steps[1..] == rest;
  }

  // ---- notifications ----

  function HighWaters(ns: seq<Note>): (n: nat) {
    if ns == [] then 0 else HighWaters(ns[..|ns| - 1]) + if ns[|ns| - 1].HighWater? then 1 else 0
  }

  function WriteCompletes(ns: seq<Note>): (n: nat) {
    if ns == [] then 0 else WriteCompletes(ns[..|ns| - 1]) + if ns[|ns| - 1].WriteComplete? then 1 else 0
  }

  lemma NoteAppend(ns: seq<Note>, x: Note)
    ensures HighWaters(ns + [x]) == HighWaters(ns) + if x.HighWater? then 1 else 0
    ensures WriteCompletes(ns + [x]) == WriteCompletes(ns) + if x.WriteComplete? then 1 else 0
  {
    assert (ns + [x])[..|ns + [x]| - 1] == ns;
  }

  // The output buffer's length reaches the mark from below.
  predicate Crosses(c: Conn, d: Conn) { |c.out| < c.mark <= |d.out| }

  // The output buffer is emptied.
  predicate Drains(c: Conn, d: Conn) { c.out != [] && d.out == [] }

  // A message is taken whole by the kernel in sendInLoop's own write.
  predicate WritesWhole(c: Conn, d: Conn) {
    |d.handled| > |c.handled| &&
    d.handled[|d.handled| - 1].fate == WroteNow(|d.handled[|d.handled| - 1].msg|)
  }

  predicate NotesExact(c: Conn, d: Conn) {
    && d.mark == c.mark && d.hasHighWater == c.hasHighWater && d.hasWriteComplete == c.hasWriteComplete
    && HighWaters(d.notes) == HighWaters(c.notes) + (if c.hasHighWater && Crosses(c, d) then 1 else 0)
    && WriteCompletes(d.notes) == WriteCompletes(c.notes)
         + (if c.hasWriteComplete && Drains(c, d) then 1 else 0)
         + (if c.hasWriteComplete && WritesWhole(c, d) then 1 else 0)
    && (WriteCompletes(d.notes) > WriteCompletes(c.notes) ==> d.out == [])
    && (c.hasHighWater && Crosses(c, d) ==> d.notes != [] && d.notes[|d.notes| - 1] == HighWater(|d.out|))
  }

  // What the tail of sendInLoop adds to the notifications.
  function HighWaterNote(c: Conn, rest: seq<Byte>): (ns: seq<Note>) {
    if rest != [] && c.hasHighWater && |c.out| < c.mark <= |c.out| + |rest| then [HighWater(|c.out| + |rest|)] else []
  }

  lemma BufferRestShape(c: Conn, rest: seq<Byte>)
    requires BufferRest(c, rest).Ok?
    ensures var d := BufferRest(c, rest).conn;
            && d.mark == c.mark && d.hasHighWater == c.hasHighWater && d.hasWriteComplete == c.hasWriteComplete
            && d.handled == c.handled && d.out == c.out + rest && d.notes == c.notes + HighWaterNote(c, rest)
  {
    if rest == [] {
      assert c.out + rest == c.out && c.notes + [] == c.notes;
    }
  }

  lemma HighWaterNotes(c: Conn, d: Conn, rest: seq<Byte>)
    requires d.out == c.out + rest && d.notes == c.notes + HighWaterNote(c, rest)
    ensures HighWaters(d.notes) == HighWaters(c.notes) + (if c.hasHighWater && Crosses(c, d) then 1 else 0)
    ensures WriteCompletes(d.notes) == WriteCompletes(c.notes)
    ensures c.hasHighWater && Crosses(c, d) ==> d.notes != [] && d.notes[|d.notes| - 1] == HighWater(|d.out|)
  {
    if HighWaterNote(c, rest) == [] {
      assert c.notes + [] == c.notes;
    } else {
      NoteAppend(c.notes, HighWater(|c.out| + |rest|));
    }
  }

  lemma BufferRestNotes(c: Conn, rest: seq<Byte>)
    requires BufferRest(c, rest).Ok?
    ensures var d := BufferRest(c, rest).conn;
            && d.mark == c.mark && d.hasHighWater == c.hasHighWater && d.hasWriteComplete == c.hasWriteComplete
            && d.handled == c.handled && d.out == c.out + rest
            && HighWaters(d.notes) == HighWaters(c.notes) + (if c.hasHighWater && Crosses(c, d) then 1 else 0)
            && WriteCompletes(d.notes) == WriteCompletes(c.notes)
            && (c.hasHighWater && Crosses(c, d) ==> d.notes != [] && d.notes[|d.notes| - 1] == HighWater(|d.out|))
  {
    BufferRestShape(c, rest);
    HighWaterNotes(c, BufferRest(c, rest).conn, rest);
  }

  lemma BufferedNotes(c: Conn, msg: seq<Byte>, fate: Fate)
    requires fate == NotTried || fate == WouldBlock
    requires BufferRest(c.(handled := c.handled + [Handled(msg, fate)]), msg).Ok?
    ensures NotesExact(c, BufferRest(c.(handled := c.handled + [Handled(msg, fate)]), msg).conn)
  {
    BufferRestNotes(c.(handled := c.handled + [Handled(msg, fate)]), msg);
  }

  lemma DirectNotes(c: Conn, msg: seq<Byte>, n: nat)
    requires n <= |msg| && c.out == [] && Alive(c) && Out !in c.events && SendInLoop(c, msg, Wrote(n)).Ok?
    ensures NotesExact(c, SendInLoop(c, msg, Wrote(n)).conn)
  {
    NoteAppend(c.notes, WriteComplete);
    assert c.notes + [] == c.notes;
    var d := c.(sock := c.sock + msg[..n],
                handled := c.handled + [Handled(msg, WroteNow(n))],
                notes := c.notes + if n == |msg| && c.hasWriteComplete then [WriteComplete] else []);
    assert SendInLoop(c, msg, Wrote(n)) == BufferRest(d, msg[n..]);
    BufferRestNotes(d, msg[n..]);
    DirectNotesAdd(c, d, SendInLoop(c, msg, Wrote(n)).conn, msg, n);
  }

  // The books of a direct write followed by the append of what is left.
  lemma DirectNotesAdd(c: Conn, d: Conn, e: Conn, msg: seq<Byte>, n: nat)
    requires n <= |msg| && c.out == [] && d.out == [] && e.out == d.out + msg[n..]
    requires d.handled == c.handled + [Handled(msg, WroteNow(n))] && e.handled == d.handled
    requires d.mark == c.mark && d.hasHighWater == c.hasHighWater && d.hasWriteComplete == c.hasWriteComplete
    requires e.mark == d.mark && e.hasHighWater == d.hasHighWater && e.hasWriteComplete == d.hasWriteComplete
    requires HighWaters(d.notes) == HighWaters(c.notes)
    requires WriteCompletes(d.notes) == WriteCompletes(c.notes) + if n == |msg| && c.hasWriteComplete then 1 else 0
    requires HighWaters(e.notes) == HighWaters(d.notes) + if d.hasHighWater && Crosses(d, e) then 1 else 0
    requires WriteCompletes(e.notes) == WriteCompletes(d.notes)
    requires d.hasHighWater && Crosses(d, e) ==> e.notes != [] && e.notes[|e.notes| - 1] == HighWater(|e.out|)
    ensures NotesExact(c, e)
  {
  }

  lemma SendInLoopNotes(c: Conn, msg: seq<Byte>, w: WriteResult)
    requires KernelMayWrite(w, |msg|) && SendInLoop(c, msg, w).Ok? && c.state != Connecting
    ensures NotesExact(c, SendInLoop(c, msg, w).conn)
  {
    if Alive(c) {
      if Out in c.events {
        BufferedNotes(c, msg, NotTried);
      } else if w.Wrote? {
        DirectNotes(c, msg, w.n);
      } else if w.errno == EPIPE || w.errno == ECONNRESET {
      } else {
        BufferedNotes(c, msg, WouldBlock);
      }
    }
  }

  lemma HandleWriteShape(c: Conn, w: WriteResult)
    requires KernelMayWrite(w, |c.out|) && HandleWrite(c, w).Ok?
    ensures var d := HandleWrite(c, w).conn;
            && d.mark == c.mark && d.hasHighWater == c.hasHighWater && d.hasWriteComplete == c.hasWriteComplete
            && d.handled == c.handled
    ensures var d := HandleWrite(c, w).conn;
            if c.state == Disconnected || w.WriteFailed? then d.out == c.out && d.notes == c.notes
            else
              d.out == c.out[w.n..] &&
              d.notes == c.notes + if w.n == |c.out| && c.hasWriteComplete then [WriteComplete] else []
  {
  }

  // The books of a drain, whole or in part.
  lemma DrainNotes(c: Conn, d: Conn, n: nat)
    requires 0 <= n <= |c.out| && c.out != [] && d.out == c.out[n..] && d.handled == c.handled
    requires d.mark == c.mark && d.hasHighWater == c.hasHighWater && d.hasWriteComplete == c.hasWriteComplete
    requires d.notes == c.notes + if n == |c.out| && c.hasWriteComplete then [WriteComplete] else []
    ensures NotesExact(c, d)
  {
    assert !Crosses(c, d);
    assert Drains(c, d) <==> n == |c.out|;
    NoteAppend(c.notes, WriteComplete);
    assert c.notes + [] == c.notes;
  }

  lemma HandleWriteNotes(c: Conn, w: WriteResult)
    requires KernelMayWrite(w, |c.out|) && HandleWrite(c, w).Ok? && (c.state != Disconnected ==> c.out != [])
    ensures NotesExact(c, HandleWrite(c, w).conn)
  {
    HandleWriteShape(c, w);
    if c.state == Disconnected || w.WriteFailed? {
      QuietNotes(c, HandleWrite(c, w).conn);
    } else {
      DrainNotes(c, HandleWrite(c, w).conn, w.n);
    }
  }

  // Steps that touch neither the output side nor the notifications.
  predicate Quiet(c: Conn, a: Step)
    requires Possible(c, a)
  {
    match a
    case DoSend(_, inLoop, _) => c.state != Connected || !inLoop
    case DoTask(_) => !c.batch[0].QSend?
    case DoDispatch(_, _) => c.todo[0] != WriteCb
    case _ => true
  }

  predicate SameOutput(c: Conn, d: Conn) {
    && d.out == c.out && d.notes == c.notes && d.handled == c.handled && d.mark == c.mark
    && d.hasHighWater == c.hasHighWater && d.hasWriteComplete == c.hasWriteComplete
  }

  lemma NotesFrame(b: Conn, c: Conn, d: Conn)
    requires SameOutput(b, c) && NotesExact(c, d)
    ensures NotesExact(b, d)
  {
  }

  lemma QuietClose(c: Conn)
    requires HandleClose(c).Ok?
    ensures SameOutput(c, HandleClose(c).conn)
  {
  }

  lemma QuietTask(c: Conn, w: WriteResult)
    requires Possible(c, DoTask(w)) && !c.batch[0].QSend? && RunTask(c, w).Ok?
    ensures SameOutput(c, RunTask(c, w).conn)
  {
    var d := c.(batch := c.batch[1..]);
    if c.batch[0].QForceClose? && d.state != Disconnected {
      QuietClose(d);
    }
  }

  lemma QuietDispatch(c: Conn, res: ReadResult, w: WriteResult)
    requires Possible(c, DoDispatch(res, w)) && c.todo[0] != WriteCb && DispatchNext(c, res, w).Ok?
    ensures SameOutput(c, DispatchNext(c, res, w).conn)
  {
    var d := c.(todo := c.todo[1..]);
    if c.todo[0] == CloseCb || (c.todo[0] == ReadCb && res == ReadBytes([])) {
      QuietClose(d);
    }
  }

  // A callback does not touch the rest of its dispatch.
  lemma DispatchPops(c: Conn, res: ReadResult, w: WriteResult)
    requires Possible(c, DoDispatch(res, w)) && DispatchNext(c, res, w).Ok?
    ensures DispatchNext(c, res, w).conn.todo == c.todo[1..] && DispatchNext(c, res, w).conn.phase == c.phase
  {
    if c.todo[0] == WriteCb {
      HandleWriteFrame(c.(todo := c.todo[1..]), w);
    }
  }

  lemma QuietStep(c: Conn, a: Step)
    requires Possible(c, a) && Quiet(c, a) && Next(c, a).Ok?
    ensures SameOutput(c, Next(c, a).conn)
  {
    match a
    case DoTask(w) => QuietTask(c, w);
    case DoDispatch(res, w) => QuietDispatch(c, res, w);
    case _ =>
  }

  lemma SendNotes(c: Conn, msg: seq<Byte>, w: WriteResult)
    requires Inv(c) && KernelMayWrite(w, |msg|) && c.state == Connected && Send(c, msg, true, w).Ok?
    ensures NotesExact(c, Send(c, msg, true, w).conn)
  {
    var d := c.(accepted := c.accepted + |msg|);
    AcceptPending(c, msg);
    assert Send(c, msg, true, w) == SendInLoop(d, msg, w);
    SendInLoopNotes(d, msg, w);
    NotesFrame(c, d, SendInLoop(d, msg, w).conn);
  }

  lemma TaskNotes(c: Conn, w: WriteResult)
    requires Inv(c) && Possible(c, DoTask(w)) && c.batch[0].QSend? && RunTask(c, w).Ok?
    ensures NotesExact(c, RunTask(c, w).conn)
  {
    var d := c.(batch := c.batch[1..]);
    SendInLoopNotes(d, c.batch[0].msg, w);
    NotesFrame(c, d, SendInLoop(d, c.batch[0].msg, w).conn);
  }

  lemma DispatchNotes(c: Conn, res: ReadResult, w: WriteResult)
    requires Inv(c) && Possible(c, DoDispatch(res, w)) && c.todo[0] == WriteCb && DispatchNext(c, res, w).Ok?
    ensures NotesExact(c, DispatchNext(c, res, w).conn)
  {
    var d := c.(todo := c.todo[1..]);
    PopTodo(c);
    HandleWriteNotes(d, w);
    NotesFrame(c, d, HandleWrite(d, w).conn);
  }

  lemma StepNotes(c: Conn, a: Step)
    requires Inv(c) && Possible(c, a) && Safe(c, a) && Next(c, a).Ok?
    ensures NotesExact(c, Next(c, a).conn)
  {
    if Quiet(c, a) {
      QuietStep(c, a);
      QuietNotes(c, Next(c, a).conn);
    } else if a.DoSend? {
      SendNotes(c, a.msg, a.w);
    } else if a.DoTask? {
      TaskNotes(c, a.w);
    } else {
      DispatchNotes(c, a.res, a.w);
    }
  }

  lemma QuietNotes(c: Conn, d: Conn)
    requires SameOutput(c, d)
    ensures NotesExact(c, d)
  {
  }

  ghost function Crossings(c: Conn, steps: seq<Step>, d: Conn): (n: nat)
    requires SafeRun(c, steps, d)
    decreases |steps|
  {
    if steps == [] then 0 else
      var e := Next(c, steps[0]).conn;
      (if Crosses(c, e) then 1 else 0) + Crossings(e, steps[1..], d)
  }

  ghost function Completions(c: Conn, steps: seq<Step>, d: Conn): (n: nat)
    requires SafeRun(c, steps, d)
    decreases |steps|
  {
    if steps == [] then 0 else
      var e := Next(c, steps[0]).conn;
      (if Drains(c, e) then 1 else 0) + (if WritesWhole(c, e) then 1 else 0) + Completions(e, steps[1..], d)
  }

  // Notifications are neither missed nor repeated: one high-water mark per
  // upward crossing, one write-complete per drain and per complete write.
  lemma {:induction false} NotificationsAreExact(c: Conn, steps: seq<Step>, d: Conn)
    requires Inv(c) && SafeRun(c, steps, d)
    ensures c.hasHighWater ==> HighWaters(d.notes) == HighWaters(c.notes) + Crossings(c, steps, d)
    ensures c.hasWriteComplete ==> WriteCompletes(d.notes) == WriteCompletes(c.notes) + Completions(c, steps, d)
    ensures !c.hasHighWater ==> HighWaters(d.notes) == HighWaters(c.notes)
    ensures !c.hasWriteComplete ==> WriteCompletes(d.notes) == WriteCompletes(c.notes)
    decreases |steps|
  {
    if steps != [] {
      SafeStep(c, steps[0]);
      StepNotes(c, steps[0]);
      NotificationsAreExact(Next(c, steps[0]).conn, steps[1..], d);
    }
  }
}
