// The TcpConnection class: two Buffers, a Channel on a poller and a state word,
// updated in place. Every method performs the operation of module Connection
// that bears its name; its precondition is that no assertion of the source fails.
module TcpConnectionClass {
  import opened Codec
  import opened Syscalls
  import opened Interest
  import opened Reactor
  import opened BufferClass
  import M = BufferModel
  import C = Connection
  import R = ConnectionRuns

  class TcpConnection {
    var state: C.ConnState
    const channel: Channel
    const poller: EPollPoller
    const inputBuffer: Buffer
    const outputBuffer: Buffer
    const highWaterMark: nat
    const hasHighWater: bool
    const hasWriteComplete: bool
    var pending: seq<C.LoopTask>     // this connection's entries in pendingTasks_
    var batch: seq<C.LoopTask>       // and in the vector the loop is running
    var notes: seq<C.Note>           // notifications queued so far
    // The kernel's side of the socket and the history of the connection.
    ghost var phase: C.Phase
    ghost var late: seq<C.LoopTask>
    ghost var todo: seq<Callback>
    ghost var sock: seq<Byte>
    ghost var handled: seq<C.Handled>
    ghost var shuts: seq<C.Shut>
    ghost var closes: nat
    ghost var accepted: nat
    ghost var dropped: nat
    ghost var received: seq<Byte>
    ghost var consumed: seq<Byte>

    ghost predicate Valid()
      reads this, poller, poller.chans, inputBuffer, outputBuffer
    {
      && inputBuffer != outputBuffer && inputBuffer.data != outputBuffer.data
      && inputBuffer.Valid() && outputBuffer.Valid()
      && channel in poller.chans && poller.Agrees()
    }

    ghost function View(): (c: C.Conn)
      requires Valid()
      reads this, poller, poller.chans, inputBuffer, outputBuffer, inputBuffer.data, outputBuffer.data
    {
      C.Conn(state, channel.events, channel.pooling, outputBuffer.Content(), inputBuffer.Content(),
             highWaterMark, hasHighWater, hasWriteComplete, phase, batch, pending, late, todo,
             sock, notes, handled, shuts, closes, accepted, dropped, received, consumed)
    }

    constructor (poller: EPollPoller, channel: Channel, mark: nat, hasHighWater: bool, hasWriteComplete: bool)
      requires channel in poller.chans && poller.Agrees() && channel.events == {}
      ensures Valid() && fresh(inputBuffer) && fresh(outputBuffer)
      ensures fresh(inputBuffer.data) && fresh(outputBuffer.data)
      ensures this.poller == poller && this.channel == channel
      ensures View() == C.Init(mark, hasHighWater, hasWriteComplete)
    {
      state := C.Connecting;
      this.channel := channel;
      this.poller := poller;
      var i := new Buffer(1024);
      var o := new Buffer(1024);
      inputBuffer := i;
      outputBuffer := o;
      highWaterMark := mark;
      this.hasHighWater := hasHighWater;
      this.hasWriteComplete := hasWriteComplete;
      pending, batch, notes, phase, late := [], [], [], C.Handling, [];
      todo, sock, handled, shuts := [], [], [], [];
      closes, accepted, dropped, received, consumed := 0, 0, 0, [], [];
    }

    // channel_.enableRead() and its siblings.
    method SetInterest(op: InterestOp)
      requires Valid() && C.SetInterest(View(), op).Ok?
      modifies channel`events, channel`pooling, poller`table
      ensures Valid() && C.SetInterest(old(View()), op) == C.Ok(View())
    {
      channel.Change(op, poller);
    }

    method AppendOutput(rest: seq<Byte>)
      requires Valid()
      modifies outputBuffer, outputBuffer.data
      ensures Valid() && View() == old(View()).(out := old(View()).out + rest)
      ensures outputBuffer.data == old(outputBuffer.data) || fresh(outputBuffer.data)
    {
      outputBuffer.Append(rest);
    }

    method RetrieveOutput(n: nat)
      requires Valid() && n <= |outputBuffer.Content()|
      modifies outputBuffer
      ensures Valid() && View() == old(View()).(out := old(View()).out[n..])
      ensures outputBuffer.data == old(outputBuffer.data)
    {
      outputBuffer.Retrieve(n);
    }

    method ConnectEstablished()
      requires Valid() && C.Establish(View()).Ok?
      modifies this`state, channel`events, channel`pooling, poller`table
      ensures Valid() && View() == C.Establish(old(View())).conn
    {
      state := C.Connected;
      SetInterest(EnableRead);
    }

    method Send(data: seq<Byte>, inLoopThread: bool, w: WriteResult)
      requires Valid() && KernelMayWrite(w, |data|) && C.Send(View(), data, inLoopThread, w).Ok?
      modifies this, channel`events, channel`pooling, poller`table, outputBuffer, outputBuffer.data
      ensures Valid()
      ensures inLoopThread ==> C.Send(old(View()), data, true, w) == C.Ok(View())
      ensures !inLoopThread ==> View() == C.Delivered(old(View()), C.Send(old(View()), data, false, w).conn)
      ensures outputBuffer.data == old(outputBuffer.data) || fresh(outputBuffer.data)
    {
      if state != C.Connected {
        return;
      }
      if inLoopThread {
        SendHere(data, w);
      } else {
        SendElsewhere(data);
        DeliveredSend(old(View()), data, w);
      }
    }

    method SendHere(data: seq<Byte>, w: WriteResult)
      requires Valid() && state == C.Connected && KernelMayWrite(w, |data|) && C.Send(View(), data, true, w).Ok?
      modifies this, channel`events, channel`pooling, poller`table, outputBuffer, outputBuffer.data
      ensures Valid() && C.Send(old(View()), data, true, w) == C.Ok(View())
      ensures outputBuffer.data == old(outputBuffer.data) || fresh(outputBuffer.data)
    {
      Accept(|data|);
      assert C.Send(old(View()), data, true, w) == C.SendInLoop(View(), data, w);
      SendInLoop(data, w);
    }

    method SendElsewhere(data: seq<Byte>)
      requires Valid()
      modifies this`accepted, this`pending
      ensures Valid()
      ensures View() == old(View()).(accepted := old(accepted) + |data|, pending := old(pending) + [C.QSend(data)])
    {
      Accept(|data|);
      QueueTask(C.QSend(data));
    }

    // Book-keeping: send() takes responsibility for n bytes.
    ghost method Accept(n: nat)
      requires Valid()
      modifies this`accepted
      ensures Valid() && View() == old(View()).(accepted := old(accepted) + n)
    {
      accepted := accepted + n;
    }

    // loop_->queueInLoop
    method QueueTask(t: C.LoopTask)
      requires Valid()
      modifies this`pending
      ensures Valid() && View() == old(View()).(pending := old(pending) + [t])
    {
      pending := pending + [t];
    }

    method SendInLoop(data: seq<Byte>, w: WriteResult)
      requires Valid() && KernelMayWrite(w, |data|) && C.SendInLoop(View(), data, w).Ok?
      modifies this, channel`events, channel`pooling, poller`table, outputBuffer, outputBuffer.data
      ensures Valid() && View() == C.SendInLoop(old(View()), data, w).conn
      ensures outputBuffer.data == old(outputBuffer.data) || fresh(outputBuffer.data)
    {
      if state == C.Disconnected {
        dropped := dropped + |data|;
        return;
      }
      SendAlive(data, w);
    }

    method SendAlive(data: seq<Byte>, w: WriteResult)
      requires Valid() && KernelMayWrite(w, |data|) && C.SendInLoop(View(), data, w).Ok? && state != C.Disconnected
      modifies this`sock, this`handled, this`notes
      modifies channel`events, channel`pooling, poller`table, outputBuffer, outputBuffer.data
      ensures Valid() && View() == C.SendInLoop(old(View()), data, w).conn
      ensures outputBuffer.data == old(outputBuffer.data) || fresh(outputBuffer.data)
    {
      var n, faultError := 0, false;
      var writing := channel.IsWriting();
      if !writing {
        n, faultError := WriteNow(data, w);
      } else {
        handled := handled + [C.Handled(data, C.NotTried)];
        assert data[0..] == data;
      }
      var remain := |data| - n;
      if !faultError && remain > 0 {
        BufferRest(data[n..]);
      }
    }

    // The direct ::write of sendInLoop: how much it took, and whether it failed
    // for good.
    method WriteNow(data: seq<Byte>, w: WriteResult) returns (n: nat, faultError: bool)
      requires Valid() && KernelMayWrite(w, |data|) && state != C.Disconnected && Out !in channel.events
      requires outputBuffer.Content() == []
      modifies this`sock, this`handled, this`notes
      ensures Valid() && n <= |data|
      ensures faultError ==> C.SendInLoop(old(View()), data, w) == C.Ok(View())
      ensures !faultError ==> C.SendInLoop(old(View()), data, w) == C.BufferRest(View(), data[n..])
    {
      n, faultError := 0, false;
      if w.WriteFailed? {
        if w.errno != EAGAIN {
          if w.errno == EPIPE || w.errno == ECONNRESET {
            faultError := true;
          }
        }
        handled := handled + [C.Handled(data, if faultError then C.Faulted else C.WouldBlock)];
        assert View() == old(View()).(handled := handled);
        assert data[0..] == data;
      } else {
        n := w.n;
        Wrote(data, n);
      }
    }

    method Wrote(data: seq<Byte>, n: nat)
      requires Valid() && n <= |data|
      modifies this`sock, this`handled, this`notes
      ensures Valid()
      ensures var v := old(View());
              View() == v.(sock := v.sock + data[..n], handled := v.handled + [C.Handled(data, C.WroteNow(n))],
                           notes := v.notes + if n == |data| && v.hasWriteComplete then [C.WriteComplete] else [])
    {
      sock := sock + data[..n];
      handled := handled + [C.Handled(data, C.WroteNow(n))];
      if |data| - n == 0 && hasWriteComplete {
        notes := notes + [C.WriteComplete];
      }
    }

    // The tail of sendInLoop.
    method BufferRest(rest: seq<Byte>)
      requires Valid() && rest != []
      modifies this`notes, channel`events, channel`pooling, poller`table, outputBuffer, outputBuffer.data
      ensures Valid() && C.BufferRest(old(View()), rest) == C.Ok(View())
      ensures outputBuffer.data == old(outputBuffer.data) || fresh(outputBuffer.data)
    {
      NoteHighWater(|rest|);
      AppendOutput(rest);
      assert Out in NewEvents(channel.events, EnableWrite);
      SetInterest(EnableWrite);
    }

    method NoteHighWater(remain: nat)
      requires Valid()
      modifies this`notes
      ensures Valid()
      ensures var old' := old(View()); var newLen := |old'.out| + remain;
              View() == old'.(notes := old'.notes +
                if old'.hasHighWater && |old'.out| < old'.mark <= newLen then [C.HighWater(newLen)] else [])
    {
      if hasHighWater {
        var oldLen := outputBuffer.ReadableBytes();
        var newLen := oldLen + remain;
        if oldLen < highWaterMark && newLen >= highWaterMark {
          notes := notes + [C.HighWater(newLen)];
        }
      }
    }

    method Shutdown(inLoopThread: bool)
      requires Valid() && C.Shutdown(View(), inLoopThread).Ok?
      modifies this`state, this`pending, this`shuts
      ensures Valid()
      ensures inLoopThread ==> C.Shutdown(old(View()), true) == C.Ok(View())
      ensures !inLoopThread ==> View() == C.Delivered(old(View()), C.Shutdown(old(View()), false).conn)
    {
      var was := state;
      state := C.Disconnecting;
      if was == C.Connected {
        if inLoopThread {
          ShutdownInLoop();
        } else {
          QueueTask(C.QShutdown);
        }
      }
    }

    method ShutdownInLoop()
      requires Valid()
      modifies this`shuts
      ensures Valid() && View() == C.ShutdownInLoop(old(View()))
    {
      var writing := channel.IsWriting();
      if state != C.Disconnected && !writing {
        // ::shutdown(sockfd_, SHUT_WR)
        shuts := shuts + [C.Shut(|sock|, accepted, C.FaultedBytes(handled), C.Waiting(View()))];
      }
    }

    // Both on the loop thread and on another one the close itself is queued.
    method ForceClose(ghost inLoopThread: bool)
      requires Valid()
      modifies this`state, this`pending
      ensures Valid()
      ensures inLoopThread ==> View() == C.ForceClose(old(View()), true)
      ensures !inLoopThread ==> View() == C.Delivered(old(View()), C.ForceClose(old(View()), false))
    {
      if state != C.Disconnected {
        state := C.Disconnecting;
        QueueTask(C.QForceClose);
      }
    }

    method StopRead()
      requires Valid() && C.StopRead(View()).Ok?
      modifies channel`events, channel`pooling, poller`table
      ensures Valid() && View() == C.StopRead(old(View())).conn
    {
      var reading := channel.IsReading();
      if reading {
        SetInterest(DisableRead);
      }
    }

    method StartRead()
      requires Valid() && C.StartRead(View()).Ok?
      modifies channel`events, channel`pooling, poller`table
      ensures Valid() && View() == C.StartRead(old(View())).conn
    {
      var reading := channel.IsReading();
      if !reading {
        SetInterest(EnableRead);
      }
    }

    // inputBuffer_.readFd(sockfd_)
    method ReadInput(res: ReadResult) returns (n: int)
      requires Valid() && M.KernelMayReturn(inputBuffer.Layout(), res)
      modifies this`received, inputBuffer, inputBuffer.data
      ensures Valid() && n == if res.ReadFailed? then -1 else |res.bytes|
      ensures var got := if res.ReadFailed? then [] else res.bytes; var v := old(View());
              View() == v.(input := v.input + got, received := v.received + got)
      ensures inputBuffer.data == old(inputBuffer.data) || fresh(inputBuffer.data)
    {
      n := inputBuffer.ReadFd(res);
      received := received + if res.ReadFailed? then [] else res.bytes;
    }

    method HandleRead(res: ReadResult)
      requires Valid() && C.HandleRead(View(), res).Ok?
      requires M.KernelMayReturn(inputBuffer.Layout(), res)
      modifies this, channel`events, channel`pooling, poller`table, inputBuffer, inputBuffer.data
      ensures Valid() && View() == C.HandleRead(old(View()), res).conn
      ensures inputBuffer.data == old(inputBuffer.data) || fresh(inputBuffer.data)
    {
      var n := ReadInput(res);
      assert n <= 0 ==> View() == old(View());
      if n == -1 {
        // handleError(): logs only
      } else if n == 0 {
        HandleClose();
      }
    }

    method HandleWrite(w: WriteResult)
      requires Valid() && KernelMayWrite(w, |outputBuffer.Content()|) && C.HandleWrite(View(), w).Ok?
      modifies this, channel`events, channel`pooling, poller`table, outputBuffer
      ensures Valid() && View() == C.HandleWrite(old(View()), w).conn
      ensures outputBuffer.data == old(outputBuffer.data)
    {
      if state == C.Disconnected {
        return;
      }
      if w.WriteFailed? {
        return;
      }
      sock := sock + outputBuffer.Content()[..w.n];
      RetrieveOutput(w.n);
      var left := outputBuffer.ReadableBytes();
      if left == 0 {
        Drained();
      }
    }

    // The output buffer has just become empty.
    method Drained()
      requires Valid() && C.SetInterest(View(), DisableWrite).Ok?
      modifies this`shuts, this`notes, channel`events, channel`pooling, poller`table
      ensures Valid()
      ensures var e := C.SetInterest(old(View()), DisableWrite).conn;
              var f := if e.state == C.Disconnecting then C.ShutdownInLoop(e) else e;
              View() == f.(notes := f.notes + if f.hasWriteComplete then [C.WriteComplete] else [])
    {
      SetInterest(DisableWrite);
      if state == C.Disconnecting {
        ShutdownInLoop();
      }
      if hasWriteComplete {
        notes := notes + [C.WriteComplete];
      }
    }

    method HandleClose()
      requires Valid() && C.HandleClose(View()).Ok?
      modifies this`state, this`closes, channel`events, channel`pooling, poller`table
      ensures Valid() && View() == C.HandleClose(old(View())).conn
    {
      state := C.Disconnected;
      SetInterest(DisableAll);
      closes := closes + 1;
    }

    method ForceCloseInLoop()
      requires Valid() && (state != C.Disconnected ==> C.HandleClose(View()).Ok?)
      modifies this`state, this`closes, channel`events, channel`pooling, poller`table
      ensures Valid()
      ensures View() == if old(state) == C.Disconnected then old(View()) else C.HandleClose(old(View())).conn
    {
      if state != C.Disconnected {
        HandleClose();
      }
    }

    // doPendingTasks reaches the oldest entry of this connection.
    method RunQueuedTask(w: WriteResult)
      requires Valid() && C.Possible(View(), C.DoTask(w)) && C.RunTask(View(), w).Ok?
      modifies this, channel`events, channel`pooling, poller`table, outputBuffer, outputBuffer.data
      ensures Valid() && View() == C.RunTask(old(View()), w).conn
      ensures outputBuffer.data == old(outputBuffer.data) || fresh(outputBuffer.data)
    {
      var task := batch[0];
      batch := batch[1..];
      match task {
        case QSend(msg) => SendInLoop(msg, w);
        case QShutdown => ShutdownInLoop();
        case QForceClose => ForceCloseInLoop();
      }
    }

    ghost method TakeCallback()
      requires Valid() && todo != []
      modifies this`todo
      ensures Valid() && View() == old(View()).(todo := old(todo)[1..])
    {
      todo := todo[1..];
    }

    // The callback whose turn it is in the current dispatch.
    method RunCallback(cb: Callback, res: ReadResult, w: WriteResult)
      requires Valid() && todo != [] && todo[0] == cb
      requires C.Possible(View(), C.DoDispatch(res, w)) && C.DispatchNext(View(), res, w).Ok?
      requires cb == ReadCb ==> M.KernelMayReturn(inputBuffer.Layout(), res)
      modifies this, channel`events, channel`pooling, poller`table
      modifies inputBuffer, inputBuffer.data, outputBuffer
      ensures Valid() && View() == C.DispatchNext(old(View()), res, w).conn
      ensures inputBuffer.data == old(inputBuffer.data) || fresh(inputBuffer.data)
      ensures outputBuffer.data == old(outputBuffer.data)
      ensures cb != ReadCb ==> inputBuffer.Layout() == old(inputBuffer.Layout())
    {
      TakeCallback();
      match cb {
        case CloseCb => HandleClose();
        case ErrorCb =>
        case ReadCb => HandleRead(res);
        case WriteCb => HandleWrite(w);
      }
    }

    // One line of handleEventWithGuard: run the callback if it was asked for.
    method Guarded(wanted: bool, cb: Callback, res: ReadResult, w: WriteResult, ghost before: C.Conn,
                   ghost steps: seq<C.Step>, ghost rest: seq<Callback>)
      returns (ghost longer: seq<C.Step>)
      requires Valid() && C.Inv(View()) && C.Inv(before) && R.SafeRun(before, steps, View())
      requires todo == (if wanted then [cb] else []) + rest
      requires cb == ReadCb ==> M.KernelMayReturn(inputBuffer.Layout(), res)
      modifies this, channel`events, channel`pooling, poller`table
      modifies inputBuffer, inputBuffer.data, outputBuffer
      ensures Valid() && C.Inv(View()) && R.SafeRun(before, longer, View())
      ensures todo == rest && phase == old(phase) && Continues(steps, longer, One(wanted))
      ensures View() == AfterCallback(old(View()), wanted, res, w)
      ensures cb != ReadCb ==> inputBuffer.Layout() == old(inputBuffer.Layout())
      ensures inputBuffer.data == old(inputBuffer.data) || fresh(inputBuffer.data)
      ensures outputBuffer.data == old(outputBuffer.data)
    {
      longer := steps;
      if wanted {
        var len := outputBuffer.ReadableBytes();
        var got := Limited(w, len);
        ghost var v := View();
        C.DispatchInv(v, res, got);
        R.DispatchPops(v, res, got);
        RunCallback(cb, res, got);
        longer := R.Extend(before, steps, v, C.DoDispatch(res, got), View());
        OneMore(steps, C.DoDispatch(res, got));
      }
    }

    // The application takes n bytes of input.
    method Consume(n: nat)
      requires Valid() && n <= |inputBuffer.Content()|
      modifies this`consumed, inputBuffer
      ensures Valid()
      ensures var v := old(View()); View() == v.(input := v.input[n..], consumed := v.consumed + v.input[..n])
      ensures inputBuffer.data == old(inputBuffer.data)
    {
      consumed := consumed + inputBuffer.Content()[..n];
      inputBuffer.Retrieve(n);
    }

    // One thing user code can do to its connection on the loop thread. A caller
    // that respects the rules leaves out what they forbid.
    method Act(a: C.Step) returns (acted: bool)
      requires Valid() && C.Inv(View()) && phase != C.AtPoll
      modifies this, channel`events, channel`pooling, poller`table
      modifies inputBuffer, outputBuffer, outputBuffer.data
      ensures Valid() && View() == UserNext(old(View()), a)
      ensures acted == (UserCall(a) && C.Possible(old(View()), a) && C.Safe(old(View()), a))
      ensures acted ==> C.Next(old(View()), a) == C.Ok(View())
      ensures inputBuffer.data == old(inputBuffer.data)
      ensures outputBuffer.data == old(outputBuffer.data) || fresh(outputBuffer.data)
    {
      acted := Allowed(a);
      if acted {
        C.SafeStep(View(), a);
        Perform(a);
      }
    }

    method Perform(a: C.Step)
      requires Valid() && UserCall(a) && C.Possible(View(), a) && C.Next(View(), a).Ok?
      modifies this, channel`events, channel`pooling, poller`table
      modifies inputBuffer, outputBuffer, outputBuffer.data
      ensures Valid() && C.Next(old(View()), a) == C.Ok(View())
      ensures inputBuffer.data == old(inputBuffer.data)
      ensures outputBuffer.data == old(outputBuffer.data) || fresh(outputBuffer.data)
    {
      match a {
        case DoSend(msg, _, w) => Send(msg, true, w);
        case DoShutdown(_) => Shutdown(true);
        case DoForceClose(_) => ForceClose(true);
        case DoStopRead => StopRead();
        case DoStartRead => StartRead();
        case DoConsume(n) => Consume(n);
        case _ => assert false;
      }
    }

    // Whether user code on the loop thread may do this now.
    method Allowed(a: C.Step) returns (ok: bool)
      requires Valid() && phase != C.AtPoll
      ensures ok == (UserCall(a) && C.Possible(View(), a) && C.Safe(View(), a))
    {
      if !UserCall(a) {
        return false;
      }
      match a {
        case DoSend(msg, _, w) => ok := KernelMayWrite(w, |msg|);
        case DoShutdown(_) => ok := state == C.Connected || state == C.Disconnecting;
        case DoForceClose(_) => ok := state != C.Connecting;
        case DoStopRead => ok := true;
        case DoStartRead => ok := state == C.Connected || state == C.Disconnecting;
        case DoConsume(n) =>
          var len := inputBuffer.ReadableBytes();
          ok := n <= len;
      }
    }

    // messageCallback_: any script of such actions.
    method MessageCallback(script: seq<C.Step>, ghost before: C.Conn, ghost steps: seq<C.Step>)
      returns (ghost longer: seq<C.Step>)
      requires Valid() && C.Inv(View()) && C.Inv(before) && R.SafeRun(before, steps, View()) && phase != C.AtPoll
      modifies this, channel`events, channel`pooling, poller`table
      modifies inputBuffer, outputBuffer, outputBuffer.data
      ensures Valid() && C.Inv(View()) && R.SafeRun(before, longer, View()) && todo == old(todo) && phase == old(phase)
      ensures Continues(steps, longer, 0)
      ensures View() == AfterScript(old(View()), script)
      ensures inputBuffer.data == old(inputBuffer.data)
      ensures outputBuffer.data == old(outputBuffer.data) || fresh(outputBuffer.data)
      decreases |script|
    {
      longer := steps;
      if script != [] {
        longer := ActAndRecord(script[0], before, longer);
        longer := MessageCallback(script[1..], before, longer);
      }
    }

    method ActAndRecord(a: C.Step, ghost before: C.Conn, ghost steps: seq<C.Step>) returns (ghost longer: seq<C.Step>)
      requires Valid() && C.Inv(View()) && C.Inv(before) && R.SafeRun(before, steps, View()) && phase != C.AtPoll
      modifies this, channel`events, channel`pooling, poller`table
      modifies inputBuffer, outputBuffer, outputBuffer.data
      ensures Valid() && C.Inv(View()) && R.SafeRun(before, longer, View()) && todo == old(todo) && phase == old(phase)
      ensures Continues(steps, longer, 0)
      ensures View() == UserNext(old(View()), a)
      ensures inputBuffer.data == old(inputBuffer.data)
      ensures outputBuffer.data == old(outputBuffer.data) || fresh(outputBuffer.data)
    {
      longer := steps;
      ghost var v := View();
      var acted := Act(a);
      if acted {
        UserStepKeepsTodo(v, a);
        longer := R.Extend(before, longer, v, a, View());
        OneMore(steps, a);
      }
    }

    // handleEventWithGuard, from the report of epoll_wait to the last callback,
    // with an arbitrary message callback inside handleRead: the whole dispatch is
    // a run of the protocol, so no assertion fails in it.
    method HandleEvents(revents: Events, res: ReadResult, w: WriteResult, script: seq<C.Step>)
      returns (ghost steps: seq<C.Step>)
      requires Valid() && C.Inv(View()) && C.Possible(View(), C.DoPoll(revents)) && !HupWithData(revents)
      requires M.KernelMayReturn(inputBuffer.Layout(), res)
      modifies this, channel`events, channel`pooling, poller`table
      modifies inputBuffer, inputBuffer.data, outputBuffer, outputBuffer.data
      ensures Valid() && C.Inv(View()) && todo == []
      ensures R.SafeRun(old(View()), steps, View()) && steps != [] && steps[0] == C.DoPoll(revents)
      ensures Dispatches(steps) == |Dispatch(revents)|
    {
      ghost var before := View();
      steps := BeginDispatch(revents);
      var hup, err := Hup in revents && In !in revents, Err in revents;
      var readable, writable := In in revents || Pri in revents || RdHup in revents, Out in revents;
      DispatchLength(revents);
      steps := GuardedAll(hup, err, readable, writable, res, w, script, before, steps);
    }

    method GuardedAll(hup: bool, err: bool, readable: bool, writable: bool, res: ReadResult, w: WriteResult,
                      script: seq<C.Step>, ghost before: C.Conn, ghost steps: seq<C.Step>)
      returns (ghost longer: seq<C.Step>)
      requires Valid() && C.Inv(View()) && C.Inv(before) && R.SafeRun(before, steps, View()) && phase == C.Handling
      requires todo == (if hup then [CloseCb] else [])
                       + ((if err then [ErrorCb] else [])
                          + ((if readable then [ReadCb] else []) + (if writable then [WriteCb] else [])))
      requires M.KernelMayReturn(inputBuffer.Layout(), res)
      modifies this, channel`events, channel`pooling, poller`table
      modifies inputBuffer, inputBuffer.data, outputBuffer, outputBuffer.data
      ensures Valid() && C.Inv(View()) && todo == [] && R.SafeRun(before, longer, View())
      ensures Continues(steps, longer, One(hup) + One(err) + (One(readable) + One(writable)))
    {
      ghost var io := (if readable then [ReadCb] else []) + (if writable then [WriteCb] else []);
      longer := GuardedSignals(hup, err, res, w, before, steps, io);
      longer := GuardedIo(readable, writable, res, w, script, before, longer);
    }

    method GuardedSignals(hup: bool, err: bool, res: ReadResult, w: WriteResult, ghost before: C.Conn,
                          ghost steps: seq<C.Step>, ghost rest: seq<Callback>)
      returns (ghost longer: seq<C.Step>)
      requires Valid() && C.Inv(View()) && C.Inv(before) && R.SafeRun(before, steps, View())
      requires todo == (if hup then [CloseCb] else []) + ((if err then [ErrorCb] else []) + rest)
      modifies this, channel`events, channel`pooling, poller`table
      modifies inputBuffer, inputBuffer.data, outputBuffer
      ensures Valid() && C.Inv(View()) && todo == rest && phase == old(phase) && R.SafeRun(before, longer, View())
      ensures Continues(steps, longer, One(hup) + One(err))
      ensures inputBuffer.Layout() == old(inputBuffer.Layout())
      ensures inputBuffer.data == old(inputBuffer.data) || fresh(inputBuffer.data)
      ensures outputBuffer.data == old(outputBuffer.data)
    {
      longer := Guarded(hup, CloseCb, res, w, before, steps, (if err then [ErrorCb] else []) + rest);
      longer := Guarded(err, ErrorCb, res, w, before, longer, rest);
    }

    method GuardedIo(readable: bool, writable: bool, res: ReadResult, w: WriteResult, script: seq<C.Step>,
                     ghost before: C.Conn, ghost steps: seq<C.Step>)
      returns (ghost longer: seq<C.Step>)
      requires Valid() && C.Inv(View()) && C.Inv(before) && R.SafeRun(before, steps, View())
      requires todo == (if readable then [ReadCb] else []) + (if writable then [WriteCb] else []) && phase == C.Handling
      requires M.KernelMayReturn(inputBuffer.Layout(), res)
      modifies this, channel`events, channel`pooling, poller`table
      modifies inputBuffer, inputBuffer.data, outputBuffer, outputBuffer.data
      ensures Valid() && C.Inv(View()) && todo == [] && R.SafeRun(before, longer, View())
      ensures Continues(steps, longer, One(readable) + One(writable))
    {
      longer := GuardedRead(readable, res, w, script, before, steps, if writable then [WriteCb] else []);
      longer := Guarded(writable, WriteCb, res, w, before, longer, []);
    }

    // The read callback, and within it the message callback when data arrived.
    method GuardedRead(readable: bool, res: ReadResult, w: WriteResult, script: seq<C.Step>,
                       ghost before: C.Conn, ghost steps: seq<C.Step>, ghost rest: seq<Callback>)
      returns (ghost longer: seq<C.Step>)
      requires Valid() && C.Inv(View()) && C.Inv(before) && R.SafeRun(before, steps, View())
      requires todo == (if readable then [ReadCb] else []) + rest && phase == C.Handling
      requires M.KernelMayReturn(inputBuffer.Layout(), res)
      modifies this, channel`events, channel`pooling, poller`table
      modifies inputBuffer, inputBuffer.data, outputBuffer, outputBuffer.data
      ensures Valid() && C.Inv(View()) && todo == rest && R.SafeRun(before, longer, View())
      ensures Continues(steps, longer, One(readable))
      ensures View() == AfterRead(old(View()), readable, res, w, script)
      ensures inputBuffer.data == old(inputBuffer.data) || fresh(inputBuffer.data)
      ensures outputBuffer.data == old(outputBuffer.data) || fresh(outputBuffer.data)
    {
      longer := Guarded(readable, ReadCb, res, w, before, steps, rest);
      if readable && res.ReadBytes? && res.bytes != [] {
        longer := MessageCallback(script, before, longer);
      }
    }

    ghost method BeginDispatch(revents: Events) returns (steps: seq<C.Step>)
      requires Valid() && C.Inv(View()) && C.Possible(View(), C.DoPoll(revents)) && !HupWithData(revents)
      modifies this`todo, this`phase
      ensures Valid() && C.Inv(View()) && R.SafeRun(old(View()), steps, View()) && phase == C.Handling
      ensures steps == [C.DoPoll(revents)] && Dispatches(steps) == 0 && todo == Dispatch(revents)
      ensures todo == (if Hup in revents && In !in revents then [CloseCb] else [])
                      + ((if Err in revents then [ErrorCb] else [])
                         + ((if In in revents || Pri in revents || RdHup in revents then [ReadCb] else [])
                            + (if Out in revents then [WriteCb] else [])))
    {
      R.PollRun(View(), revents);
      DispatchSplit(revents);
      todo, phase := Dispatch(revents), C.Handling;
      steps := [C.DoPoll(revents)];
      OneMore([], C.DoPoll(revents));
      assert [] + [C.DoPoll(revents)] == steps;
    }
  }

  // How many callbacks a run executes.
  function Dispatches(steps: seq<C.Step>): (n: nat) {
    if steps == [] then 0 else Dispatches(steps[..|steps| - 1]) + if steps[|steps| - 1].DoDispatch? then 1 else 0
  }

  lemma DispatchLength(revents: Events)
    ensures |Dispatch(revents)| ==
            One(Hup in revents && In !in revents) + One(Err in revents)
            + (One(In in revents || Pri in revents || RdHup in revents) + One(Out in revents))
  {
  }

  function One(b: bool): (n: nat) { if b then 1 else 0 }

  // A longer run with the same beginning and n more callbacks in it.
  predicate Continues(steps: seq<C.Step>, longer: seq<C.Step>, n: nat) {
    && (steps != [] ==> longer != [] && longer[0] == steps[0])
    && Dispatches(longer) == Dispatches(steps) + n
  }

  lemma OneMore(steps: seq<C.Step>, a: C.Step)
    ensures Continues(steps, steps + [a], if a.DoDispatch? then 1 else 0)
  {
    assert (steps + [a])[..|steps + [a]| - 1] == steps;
  }

  // The connection after the next callback of a dispatch, if it is wanted.
  ghost function AfterCallback(c: C.Conn, wanted: bool, res: ReadResult, w: WriteResult): (d: C.Conn) {
    if wanted && c.todo != [] && C.DispatchNext(c, res, Limited(w, |c.out|)).Ok?
    then C.DispatchNext(c, res, Limited(w, |c.out|)).conn else c
  }

  // What user code does to it: the calls the rules allow.
  ghost function UserNext(c: C.Conn, a: C.Step): (d: C.Conn) {
    if UserCall(a) && C.Possible(c, a) && C.Safe(c, a) && C.Next(c, a).Ok? then C.Next(c, a).conn else c
  }

  ghost function AfterScript(c: C.Conn, script: seq<C.Step>): (d: C.Conn)
    decreases |script|
  {
    if script == [] then c else AfterScript(UserNext(c, script[0]), script[1..])
  }

  ghost function AfterRead(c: C.Conn, readable: bool, res: ReadResult, w: WriteResult, script: seq<C.Step>): (d: C.Conn) {
    var r := AfterCallback(c, readable, res, w);
    if readable && res.ReadBytes? && res.bytes != [] then AfterScript(r, script) else r
  }

  // Calls of user code, made on the loop thread.
  predicate UserCall(a: C.Step) {
    match a
    case DoSend(_, inLoop, _) => inLoop
    case DoShutdown(inLoop) => inLoop
    case DoForceClose(inLoop) => inLoop
    case DoStopRead => true
    case DoStartRead => true
    case DoConsume(_) => true
    case _ => false
  }

  // User code does not touch the dispatch it runs in.
  lemma UserStepKeepsTodo(c: C.Conn, a: C.Step)
    requires UserCall(a) && C.Possible(c, a) && C.Next(c, a).Ok?
    ensures C.Next(c, a).conn.todo == c.todo && C.Next(c, a).conn.phase == c.phase
  {
    if a.DoSend? && c.state == C.Connected {
      C.SendInLoopFrame(c.(accepted := c.accepted + |a.msg|), a.msg, a.w);
    }
  }

  lemma DeliveredSend(c: C.Conn, msg: seq<Byte>, w: WriteResult)
    requires KernelMayWrite(w, |msg|) && c.state == C.Connected
    ensures C.Send(c, msg, false, w).Ok?
    ensures var d := C.Send(c, msg, false, w).conn;
            d.late[..|c.late|] == c.late &&
            C.Delivered(c, d) == c.(accepted := c.accepted + |msg|, pending := c.pending + [C.QSend(msg)])
  {
  }
}
