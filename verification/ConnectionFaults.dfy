// What a step that breaks the rules of a connection leads to: a failed assertion
// of the source, and nothing else does.
module ConnectionFaults {
  import opened Codec
  import opened Interest
  import opened Syscalls
  import opened Connection

  // A run of steps that all keep the rules, the last of which fails.
  ghost predicate Breaks(c: Conn, steps: seq<Step>)
    decreases |steps|
  {
    && steps != [] && Possible(c, steps[0]) && Safe(c, steps[0])
    && (Next(c, steps[0]).Ok? ==> Breaks(Next(c, steps[0]).conn, steps[1..]))
  }

  // Step a fails, or lets a step that keeps the rules fail later.
  ghost predicate LeadsToFault(c: Conn, a: Step)
    requires Possible(c, a)
  {
    Next(c, a).Fault? || exists steps :: Breaks(Next(c, a).conn, steps)
  }

  lemma Prepend(c: Conn, a: Step, rest: seq<Step>) returns (steps: seq<Step>)
    requires Possible(c, a) && Safe(c, a) && (Next(c, a).Ok? ==> Breaks(Next(c, a).conn, rest))
    ensures Breaks(c, steps)
  {
    steps := [a] + rest;
    assert steps[1..] == rest;
  }

  lemma {:induction false} InvNeverBreaks(c: Conn, steps: seq<Step>)
    requires Inv(c)
    ensures !Breaks(c, steps)
    decreases |steps|
  {
    if Breaks(c, steps) {
      SafeStep(c, steps[0]);
      InvNeverBreaks(Next(c, steps[0]).conn, steps[1..]);
    }
  }

  // A callback for which the kernel has nothing.
  const Nothing: Step := DoDispatch(ReadFailed(EAGAIN), WriteFailed(EAGAIN))

  // ---- a read callback on a closed connection ----

  lemma {:induction false} ReadAfterCloseBreaks(c: Conn) returns (steps: seq<Step>)
    requires c.state == Disconnected && ReadCb in c.todo
    ensures Breaks(c, steps)
    decreases |c.todo|
  {
    var rest := [];
    if Next(c, Nothing).Ok? {
      rest := ReadAfterCloseBreaks(Next(c, Nothing).conn);
    }
    steps := Prepend(c, Nothing, rest);
  }

  // The loop's next step of its own, with nothing to read and nothing to send.
  function Onward(c: Conn): (a: Step) {
    if c.todo != [] then Nothing
    else if c.phase == Handling then DoSwap
    else if c.batch != [] then DoTask(WriteFailed(EPIPE))
    else if c.phase == InBatch then DoBatchEnd
    else DoPoll({})
  }

  // A closed connection that epoll still watches for input.
  lemma {:induction false} WatchedAfterCloseBreaks(c: Conn) returns (steps: seq<Step>)
    requires c.state == Disconnected && c.pooled && In in c.events && (c.todo != [] ==> c.phase == Handling)
    ensures Breaks(c, steps)
    decreases if c.phase == Handling then 2 else if c.phase == InBatch then 1 else 0, |c.todo| + |c.batch|
  {
    if c.phase == AtPoll {
      assert Dispatch({In}) == [ReadCb];
      assert ReadCb in Dispatch({In});
      steps := ReadAfterCloseBreaks(Next(c, DoPoll({In})).conn);
      steps := Prepend(c, DoPoll({In}), steps);
    } else {
      var rest := [];
      if Next(c, Onward(c)).Ok? {
        rest := WatchedAfterCloseBreaks(Next(c, Onward(c)).conn);
      }
      steps := Prepend(c, Onward(c), rest);
    }
  }

  lemma HupWithDataBreaks(c: Conn, rev: Events) returns (steps: seq<Step>)
    requires Inv(c) && Possible(c, DoPoll(rev)) && HupWithData(rev)
    ensures Breaks(Next(c, DoPoll(rev)).conn, steps)
  {
    var d := Next(c, DoPoll(rev)).conn;
    DispatchMembers(rev);
    assert d.todo[0] == CloseCb;
    var e := Next(d, Nothing).conn;
    assert ReadCb in d.todo && d.todo == [CloseCb] + e.todo;
    steps := ReadAfterCloseBreaks(e);
    steps := Prepend(d, Nothing, steps);
  }

  // ---- a forced close of a connection that epoll does not watch ----

  predicate Unwatched(c: Conn) { c.state == Disconnecting && !c.pooled && c.events == {} }

  lemma {:induction false} UnwatchedBatchBreaks(c: Conn, k: nat) returns (steps: seq<Step>)
    requires Unwatched(c) && k < |c.batch| && c.batch[k] == QForceClose
    ensures Breaks(c, steps)
    decreases |c.todo| + |c.batch|
  {
    var a := if c.todo != [] then Nothing else DoTask(WriteFailed(EPIPE));
    var rest := [];
    if Next(c, a).Ok? {
      rest := UnwatchedBatchBreaks(Next(c, a).conn, if a == Nothing then k else k - 1);
    }
    steps := Prepend(c, a, rest);
  }

  lemma {:induction false} UnwatchedPendingBreaks(c: Conn, k: nat) returns (steps: seq<Step>)
    requires Unwatched(c) && k < |c.pending| && c.pending[k] == QForceClose
    requires c.batch != [] ==> c.phase == InBatch
    ensures Breaks(c, steps)
    decreases if c.phase == InBatch then 2 else if c.phase == AtPoll then 1 else 0, |c.todo| + |c.batch|
  {
    var rest := [];
    if Next(c, Onward(c)).Ok? {
      var d := Next(c, Onward(c)).conn;
      if Onward(c) == DoSwap {
        rest := UnwatchedBatchBreaks(d, k);
      } else {
        rest := UnwatchedPendingBreaks(d, k);
      }
    }
    steps := Prepend(c, Onward(c), rest);
  }

  lemma UnwatchedLateBreaks(c: Conn, k: nat) returns (steps: seq<Step>)
    requires Unwatched(c) && k < |c.late| && c.late[k] == QForceClose
    requires c.batch != [] ==> c.phase == InBatch
    ensures Breaks(c, steps)
  {
    steps := UnwatchedPendingBreaks(Push(c, k), |c.pending|);
    steps := Prepend(c, DoPush(k), steps);
  }

  // forceClose() on a connection in that condition.
  lemma UnwatchedForceCloseBreaks(c: Conn) returns (steps: seq<Step>)
    requires Unwatched(c) && (c.batch != [] ==> c.phase == InBatch)
    ensures Breaks(c, steps)
  {
    steps := UnwatchedLateBreaks(ForceClose(c, false), |c.late|);
    steps := Prepend(c, DoForceClose(false), steps);
  }

  lemma ForceCloseBreaks(c: Conn, inLoop: bool) returns (steps: seq<Step>)
    requires Inv(c) && c.state == Connecting
    ensures Breaks(ForceClose(c, inLoop), steps)
  {
    if inLoop {
      steps := UnwatchedPendingBreaks(ForceClose(c, true), 0);
    } else {
      steps := UnwatchedLateBreaks(ForceClose(c, false), 0);
    }
  }

  // ---- startRead at the wrong time ----

  lemma {:induction false} EarlyReadBreaks(c: Conn) returns (steps: seq<Step>)
    requires c.state == Connecting && c.pooled && In in c.events && c.todo == [] && c.batch == [] && c.pending == []
    ensures Breaks(c, steps)
    decreases if c.phase == Handling then 2 else if c.phase == InBatch then 1 else 0
  {
    if c.phase == AtPoll {
      assert Dispatch({In}) == [ReadCb];
      var d := Next(c, DoPoll({In})).conn;
      var eof := DoDispatch(ReadBytes([]), WriteFailed(EAGAIN));
      steps := Prepend(d, eof, []);
      steps := Prepend(c, DoPoll({In}), steps);
    } else {
      steps := EarlyReadBreaks(Next(c, Onward(c)).conn);
      steps := Prepend(c, Onward(c), steps);
    }
  }

  lemma StartReadBreaks(c: Conn) returns (steps: seq<Step>)
    requires Inv(c) && !Alive(c)
    ensures StartRead(c).Ok? && Breaks(StartRead(c).conn, steps)
  {
    assert In in NewEvents(c.events, EnableRead);
    var d := StartRead(c).conn;
    if c.state == Connecting {
      steps := EarlyReadBreaks(d);
    } else {
      steps := WatchedAfterCloseBreaks(d);
    }
  }

  // ---- the exact rule ----

  lemma UnsafeBreaks(c: Conn, a: Step)
    requires Inv(c) && Possible(c, a) && !Safe(c, a)
    ensures LeadsToFault(c, a)
  {
    match a
    case DoEstablish =>
    case DoShutdown(_) =>
      if c.state == Connecting {
        var steps := UnwatchedForceCloseBreaks(Next(c, a).conn);
      }
    case DoForceClose(inLoop) => var steps := ForceCloseBreaks(c, inLoop);
    case DoStartRead => var steps := StartReadBreaks(c);
    case DoPoll(rev) => var steps := HupWithDataBreaks(c, rev);
    case StaleExchange => var steps := UnwatchedForceCloseBreaks(Next(c, a).conn);
  }

  // A step that keeps the rules does no harm, and every step that does not has a
  // continuation in which an assertion of the source fails.
  lemma FaultIff(c: Conn, a: Step)
    requires Inv(c) && Possible(c, a)
    ensures LeadsToFault(c, a) <==> !Safe(c, a)
  {
    if Safe(c, a) {
      SafeStep(c, a);
      forall steps
        ensures !Breaks(Next(c, a).conn, steps)
      {
        InvNeverBreaks(Next(c, a).conn, steps);
      }
    } else {
      UnsafeBreaks(c, a);
    }
  }
}
