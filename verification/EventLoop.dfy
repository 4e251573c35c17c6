// The cross-thread task queue of an event loop and its wakeup descriptor, as a
// protocol over atomic steps of the loop thread and of any number of clients.
module EventLoopProtocol {
  import opened Totals

  // A task is identified by who queued it and by its place in that thread's
  // own program order; thread 0 is the loop thread, client f is thread f + 1.
  datatype Task = Task(origin: nat, number: nat)

  // A foreign thread: how many tasks it queued, and whether it is between its
  // push (or its store to quit_) and its write to the eventfd.
  datatype Client = Client(sent: nat, mustWake: bool)

  datatype Pc =
    | NotStarted   // loop() has not passed quit_ = false
    | Check        // about to test quit_
    | Polling      // inside epoll_wait
    | Handling     // running the active channels' handlers
    | Batch        // in doPendingTasks, between tasks
    | InTask       // executing one task of the batch
    | Exited

  datatype Loop = Loop(
    pc: Pc,
    quit: bool,
    doing: bool,            // doingPendingTasks_
    pending: seq<Task>,     // pendingTasks_
    batch: seq<Task>,       // rest of the swapped-out vector
    counter: nat,           // eventfd
    reported: bool,         // wakeupChannel_ is active and not yet handled
    loopMustWake: bool,     // the loop thread is between its push and its write
    clients: seq<Client>,
    loopSent: nat,
    started: seq<Task>,     // history: tasks whose execution began
    queued: seq<Task>)      // history: tasks ever queued

  datatype Step =
    | Start | TestQuit | PollReturn(sees: bool) | Drain | Swap | TaskStart | TaskEnd | BatchEnd
    | LPush | LWake | LQuit | EarlyPush
    | CPush(f: nat) | CWake(f: nat) | CQuit(f: nat)

  function Init(n: nat): (s: Loop) {
    Loop(NotStarted, false, false, [], [], 0, false, false, seq(n, _ => Client(0, false)), 0, [], [])
  }

  predicate InUserCode(s: Loop) {
    (s.pc == Handling || s.pc == InTask) && !s.loopMustWake
  }

  predicate Enabled(s: Loop, a: Step) {
    match a
    case Start => s.pc == NotStarted
    case TestQuit => s.pc == Check
    case PollReturn(sees) => s.pc == Polling && (sees ==> s.counter > 0)
    case Drain => s.pc == Handling && s.reported
    case Swap => s.pc == Handling && !s.reported
    case TaskStart => s.pc == Batch && s.batch != []
    case TaskEnd => s.pc == InTask && !s.loopMustWake
    case BatchEnd => s.pc == Batch && s.batch == []
    case LPush => InUserCode(s)
    case LWake => s.loopMustWake
    case LQuit => InUserCode(s) && !s.quit
    case EarlyPush => s.pc == NotStarted
    case CPush(f) => f < |s.clients| && !s.clients[f].mustWake
    case CWake(f) => f < |s.clients| && s.clients[f].mustWake
    case CQuit(f) => f < |s.clients| && !s.clients[f].mustWake && !s.quit
  }

  function LoopPush(s: Loop): (t: Loop) {
    var task := Task(0, s.loopSent);
    s.(pending := s.pending + [task], queued := s.queued + [task], loopSent := s.loopSent + 1, loopMustWake := s.doing)
  }

  function Next(s: Loop, a: Step): (t: Loop)
    requires Enabled(s, a)
  {
    match a
    case Start => s.(pc := Check, quit := false)
    case TestQuit => s.(pc := if s.quit then Exited else Polling)
    case PollReturn(sees) => s.(pc := Handling, reported := sees)
    case Drain => s.(counter := 0, reported := false)
    case Swap => s.(pc := Batch, batch := s.pending, pending := [], doing := true)
    case TaskStart => s.(pc := InTask, batch := s.batch[1..], started := s.started + [s.batch[0]])
    case TaskEnd => s.(pc := Batch)
    case BatchEnd => s.(pc := Check, doing := false)
    case LPush => LoopPush(s)
    case LWake => s.(counter := s.counter + 1, loopMustWake := false)
    case LQuit => s.(quit := true)
    case EarlyPush => LoopPush(s)
    case CPush(f) =>
      var task := Task(f + 1, s.clients[f].sent);
      s.(pending := s.pending + [task], queued := s.queued + [task],
         clients := s.clients[f := Client(s.clients[f].sent + 1, true)])
    case CWake(f) => s.(counter := s.counter + 1, clients := s.clients[f := s.clients[f].(mustWake := false)])
    case CQuit(f) => s.(quit := true, clients := s.clients[f := s.clients[f].(mustWake := true)])
  }

  ghost predicate Path(s: Loop, steps: seq<Step>, t: Loop)
    decreases |steps|
  {
    if steps == [] then s == t
    else Enabled(s, steps[0]) && Path(Next(s, steps[0]), steps[1..], t)
  }

  lemma {:induction false} PathExtend(s: Loop, steps: seq<Step>, t: Loop, a: Step)
    requires Path(s, steps, t) && Enabled(t, a)
    ensures Path(s, steps + [a], Next(t, a))
    decreases |steps|
  {
    if steps == [] {
      assert (steps + [a])[1..] == [];
    } else {
      PathExtend(Next(s, steps[0]), steps[1..], t, a);
      assert (steps + [a])[1..] == steps[1..] + [a];
    }
  }

  // ---- no lost wakeup ----

  predicate SomeMustWake(s: Loop) {
    exists f :: 0 <= f < |s.clients| && s.clients[f].mustWake
  }

  // A write to the eventfd is unread or is on its way.
  predicate WakeDue(s: Loop) {
    s.counter > 0 || s.loopMustWake || SomeMustWake(s)
  }

  predicate WakeInv(s: Loop) {
    && (s.pc != Handling && s.pc != Exited && s.pending != [] ==> WakeDue(s))
    && (s.pc == Polling && s.quit ==> WakeDue(s))
  }

  predicate HistoryInv(s: Loop) { s.started + s.batch + s.pending == s.queued }

  predicate PcInv(s: Loop) {
    && (s.doing <==> s.pc == Batch || s.pc == InTask)
    && (!s.doing ==> s.batch == [])
    && (s.loopMustWake ==> s.pc == InTask)
    && (s.reported ==> s.pc == Handling)
    && (s.pc == Exited ==> s.quit)
  }

  predicate ShapeInv(s: Loop) { HistoryInv(s) && PcInv(s) }

  lemma HistoryStep(s: Loop, a: Step)
    requires ShapeInv(s) && Enabled(s, a)
    ensures HistoryInv(Next(s, a))
  {
    var t := Next(s, a);
    if a.TaskStart? {
      assert s.batch == [s.batch[0]] + s.batch[1..];
    } else if a.Swap? {
      assert s.started + [] + s.pending == s.started + s.pending + [];
    } else if a.CPush? || a.LPush? || a.EarlyPush? {
      var task := t.pending[|s.pending|];
      assert s.started + s.batch + (s.pending + [task]) == (s.started + s.batch + s.pending) + [task];
    }
  }

  lemma PcStep(s: Loop, a: Step)
    requires PcInv(s) && Enabled(s, a)
    ensures PcInv(Next(s, a))
  {
  }

  lemma ShapeStep(s: Loop, a: Step)
    requires ShapeInv(s) && Enabled(s, a)
    ensures ShapeInv(Next(s, a))
  {
    HistoryStep(s, a);
    PcStep(s, a);
  }

  lemma WakeStep(s: Loop, a: Step)
    requires ShapeInv(s) && WakeInv(s) && Enabled(s, a) && !a.EarlyPush?
    ensures WakeInv(Next(s, a))
  {
    var t := Next(s, a);
    if a.CPush? || a.CQuit? {
      assert t.clients[a.f].mustWake;
    } else if !a.CWake? {
      assert t.clients == s.clients;
      assert SomeMustWake(s) ==> SomeMustWake(t);
    }
  }

  lemma {:induction false} PathInv(s: Loop, steps: seq<Step>, t: Loop)
    requires ShapeInv(s) && Path(s, steps, t)
    ensures ShapeInv(t)
    decreases |steps|
  {
    if steps != [] {
      ShapeStep(s, steps[0]);
      PathInv(Next(s, steps[0]), steps[1..], t);
    }
  }

  // ---- exactly when a wakeup is lost ----

  // The loop has never been disturbed: no thread has pushed or quit, and it has
  // not come back from its first epoll_wait.
  predicate Undisturbed(s: Loop) {
    (s.pc == NotStarted || s.pc == Check || s.pc == Polling) && !s.quit && !WakeDue(s)
  }

  // A step that rescues a task queued too early: the first poll returns for some
  // other reason, or another thread writes the eventfd.
  predicate Rescues(a: Step) { a.PollReturn? || a.CPush? || a.CQuit? }

  // From here on no wakeup can be lost.
  predicate Guarded(s: Loop) {
    ShapeInv(s) && WakeInv(s) && (s.pc == NotStarted ==> WakeDue(s))
  }

  lemma GuardedStep(s: Loop, a: Step)
    requires Guarded(s) && Enabled(s, a)
    ensures Guarded(Next(s, a))
  {
    ShapeStep(s, a);
    var t := Next(s, a);
    if a.CPush? || a.CQuit? {
      assert t.clients[a.f].mustWake;
    } else if !a.CWake? {
      assert t.clients == s.clients;
      assert SomeMustWake(s) ==> SomeMustWake(t);
    }
  }

  lemma {:induction false} GuardedRun(s: Loop, steps: seq<Step>, t: Loop)
    requires Guarded(s) && Path(s, steps, t)
    ensures Guarded(t)
    decreases |steps|
  {
    if steps != [] {
      GuardedStep(s, steps[0]);
      GuardedRun(Next(s, steps[0]), steps[1..], t);
    }
  }

  lemma UndisturbedStep(s: Loop, a: Step)
    requires ShapeInv(s) && Undisturbed(s) && Enabled(s, a)
    ensures Rescues(a) ==> Guarded(Next(s, a))
    ensures !Rescues(a) ==> ShapeInv(Next(s, a)) && Undisturbed(Next(s, a))
    ensures !Rescues(a) ==> (Next(s, a).pending != [] <==> s.pending != [] || a.EarlyPush?)
  {
    ShapeStep(s, a);
    var t := Next(s, a);
    if a.CPush? || a.CQuit? {
      assert t.clients[a.f].mustWake;
    } else {
      assert t.clients == s.clients;
      assert SomeMustWake(t) ==> SomeMustWake(s);
    }
  }

  predicate HasEarlyPush(steps: seq<Step>) { exists k :: 0 <= k < |steps| && steps[k].EarlyPush? }

  predicate HasRescue(steps: seq<Step>) { exists k :: 0 <= k < |steps| && Rescues(steps[k]) }

  lemma {:induction false} LostFrom(s: Loop, steps: seq<Step>, t: Loop)
    requires ShapeInv(s) && Undisturbed(s) && Path(s, steps, t) && t.pc == Polling
    ensures t.pending != [] && !WakeDue(t) <==> (s.pending != [] || HasEarlyPush(steps)) && !HasRescue(steps)
    ensures t.quit ==> WakeDue(t)
    decreases |steps|
  {
    if steps != [] {
      var a, rest := steps[0], steps[1..];
      UndisturbedStep(s, a);
      if Rescues(a) {
        GuardedRun(Next(s, a), rest, t);
      } else {
        LostFrom(Next(s, a), rest, t);
        assert forall k :: 0 <= k < |rest| ==> rest[k] == steps[k + 1];
        assert forall k :: 1 <= k < |steps| ==> steps[k] == rest[k - 1];
      }
    }
  }

  // A loop blocked in epoll_wait with a task queued or with quit_ set has an
  // unread eventfd write or a thread about to make one, except in one family of
  // runs: the loop thread queued a task before loop() and nothing has rescued it.
  lemma NoLostWakeup(n: nat, steps: seq<Step>, t: Loop)
    requires Path(Init(n), steps, t) && t.pc == Polling
    ensures t.pending != [] && !(t.counter > 0 || SomeMustWake(t)) <==> HasEarlyPush(steps) && !HasRescue(steps)
    ensures t.quit ==> t.counter > 0 || SomeMustWake(t)
  {
    LostFrom(Init(n), steps, t);
    PathInv(Init(n), steps, t);
  }

  // Such a run: a task queued by the loop thread before loop() leaves it blocked
  // with work pending and no wakeup due.
  lemma EarlyPushLosesWakeup() returns (steps: seq<Step>, t: Loop)
    ensures Path(Init(0), steps, t) && HasEarlyPush(steps)
    ensures t.pc == Polling && t.pending != [] && !WakeDue(t)
  {
    steps := [EarlyPush, Start, TestQuit];
    var s := Init(0);
    var s1 := Next(s, EarlyPush);
    var s2 := Next(s1, Start);
    t := Next(s2, TestQuit);
    assert steps[1..] == [Start, TestQuit] && steps[1..][1..] == [TestQuit];
    assert Path(s2, [TestQuit], t);
    assert Path(s1, [Start, TestQuit], t);
    assert steps[0].EarlyPush?;
  }

  // A quit() that lands before loop() clears quit_ is forgotten.
  lemma EarlyQuitForgotten() returns (steps: seq<Step>, t: Loop)
    ensures Path(Init(1), steps, t) && CQuit(0) in steps && !HasEarlyPush(steps)
    ensures t.pc == Polling && !t.quit
  {
    steps := [CQuit(0), Start, TestQuit];
    var s := Init(1);
    var s1 := Next(s, CQuit(0));
    var s2 := Next(s1, Start);
    t := Next(s2, TestQuit);
    assert steps[1..] == [Start, TestQuit] && steps[1..][1..] == [TestQuit];
    assert Path(s2, [TestQuit], t);
    assert Path(s1, [Start, TestQuit], t);
    assert steps[0] == CQuit(0);
  }

  predicate Quits(a: Step) { a.LQuit? || a.CQuit? }

  predicate HasQuit(steps: seq<Step>) { exists k :: 0 <= k < |steps| && Quits(steps[k]) }

  // Some quit() comes after loop() has cleared quit_.
  predicate QuitAfterStart(steps: seq<Step>) {
    exists j, k :: 0 <= j < k < |steps| && steps[j] == Start && Quits(steps[k])
  }

  lemma StartedStep(s: Loop, a: Step)
    requires s.pc != NotStarted && Enabled(s, a)
    ensures a != Start && Next(s, a).pc != NotStarted && (Next(s, a).quit <==> s.quit || Quits(a))
  {
  }

  lemma {:induction false} StartedQuit(s: Loop, steps: seq<Step>, t: Loop)
    requires s.pc != NotStarted && Path(s, steps, t)
    ensures t.pc != NotStarted && (t.quit <==> s.quit || HasQuit(steps))
    ensures forall k :: 0 <= k < |steps| ==> steps[k] != Start
    decreases |steps|
  {
    if steps != [] {
      StartedStep(s, steps[0]);
      StartedQuit(Next(s, steps[0]), steps[1..], t);
      assert forall k :: 0 <= k < |steps[1..]| ==> steps[1..][k] == steps[k + 1];
      assert forall k :: 1 <= k < |steps| ==> steps[k] == steps[1..][k - 1];
    }
  }

  // quit() takes effect exactly when it is called after loop() has begun.
  lemma {:induction false} QuitHeldIff(s: Loop, steps: seq<Step>, t: Loop)
    requires s.pc == NotStarted && Path(s, steps, t) && t.pc != NotStarted
    ensures t.quit <==> QuitAfterStart(steps)
    decreases |steps|
  {
    var a, rest := steps[0], steps[1..];
    assert forall k :: 0 <= k < |rest| ==> rest[k] == steps[k + 1];
    assert forall k :: 1 <= k < |steps| ==> steps[k] == rest[k - 1];
    if a == Start {
      StartedQuit(Next(s, a), rest, t);
      if HasQuit(rest) {
        var k :| 0 <= k < |rest| && Quits(rest[k]);
        assert steps[0] == Start && Quits(steps[k + 1]);
      }
    } else {
      QuitHeldIff(Next(s, a), rest, t);
      if QuitAfterStart(rest) {
        var j, k :| 0 <= j < k < |rest| && rest[j] == Start && Quits(rest[k]);
        assert steps[j + 1] == Start && Quits(steps[k + 1]);
      }
      if QuitAfterStart(steps) {
        var j, k :| 0 <= j < k < |steps| && steps[j] == Start && Quits(steps[k]);
        assert rest[j - 1] == Start && Quits(rest[k - 1]);
      }
    }
  }

  // A thread that may call quit() now.
  predicate MayCallQuit(s: Loop, a: Step) {
    match a
    case LQuit => InUserCode(s)
    case CQuit(f) => f < |s.clients| && !s.clients[f].mustWake
    case _ => false
  }

  lemma {:induction false} UnstartedQuit(s: Loop, steps: seq<Step>, t: Loop)
    requires Path(s, steps, t) && t.pc == NotStarted
    ensures t.quit <==> s.quit || HasQuit(steps)
    decreases |steps|
  {
    if steps != [] {
      UnstartedQuit(Next(s, steps[0]), steps[1..], t);
      NeverUnstarts(s, steps, t);
      assert forall k :: 0 <= k < |steps[1..]| ==> steps[1..][k] == steps[k + 1];
      assert forall k :: 1 <= k < |steps| ==> steps[k] == steps[1..][k - 1];
    }
  }

  lemma NeverUnstarts(s: Loop, steps: seq<Step>, t: Loop)
    requires Path(s, steps, t) && t.pc == NotStarted
    ensures s.pc == NotStarted && (steps != [] ==> steps[0] != Start)
  {
    if s.pc != NotStarted {
      StartedQuit(s, steps, t);
    } else if steps != [] && steps[0] == Start {
      StartedQuit(Next(s, Start), steps[1..], t);
    }
  }

  // The assertion of quit() fails exactly when another quit() has come before it
  // and loop() has not cleared quit_ in between.
  lemma QuitFailsIff(n: nat, steps: seq<Step>, t: Loop, a: Step)
    requires Path(Init(n), steps, t) && MayCallQuit(t, a)
    ensures !Enabled(t, a) <==> if t.pc == NotStarted then HasQuit(steps) else QuitAfterStart(steps)
  {
    if t.pc == NotStarted {
      UnstartedQuit(Init(n), steps, t);
    } else {
      QuitHeldIff(Init(n), steps, t);
    }
  }

  // ---- quit ----

  function Polls(steps: seq<Step>): (n: nat) {
    if steps == [] then 0 else (if steps[0].PollReturn? then 1 else 0) + Polls(steps[1..])
  }

  lemma {:induction false} PollsAppend(steps: seq<Step>, a: Step)
    ensures Polls(steps + [a]) == Polls(steps) + if a.PollReturn? then 1 else 0
  {
    if steps != [] {
      assert (steps + [a])[1..] == steps[1..] + [a];
      PollsAppend(steps[1..], a);
    }
  }

  // After quit_ is set the loop never enters epoll_wait again, so it completes
  // at most the iteration it is in.
  lemma {:induction false} AtMostOneMoreIteration(s: Loop, steps: seq<Step>, t: Loop)
    requires ShapeInv(s) && s.quit && s.pc != NotStarted && Path(s, steps, t)
    ensures t.quit && t.pc != NotStarted
    ensures Polls(steps) <= if s.pc == Polling then 1 else 0
    ensures s.pc != Polling ==> t.pc != Polling
    decreases |steps|
  {
    if steps != [] {
      ShapeStep(s, steps[0]);
      AtMostOneMoreIteration(Next(s, steps[0]), steps[1..], t);
    }
  }

  // ---- exactly once, in order ----

  function From(ts: seq<Task>, origin: nat): (r: seq<Task>) {
    if ts == [] then [] else (if ts[0].origin == origin then [ts[0]] else []) + From(ts[1..], origin)
  }

  function Numbered(origin: nat, n: nat): (r: seq<Task>)
    ensures |r| == n
  {
    seq(n, i requires 0 <= i < n => Task(origin, i))
  }

  lemma {:induction false} FromConcat(a: seq<Task>, b: seq<Task>, origin: nat)
    ensures From(a + b, origin) == From(a, origin) + From(b, origin)
  {
    if a == [] {
      assert a + b == b;
    } else {
      var head := if a[0].origin == origin then [a[0]] else [];
      FromConcat(a[1..], b, origin);
      calc {
        From(a + b, origin);
        { assert (a + b)[0] == a[0] && (a + b)[1..] == a[1..] + b; }
        head + From(a[1..] + b, origin);
        head + (From(a[1..], origin) + From(b, origin));
        (head + From(a[1..], origin)) + From(b, origin);
      }
    }
  }

  ghost predicate OrderInv(s: Loop) {
    && From(s.queued, 0) == Numbered(0, s.loopSent)
    && forall f :: 0 <= f < |s.clients| ==> From(s.queued, f + 1) == Numbered(f + 1, s.clients[f].sent)
  }

  lemma PushOrder(queued: seq<Task>, task: Task, origin: nat, n: nat)
    requires From(queued, origin) == Numbered(origin, n)
    requires task.origin == origin ==> task.number == n
    ensures From(queued + [task], origin) == Numbered(origin, if task.origin == origin then n + 1 else n)
  {
    FromConcat(queued, [task], origin);
    assert From([task], origin) == if task.origin == origin then [task] else [];
  }

  lemma ClientOrder(s: Loop, a: Step, f: nat)
    requires OrderInv(s) && Enabled(s, a) && f < |s.clients|
    ensures var t := Next(s, a);
            |t.clients| == |s.clients| && From(t.queued, f + 1) == Numbered(f + 1, t.clients[f].sent)
  {
    if a.CPush? {
      PushOrder(s.queued, Task(a.f + 1, s.clients[a.f].sent), f + 1, s.clients[f].sent);
    } else if a.LPush? || a.EarlyPush? {
      PushOrder(s.queued, Task(0, s.loopSent), f + 1, s.clients[f].sent);
    }
  }

  lemma LoopOrder(s: Loop, a: Step)
    requires OrderInv(s) && Enabled(s, a)
    ensures var t := Next(s, a); From(t.queued, 0) == Numbered(0, t.loopSent)
  {
    if a.CPush? {
      PushOrder(s.queued, Task(a.f + 1, s.clients[a.f].sent), 0, s.loopSent);
    } else if a.LPush? || a.EarlyPush? {
      PushOrder(s.queued, Task(0, s.loopSent), 0, s.loopSent);
    }
  }

  lemma OrderStep(s: Loop, a: Step)
    requires OrderInv(s) && Enabled(s, a)
    ensures OrderInv(Next(s, a))
  {
    LoopOrder(s, a);
    forall f | 0 <= f < |s.clients|
      ensures |Next(s, a).clients| == |s.clients|
      ensures From(Next(s, a).queued, f + 1) == Numbered(f + 1, Next(s, a).clients[f].sent)
    {
      ClientOrder(s, a, f);
    }
  }

  lemma {:induction false} PathOrder(s: Loop, steps: seq<Step>, t: Loop)
    requires OrderInv(s) && Path(s, steps, t)
    ensures OrderInv(t)
    decreases |steps|
  {
    if steps != [] {
      OrderStep(s, steps[0]);
      PathOrder(Next(s, steps[0]), steps[1..], t);
    }
  }

  lemma NumberedPrefix(a: seq<Task>, b: seq<Task>, origin: nat, n: nat)
    requires a + b == Numbered(origin, n)
    ensures |a| <= n && a == Numbered(origin, |a|)
  {
    assert |a + b| == n;
    forall i | 0 <= i < |a|
      ensures a[i] == Task(origin, i)
    {
      assert a[i] == (a + b)[i];
    }
  }

  lemma StartedInOrder(t: Loop, origin: nat, n: nat)
    requires HistoryInv(t) && From(t.queued, origin) == Numbered(origin, n)
    ensures var mine := From(t.started, origin); |mine| <= n && mine == Numbered(origin, |mine|)
  {
    var rest := t.batch + t.pending;
    assert t.queued == t.started + rest;
    FromConcat(t.started, rest, origin);
    NumberedPrefix(From(t.started, origin), From(rest, origin), origin, n);
  }

  lemma InitOrder(n: nat)
    ensures OrderInv(Init(n))
  {
  }

  // ---- what the calls made say ----

  // The thread whose queueInLoop this step is: 0 for the loop thread, f + 1 for
  // client f.
  predicate PushOf(a: Step, origin: nat) {
    match a
    case LPush => origin == 0
    case EarlyPush => origin == 0
    case CPush(f) => origin == f + 1
    case _ => false
  }

  function PushesBy(steps: seq<Step>, origin: nat): (n: nat) {
    if steps == [] then 0 else (if PushOf(steps[0], origin) then 1 else 0) + PushesBy(steps[1..], origin)
  }

  function Pushes(steps: seq<Step>): (n: nat) {
    if steps == [] then 0 else
      (if steps[0].LPush? || steps[0].EarlyPush? || steps[0].CPush? then 1 else 0) + Pushes(steps[1..])
  }

  function Starts(steps: seq<Step>): (n: nat) {
    if steps == [] then 0 else (if steps[0].TaskStart? then 1 else 0) + Starts(steps[1..])
  }

  function SentBy(s: Loop, origin: nat): (n: nat)
    requires origin <= |s.clients|
  {
    if origin == 0 then s.loopSent else s.clients[origin - 1].sent
  }

  lemma CallStep(s: Loop, a: Step, origin: nat)
    requires Enabled(s, a) && origin <= |s.clients|
    ensures var t := Next(s, a);
            && |t.clients| == |s.clients|
            && SentBy(t, origin) == SentBy(s, origin) + (if PushOf(a, origin) then 1 else 0)
            && |t.queued| == |s.queued| + (if a.LPush? || a.EarlyPush? || a.CPush? then 1 else 0)
            && |t.started| == |s.started| + (if a.TaskStart? then 1 else 0)
  {
  }

  lemma {:induction false} CallsCounted(s: Loop, steps: seq<Step>, t: Loop, origin: nat)
    requires Path(s, steps, t) && origin <= |s.clients|
    ensures |t.clients| == |s.clients| && SentBy(t, origin) == SentBy(s, origin) + PushesBy(steps, origin)
    ensures |t.queued| == |s.queued| + Pushes(steps) && |t.started| == |s.started| + Starts(steps)
    decreases |steps|
  {
    if steps != [] {
      CallStep(s, steps[0], origin);
      CallsCounted(Next(s, steps[0]), steps[1..], t, origin);
    }
  }

  // Every call of queueInLoop, on whichever thread, queues one task. Each task is
  // started at most once, in the order it was queued, and the tasks of one thread
  // are started as number 0, 1, 2, ... of that thread's calls.
  lemma ExactlyOnceFifo(n: nat, steps: seq<Step>, t: Loop, origin: nat)
    requires Path(Init(n), steps, t) && origin <= n
    ensures t.started + t.batch + t.pending == t.queued
    ensures |t.queued| == Pushes(steps) && |t.started| == Starts(steps)
    ensures From(t.queued, origin) == Numbered(origin, PushesBy(steps, origin))
    ensures var mine := From(t.started, origin);
            |mine| <= PushesBy(steps, origin) && mine == Numbered(origin, |mine|)
  {
    PathInv(Init(n), steps, t);
    InitOrder(n);
    PathOrder(Init(n), steps, t);
    CallsCounted(Init(n), steps, t, origin);
    OrderAt(t, origin);
    StartedInOrder(t, origin, PushesBy(steps, origin));
  }

  lemma OrderAt(t: Loop, origin: nat)
    requires OrderInv(t) && origin <= |t.clients|
    ensures From(t.queued, origin) == Numbered(origin, SentBy(t, origin))
  {
    if origin > 0 {
      var f := origin - 1;
      assert From(t.queued, f + 1) == Numbered(f + 1, t.clients[f].sent);
    }
  }

  // ---- progress ----

  // What the loop and the wakers do without further calls, and without other
  // descriptors becoming ready.
  predicate Internal(a: Step) {
    match a
    case PollReturn(sees) => sees
    case LPush => false
    case LQuit => false
    case EarlyPush => false
    case CPush(_) => false
    case CQuit(_) => false
    case _ => true
  }

  function Owes(c: Client): (n: nat) { if c.mustWake then 6 else 0 }

  function PcWork(s: Loop): (n: nat) {
    match s.pc
    case NotStarted => 2
    case Check => 1
    case Polling => 0
    case Handling => if s.reported then 4 else 3
    case Batch => 2
    case InTask => 3
    case Exited => 0
  }

  function Work(s: Loop): (n: nat) {
    PcWork(s) + 2 * (|s.pending| + |s.batch|) + Total(Owes, s.clients)
    + (if s.loopMustWake then 6 else 0) + (if s.counter > 0 && !s.reported then 5 else 0)
  }

  lemma StepWork(s: Loop, a: Step)
    requires ShapeInv(s) && Enabled(s, a)
    ensures Internal(a) ==> Work(Next(s, a)) < Work(s)
    ensures Work(Next(s, a)) <= Work(s) + 8
  {
    var t := Next(s, a);
    if a.CPush? || a.CWake? || a.CQuit? {
      TotalUpdate(Owes, s.clients, a.f, t.clients[a.f]);
    }
  }

  function Externals(steps: seq<Step>): (n: nat) {
    if steps == [] then 0 else (if Internal(steps[0]) then 0 else 1) + Externals(steps[1..])
  }

  // Every run is finite between outside events, also when tasks queue tasks.
  lemma {:induction false} BoundedWork(s: Loop, steps: seq<Step>, t: Loop)
    requires ShapeInv(s) && Path(s, steps, t)
    ensures |steps| + Work(t) <= Work(s) + 9 * Externals(steps)
    decreases |steps|
  {
    if steps != [] {
      ShapeStep(s, steps[0]);
      StepWork(s, steps[0]);
      BoundedWork(Next(s, steps[0]), steps[1..], t);
    }
  }

  // A loop that cannot go on by itself is blocked with no wakeup due, or has left.
  lemma Stuck(t: Loop)
    requires ShapeInv(t)
    requires forall a :: Internal(a) ==> !Enabled(t, a)
    ensures t.pc == Exited || (t.pc == Polling && !WakeDue(t))
  {
    assert !Enabled(t, Start) && !Enabled(t, TestQuit) && !Enabled(t, PollReturn(true)) && !Enabled(t, Drain);
    assert !Enabled(t, Swap) && !Enabled(t, TaskStart) && !Enabled(t, TaskEnd) && !Enabled(t, BatchEnd);
    assert !Enabled(t, LWake);
    forall f | 0 <= f < |t.clients|
      ensures !t.clients[f].mustWake
    {
      assert Internal(CWake(f)) && !Enabled(t, CWake(f));
    }
  }

  // ... and a run that can go no further by itself has left because of quit(), or
  // has started every task ever queued; all but one family of runs, in which a
  // task queued before loop() is still waiting for something to happen.
  lemma MaximalRunExecutesAll(n: nat, steps: seq<Step>, t: Loop)
    requires Path(Init(n), steps, t)
    requires forall a :: Internal(a) ==> !Enabled(t, a)
    ensures t.pc == Exited || (t.pc == Polling && !t.quit)
    ensures t.pc == Polling ==> (t.started == t.queued <==> !HasEarlyPush(steps) || HasRescue(steps))
    ensures t.pc == Polling ==> (Starts(steps) == Pushes(steps) <==> !HasEarlyPush(steps) || HasRescue(steps))
  {
    CallsCounted(Init(n), steps, t, 0);
    PathInv(Init(n), steps, t);
    Stuck(t);
    if t.pc == Polling {
      NoLostWakeup(n, steps, t);
      assert t.started + t.batch + t.pending == t.queued && t.batch == [];
      assert |t.started| + |t.pending| == |t.queued|;
      if t.pending == [] {
        assert t.started + [] + [] == t.started;
      }
    }
  }
}
