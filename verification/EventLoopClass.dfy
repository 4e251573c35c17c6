// The EventLoop class in the shape of the source. Between any two atomic steps
// of the loop thread the other threads may act; what they do is the field plan,
// one burst per gap, and what user code does is the field script. Valid() says
// that the current state is reached by a run of the protocol, so everything
// proved about runs holds after every line below, for every plan and script; and
// that no wakeup is lost.
module EventLoopClass {
  import opened EventLoopProtocol

  // What a channel handler or a task asks of the loop on the loop thread.
  datatype UserAct = QueueTask | AskQuit

  function Queued(acts: seq<UserAct>): (n: nat) {
    if acts == [] then 0 else (if acts[0] == QueueTask then 1 else 0) + Queued(acts[1..])
  }

  // What a step of the plan does: a step of another thread, if it can take it.
  function ClientNext(s: Loop, a: Step): (t: Loop) {
    if (a.CPush? || a.CWake? || a.CQuit?) && Enabled(s, a) then Next(s, a) else s
  }

  function AfterBurst(s: Loop, burst: seq<Step>): (t: Loop)
    decreases |burst|
  {
    if burst == [] then s else AfterBurst(ClientNext(s, burst[0]), burst[1..])
  }

  class EventLoop {
    var quit: bool
    var doingPendingTasks: bool
    var pendingTasks: seq<Task>
    var wakeupfd: nat
    var clients: seq<Client>
    var loopSent: nat
    var plan: seq<seq<Step>>
    var script: seq<seq<UserAct>>
    ghost var pc: Pc
    ghost var batch: seq<Task>
    ghost var reported: bool
    ghost var loopMustWake: bool
    ghost var started: seq<Task>
    ghost var queued: seq<Task>
    ghost var trace: seq<Step>

    ghost const threads: nat

    ghost function View(): (s: Loop)
      reads this
    {
      Loop(pc, quit, doingPendingTasks, pendingTasks, batch, wakeupfd, reported, loopMustWake,
           clients, loopSent, started, queued)
    }

    ghost predicate Valid()
      reads this
    {
      ShapeInv(View()) && WakeInv(View()) && Path(Init(threads), trace, View())
    }

    constructor (n: nat, plan: seq<seq<Step>>, script: seq<seq<UserAct>>)
      ensures Valid() && View() == Init(n) && threads == n && trace == []
    {
      quit, doingPendingTasks, pendingTasks, wakeupfd := false, false, [], 0;
      clients := seq(n, _ => Client(0, false));
      loopSent := 0;
      this.plan, this.script := plan, script;
      pc, batch, reported, loopMustWake, started, queued := NotStarted, [], false, false, [], [];
      trace := [];
      threads := n;
    }

    // Notes that the fields have just taken step a from the state was.
    ghost method Record(was: Loop, a: Step)
      requires ShapeInv(was) && WakeInv(was) && Path(Init(threads), trace, was)
      requires Enabled(was, a) && Next(was, a) == View() && !a.EarlyPush?
      modifies this`trace
      ensures Valid() && trace == old(trace) + [a]
      ensures Returned() == old(Returned()) + if a.PollReturn? then 1 else 0
    {
      PollsAppend(trace, a);
      PathExtend(Init(threads), trace, was, a);
      ShapeStep(was, a);
      WakeStep(was, a);
      trace := trace + [a];
    }

    // How often epoll_wait has returned.
    ghost function Returned(): (n: nat)
      reads this
    {
      Polls(trace)
    }

    // What the loop thread owns: other threads do not touch it.
    ghost function Own(): (o: (Pc, bool, seq<Task>, bool, bool, seq<Task>, nat, nat))
      reads this
    {
      (pc, doingPendingTasks, batch, reported, loopMustWake, started, loopSent, Returned())
    }

    // queueInLoop on another thread, up to its eventfd write.
    method Push(f: nat)
      requires Enabled(View(), CPush(f))
      modifies this`pendingTasks, this`clients, this`queued
      ensures View() == Next(old(View()), CPush(f))
    {
      var task := Task(f + 1, clients[f].sent);
      pendingTasks := pendingTasks + [task];
      queued := queued + [task];
      clients := clients[f := Client(clients[f].sent + 1, true)];
    }

    method ClientPush(f: nat)
      requires Valid() && Enabled(View(), CPush(f))
      modifies this`pendingTasks, this`clients, this`queued, this`trace
      ensures Valid() && View() == Next(old(View()), CPush(f)) && Returned() == old(Returned())
      ensures queued == old(queued) + [Task(f + 1, old(clients[f].sent))]
      ensures pendingTasks == old(pendingTasks) + [Task(f + 1, old(clients[f].sent))]
    {
      ghost var was := View();
      Push(f);
      Record(was, CPush(f));
    }

    // wakeup() on another thread.
    method ClientWake(f: nat)
      requires Valid() && Enabled(View(), CWake(f))
      modifies this`wakeupfd, this`clients, this`trace
      ensures Valid() && View() == Next(old(View()), CWake(f)) && Returned() == old(Returned())
      ensures wakeupfd == old(wakeupfd) + 1
    {
      ghost var was := View();
      wakeupfd := wakeupfd + 1;
      clients := clients[f := clients[f].(mustWake := false)];
      Record(was, CWake(f));
    }

    // quit() on another thread, up to its eventfd write.
    method ClientQuit(f: nat)
      requires Valid() && Enabled(View(), CQuit(f))
      modifies this`quit, this`clients, this`trace
      ensures Valid() && View() == Next(old(View()), CQuit(f)) && Returned() == old(Returned()) && quit
    {
      ghost var was := View();
      quit := true;
      clients := clients[f := clients[f].(mustWake := true)];
      Record(was, CQuit(f));
    }

    // One step of another thread, if it can take it now.
    method ClientStep(a: Step)
      requires Valid()
      modifies this`quit, this`pendingTasks, this`wakeupfd, this`clients, this`queued, this`trace
      ensures Valid() && Own() == old(Own())
      ensures old(quit) ==> quit
      ensures old(queued) <= queued
      ensures View() == ClientNext(old(View()), a)
    {
      match a {
        case CPush(f) =>
          if f < |clients| && !clients[f].mustWake {
            ClientPush(f);
          }
        case CWake(f) =>
          if f < |clients| && clients[f].mustWake {
            ClientWake(f);
          }
        case CQuit(f) =>
          if f < |clients| && !clients[f].mustWake && !quit {
            ClientQuit(f);
          }
        case _ =>
      }
    }

    // The other threads run for a while.
    method Interfere()
      requires Valid()
      modifies this`quit, this`pendingTasks, this`wakeupfd, this`clients, this`queued, this`trace, this`plan
      ensures Valid() && Own() == old(Own())
      ensures old(quit) ==> quit
      ensures old(queued) <= queued
      ensures plan == if old(plan) == [] then [] else old(plan)[1..]
      ensures View() == if old(plan) == [] then old(View()) else AfterBurst(old(View()), old(plan)[0])
    {
      if plan != [] {
        var burst := plan[0];
        plan := plan[1..];
        for i := 0 to |burst|
          invariant Valid() && Own() == old(Own())
          invariant old(quit) ==> quit
          invariant old(queued) <= queued
          invariant plan == old(plan)[1..]
          invariant AfterBurst(View(), burst[i..]) == AfterBurst(old(View()), burst)
        {
          ClientStep(burst[i]);
          assert burst[i..][1..] == burst[i + 1..];
        }
      }
    }

    // The critical section of queueInLoop on the loop thread.
    method PushTask()
      requires Valid() && InUserCode(View())
      modifies this`pendingTasks, this`queued, this`loopSent, this`loopMustWake, this`trace
      ensures Valid() && loopMustWake == doingPendingTasks
      ensures queued == old(queued) + [Task(0, old(loopSent))] && loopSent == old(loopSent) + 1
      ensures Returned() == old(Returned())
    {
      ghost var was := View();
      var task := Task(0, loopSent);
      pendingTasks := pendingTasks + [task];
      queued := queued + [task];
      loopSent := loopSent + 1;
      loopMustWake := doingPendingTasks;
      Record(was, LPush);
    }

    // queueInLoop on the loop thread.
    method QueueInLoop()
      requires Valid() && InUserCode(View())
      modifies this
      ensures Valid() && InUserCode(View())
      ensures pc == old(pc) && batch == old(batch) && reported == old(reported) && started == old(started)
      ensures old(quit) ==> quit
      ensures old(queued) + [Task(0, old(loopSent))] <= queued && loopSent == old(loopSent) + 1
      ensures Returned() == old(Returned()) && script == old(script)
    {
      PushTask();
      Interfere();
      if doingPendingTasks {
        Wakeup();
      }
      Interfere();
    }

    method Wakeup()
      requires Valid() && loopMustWake
      modifies this`wakeupfd, this`loopMustWake, this`trace
      ensures Valid() && !loopMustWake && Returned() == old(Returned()) && wakeupfd == old(wakeupfd) + 1
    {
      ghost var was := View();
      wakeupfd := wakeupfd + 1;
      loopMustWake := false;
      Record(was, LWake);
    }

    // quit() on the loop thread.
    method Quit()
      requires Valid() && InUserCode(View()) && !quit
      modifies this`quit, this`trace
      ensures Valid() && quit && Returned() == old(Returned())
    {
      ghost var was := View();
      quit := true;
      Record(was, LQuit);
    }

    // A handler or a task: any sequence of queueInLoop and quit calls.
    method UserCode()
      requires Valid() && InUserCode(View())
      modifies this
      ensures Valid() && InUserCode(View())
      ensures pc == old(pc) && batch == old(batch) && reported == old(reported) && started == old(started)
      ensures old(quit) ==> quit
      ensures Returned() == old(Returned())
      ensures var acts := if old(script) == [] then [] else old(script)[0];
              && loopSent == old(loopSent) + Queued(acts) && (AskQuit in acts ==> quit)
              && script == if old(script) == [] then [] else old(script)[1..]
    {
      if script != [] {
        var acts := script[0];
        script := script[1..];
        for i := 0 to |acts|
          invariant Valid() && InUserCode(View())
          invariant pc == old(pc) && batch == old(batch) && reported == old(reported) && started == old(started)
          invariant old(quit) ==> quit
          invariant Returned() == old(Returned()) && script == old(script)[1..]
          invariant loopSent + Queued(acts[i..]) == old(loopSent) + Queued(acts) && (AskQuit in acts[..i] ==> quit)
        {
          assert acts[i..][1..] == acts[i + 1..] && acts[..i + 1] == acts[..i] + [acts[i]];
          Do(acts[i]);
        }
      }
    }

    method Do(act: UserAct)
      requires Valid() && InUserCode(View())
      modifies this
      ensures Valid() && InUserCode(View())
      ensures pc == old(pc) && batch == old(batch) && reported == old(reported) && started == old(started)
      ensures old(quit) || act == AskQuit ==> quit
      ensures Returned() == old(Returned()) && script == old(script)
      ensures loopSent == old(loopSent) + if act == QueueTask then 1 else 0
    {
      if act == QueueTask {
        QueueInLoop();
      } else if !quit {
        Quit();
      }
    }

    // EventLoop::handleRead: the counter is read and reset.
    method HandleRead()
      requires Valid() && pc == Handling && reported
      modifies this`wakeupfd, this`reported, this`trace
      ensures Valid() && !reported && wakeupfd == 0 && Returned() == old(Returned())
    {
      ghost var was := View();
      wakeupfd := 0;
      reported := false;
      Record(was, Drain);
    }

    // Exactly the tasks queued before the swap are executed, in order, whatever
    // they queue themselves.
    method DoPendingTasks()
      requires Valid() && pc == Handling && !reported
      modifies this
      ensures Valid() && pc == Check
      ensures started == old(started) + old(pendingTasks)
      ensures old(quit) ==> quit
      ensures Returned() == old(Returned())
    {
      var tasks := SwapTasks();
      Interfere();
      for i := 0 to |tasks|
        invariant Valid() && pc == Batch && batch == tasks[i..] && started == old(started) + tasks[..i]
        invariant old(quit) ==> quit
        invariant Returned() == old(Returned())
      {
        ExecuteTask(tasks[i]);
        assert tasks[i..][1..] == tasks[i + 1..] && tasks[..i] + [tasks[i]] == tasks[..i + 1];
      }
      assert tasks[..|tasks|] == tasks;
      FinishBatch();
      Interfere();
    }

    // The swap under the lock.
    method SwapTasks() returns (tasks: seq<Task>)
      requires Valid() && pc == Handling && !reported
      modifies this`pendingTasks, this`batch, this`doingPendingTasks, this`pc, this`trace
      ensures Valid() && pc == Batch && tasks == old(pendingTasks) == batch && Returned() == old(Returned())
    {
      ghost var was := View();
      tasks := pendingTasks;
      pendingTasks := [];
      batch := tasks;
      doingPendingTasks := true;
      pc := Batch;
      Record(was, Swap);
    }

    method FinishBatch()
      requires Valid() && pc == Batch && batch == []
      modifies this`doingPendingTasks, this`pc, this`trace
      ensures Valid() && pc == Check && Returned() == old(Returned())
    {
      ghost var was := View();
      doingPendingTasks := false;
      pc := Check;
      Record(was, BatchEnd);
    }

    method ExecuteTask(task: Task)
      requires Valid() && pc == Batch && batch != [] && batch[0] == task
      modifies this
      ensures Valid() && pc == Batch && batch == old(batch)[1..] && started == old(started) + [task]
      ensures Returned() == old(Returned())
      ensures old(quit) ==> quit
    {
      ghost var was := View();
      batch := batch[1..];
      started := started + [task];
      pc := InTask;
      Record(was, TaskStart);
      UserCode();
      ghost var last := View();
      pc := Batch;
      Record(last, TaskEnd);
      Interfere();
    }

    // One iteration of the while loop in loop(), from epoll_wait on.
    method Iterate(reportWakeup: bool)
      requires Valid() && pc == Polling
      modifies this
      ensures Valid() && pc == Check && Returned() == old(Returned()) + 1
      ensures old(quit) ==> quit
    {
      Interfere();
      var sees := Poll(reportWakeup);
      UserCode();
      if sees {
        HandleRead();
      }
      UserCode();
      DoPendingTasks();
    }

    // epoll_wait returns.
    method Poll(reportWakeup: bool) returns (sees: bool)
      requires Valid() && pc == Polling
      modifies this`reported, this`pc, this`trace
      ensures Valid() && pc == Handling && reported == sees == (reportWakeup && wakeupfd > 0)
      ensures Returned() == old(Returned()) + 1
    {
      ghost var was := View();
      sees := reportWakeup && wakeupfd > 0;
      reported := sees;
      pc := Handling;
      Record(was, PollReturn(sees));
    }

    method TestQuitFlag() returns (leave: bool)
      requires Valid() && pc == Check
      modifies this`pc, this`trace
      ensures Valid() && leave == quit && Returned() == old(Returned())
      ensures pc == if leave then Exited else Polling
    {
      ghost var was := View();
      leave := quit;
      pc := if leave then Exited else Polling;
      Record(was, TestQuit);
    }

    // loop() begins.
    method ClearQuit()
      requires Valid() && pc == NotStarted
      modifies this`quit, this`pc, this`trace
      ensures Valid() && pc == Check && !quit && Returned() == old(Returned())
    {
      ghost var was := View();
      quit := false;
      pc := Check;
      Record(was, Start);
    }

    // loop(), for as many iterations as reports has entries: each says whether
    // epoll_wait reports the wakeup descriptor if it is readable.
    method RunLoop(reports: seq<bool>) returns (left: bool)
      requires Valid() && pc == NotStarted
      modifies this
      ensures Valid() && (left ==> pc == Exited && quit) && (!left ==> pc == Polling)
      ensures !left && (pendingTasks != [] || quit) ==> wakeupfd > 0 || SomeMustWake(View())
      ensures Returned() <= old(Returned()) + |reports| && (!left ==> Returned() == old(Returned()) + |reports|)
    {
      ClearQuit();
      Interfere();
      left := TestQuitFlag();
      var i := 0;
      while !left && i < |reports|
        invariant Valid() && (left ==> pc == Exited && quit) && (!left ==> pc == Polling)
        invariant i <= |reports| && Returned() == old(Returned()) + i
        decreases |reports| - i
      {
        Iterate(reports[i]);
        left := TestQuitFlag();
        i := i + 1;
      }
    }
  }
}
