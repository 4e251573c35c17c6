// The ThreadPool class in the shape of the source: take, runTask, runInThread and
// stop, each executed by one thread while all the others take the steps listed in
// the field plan, one burst per point where the thread can be preempted. Valid()
// says that the state is reached by a run of the protocol. A method that is still
// waiting when the plan ends reports Blocked.
module ThreadPoolClass {
  import opened ThreadPoolProtocol

  datatype TakeResult = Took(task: Task) | EmptyTask | Blocked

  class ThreadPool {
    const maxQueueSize: nat
    const threadNum: nat
    const clientNum: nat
    var taskQueue: seq<Task>
    var running: bool
    var mutex: Owner
    var workers: seq<Worker>
    var producers: seq<Producer>
    var phase: StopPhase
    var pushed: seq<Task>
    var taken: seq<Task>
    var done: seq<Task>
    var inline: seq<Task>
    var plan: seq<seq<Step>>
    var script: seq<seq<Task>>       // what the next tasks to be executed here pass to runTask
    ghost var trace: seq<Step>

    function View(): (s: Pool)
      reads this
    {
      Pool(maxQueueSize, taskQueue, running, mutex, workers, clientNum, producers, phase, pushed, taken, done, inline)
    }

    ghost predicate Valid()
      reads this
    {
      && 0 < maxQueueSize && Inv(View()) && NestInv(View()) && |workers| == threadNum
      && Path(Init(maxQueueSize, threadNum, clientNum), trace, View())
    }

    constructor (cap: nat, threads: nat, clients: nat, plan: seq<seq<Step>>, script: seq<seq<Task>>)
      requires cap > 0
      ensures Valid() && View() == Init(cap, threads, clients) && trace == []
    {
      maxQueueSize, threadNum, clientNum := cap, threads, clients;
      taskQueue, running, mutex, phase := [], true, Free, NotStopped;
      workers, producers := seq(threads, _ => AtLoop), seq(clients + threads, _ => Idle);
      pushed, taken, done, inline := [], [], [], [];
      this.plan, this.script := plan, script;
      trace := [];
      new;
      InitInv(cap, threads, clients);
    }

    // Notes that the fields have just taken step a from the state was.
    ghost method Record(was: Pool, a: Step)
      requires Inv(was) && NestInv(was) && was.cap == maxQueueSize && |was.workers| == threadNum && was.outside == clientNum
      requires Path(Init(maxQueueSize, threadNum, clientNum), trace, was)
      requires Enabled(was, a) && Next(was, a) == View()
      modifies this`trace
      ensures Valid() && trace == old(trace) + [a]
    {
      StepReaches(Init(maxQueueSize, threadNum, clientNum), trace, was, a);
      trace := trace + [a];
    }

    // One step of some other thread, as the plan has it: the environment of the
    // thread whose code is below.
    method Elsewhere(a: Step)
      requires Valid() && Enabled(View(), a)
      modifies this`taskQueue, this`running, this`mutex, this`workers, this`producers, this`phase
      modifies this`pushed, this`taken, this`done, this`inline, this`trace
      ensures Valid() && View() == Next(old(View()), a) && trace == old(trace) + [a]
    {
      ghost var was := View();
      StepReaches(Init(maxQueueSize, threadNum, clientNum), trace, was, a);
      Become(Next(View(), a));
      Record(was, a);
    }

    method Become(t: Pool)
      requires t.cap == maxQueueSize && t.outside == clientNum
      modifies this`taskQueue, this`running, this`mutex, this`workers, this`producers, this`phase
      modifies this`pushed, this`taken, this`done, this`inline
      ensures View() == t
    {
      taskQueue, running, mutex, workers := t.queue, t.running, t.mutex, t.workers;
      producers, phase, pushed, taken := t.producers, t.stop, t.pushed, t.taken;
      done, inline := t.done, t.inline;
    }

    // One step of the plan, unless it would be ours or cannot be taken now.
    method Turn(a: Step, who: Who)
      requires Valid()
      modifies this`taskQueue, this`running, this`mutex, this`workers, this`producers, this`phase
      modifies this`pushed, this`taken, this`done, this`inline, this`trace
      ensures Valid() && View() == OtherNext(old(View()), a, who)
    {
      if Enabled(View(), a) && !MadeBy(a, who) {
        Elsewhere(a);
      }
    }

    // All threads but worker me run for a while.
    method OthersThanWorker(me: nat)
      requires Valid() && me < threadNum
      modifies this
      ensures Valid() && KeepsWorker(old(View()), View(), me)
      ensures plan == (if old(plan) == [] then [] else old(plan)[1..]) && script == old(script)
      ensures View() == if old(plan) == [] then old(View()) else AfterBurst(old(View()), old(plan)[0], AWorker(me))
    {
      if plan != [] {
        var burst := plan[0];
        plan := plan[1..];
        for k := 0 to |burst|
          invariant Valid() && KeepsWorker(old(View()), View(), me)
          invariant plan == old(plan)[1..] && script == old(script)
          invariant AfterBurst(View(), burst[k..], AWorker(me)) == AfterBurst(old(View()), burst, AWorker(me))
        {
          var a := burst[k];
          assert burst[k..][1..] == burst[k + 1..];
          ghost var was := View();
          Turn(a, AWorker(me));
          OtherKeepsWorker(was, a, me);
          KeepsWorkerTrans(old(View()), was, View(), me);
        }
      }
    }

    // mutex_.lock() by worker me: wait until the mutex is free, then take it.
    method LockAsWorker(me: nat) returns (locked: bool)
      requires Valid() && me < threadNum && (workers[me] == WantLock || workers[me] == Signalled)
      modifies this
      ensures Valid() && (locked ==> workers[me] == HoldLock)
      ensures !locked ==> plan == [] && WorkerHeldUp(View(), me)
      ensures |plan| <= |old(plan)| && script == old(script)
      ensures old(mutex) == Free ==> locked
      ensures old(mutex) == Free || old(plan) == [] ==> taskQueue == old(taskQueue) && running == old(running)
    {
      while mutex != Free && plan != []
        invariant Valid() && (workers[me] == WantLock || workers[me] == Signalled)
        invariant |plan| <= |old(plan)| && script == old(script)
        invariant old(mutex) == Free || old(plan) == [] ==> View() == old(View())
        decreases |plan|
      {
        OthersThanWorker(me);
      }
      locked := mutex == Free;
      if locked {
        AcquireAsWorker(me);
      }
    }

    method AcquireAsWorker(me: nat)
      requires Valid() && me < threadNum && (workers[me] == WantLock || workers[me] == Signalled) && mutex == Free
      modifies this`workers, this`mutex, this`trace
      ensures Valid() && workers[me] == HoldLock
    {
      ghost var was := View();
      workers := workers[me := HoldLock];
      mutex := ByWorker(me);
      Record(was, WLock(me));
    }

    // The wait predicate was true.
    method DecideToWait(me: nat)
      requires Valid() && me < threadNum && workers[me] == HoldLock && taskQueue == [] && running
      modifies this`workers, this`trace
      ensures Valid() && workers[me] == Committed
    {
      ghost var was := View();
      workers := workers[me := Committed];
      Record(was, WCommit(me));
    }

    method ReleaseAndSleep(me: nat)
      requires Valid() && me < threadNum && workers[me] == Committed
      modifies this`workers, this`mutex, this`trace
      ensures Valid() && workers[me] == Asleep
    {
      ghost var was := View();
      workers := workers[me := Asleep];
      mutex := Free;
      Record(was, WSleep(me));
    }

    // The blocking part of notEmpty_.wait(lock): release, sleep, be notified.
    method SleepNotEmpty(me: nat) returns (woken: bool)
      requires Valid() && me < threadNum && workers[me] == HoldLock && taskQueue == [] && running
      modifies this
      ensures Valid() && (woken ==> workers[me] == Signalled)
      ensures !woken ==> plan == [] && workers[me] == Asleep
      ensures |plan| < |old(plan)| || (plan == [] && !woken)
      ensures script == old(script)
    {
      DecideToWait(me);
      OthersThanWorker(me);
      ReleaseAndSleep(me);
      woken := AwaitNotEmpty(me);
    }

    // Sleep until notified, or until the plan ends.
    method AwaitNotEmpty(me: nat) returns (woken: bool)
      requires Valid() && me < threadNum && workers[me] == Asleep
      modifies this
      ensures Valid() && workers[me] == (if woken then Signalled else Asleep) && script == old(script)
      ensures if woken then |plan| < |old(plan)| else plan == []
    {
      while workers[me] == Asleep && plan != []
        invariant Valid() && (workers[me] == Asleep || workers[me] == Signalled) && script == old(script)
        invariant |plan| < |old(plan)| || (|plan| == |old(plan)| && workers[me] == Asleep)
        decreases |plan|
      {
        OthersThanWorker(me);
      }
      woken := workers[me] != Asleep;
    }

    // notEmpty_.wait(lock), up to holding the mutex again.
    method WaitNotEmpty(me: nat) returns (locked: bool)
      requires Valid() && me < threadNum && workers[me] == HoldLock && taskQueue == [] && running
      modifies this
      ensures Valid() && (locked ==> workers[me] == HoldLock)
      ensures !locked ==> plan == [] && WorkerHeldUp(View(), me)
      ensures |plan| < |old(plan)| || (plan == [] && !locked)
      ensures script == old(script)
    {
      var woken := SleepNotEmpty(me);
      if !woken {
        return false;
      }
      locked := LockAsWorker(me);
    }

    method Take(me: nat) returns (r: TakeResult)
      requires Valid() && me < threadNum && workers[me] == WantLock
      modifies this
      ensures Valid()
      ensures r.Took? ==> producers[clientNum + me] == Idle
      ensures r.Took? ==> workers[me] == Running(r.task) && taken != [] && taken[|taken| - 1] == r.task
      ensures r.EmptyTask? ==> workers[me] == AtLoop && !running && taskQueue == []
      ensures r.Blocked? ==> plan == [] && WorkerHeldUp(View(), me)
      ensures old(mutex) == Free && old(taskQueue) != [] ==> r == Took(old(taskQueue)[0])
      ensures old(mutex) == Free && old(taskQueue) == [] && !old(running) ==> r == EmptyTask
      ensures |plan| <= |old(plan)| && script == old(script)
      ensures old(plan) == [] && r.Took? ==> [r.task] + taskQueue == old(taskQueue)
      ensures old(plan) == [] && r.EmptyTask? ==> !old(running)
    {
      var locked := LockAsWorker(me);
      if !locked {
        return Blocked;
      }
      var ready := AwaitTask(me);
      if !ready {
        return Blocked;
      }
      r := TakeLocked(me);
    }

    // The wait loop of take.
    method AwaitTask(me: nat) returns (ready: bool)
      requires Valid() && me < threadNum && workers[me] == HoldLock
      modifies this
      ensures Valid() && |plan| <= |old(plan)| && script == old(script)
      ensures ready ==> workers[me] == HoldLock && (taskQueue != [] || !running)
      ensures !ready ==> plan == [] && WorkerHeldUp(View(), me)
      ensures old(taskQueue) != [] || !old(running) ==> ready && View() == old(View())
      ensures old(plan) == [] && ready ==> View() == old(View())
    {
      ready := true;
      while ready && taskQueue == [] && running
        invariant Valid() && |plan| <= |old(plan)| && script == old(script)
        invariant ready ==> workers[me] == HoldLock
        invariant !ready ==> plan == [] && WorkerHeldUp(View(), me)
        invariant old(taskQueue) != [] || !old(running) ==> ready && View() == old(View())
        invariant old(plan) == [] && ready ==> View() == old(View())
        decreases ready, |plan|
      {
        ready := WaitNotEmpty(me);
      }
    }

    // After the wait loop of take: the front task, or none.
    method TakeLocked(me: nat) returns (r: TakeResult)
      requires Valid() && me < threadNum && workers[me] == HoldLock && (taskQueue != [] || !running)
      modifies this`taskQueue, this`taken, this`producers, this`workers, this`mutex, this`trace
      ensures Valid() && r == if old(taskQueue) == [] then EmptyTask else Took(old(taskQueue)[0])
      ensures r.Took? ==> producers[clientNum + me] == Idle
      ensures r.Took? ==> workers[me] == Running(r.task) && taken == old(taken) + [r.task]
      ensures r.Took? ==> [r.task] + taskQueue == old(taskQueue)
      ensures r.EmptyTask? ==> workers[me] == AtLoop && !running && taskQueue == []
    {
      if taskQueue != [] {
        var task := PopAndNotify(me);
        return Took(task);
      } else {
        GiveUp(me);
        return EmptyTask;
      }
    }

    // Unlock without a task.
    method GiveUp(me: nat)
      requires Valid() && me < threadNum && workers[me] == HoldLock && taskQueue == [] && !running
      modifies this`workers, this`mutex, this`trace
      ensures Valid() && workers[me] == AtLoop
    {
      ghost var was := View();
      workers := workers[me := AtLoop];
      mutex := Free;
      Record(was, WGiveUp(me));
    }

    // notFull_.notify_one: any one sleeping client, if there is one.
    method NotifyNotFull() returns (wake: Wake)
      modifies this`producers
      ensures WakesProducer(old(View()), wake) && producers == WakeProducer(old(producers), wake)
    {
      wake := NoOne;
      if j: nat :| j < |producers| && producers[j].PAsleep? {
        producers := producers[j := PSignalled(producers[j].task)];
        wake := Woke(j);
      }
    }

    // The end of take: front, pop, notify_one, unlock.
    method Pop(me: nat) returns (task: Task, wake: Wake)
      requires me < |workers| && workers[me] == HoldLock && taskQueue != []
      modifies this`taskQueue, this`taken, this`producers, this`workers, this`mutex
      ensures Enabled(old(View()), WTake(me, wake)) && View() == Next(old(View()), WTake(me, wake))
      ensures workers[me] == Running(task)
      ensures taken == old(taken) + [task] && [task] + taskQueue == old(taskQueue)
    {
      task := taskQueue[0];
      taskQueue := taskQueue[1..];
      taken := taken + [task];
      wake := NotifyNotFull();
      workers := workers[me := Running(task)];
      mutex := Free;
    }

    method PopAndNotify(me: nat) returns (task: Task)
      requires Valid() && me < threadNum && workers[me] == HoldLock && taskQueue != []
      modifies this`taskQueue, this`taken, this`producers, this`workers, this`mutex, this`trace
      ensures Valid() && workers[me] == Running(task) && producers[clientNum + me] == Idle
      ensures taken == old(taken) + [task] && [task] + taskQueue == old(taskQueue)
    {
      ghost var was := View();
      var wake;
      task, wake := Pop(me);
      Record(was, WTake(me, wake));
    }

    // One test of running_ in runInThread.
    method TestRunning(me: nat) returns (goOn: bool)
      requires Valid() && me < threadNum && workers[me] == AtLoop
      modifies this`workers, this`trace
      ensures Valid() && goOn == running && workers[me] == if goOn then WantLock else Exited
    {
      ghost var was := View();
      goOn := running;
      workers := workers[me := if goOn then WantLock else Exited];
      Record(was, WLoop(me));
    }

    // task(): a task may itself call runTask, any number of times.
    method Execute(me: nat, task: Task) returns (finished: bool)
      requires Valid() && me < threadNum && workers[me] == Running(task) && producers[clientNum + me] == Idle
      modifies this
      ensures Valid() && |plan| <= |old(plan)|
      ensures finished ==> workers[me] == AtLoop && done != [] && done[|done| - 1] == task
      ensures !finished ==> plan == [] && ClientHeldUp(View(), clientNum + me)
      ensures script == if old(script) == [] then [] else old(script)[1..]
      ensures old(script) == [] ==> taskQueue == old(taskQueue)
    {
      if script != [] {
        var calls := script[0];
        script := script[1..];
        var through := CallRunTask(me, task, calls);
        if !through {
          return false;
        }
      }
      FinishTask(me, task);
      return true;
    }

    method CallRunTask(me: nat, task: Task, calls: seq<Task>) returns (through: bool)
      requires Valid() && me < threadNum && workers[me] == Running(task) && producers[clientNum + me] == Idle
      modifies this
      ensures Valid() && |plan| <= |old(plan)|
      ensures through ==> workers[me] == Running(task) && producers[clientNum + me] == Idle
      ensures !through ==> plan == [] && ClientHeldUp(View(), clientNum + me)
      ensures script == old(script)
    {
      for k := 0 to |calls|
        invariant Valid() && workers[me] == Running(task) && producers[clientNum + me] == Idle
        invariant |plan| <= |old(plan)| && script == old(script)
      {
        if running {
          var ok := RunTask(clientNum + me, calls[k]);
          if !ok {
            return false;
          }
        }
      }
      return true;
    }

    method FinishTask(me: nat, task: Task)
      requires Valid() && me < threadNum && workers[me] == Running(task) && producers[clientNum + me] == Idle
      modifies this`workers, this`done, this`trace
      ensures Valid() && workers[me] == AtLoop && done == old(done) + [task]
    {
      ghost var was := View();
      done := done + [task];
      workers := workers[me := AtLoop];
      Record(was, WFinish(me));
    }

    // runInThread: take and execute until running_ is cleared. It comes to an end
    // otherwise only where the thread is held up and nobody else moves.
    method RunInThread(me: nat) returns (returned: bool)
      requires Valid() && me < threadNum && workers[me] == AtLoop
      modifies this
      ensures Valid() && (returned ==> workers[me] == Exited && !running)
      ensures !returned ==> plan == [] && (WorkerHeldUp(View(), me) || ClientHeldUp(View(), clientNum + me))
    {
      while true
        invariant Valid() && workers[me] == AtLoop
        decreases |plan|, |script|, |taskQueue|
      {
        OthersThanWorker(me);
        var goOn := TestRunning(me);
        if !goOn {
          return true;
        }
        var r := Take(me);
        match r {
          case Blocked => return false;
          case EmptyTask =>
          case Took(task) =>
            var finished := Execute(me, task);
            if !finished {
              return false;
            }
        }
      }
    }

    // All threads but client me run for a while.
    method OthersThanClient(me: nat)
      requires Valid() && me < |producers| && producers[me] != Idle
      modifies this
      ensures Valid() && KeepsClient(old(View()), View(), me)
      ensures plan == (if old(plan) == [] then [] else old(plan)[1..]) && script == old(script)
      ensures View() == if old(plan) == [] then old(View()) else AfterBurst(old(View()), old(plan)[0], AClient(me))
    {
      if plan != [] {
        var burst := plan[0];
        plan := plan[1..];
        for k := 0 to |burst|
          invariant Valid() && KeepsClient(old(View()), View(), me)
          invariant plan == old(plan)[1..] && script == old(script)
          invariant AfterBurst(View(), burst[k..], AClient(me)) == AfterBurst(old(View()), burst, AClient(me))
        {
          var a := burst[k];
          assert burst[k..][1..] == burst[k + 1..];
          ghost var was := View();
          Turn(a, AClient(me));
          OtherKeepsClient(was, a, me);
          KeepsClientTrans(old(View()), was, View(), me);
        }
      }
    }

    method LockAsClient(me: nat) returns (locked: bool)
      requires Valid() && me < |producers| && (producers[me].PWant? || producers[me].PSignalled?)
      modifies this
      ensures Valid() && (locked ==> producers[me] == PHold(old(producers[me].task)))
      ensures SameHost(old(View()), View(), me)
      ensures !locked ==> plan == [] && ClientHeldUp(View(), me)
      ensures |plan| <= |old(plan)| && script == old(script)
      ensures old(mutex) == Free ==> locked && taskQueue == old(taskQueue)
    {
      while mutex != Free && plan != []
        invariant Valid() && KeepsClient(old(View()), View(), me) && |plan| <= |old(plan)| && script == old(script)
        invariant old(mutex) == Free ==> View() == old(View())
        decreases |plan|
      {
        ghost var was := View();
        OthersThanClient(me);
        KeepsClientTrans(old(View()), was, View(), me);
      }
      locked := mutex == Free;
      if locked {
        AcquireAsClient(me);
      }
    }

    method AcquireAsClient(me: nat)
      requires Valid() && me < |producers| && (producers[me].PWant? || producers[me].PSignalled?) && mutex == Free
      modifies this`producers, this`mutex, this`trace
      ensures Valid() && producers[me] == PHold(old(producers[me].task))
    {
      ghost var was := View();
      producers := producers[me := PHold(producers[me].task)];
      mutex := ByProducer(me);
      Record(was, PLock(me));
    }

    method SleepAsClient(me: nat)
      requires Valid() && me < |producers| && producers[me].PHold? && |taskQueue| >= maxQueueSize
      modifies this`producers, this`mutex, this`trace
      ensures Valid() && producers[me] == PAsleep(old(producers[me].task))
      ensures SameHost(old(View()), View(), me)
    {
      ghost var was := View();
      producers := producers[me := PAsleep(producers[me].task)];
      mutex := Free;
      Record(was, PSleep(me));
    }

    // Sleep until notified, or until the plan ends.
    method AwaitNotFull(me: nat)
      requires Valid() && me < |producers| && producers[me].PAsleep?
      modifies this
      ensures Valid() && KeepsClient(old(View()), View(), me)
      ensures producers[me].PAsleep? ==> plan == []
      ensures producers[me].PSignalled? ==> |plan| < |old(plan)|
      ensures script == old(script)
    {
      while producers[me].PAsleep? && plan != []
        invariant Valid() && KeepsClient(old(View()), View(), me) && script == old(script)
        invariant |plan| < |old(plan)| || (|plan| == |old(plan)| && producers[me].PAsleep?)
        decreases |plan|
      {
        ghost var was := View();
        OthersThanClient(me);
        KeepsClientTrans(old(View()), was, View(), me);
      }
    }

    method WaitNotFull(me: nat) returns (locked: bool)
      requires Valid() && me < |producers| && producers[me].PHold? && |taskQueue| >= maxQueueSize
      modifies this
      ensures Valid() && (locked ==> producers[me] == old(producers[me]))
      ensures SameHost(old(View()), View(), me)
      ensures !locked ==> plan == [] && ClientHeldUp(View(), me)
      ensures |plan| < |old(plan)| || (plan == [] && !locked)
      ensures script == old(script)
    {
      SleepAsClient(me);
      ghost var asleep := View();
      AwaitNotFull(me);
      ghost var awake := View();
      SameHostTrans(old(View()), asleep, awake, me);
      if producers[me].PAsleep? {
        return false;
      }
      locked := LockAsClient(me);
      SameHostTrans(old(View()), awake, View(), me);
    }

    // runTask on client me: true when the task was queued, or executed in place by
    // a pool without threads.
    method RunTask(me: nat, task: Task) returns (ok: bool)
      requires Valid() && MayCall(View(), me) && running
      modifies this
      ensures Valid() && SameHost(old(View()), View(), me) && |plan| <= |old(plan)|
      ensures threadNum == 0 ==> ok && inline == old(inline) + [task]
      ensures threadNum > 0 && ok ==> producers[me] == Idle && pushed != [] && pushed[|pushed| - 1] == task
      ensures threadNum > 0 && ok ==> taskQueue != [] && taskQueue[|taskQueue| - 1] == task
      ensures !ok ==> plan == [] && ClientHeldUp(View(), me)
      ensures threadNum > 0 && old(mutex) == Free && |old(taskQueue)| < maxQueueSize ==>
                ok && taskQueue == old(taskQueue) + [task]
      ensures script == old(script)
    {
      if threadNum == 0 {
        RunInline(me, task);
        return true;
      }
      ok := EnterWithRoom(me, task);
      if ok {
        ghost var found := View();
        PushAndNotify(me);
        SameHostTrans(old(View()), found, View(), me);
      }
    }

    // runTask up to its push.
    method EnterWithRoom(me: nat, task: Task) returns (ready: bool)
      requires Valid() && threadNum > 0 && MayCall(View(), me) && running
      modifies this
      ensures Valid() && SameHost(old(View()), View(), me) && |plan| <= |old(plan)| && script == old(script)
      ensures ready ==> me < |producers| && producers[me] == PHold(task) && |taskQueue| < maxQueueSize
      ensures !ready ==> plan == [] && ClientHeldUp(View(), me)
      ensures old(mutex) == Free && |old(taskQueue)| < maxQueueSize ==> ready && taskQueue == old(taskQueue)
    {
      EnterRunTask(me, task);
      ghost var entered := View();
      ready := LockWithRoom(me);
      SameHostTrans(old(View()), entered, View(), me);
    }

    method RunInline(me: nat, task: Task)
      requires Valid() && threadNum == 0 && MayCall(View(), me) && running
      modifies this`inline, this`trace
      ensures Valid() && inline == old(inline) + [task]
    {
      ghost var was := View();
      inline := inline + [task];
      Record(was, PInline(me, task));
    }

    // Lock the mutex and wait until there is room.
    method LockWithRoom(me: nat) returns (ready: bool)
      requires Valid() && me < |producers| && producers[me].PWant?
      modifies this
      ensures Valid() && SameHost(old(View()), View(), me) && |plan| <= |old(plan)| && script == old(script)
      ensures ready ==> producers[me] == PHold(old(producers[me].task)) && |taskQueue| < maxQueueSize
      ensures !ready ==> plan == [] && ClientHeldUp(View(), me)
      ensures old(mutex) == Free && |old(taskQueue)| < maxQueueSize ==> ready && taskQueue == old(taskQueue)
    {
      ready := LockAsClient(me);
      if ready {
        ghost var held := View();
        ready := AwaitRoom(me);
        SameHostTrans(old(View()), held, View(), me);
      }
    }

    // The wait loop of runTask.
    method AwaitRoom(me: nat) returns (ready: bool)
      requires Valid() && me < |producers| && producers[me].PHold?
      modifies this
      ensures Valid() && SameHost(old(View()), View(), me) && |plan| <= |old(plan)| && script == old(script)
      ensures ready ==> producers[me] == old(producers[me]) && |taskQueue| < maxQueueSize
      ensures !ready ==> plan == [] && ClientHeldUp(View(), me)
      ensures |old(taskQueue)| < maxQueueSize ==> ready && View() == old(View())
    {
      ready := true;
      while ready && |taskQueue| >= maxQueueSize
        invariant Valid() && SameHost(old(View()), View(), me) && |plan| <= |old(plan)| && script == old(script)
        invariant me < |producers| && (ready ==> producers[me] == old(producers[me]))
        invariant !ready ==> plan == [] && ClientHeldUp(View(), me)
        invariant |old(taskQueue)| < maxQueueSize ==> ready && View() == old(View())
        decreases ready, |plan|
      {
        ghost var was := View();
        ready := WaitNotFull(me);
        SameHostTrans(old(View()), was, View(), me);
      }
    }

    method EnterRunTask(me: nat, task: Task)
      requires Valid() && threadNum > 0 && MayCall(View(), me) && running
      modifies this`producers, this`trace
      ensures Valid() && producers[me] == PWant(task)
    {
      ghost var was := View();
      producers := producers[me := PWant(task)];
      Record(was, PCall(me, task));
    }

    // notEmpty_.notify_one: any one sleeping worker, if there is one.
    method NotifyNotEmpty() returns (wake: Wake)
      modifies this`workers
      ensures WakesWorker(old(View()), wake) && workers == WakeWorker(old(workers), wake)
    {
      wake := NoOne;
      if i: nat :| i < |workers| && workers[i] == Asleep {
        workers := workers[i := Signalled];
        wake := Woke(i);
      }
    }

    // The end of runTask: push, notify_one, unlock.
    method Push(me: nat) returns (wake: Wake)
      requires me < |producers| && producers[me].PHold? && |taskQueue| < maxQueueSize
      modifies this`taskQueue, this`pushed, this`workers, this`producers, this`mutex
      ensures Enabled(old(View()), PPush(me, wake)) && View() == Next(old(View()), PPush(me, wake))
    {
      var task := producers[me].task;
      taskQueue := taskQueue + [task];
      pushed := pushed + [task];
      wake := NotifyNotEmpty();
      producers := producers[me := Idle];
      mutex := Free;
    }

    method PushAndNotify(me: nat)
      requires Valid() && me < |producers| && producers[me].PHold? && |taskQueue| < maxQueueSize
      modifies this`taskQueue, this`pushed, this`workers, this`producers, this`mutex, this`trace
      ensures Valid() && producers[me] == Idle
      ensures pushed == old(pushed) + [old(producers[me].task)]
      ensures taskQueue == old(taskQueue) + [old(producers[me].task)]
      ensures SameHost(old(View()), View(), me)
    {
      ghost var was := View();
      var wake := Push(me);
      Record(was, PPush(me, wake));
    }

    // All threads but the one in stop() run for a while.
    method OthersThanStopper()
      requires Valid()
      modifies this
      ensures Valid() && phase == old(phase) && KeepsExited(old(workers), workers)
      ensures plan == (if old(plan) == [] then [] else old(plan)[1..]) && script == old(script)
      ensures View() == if old(plan) == [] then old(View()) else AfterBurst(old(View()), old(plan)[0], AStopper)
    {
      if plan != [] {
        var burst := plan[0];
        plan := plan[1..];
        for k := 0 to |burst|
          invariant Valid() && phase == old(phase) && plan == old(plan)[1..]
          invariant KeepsExited(old(workers), workers) && script == old(script)
          invariant AfterBurst(View(), burst[k..], AStopper) == AfterBurst(old(View()), burst, AStopper)
        {
          var a := burst[k];
          assert burst[k..][1..] == burst[k + 1..];
          ghost var was := View();
          Turn(a, AStopper);
          StaysExited(was, a);
        }
      }
    }

    // notEmpty_.notify_all, one worker after the other.
    method NotifyAllWorkers()
      modifies this`workers
      ensures workers == NotifyAll(old(workers))
    {
      for i := 0 to |workers|
        invariant |workers| == |old(workers)|
        invariant forall k :: 0 <= k < i ==> workers[k] == NotifyAll(old(workers))[k]
        invariant forall k :: i <= k < |workers| ==> workers[k] == old(workers)[k]
      {
        if workers[i] == Asleep {
          workers := workers[i := Signalled];
        }
      }
    }

    // The critical section of stop().
    method NotifyUnderLock()
      requires Valid() && phase == Cleared && mutex == Free
      modifies this`workers, this`phase, this`trace
      ensures Valid() && phase == Notified
      ensures forall i :: 0 <= i < |workers| ==> workers[i] != Asleep
    {
      ghost var was := View();
      NotifyAllWorkers();
      phase := Notified;
      Record(was, StopNotify);
    }

    // thread->join() for every thread in turn.
    method JoinAll() returns (joined: bool)
      requires Valid() && phase == Notified
      modifies this
      ensures Valid() && (joined ==> phase == Joined && ExitedUpTo(workers, |workers|))
      ensures !joined ==> plan == [] && phase == Notified && !ExitedUpTo(workers, |workers|)
    {
      for t := 0 to threadNum
        invariant Valid() && phase == Notified && ExitedUpTo(workers, t)
      {
        var exited := JoinOne(t);
        if !exited {
          return false;
        }
      }
      Return();
      return true;
    }

    method Return()
      requires Valid() && phase == Notified && ExitedUpTo(workers, |workers|)
      modifies this`phase, this`trace
      ensures Valid() && phase == Joined
    {
      ghost var was := View();
      phase := Joined;
      Record(was, StopJoin);
    }

    method JoinOne(t: nat) returns (exited: bool)
      requires Valid() && phase == Notified && t < threadNum && ExitedUpTo(workers, t)
      modifies this
      ensures Valid() && phase == Notified
      ensures exited ==> ExitedUpTo(workers, t + 1)
      ensures !exited ==> plan == [] && workers[t] != Exited
    {
      while workers[t] != Exited && plan != []
        invariant Valid() && phase == Notified && ExitedUpTo(workers, t)
        decreases |plan|
      {
        OthersThanStopper();
      }
      exited := workers[t] == Exited;
    }

    // stop(): clear running_, notify_all under the mutex, join every thread.
    method Stop() returns (returned: bool)
      requires Valid() && running
      modifies this
      ensures Valid() && !running
      ensures returned ==> phase == Joined && ExitedUpTo(workers, |workers|)
      ensures !returned ==> plan == [] && ((phase == Cleared && mutex != Free)
                                           || (phase == Notified && !ExitedUpTo(workers, |workers|)))
    {
      ghost var was := View();
      running, phase := false, Cleared;
      Record(was, StopClear);
      OthersThanStopper();
      while mutex != Free && plan != []
        invariant Valid() && phase == Cleared
        decreases |plan|
      {
        OthersThanStopper();
      }
      if mutex != Free {
        return false;
      }
      NotifyUnderLock();
      returned := JoinAll();
    }
  }

  lemma StepReaches(origin: Pool, trace: seq<Step>, s: Pool, a: Step)
    requires Inv(s) && NestInv(s) && Enabled(s, a) && Path(origin, trace, s)
    ensures Inv(Next(s, a)) && NestInv(Next(s, a)) && Path(origin, trace + [a], Next(s, a))
    ensures Next(s, a).cap == s.cap && Next(s, a).outside == s.outside
    ensures |Next(s, a).workers| == |s.workers| && |Next(s, a).producers| == |s.producers|
  {
    StepInv(s, a);
    NestStep(s, a);
    PathExtend(origin, trace, s, a);
  }

  // ---- what the other threads cannot do to me ----

  // The thread whose code is being executed.
  datatype Who = AWorker(i: nat) | AClient(j: nat) | AStopper

  predicate MadeBy(a: Step, who: Who) {
    match a
    case WLoop(i) => who == AWorker(i)
    case WLock(i) => who == AWorker(i)
    case WTake(i, _) => who == AWorker(i)
    case WGiveUp(i) => who == AWorker(i)
    case WCommit(i) => who == AWorker(i)
    case WSleep(i) => who == AWorker(i)
    case WFinish(i) => who == AWorker(i)
    case PCall(j, _) => who == AClient(j)
    case PInline(j, _) => who == AClient(j)
    case PLock(j) => who == AClient(j)
    case PSleep(j) => who == AClient(j)
    case PPush(j, _) => who == AClient(j)
    case StopClear => who == AStopper
    case StopNotify => who == AStopper
    case StopJoin => who == AStopper
    case _ => false
  }

  // What a burst of the plan does: every step in it that some other thread can
  // take when its turn comes.
  function AfterBurst(s: Pool, burst: seq<Step>, who: Who): (t: Pool)
    decreases |burst|
  {
    if burst == [] then s else AfterBurst(OtherNext(s, burst[0], who), burst[1..], who)
  }

  function OtherNext(s: Pool, a: Step, who: Who): (t: Pool) {
    if Enabled(s, a) && !MadeBy(a, who) then Next(s, a) else s
  }

  // Held up: asleep without a notification, or waiting for a mutex that is taken.
  predicate WorkerHeldUp(s: Pool, me: nat) {
    me < |s.workers| &&
    (s.workers[me] == Asleep || ((s.workers[me] == WantLock || s.workers[me] == Signalled) && s.mutex != Free))
  }

  predicate ClientHeldUp(s: Pool, me: nat) {
    me < |s.producers| &&
    (s.producers[me].PAsleep? || ((s.producers[me].PWant? || s.producers[me].PSignalled?) && s.mutex != Free))
  }

  // Worker me is where it was, except that a sleeper may have been woken.
  predicate KeepsWorker(s: Pool, t: Pool, me: nat) {
    && me < |s.workers| == |t.workers|
    && (t.workers[me] == s.workers[me] || (s.workers[me] == Asleep && t.workers[me] == Signalled))
  }

  // The worker in whose task the call is made is where it was.
  predicate SameHost(s: Pool, t: Pool, me: nat) {
    me >= s.outside && me - s.outside < |s.workers| ==>
      |t.workers| == |s.workers| && t.workers[me - s.outside] == s.workers[me - s.outside]
  }

  lemma SameHostTrans(s: Pool, t: Pool, u: Pool, me: nat)
    requires SameHost(s, t, me) && SameHost(t, u, me) && t.outside == s.outside && |t.workers| == |s.workers|
    ensures SameHost(s, u, me)
  {
  }

  predicate KeepsClient(s: Pool, t: Pool, me: nat) {
    && me < |s.producers| == |t.producers| && t.outside == s.outside && SameHost(s, t, me)
    && (t.producers[me] == s.producers[me]
        || (s.producers[me].PAsleep? && t.producers[me] == PSignalled(s.producers[me].task)))
  }

  lemma OtherKeepsWorker(s: Pool, a: Step, me: nat)
    requires me < |s.workers|
    ensures KeepsWorker(s, OtherNext(s, a, AWorker(me)), me)
  {
  }

  lemma KeepsWorkerTrans(s: Pool, t: Pool, u: Pool, me: nat)
    requires KeepsWorker(s, t, me) && KeepsWorker(t, u, me)
    ensures KeepsWorker(s, u, me)
  {
  }

  lemma KeepsClientTrans(s: Pool, t: Pool, u: Pool, me: nat)
    requires KeepsClient(s, t, me) && KeepsClient(t, u, me)
    ensures KeepsClient(s, u, me)
  {
  }

  lemma OtherKeepsClient(s: Pool, a: Step, me: nat)
    requires NestInv(s) && me < |s.producers| && s.producers[me] != Idle
    ensures KeepsClient(s, OtherNext(s, a, AClient(me)), me)
  {
    OtherKeepsHost(s, a, me);
  }

  lemma OtherKeepsHost(s: Pool, a: Step, me: nat)
    requires NestInv(s) && me < |s.producers| && s.producers[me] != Idle
    ensures SameHost(s, OtherNext(s, a, AClient(me)), me)
  {
    if me >= s.outside {
      assert s.workers[me - s.outside].Running?;
    }
  }

  predicate ExitedUpTo(ws: seq<Worker>, n: nat) {
    n <= |ws| && forall i :: 0 <= i < n ==> ws[i] == Exited
  }

  predicate KeepsExited(ws: seq<Worker>, vs: seq<Worker>) {
    |ws| == |vs| && forall i :: 0 <= i < |ws| && ws[i] == Exited ==> vs[i] == Exited
  }

  lemma StaysExited(s: Pool, a: Step)
    ensures KeepsExited(s.workers, OtherNext(s, a, AStopper).workers) && OtherNext(s, a, AStopper).stop == s.stop
  {
  }
}
