// The bounded blocking pool as a protocol: every lock acquisition, predicate
// test, wait, notify and unlock of the workers, of the client threads and of
// stop() is one atomic step, and any enabled thread may take the next one.
module ThreadPoolProtocol {
  import opened Totals

  type Task = nat

  datatype Worker =
    | AtLoop                // about to test running_ in runInThread
    | WantLock              // entering take
    | HoldLock              // owns mutex_, about to test the wait predicate
    | Committed             // saw an empty queue and running_; still owns mutex_
    | Asleep                // blocked in notEmpty_.wait, not notified
    | Signalled             // notified, waiting for mutex_
    | Running(task: Task)   // executing a task outside the lock
    | Exited

  datatype Producer =
    | Idle
    | PWant(task: Task)
    | PHold(task: Task)
    | PAsleep(task: Task)   // blocked in notFull_.wait, not notified
    | PSignalled(task: Task)

  datatype Owner = Free | ByWorker(i: nat) | ByProducer(j: nat)

  datatype StopPhase = NotStopped | Cleared | Notified | Joined

  // Whom a notify_one woke, if anybody was asleep.
  datatype Wake = NoOne | Woke(id: nat)

  datatype Pool = Pool(
    cap: nat,                  // maxQueueSize_
    queue: seq<Task>,
    running: bool,
    mutex: Owner,
    workers: seq<Worker>,
    outside: nat,              // the first clients are threads outside the pool; after
    producers: seq<Producer>,  // them comes each worker, as a caller in its own task
    stop: StopPhase,
    pushed: seq<Task>,         // history: every task ever put in the queue
    taken: seq<Task>,          // history: every task ever taken out of it
    done: seq<Task>,           // history: every task whose execution ended
    inline: seq<Task>)         // history: tasks a pool without threads ran in runTask itself

  datatype Step =
    | WLoop(i: nat) | WLock(i: nat) | WTake(i: nat, wake: Wake) | WGiveUp(i: nat)
    | WCommit(i: nat) | WSleep(i: nat) | WFinish(i: nat) | WSpurious(i: nat)
    | PCall(j: nat, task: Task) | PInline(j: nat, task: Task) | PLock(j: nat) | PSleep(j: nat) | PPush(j: nat, wake: Wake)
    | PSpurious(j: nat)
    | StopClear | StopNotify | StopJoin

  function Init(cap: nat, threads: nat, clients: nat): (s: Pool) {
    Pool(cap, [], true, Free, seq(threads, _ => AtLoop), clients, seq(clients + threads, _ => Idle), NotStopped,
         [], [], [], [])
  }

  // The task of worker i is inside runTask of this pool.
  predicate InOwnCall(s: Pool, i: nat) {
    s.outside + i < |s.producers| && s.producers[s.outside + i] != Idle
  }

  // Caller j is free to call: outside the pool, or a worker executing a task.
  predicate MayCall(s: Pool, j: nat) {
    && j < |s.producers| && s.producers[j] == Idle
    && (j >= s.outside ==> j - s.outside < |s.workers| && s.workers[j - s.outside].Running?)
  }

  predicate SomeAsleep(s: Pool) {
    exists i :: 0 <= i < |s.workers| && s.workers[i] == Asleep
  }

  predicate SomeProducerAsleep(s: Pool) {
    exists j :: 0 <= j < |s.producers| && s.producers[j].PAsleep?
  }

  // notify_one wakes a sleeper whenever there is one.
  predicate WakesWorker(s: Pool, w: Wake) {
    match w
    case NoOne => !SomeAsleep(s)
    case Woke(k) => k < |s.workers| && s.workers[k] == Asleep
  }

  predicate WakesProducer(s: Pool, w: Wake) {
    match w
    case NoOne => !SomeProducerAsleep(s)
    case Woke(k) => k < |s.producers| && s.producers[k].PAsleep?
  }

  predicate Enabled(s: Pool, a: Step) {
    match a
    case WLoop(i) => i < |s.workers| && s.workers[i] == AtLoop
    case WLock(i) => i < |s.workers| && (s.workers[i] == WantLock || s.workers[i] == Signalled) && s.mutex == Free
    case WTake(i, w) => i < |s.workers| && s.workers[i] == HoldLock && s.queue != [] && WakesProducer(s, w)
    case WGiveUp(i) => i < |s.workers| && s.workers[i] == HoldLock && s.queue == [] && !s.running
    case WCommit(i) => i < |s.workers| && s.workers[i] == HoldLock && s.queue == [] && s.running
    case WSleep(i) => i < |s.workers| && s.workers[i] == Committed
    case WFinish(i) => i < |s.workers| && s.workers[i].Running? && !InOwnCall(s, i)
    case WSpurious(i) => i < |s.workers| && s.workers[i] == Asleep
    case PCall(j, _) => MayCall(s, j) && s.running && s.workers != []
    case PInline(j, _) => MayCall(s, j) && s.running && s.workers == []
    case PLock(j) => j < |s.producers| && (s.producers[j].PWant? || s.producers[j].PSignalled?) && s.mutex == Free
    case PSleep(j) => j < |s.producers| && s.producers[j].PHold? && |s.queue| >= s.cap
    case PPush(j, w) => j < |s.producers| && s.producers[j].PHold? && |s.queue| < s.cap && WakesWorker(s, w)
    case PSpurious(j) => j < |s.producers| && s.producers[j].PAsleep?
    case StopClear => s.stop == NotStopped
    case StopNotify => s.stop == Cleared && s.mutex == Free
    case StopJoin => s.stop == Notified && forall i :: 0 <= i < |s.workers| ==> s.workers[i] == Exited
  }

  function WakeWorker(ws: seq<Worker>, w: Wake): (r: seq<Worker>)
    requires w.Woke? ==> w.id < |ws|
    ensures |r| == |ws|
  {
    if w.Woke? then ws[w.id := Signalled] else ws
  }

  function WakeProducer(ps: seq<Producer>, w: Wake): (r: seq<Producer>)
    requires w.Woke? ==> w.id < |ps| && ps[w.id].PAsleep?
    ensures |r| == |ps|
  {
    if w.Woke? then ps[w.id := PSignalled(ps[w.id].task)] else ps
  }

  function NotifyAll(ws: seq<Worker>): (r: seq<Worker>)
    ensures |r| == |ws|
  {
    seq(|ws|, i requires 0 <= i < |ws| => if ws[i] == Asleep then Signalled else ws[i])
  }

  function Next(s: Pool, a: Step): (t: Pool)
    requires Enabled(s, a)
  {
    match a
    case WLoop(i) => s.(workers := s.workers[i := if s.running then WantLock else Exited])
    case WLock(i) => s.(workers := s.workers[i := HoldLock], mutex := ByWorker(i))
    case WTake(i, w) =>
      s.(workers := s.workers[i := Running(s.queue[0])], queue := s.queue[1..], taken := s.taken + [s.queue[0]],
         producers := WakeProducer(s.producers, w), mutex := Free)
    case WGiveUp(i) => s.(workers := s.workers[i := AtLoop], mutex := Free)
    case WCommit(i) => s.(workers := s.workers[i := Committed])
    case WSleep(i) => s.(workers := s.workers[i := Asleep], mutex := Free)
    case WFinish(i) => s.(workers := s.workers[i := AtLoop], done := s.done + [s.workers[i].task])
    case WSpurious(i) => s.(workers := s.workers[i := Signalled])
    case PCall(j, task) => s.(producers := s.producers[j := PWant(task)])
    case PInline(j, task) => s.(inline := s.inline + [task])
    case PLock(j) => s.(producers := s.producers[j := PHold(s.producers[j].task)], mutex := ByProducer(j))
    case PSleep(j) => s.(producers := s.producers[j := PAsleep(s.producers[j].task)], mutex := Free)
    case PPush(j, w) =>
      s.(producers := s.producers[j := Idle], queue := s.queue + [s.producers[j].task],
         pushed := s.pushed + [s.producers[j].task], workers := WakeWorker(s.workers, w), mutex := Free)
    case PSpurious(j) => s.(producers := s.producers[j := PSignalled(s.producers[j].task)])
    case StopClear => s.(running := false, stop := Cleared)
    case StopNotify => s.(workers := NotifyAll(s.workers), stop := Notified)
    case StopJoin => s.(stop := Joined)
  }

  // A run: the steps taken, in order, from s to t.
  ghost predicate Path(s: Pool, steps: seq<Step>, t: Pool)
    decreases |steps|
  {
    if steps == [] then s == t
    else Enabled(s, steps[0]) && Path(Next(s, steps[0]), steps[1..], t)
  }

  // ---- the invariant ----

  // Threads that will look at the queue without needing another notification.
  function Alert(w: Worker): (n: nat) { if w == Signalled || w == HoldLock then 1 else 0 }
  function PAlert(p: Producer): (n: nat) { if p.PSignalled? || p.PHold? then 1 else 0 }

  // How many workers are executing task x.
  function Holds(w: Worker, x: Task): (n: nat) { if w == Running(x) then 1 else 0 }

  function Held(ws: seq<Worker>, x: Task): (n: nat) {
    if ws == [] then 0 else Holds(ws[0], x) + Held(ws[1..], x)
  }

  predicate MutexInv(s: Pool) {
    && (forall i :: 0 <= i < |s.workers| ==>
          ((s.workers[i] == HoldLock || s.workers[i] == Committed) <==> s.mutex == ByWorker(i)))
    && (forall j :: 0 <= j < |s.producers| ==> (s.producers[j].PHold? <==> s.mutex == ByProducer(j)))
    && (s.mutex.ByWorker? ==> s.mutex.i < |s.workers|)
    && (s.mutex.ByProducer? ==> s.mutex.j < |s.producers|)
    && (forall i :: 0 <= i < |s.workers| && s.workers[i] == Committed ==> s.queue == [])
  }

  predicate OrderInv(s: Pool) {
    s.taken + s.queue == s.pushed && 0 < s.cap && |s.queue| <= s.cap
  }

  predicate SignalInv(s: Pool) {
    && (SomeAsleep(s) ==> |s.queue| <= Total(Alert, s.workers))
    && (SomeProducerAsleep(s) ==> |s.queue| + Total(PAlert, s.producers) >= s.cap)
  }

  predicate StopInv(s: Pool) {
    && (s.running <==> s.stop == NotStopped)
    && (s.stop == Notified || s.stop == Joined ==>
          forall i :: 0 <= i < |s.workers| ==> s.workers[i] != Asleep && s.workers[i] != Committed)
    && (s.running ==> forall i :: 0 <= i < |s.workers| ==> s.workers[i] != Exited)
    && (s.stop == Joined ==> forall i :: 0 <= i < |s.workers| ==> s.workers[i] == Exited)
  }

  predicate Inv(s: Pool) {
    MutexInv(s) && OrderInv(s) && SignalInv(s) && StopInv(s)
  }

  // A worker inside runTask is executing a task.
  predicate NestInv(s: Pool) {
    && |s.producers| == s.outside + |s.workers|
    && forall i :: 0 <= i < |s.workers| && !s.workers[i].Running? ==> s.producers[s.outside + i] == Idle
  }

  lemma NestAt(s: Pool, a: Step, i: nat)
    requires NestInv(s) && Enabled(s, a) && i < |s.workers|
    ensures var t := Next(s, a);
            && t.outside == s.outside && |t.producers| == |s.producers| && |t.workers| == |s.workers|
            && (!t.workers[i].Running? ==> t.producers[t.outside + i] == Idle)
  {
    var own := s.producers[s.outside + i];
    if s.workers[i].Running? {
      assert a == WFinish(i) ==> own == Idle;
    } else {
      assert own == Idle;
    }
  }

  lemma NestStep(s: Pool, a: Step)
    requires NestInv(s) && Enabled(s, a)
    ensures NestInv(Next(s, a)) && Next(s, a).outside == s.outside
  {
    forall i | 0 <= i < |s.workers|
      ensures var t := Next(s, a);
              |t.workers| == |s.workers| && |t.producers| == |s.producers| && t.outside == s.outside &&
              (!t.workers[i].Running? ==> t.producers[t.outside + i] == Idle)
    {
      NestAt(s, a, i);
    }
  }

  // Every task taken is either being executed or has been executed, once.
  ghost predicate ExecInv(s: Pool) {
    forall x: Task :: multiset(s.taken)[x] == Held(s.workers, x) + multiset(s.done)[x]
  }

  lemma {:induction false} HeldUpdate(ws: seq<Worker>, i: nat, w: Worker, x: Task)
    requires i < |ws|
    ensures Held(ws[i := w], x) + Holds(ws[i], x) == Held(ws, x) + Holds(w, x)
  {
    if i == 0 {
      assert ws[i := w][1..] == ws[1..];
    } else {
      HeldUpdate(ws[1..], i - 1, w, x);
      assert ws[i := w][1..] == ws[1..][i - 1 := w];
    }
  }

  lemma {:induction false} HeldNone(ws: seq<Worker>, x: Task)
    requires forall i :: 0 <= i < |ws| ==> !ws[i].Running?
    ensures Held(ws, x) == 0
  {
    if ws != [] {
      HeldNone(ws[1..], x);
    }
  }

  lemma {:induction false} HeldNotifyAll(ws: seq<Worker>, x: Task)
    ensures Held(NotifyAll(ws), x) == Held(ws, x)
  {
    if ws != [] {
      HeldNotifyAll(ws[1..], x);
      assert NotifyAll(ws)[1..] == NotifyAll(ws[1..]);
    }
  }

  lemma InitInv(cap: nat, threads: nat, clients: nat)
    requires cap > 0
    ensures Inv(Init(cap, threads, clients)) && ExecInv(Init(cap, threads, clients)) && NestInv(Init(cap, threads, clients))
  {
    forall x: Task {
      HeldNone(Init(cap, threads, clients).workers, x);
    }
  }

  // Worker steps that only move worker i.
  lemma WorkerMoves(s: Pool, i: nat, w: Worker)
    requires i < |s.workers|
    ensures Total(Alert, s.workers[i := w]) + Alert(s.workers[i]) == Total(Alert, s.workers) + Alert(w)
  {
    TotalUpdate(Alert, s.workers, i, w);
  }

  // Worker steps that leave the queue alone.
  predicate WorkerStep(a: Step) {
    a.WLoop? || a.WLock? || a.WGiveUp? || a.WCommit? || a.WSleep? || a.WSpurious? || a.WFinish?
  }

  lemma WorkerStepSignals(s: Pool, a: Step)
    requires Inv(s) && Enabled(s, a) && WorkerStep(a)
    ensures SignalInv(Next(s, a))
  {
    var t := Next(s, a);
    WorkerMoves(s, a.i, t.workers[a.i]);
    assert t.producers == s.producers;
    if SomeAsleep(t) && !a.WSleep? {
      var k :| 0 <= k < |t.workers| && t.workers[k] == Asleep;
      assert s.workers[k] == Asleep;
    }
    if SomeProducerAsleep(t) {
      assert SomeProducerAsleep(s);
    }
  }

  lemma WorkerStepInv(s: Pool, a: Step)
    requires Inv(s) && Enabled(s, a) && WorkerStep(a)
    ensures Inv(Next(s, a))
  {
    WorkerStepSignals(s, a);
    WorkerStepMutex(s, a);
  }

  lemma WorkerStepMutex(s: Pool, a: Step)
    requires MutexInv(s) && Enabled(s, a) && WorkerStep(a)
    ensures MutexInv(Next(s, a))
  {
  }

  lemma WTakeSignals(s: Pool, a: Step)
    requires Inv(s) && Enabled(s, a) && a.WTake?
    ensures SignalInv(Next(s, a))
  {
    var t := Next(s, a);
    WorkerMoves(s, a.i, t.workers[a.i]);
    if a.wake.Woke? {
      TotalUpdate(PAlert, s.producers, a.wake.id, t.producers[a.wake.id]);
    }
    if SomeAsleep(t) {
      var k :| 0 <= k < |t.workers| && t.workers[k] == Asleep;
      assert s.workers[k] == Asleep;
    }
    if SomeProducerAsleep(t) {
      var k :| 0 <= k < |t.producers| && t.producers[k].PAsleep?;
      assert s.producers[k].PAsleep?;
    }
  }

  lemma WTakeInv(s: Pool, a: Step)
    requires Inv(s) && Enabled(s, a) && a.WTake?
    ensures Inv(Next(s, a))
  {
    WTakeSignals(s, a);
    assert s.queue == [s.queue[0]] + s.queue[1..];
  }

  // Producer steps that leave the queue alone.
  predicate ProducerStep(a: Step) {
    a.PCall? || a.PLock? || a.PSleep? || a.PSpurious?
  }

  lemma ProducerStepSignals(s: Pool, a: Step)
    requires Inv(s) && Enabled(s, a) && ProducerStep(a)
    ensures SignalInv(Next(s, a))
  {
    var t := Next(s, a);
    TotalUpdate(PAlert, s.producers, a.j, t.producers[a.j]);
    assert t.workers == s.workers;
    if SomeAsleep(t) {
      assert SomeAsleep(s);
    }
    if SomeProducerAsleep(t) && !a.PSleep? {
      var k :| 0 <= k < |t.producers| && t.producers[k].PAsleep?;
      assert s.producers[k].PAsleep?;
    }
  }

  lemma ProducerStepInv(s: Pool, a: Step)
    requires Inv(s) && Enabled(s, a) && ProducerStep(a)
    ensures Inv(Next(s, a))
  {
    ProducerStepSignals(s, a);
  }

  lemma PPushSignals(s: Pool, a: Step)
    requires Inv(s) && Enabled(s, a) && a.PPush?
    ensures SignalInv(Next(s, a))
  {
    var t := Next(s, a);
    TotalUpdate(PAlert, s.producers, a.j, Idle);
    if a.wake.Woke? {
      WorkerMoves(s, a.wake.id, Signalled);
    }
    if SomeAsleep(t) {
      var k :| 0 <= k < |t.workers| && t.workers[k] == Asleep;
      assert s.workers[k] == Asleep;
    }
    if SomeProducerAsleep(t) {
      var k :| 0 <= k < |t.producers| && t.producers[k].PAsleep?;
      assert s.producers[k].PAsleep?;
    }
  }

  lemma PPushInv(s: Pool, a: Step)
    requires Inv(s) && Enabled(s, a) && a.PPush?
    ensures Inv(Next(s, a))
  {
    PPushSignals(s, a);
  }

  lemma StopStepInv(s: Pool, a: Step)
    requires Inv(s) && Enabled(s, a)
    requires a.StopClear? || a.StopNotify? || a.StopJoin?
    ensures Inv(Next(s, a))
  {
    var t := Next(s, a);
    assert t.producers == s.producers;
    if SomeProducerAsleep(t) {
      assert SomeProducerAsleep(s);
    }
    if !a.StopNotify? && SomeAsleep(t) {
      assert SomeAsleep(s);
    }
  }

  lemma StepInv(s: Pool, a: Step)
    requires Inv(s) && Enabled(s, a)
    ensures Inv(Next(s, a))
  {
    match a
    case WTake(_, _) => WTakeInv(s, a);
    case PPush(_, _) => PPushInv(s, a);
    case PCall(_, _) => ProducerStepInv(s, a);
    case PLock(_) => ProducerStepInv(s, a);
    case PSleep(_) => ProducerStepInv(s, a);
    case PSpurious(_) => ProducerStepInv(s, a);
    case PInline(_, _) =>
    case StopClear => StopStepInv(s, a);
    case StopNotify => StopStepInv(s, a);
    case StopJoin => StopStepInv(s, a);
    case _ => WorkerStepInv(s, a);
  }

  lemma HeldStep(s: Pool, a: Step, x: Task)
    requires Enabled(s, a)
    ensures Held(Next(s, a).workers, x) ==
            Held(s.workers, x) + (if a.WTake? && s.queue[0] == x then 1 else 0)
            - (if a.WFinish? && s.workers[a.i].task == x then 1 else 0)
  {
    var t := Next(s, a);
    match a
    case PPush(_, w) =>
      if w.Woke? {
        HeldUpdate(s.workers, w.id, Signalled, x);
      }
    case StopNotify => HeldNotifyAll(s.workers, x);
    case PCall(_, _) =>
    case PInline(_, _) =>
    case PLock(_) =>
    case PSleep(_) =>
    case PSpurious(_) =>
    case StopClear =>
    case StopJoin =>
    case _ => HeldUpdate(s.workers, a.i, t.workers[a.i], x);
  }

  lemma ExecStep(s: Pool, a: Step)
    requires ExecInv(s) && Enabled(s, a)
    ensures ExecInv(Next(s, a))
  {
    var t := Next(s, a);
    forall x: Task
      ensures multiset(t.taken)[x] == Held(t.workers, x) + multiset(t.done)[x]
    {
      HeldStep(s, a, x);
    }
  }

  lemma {:induction false} PathInv(s: Pool, steps: seq<Step>, t: Pool)
    requires Inv(s) && ExecInv(s) && NestInv(s) && Path(s, steps, t)
    ensures Inv(t) && ExecInv(t) && NestInv(t)
    decreases |steps|
  {
    if steps != [] {
      StepInv(s, steps[0]);
      ExecStep(s, steps[0]);
      NestStep(s, steps[0]);
      PathInv(Next(s, steps[0]), steps[1..], t);
    }
  }

  // ---- what the invariant says ----

  predicate AllWorkersAsleep(s: Pool) {
    forall i :: 0 <= i < |s.workers| ==> s.workers[i] == Asleep
  }

  // Workers and producers can be asleep at the same time only while a whole
  // queue's worth of producers is already notified and on its way to push.
  lemma BothSidesAsleep(s: Pool)
    requires Inv(s) && s.workers != [] && AllWorkersAsleep(s)
    ensures s.queue == []
    ensures SomeProducerAsleep(s) ==> Total(PAlert, s.producers) >= s.cap
  {
    assert s.workers[0] == Asleep;
    TotalZero(Alert, s.workers);
  }

  lemma {:induction false} PathExtend(s: Pool, steps: seq<Step>, t: Pool, a: Step)
    requires Path(s, steps, t) && Enabled(t, a)
    ensures Path(s, steps + [a], Next(t, a))
    decreases |steps|
  {
    if steps == [] {
      assert (steps + [a])[1..] == [];
    } else {
      PathExtend(Next(s, steps[0]), steps[1..], t, a);
      assert (steps + [a])[1..] == steps[1..] + [a];
    }
  }

  // ---- progress ----

  // Steps the pool takes on its own: everything but a client's new call, a
  // spurious wakeup of a condition variable and the decision to stop.
  predicate Internal(a: Step) {
    !a.PCall? && !a.PInline? && !a.WSpurious? && !a.PSpurious? && !a.StopClear?
  }

  function RankRunning(w: Worker): (n: nat) {
    match w
    case Running(_) => 5
    case AtLoop => 4
    case WantLock => 3
    case Signalled => 3
    case HoldLock => 2
    case Committed => 1
    case Asleep => 0
    case Exited => 0
  }

  function RankStopped(w: Worker): (n: nat) {
    if w == AtLoop then 1 else RankRunning(w)
  }

  function RankProducer(p: Producer): (n: nat) {
    match p
    case Idle => 0
    case PAsleep(_) => 9
    case PHold(_) => 10
    case PWant(_) => 11
    case PSignalled(_) => 11
  }

  function StopWork(s: Pool): (n: nat) {
    match s.stop
    case NotStopped => 3 * |s.workers| + 3
    case Cleared => 3 * |s.workers| + 2
    case Notified => 1
    case Joined => 0
  }

  function Rank(running: bool, w: Worker): (n: nat) {
    if running then RankRunning(w) else RankStopped(w)
  }

  function WorkerWork(running: bool, ws: seq<Worker>): (n: nat) {
    if running then Total(RankRunning, ws) else Total(RankStopped, ws)
  }

  // Work the pool still has in front of it.
  function Work(s: Pool): (n: nat) {
    WorkerWork(s.running, s.workers) + Total(RankProducer, s.producers) + 6 * |s.queue| + StopWork(s)
  }

  lemma WorkerWorkUpdate(running: bool, ws: seq<Worker>, i: nat, w: Worker)
    requires i < |ws|
    ensures WorkerWork(running, ws[i := w]) + Rank(running, ws[i]) == WorkerWork(running, ws) + Rank(running, w)
  {
    TotalUpdate(RankRunning, ws, i, w);
    TotalUpdate(RankStopped, ws, i, w);
  }

  lemma WorkerStepWork(s: Pool, a: Step)
    requires Inv(s) && Enabled(s, a) && WorkerStep(a)
    ensures a.WSpurious? ==> Work(Next(s, a)) <= Work(s) + 3
    ensures !a.WSpurious? ==> Work(Next(s, a)) < Work(s)
  {
    WorkerWorkUpdate(s.running, s.workers, a.i, Next(s, a).workers[a.i]);
  }

  lemma WTakeWork(s: Pool, a: Step)
    requires Inv(s) && Enabled(s, a) && a.WTake?
    ensures Work(Next(s, a)) < Work(s)
  {
    var t := Next(s, a);
    WorkerWorkUpdate(s.running, s.workers, a.i, t.workers[a.i]);
    if a.wake.Woke? {
      TotalUpdate(RankProducer, s.producers, a.wake.id, t.producers[a.wake.id]);
    }
  }

  lemma PPushWork(s: Pool, a: Step)
    requires Inv(s) && Enabled(s, a) && a.PPush?
    ensures Work(Next(s, a)) < Work(s)
  {
    TotalUpdate(RankProducer, s.producers, a.j, Idle);
    if a.wake.Woke? {
      WorkerWorkUpdate(s.running, s.workers, a.wake.id, Signalled);
    }
  }

  lemma ProducerStepWork(s: Pool, a: Step)
    requires Inv(s) && Enabled(s, a) && ProducerStep(a)
    ensures a.PCall? ==> Work(Next(s, a)) <= Work(s) + 11
    ensures a.PSpurious? ==> Work(Next(s, a)) <= Work(s) + 3
    ensures a.PLock? || a.PSleep? ==> Work(Next(s, a)) < Work(s)
  {
    TotalUpdate(RankProducer, s.producers, a.j, Next(s, a).producers[a.j]);
  }

  lemma StopStepWork(s: Pool, a: Step)
    requires Inv(s) && Enabled(s, a)
    requires a.StopClear? || a.StopNotify? || a.StopJoin?
    ensures Work(Next(s, a)) < Work(s)
  {
    if a.StopClear? {
      TotalBound(RankStopped, RankRunning, s.workers, s.workers, 0);
    } else if a.StopNotify? {
      TotalBound(RankStopped, RankStopped, NotifyAll(s.workers), s.workers, 3);
    }
  }

  lemma StepWork(s: Pool, a: Step)
    requires Inv(s) && Enabled(s, a)
    ensures Internal(a) || a.StopClear? ==> Work(Next(s, a)) < Work(s)
    ensures a.PCall? || a.PInline? ==> Work(Next(s, a)) <= Work(s) + 11
    ensures a.WSpurious? || a.PSpurious? ==> Work(Next(s, a)) <= Work(s) + 3
  {
    match a
    case WTake(_, _) => WTakeWork(s, a);
    case PPush(_, _) => PPushWork(s, a);
    case PCall(_, _) => ProducerStepWork(s, a);
    case PLock(_) => ProducerStepWork(s, a);
    case PSleep(_) => ProducerStepWork(s, a);
    case PSpurious(_) => ProducerStepWork(s, a);
    case PInline(_, _) =>
    case StopClear => StopStepWork(s, a);
    case StopNotify => StopStepWork(s, a);
    case StopJoin => StopStepWork(s, a);
    case _ => WorkerStepWork(s, a);
  }

  function Calls(steps: seq<Step>): (n: nat) {
    if steps == [] then 0 else (if steps[0].PCall? || steps[0].PInline? then 1 else 0) + Calls(steps[1..])
  }

  function Spurious(steps: seq<Step>): (n: nat) {
    if steps == [] then 0 else
      (if steps[0].WSpurious? || steps[0].PSpurious? then 1 else 0) + Spurious(steps[1..])
  }

  function Internals(steps: seq<Step>): (n: nat) {
    if steps == [] then 0 else (if Internal(steps[0]) then 1 else 0) + Internals(steps[1..])
  }

  // No livelock: however the threads are scheduled, a run contains at most a
  // constant number of internal steps per call and per spurious wakeup.
  lemma {:induction false} BoundedWork(s: Pool, steps: seq<Step>, t: Pool)
    requires Inv(s) && Path(s, steps, t)
    ensures Internals(steps) + Work(t) <= Work(s) + 11 * Calls(steps) + 3 * Spurious(steps)
    decreases |steps|
  {
    if steps != [] {
      StepInv(s, steps[0]);
      StepWork(s, steps[0]);
      BoundedWork(Next(s, steps[0]), steps[1..], t);
    }
  }

  // Nothing left to do: a running pool that delivered everything, or a stopped
  // pool whose stop() has returned.
  predicate Quiescent(s: Pool) {
    if s.running then
      s.queue == [] && AllWorkersAsleep(s) && forall j :: 0 <= j < |s.producers| ==> s.producers[j] == Idle
    else
      s.stop == Joined
  }

  // The owner of the mutex is never held up.
  lemma OwnerCanStep(s: Pool) returns (a: Step)
    requires Inv(s) && s.mutex != Free
    ensures Internal(a) && Enabled(s, a)
  {
    if s.mutex.ByWorker? {
      var i := s.mutex.i;
      if s.workers[i] == Committed {
        a := WSleep(i);
      } else if s.queue == [] {
        a := if s.running then WCommit(i) else WGiveUp(i);
      } else if w: nat :| w < |s.producers| && s.producers[w].PAsleep? {
        a := WTake(i, Woke(w));
      } else {
        a := WTake(i, NoOne);
      }
    } else {
      var j := s.mutex.j;
      if |s.queue| >= s.cap {
        a := PSleep(j);
      } else if w: nat :| w < |s.workers| && s.workers[w] == Asleep {
        a := PPush(j, Woke(w));
      } else {
        a := PPush(j, NoOne);
      }
    }
  }

  // The task of worker i waits in runTask for a place in the queue.
  predicate SelfBlocked(s: Pool, i: nat) {
    && i < |s.workers| && s.workers[i].Running?
    && s.outside + i < |s.producers| && s.producers[s.outside + i].PAsleep?
  }

  // Every worker still there waits in runTask of its own pool.
  ghost predicate SelfDeadlocked(s: Pool) {
    && s.mutex == Free && s.stop != Cleared
    && (exists i: nat :: SelfBlocked(s, i))
    && (forall i: nat :: i < |s.workers| ==> s.workers[i] == Exited || SelfBlocked(s, i))
    && (forall j :: 0 <= j < |s.producers| ==> s.producers[j] == Idle || s.producers[j].PAsleep?)
  }

  // A worker that has nothing to wait for.
  predicate Ready(s: Pool, i: nat) {
    && i < |s.workers| && s.workers[i] != Asleep && s.workers[i] != Exited
    && !(s.workers[i].Running? && InOwnCall(s, i))
  }

  lemma ReadyCanStep(s: Pool, i: nat) returns (a: Step)
    requires Inv(s) && s.mutex == Free && Ready(s, i)
    ensures Internal(a) && Enabled(s, a) && !a.PLock?
  {
    match s.workers[i]
    case AtLoop => a := WLoop(i);
    case Running(_) => a := WFinish(i);
    case WantLock => a := WLock(i);
    case Signalled => a := WLock(i);
    case HoldLock => assert false;
    case Committed => assert false;
  }

  // Nobody can step, and somebody is inside runTask of its own pool.
  lemma BlockedSelves(s: Pool, i: nat)
    requires Inv(s) && NestInv(s) && s.mutex == Free && s.stop != Cleared
    requires forall k: nat :: !Ready(s, k)
    requires forall j :: 0 <= j < |s.producers| ==> s.producers[j] == Idle || s.producers[j].PAsleep?
    requires i < |s.workers| && s.workers[i].Running?
    ensures SelfDeadlocked(s)
  {
    assert !Ready(s, i);
    assert SelfBlocked(s, i);
    assert s.producers[s.outside + i].PAsleep?;
    TotalZero(PAlert, s.producers);
    forall k: nat | k < |s.workers|
      ensures s.workers[k] == Exited || SelfBlocked(s, k)
    {
      assert !Ready(s, k);
      if s.workers[k] == Asleep {
        AlertNone(s);
        assert false;
      }
    }
  }

  lemma AlertNone(s: Pool)
    requires s.mutex == Free && MutexInv(s) && forall k: nat :: !Ready(s, k)
    ensures Total(Alert, s.workers) == 0
  {
    forall k | 0 <= k < |s.workers|
      ensures Alert(s.workers[k]) == 0
    {
      assert !Ready(s, k);
    }
    TotalZero(Alert, s.workers);
  }

  // No deadlock but one: unless the pool is quiescent, or all its workers wait in
  // runTask themselves, some thread can take a step.
  lemma NotStuck(s: Pool) returns (a: Step)
    requires Inv(s) && NestInv(s) && (s.running ==> s.workers != []) && !Quiescent(s) && !SelfDeadlocked(s)
    ensures Internal(a) && Enabled(s, a)
  {
    if s.mutex != Free {
      a := OwnerCanStep(s);
    } else if i: nat :| Ready(s, i) {
      a := ReadyCanStep(s, i);
    } else if s.stop == Cleared {
      a := StopNotify;
    } else if j: nat :| j < |s.producers| && (s.producers[j].PWant? || s.producers[j].PSignalled?) {
      a := PLock(j);
    } else if i: nat :| i < |s.workers| && s.workers[i].Running? {
      BlockedSelves(s, i);
      assert false;
    } else if s.stop == Notified {
      AllExited(s);
      a := StopJoin;
    } else {
      NothingToDo(s);
      assert false;
    }
  }

  lemma AllExited(s: Pool)
    requires StopInv(s) && s.stop == Notified && forall k: nat :: !Ready(s, k)
    requires forall k :: 0 <= k < |s.workers| ==> !s.workers[k].Running?
    ensures forall k :: 0 <= k < |s.workers| ==> s.workers[k] == Exited
  {
    forall k | 0 <= k < |s.workers|
      ensures s.workers[k] == Exited
    {
      assert !Ready(s, k);
    }
  }

  lemma NothingToDo(s: Pool)
    requires Inv(s) && s.mutex == Free && s.stop != Cleared && s.stop != Notified && (s.running ==> s.workers != [])
    requires forall k: nat :: !Ready(s, k)
    requires forall k :: 0 <= k < |s.workers| ==> !s.workers[k].Running?
    requires forall j :: 0 <= j < |s.producers| ==> s.producers[j] == Idle || s.producers[j].PAsleep?
    ensures Quiescent(s)
  {
    if s.running {
      forall k | 0 <= k < |s.workers|
        ensures s.workers[k] == Asleep
      {
        assert !Ready(s, k);
      }
      BothSidesAsleep(s);
      TotalZero(PAlert, s.producers);
    }
  }

  // The one deadlock is real: nobody can step, and by themselves none ever will.
  lemma SelfDeadlockIsStuck(s: Pool, a: Step)
    requires Inv(s) && SelfDeadlocked(s) && Internal(a)
    ensures !Enabled(s, a)
  {
    var i: nat :| SelfBlocked(s, i);
    assert s.workers[i] != Exited;
    if a.WFinish? && a.i < |s.workers| {
      assert s.workers[a.i] == Exited || SelfBlocked(s, a.i);
    } else if (a.WLoop? || a.WLock? || a.WTake? || a.WGiveUp? || a.WCommit? || a.WSleep?) && a.i < |s.workers| {
      assert s.workers[a.i] == Exited || SelfBlocked(s, a.i);
    }
  }

  // A run that can go no further on its own has delivered every task: all of
  // them are executed, in a running pool; stop() has returned, in a stopped one.
  // The exception is a pool whose workers all wait in runTask.
  lemma MaximalRunDelivers(cap: nat, threads: nat, clients: nat, steps: seq<Step>, t: Pool)
    requires cap > 0 && threads > 0 && Path(Init(cap, threads, clients), steps, t)
    requires forall a :: Internal(a) ==> !Enabled(t, a)
    ensures SelfDeadlocked(t) <==> exists i: nat :: SelfBlocked(t, i)
    ensures !SelfDeadlocked(t) && t.running ==> multiset(t.done) == multiset(t.pushed)
    ensures !SelfDeadlocked(t) && t.running ==> forall j :: 0 <= j < |t.producers| ==> t.producers[j] == Idle
    ensures !SelfDeadlocked(t) && !t.running ==> t.stop == Joined
  {
    InitInv(cap, threads, clients);
    PathInv(Init(cap, threads, clients), steps, t);
    SameThreads(Init(cap, threads, clients), steps, t);
    if !SelfDeadlocked(t) {
      if !Quiescent(t) {
        var a := NotStuck(t);
      }
      NoneRunning(t);
      if t.running {
        assert t.taken == t.pushed;
        forall x: Task
          ensures multiset(t.done)[x] == multiset(t.pushed)[x]
        {
          HeldNone(t.workers, x);
        }
      }
    }
  }

  lemma NoneRunning(t: Pool)
    requires Quiescent(t) && StopInv(t)
    ensures forall i :: 0 <= i < |t.workers| ==> !t.workers[i].Running?
  {
  }

  // A call of runTask made by a task of the pool.
  predicate Nested(a: Step, clients: nat) { a.PCall? && a.j >= clients }

  lemma {:induction false} WithoutNesting(s: Pool, steps: seq<Step>, t: Pool)
    requires Path(s, steps, t) && forall k :: 0 <= k < |steps| ==> !Nested(steps[k], s.outside)
    requires forall j :: s.outside <= j < |s.producers| ==> s.producers[j] == Idle
    ensures forall j :: t.outside <= j < |t.producers| ==> t.producers[j] == Idle
    decreases |steps|
  {
    if steps != [] {
      assert !Nested(steps[0], s.outside);
      WithoutNesting(Next(s, steps[0]), steps[1..], t);
    }
  }

  // When no task calls runTask of its own pool there is no deadlock at all.
  lemma NoSelfDeadlock(cap: nat, threads: nat, clients: nat, steps: seq<Step>, t: Pool)
    requires Path(Init(cap, threads, clients), steps, t)
    requires forall k :: 0 <= k < |steps| ==> !Nested(steps[k], clients)
    ensures !SelfDeadlocked(t)
  {
    WithoutNesting(Init(cap, threads, clients), steps, t);
  }

  lemma {:induction false} SameThreads(s: Pool, steps: seq<Step>, t: Pool)
    requires Path(s, steps, t)
    ensures |t.workers| == |s.workers| && |t.producers| == |s.producers| && t.cap == s.cap && t.outside == s.outside
    decreases |steps|
  {
    if steps != [] {
      SameThreads(Next(s, steps[0]), steps[1..], t);
    }
  }

  // FIFO order, the bound on the queue, and the end of stop(): once its
  // notify_all has happened no worker is asleep, although running_ was cleared
  // without holding the mutex.
  lemma OrderBoundAndStop(cap: nat, threads: nat, clients: nat, steps: seq<Step>, t: Pool)
    requires cap > 0 && Path(Init(cap, threads, clients), steps, t)
    ensures t.taken + t.queue == t.pushed && |t.queue| <= t.cap
    ensures forall x: Task :: multiset(t.taken)[x] == Held(t.workers, x) + multiset(t.done)[x]
    ensures t.stop == Notified ==> !SomeAsleep(t)
  {
    InitInv(cap, threads, clients);
    PathInv(Init(cap, threads, clients), steps, t);
  }

  // The signal accounting, seen with the mutex free: a worker asleep without a
  // notification implies enough notified workers for the queue, and a producer
  // asleep without one implies enough notified producers to fill it.
  lemma SleepersAreCovered(cap: nat, threads: nat, clients: nat, steps: seq<Step>, t: Pool)
    requires cap > 0 && Path(Init(cap, threads, clients), steps, t) && t.mutex == Free
    ensures SomeAsleep(t) ==> |t.queue| <= Total(NotifiedWorker, t.workers)
    ensures SomeProducerAsleep(t) ==> |t.queue| + Total(NotifiedProducer, t.producers) >= t.cap
  {
    InitInv(cap, threads, clients);
    PathInv(Init(cap, threads, clients), steps, t);
    assert forall i :: 0 <= i < |t.workers| ==> t.workers[i] != HoldLock;
    TotalBound(Alert, NotifiedWorker, t.workers, t.workers, 0);
    assert forall j :: 0 <= j < |t.producers| ==> !t.producers[j].PHold?;
    TotalBound(PAlert, NotifiedProducer, t.producers, t.producers, 0);
  }

  function NotifiedWorker(w: Worker): (n: nat) { if w == Signalled then 1 else 0 }
  function NotifiedProducer(p: Producer): (n: nat) { if p.PSignalled? then 1 else 0 }

  // A pool without threads queues nothing and never blocks a client.
  lemma {:induction false} WithoutThreads(s: Pool, steps: seq<Step>, t: Pool)
    requires Path(s, steps, t) && s.workers == [] && s.queue == []
    requires forall j :: 0 <= j < |s.producers| ==> s.producers[j] == Idle
    ensures t.queue == [] && t.pushed == s.pushed
    ensures forall j :: 0 <= j < |t.producers| ==> t.producers[j] == Idle
    decreases |steps|
  {
    if steps != [] {
      WithoutThreads(Next(s, steps[0]), steps[1..], t);
    }
  }

  // What stop() does not do: a client asleep in notFull_.wait when it returns is
  // never notified again, whatever the remaining threads do.
  lemma {:induction false} StrandedProducer(s: Pool, steps: seq<Step>, t: Pool, j: nat)
    requires Inv(s) && s.stop == Joined && j < |s.producers| && s.producers[j].PAsleep?
    requires Path(s, steps, t) && forall k :: 0 <= k < |steps| ==> !steps[k].PSpurious?
    ensures j < |t.producers| && t.producers[j] == s.producers[j]
    decreases |steps|
  {
    if steps != [] {
      assert !steps[0].PSpurious?;
      StepInv(s, steps[0]);
      StrandedProducer(Next(s, steps[0]), steps[1..], t, j);
    }
  }

  // running_ is cleared by stop() and by nothing else.
  lemma {:induction false} RunningIff(s: Pool, steps: seq<Step>, t: Pool)
    requires Path(s, steps, t) && (s.running <==> s.stop == NotStopped)
    ensures t.running <==> s.running && StopClear !in steps
    ensures t.running <==> t.stop == NotStopped
    decreases |steps|
  {
    if steps != [] {
      assert steps == [steps[0]] + steps[1..];
      RunningIff(Next(s, steps[0]), steps[1..], t);
    }
  }

  // The assertions of runTask and stop() fail exactly after a stop().
  lemma CallFailsIff(cap: nat, threads: nat, clients: nat, steps: seq<Step>, t: Pool, j: nat, task: Task)
    requires Path(Init(cap, threads, clients), steps, t) && MayCall(t, j)
    ensures !Enabled(t, if t.workers == [] then PInline(j, task) else PCall(j, task)) <==> StopClear in steps
    ensures !Enabled(t, StopClear) <==> StopClear in steps
  {
    RunningIff(Init(cap, threads, clients), steps, t);
  }
}
