// Two promises the pool keeps only under conditions, and exactly which: that its
// two sides are never asleep together, and that stop() leaves no client blocked.
module ThreadPoolRuns {
  import opened Totals
  import opened ThreadPoolProtocol

  lemma Go(s0: Pool, steps: seq<Step>, s: Pool, a: Step) returns (longer: seq<Step>, t: Pool)
    requires Path(s0, steps, s) && Enabled(s, a)
    ensures Path(s0, longer, t) && t == Next(s, a)
  {
    longer, t := steps + [a], Next(s, a);
    PathExtend(s0, steps, s, a);
  }

  // ---- the calls made and the tasks executed ----

  // How many callers are inside runTask with task x.
  function Carries(p: Producer, x: Task): (n: nat) { if p != Idle && p.task == x then 1 else 0 }

  function Carried(ps: seq<Producer>, x: Task): (n: nat) {
    if ps == [] then 0 else Carries(ps[0], x) + Carried(ps[1..], x)
  }

  lemma {:induction false} CarriedUpdate(ps: seq<Producer>, j: nat, p: Producer, x: Task)
    requires j < |ps|
    ensures Carried(ps[j := p], x) + Carries(ps[j], x) == Carried(ps, x) + Carries(p, x)
  {
    if j == 0 {
      assert ps[j := p][1..] == ps[1..];
    } else {
      CarriedUpdate(ps[1..], j - 1, p, x);
      assert ps[j := p][1..] == ps[1..][j - 1 := p];
    }
  }

  lemma {:induction false} CarriedNone(ps: seq<Producer>, x: Task)
    requires forall j :: 0 <= j < |ps| ==> ps[j] == Idle
    ensures Carried(ps, x) == 0
  {
    if ps != [] {
      CarriedNone(ps[1..], x);
    }
  }

  // Calls of runTask with task x on a pool with threads.
  function CallsWith(steps: seq<Step>, x: Task): (n: nat) {
    if steps == [] then 0 else (if steps[0].PCall? && steps[0].task == x then 1 else 0) + CallsWith(steps[1..], x)
  }

  // What runTask was called with on a pool without threads.
  function InlineCalls(steps: seq<Step>): (ts: seq<Task>) {
    if steps == [] then [] else (if steps[0].PInline? then [steps[0].task] else []) + InlineCalls(steps[1..])
  }

  lemma CallStep(s: Pool, a: Step, x: Task)
    requires Enabled(s, a)
    ensures var t := Next(s, a);
            multiset(t.pushed)[x] + Carried(t.producers, x) ==
            multiset(s.pushed)[x] + Carried(s.producers, x) + (if a.PCall? && a.task == x then 1 else 0)
  {
    var t := Next(s, a);
    if ProducerStep(a) || a.PPush? {
      CarriedUpdate(s.producers, a.j, t.producers[a.j], x);
    } else if a.WTake? && a.wake.Woke? {
      CarriedUpdate(s.producers, a.wake.id, t.producers[a.wake.id], x);
    }
  }

  lemma {:induction false} CallsAlong(s: Pool, steps: seq<Step>, t: Pool, x: Task)
    requires Path(s, steps, t)
    ensures multiset(t.pushed)[x] + Carried(t.producers, x) ==
            multiset(s.pushed)[x] + Carried(s.producers, x) + CallsWith(steps, x)
    decreases |steps|
  {
    if steps != [] {
      CallStep(s, steps[0], x);
      CallsAlong(Next(s, steps[0]), steps[1..], t, x);
    }
  }

  lemma {:induction false} InlineAlong(s: Pool, steps: seq<Step>, t: Pool)
    requires Path(s, steps, t)
    ensures t.inline == s.inline + InlineCalls(steps)
    decreases |steps|
  {
    if steps != [] {
      var mine := if steps[0].PInline? then [steps[0].task] else [];
      InlineStep(s, steps[0]);
      InlineAlong(Next(s, steps[0]), steps[1..], t);
      assert (s.inline + mine) + InlineCalls(steps[1..]) == s.inline + (mine + InlineCalls(steps[1..]));
    }
  }

  lemma InlineStep(s: Pool, a: Step)
    requires Enabled(s, a)
    ensures Next(s, a).inline == s.inline + if a.PInline? then [a.task] else []
  {
  }

  // Every call of runTask is accounted for by its task: still inside runTask, in
  // the queue, being executed, or executed, and there is no other task anywhere; a
  // pool without threads has executed exactly what it was given, in order.
  lemma CallsConserved(cap: nat, threads: nat, clients: nat, steps: seq<Step>, t: Pool, x: Task)
    requires cap > 0 && Path(Init(cap, threads, clients), steps, t)
    ensures CallsWith(steps, x) ==
            Carried(t.producers, x) + multiset(t.queue)[x] + Held(t.workers, x) + multiset(t.done)[x]
    ensures t.inline == InlineCalls(steps)
  {
    var s0 := Init(cap, threads, clients);
    InitInv(cap, threads, clients);
    PathInv(s0, steps, t);
    CallsAlong(s0, steps, t, x);
    InlineAlong(s0, steps, t);
    CarriedNone(s0.producers, x);
    assert multiset(t.pushed) == multiset(t.taken) + multiset(t.queue) by {
      assert t.pushed == t.taken + t.queue;
    }
  }

  // ---- both sides asleep ----

  // The mutex is free, nobody is stopping the pool, and workers from the k-th on
  // have not looked at the queue yet.
  predicate Calm(s: Pool, cap: nat, threads: nat, clients: nat, k: nat) {
    && s.cap == cap && s.running && s.stop == NotStopped && s.mutex == Free
    && |s.workers| == threads && s.outside == clients && |s.producers| == clients + threads
    && forall i :: k <= i < threads ==> s.workers[i] == AtLoop
  }

  // A client pushes into a queue with room, with no worker asleep.
  lemma Pushes(s0: Pool, p: seq<Step>, s: Pool, j: nat) returns (q: seq<Step>, t: Pool)
    requires Path(s0, p, s) && s.mutex == Free && s.running && s.workers != [] && !SomeAsleep(s)
    requires MayCall(s, j) && |s.queue| < s.cap
    ensures Path(s0, q, t) && t == s.(queue := s.queue + [0], pushed := s.pushed + [0])
  {
    q, t := Go(s0, p, s, PCall(j, 0));
    q, t := Go(s0, q, t, PLock(j));
    assert !SomeAsleep(t);
    q, t := Go(s0, q, t, PPush(j, NoOne));
    assert t.producers == s.producers;
  }

  // A client finds the queue full.
  lemma FallsAsleep(s0: Pool, p: seq<Step>, s: Pool, j: nat) returns (q: seq<Step>, t: Pool)
    requires Path(s0, p, s) && s.mutex == Free && s.running && s.workers != []
    requires MayCall(s, j) && |s.queue| >= s.cap
    ensures Path(s0, q, t) && t == s.(producers := s.producers[j := PAsleep(0)])
  {
    q, t := Go(s0, p, s, PCall(j, 0));
    q, t := Go(s0, q, t, PLock(j));
    q, t := Go(s0, q, t, PSleep(j));
  }

  // A worker takes a task, waking client j, executes it and comes back for more.
  lemma TakesOne(s0: Pool, p: seq<Step>, s: Pool, i: nat, j: nat) returns (q: seq<Step>, t: Pool)
    requires Path(s0, p, s) && s.mutex == Free && s.running && s.queue != []
    requires i < |s.workers| && s.workers[i] == WantLock && j < |s.producers| && s.producers[j].PAsleep?
    requires !InOwnCall(s, i) && j != s.outside + i
    ensures Path(s0, q, t)
    ensures t == s.(queue := s.queue[1..], producers := s.producers[j := PSignalled(s.producers[j].task)],
                    taken := s.taken + [s.queue[0]], done := s.done + [s.queue[0]])
  {
    q, t := Go(s0, p, s, WLock(i));
    q, t := Go(s0, q, t, WTake(i, Woke(j)));
    q, t := Go(s0, q, t, WFinish(i));
    q, t := Go(s0, q, t, WLoop(i));
    assert t.workers == s.workers;
  }

  // A worker finds the queue empty.
  lemma FindsNothing(s0: Pool, p: seq<Step>, s: Pool, i: nat) returns (q: seq<Step>, t: Pool)
    requires Path(s0, p, s) && s.mutex == Free && s.running && s.queue == []
    requires i < |s.workers| && (s.workers[i] == WantLock || s.workers[i] == AtLoop)
    ensures Path(s0, q, t) && t == s.(workers := s.workers[i := Asleep])
  {
    q, t := p, s;
    if s.workers[i] == AtLoop {
      q, t := Go(s0, q, t, WLoop(i));
    }
    q, t := Go(s0, q, t, WLock(i));
    q, t := Go(s0, q, t, WCommit(i));
    q, t := Go(s0, q, t, WSleep(i));
  }

  // Client 0 fills the queue before any worker has looked at it.
  lemma FillQueue(cap: nat, threads: nat, clients: nat) returns (p: seq<Step>, t: Pool)
    requires cap > 0 && threads > 0 && clients > 0
    ensures Path(Init(cap, threads, clients), p, t) && Calm(t, cap, threads, clients, 0) && |t.queue| == cap
    ensures forall j :: 0 <= j < clients + threads ==> t.producers[j] == Idle
  {
    var s0 := Init(cap, threads, clients);
    p, t := [], s0;
    while |t.queue| < cap
      invariant Path(s0, p, t) && Calm(t, cap, threads, clients, 0) && |t.queue| <= cap
      invariant forall j :: 0 <= j < clients + threads ==> t.producers[j] == Idle
    {
      p, t := Pushes(s0, p, t, 0);
    }
  }

  // Then n clients call runTask and go to sleep.
  lemma SleepClients(cap: nat, threads: nat, clients: nat, n: nat) returns (p: seq<Step>, t: Pool)
    requires cap > 0 && threads > 0 && 0 < n <= clients
    ensures Path(Init(cap, threads, clients), p, t) && Calm(t, cap, threads, clients, 0) && |t.queue| == cap
    ensures forall j :: 0 <= j < n ==> t.producers[j].PAsleep?
    ensures forall j :: n <= j < clients + threads ==> t.producers[j] == Idle
  {
    var s0 := Init(cap, threads, clients);
    p, t := FillQueue(cap, threads, clients);
    for k := 0 to n
      invariant Path(s0, p, t) && Calm(t, cap, threads, clients, 0) && |t.queue| == cap
      invariant forall j :: 0 <= j < k ==> t.producers[j].PAsleep?
      invariant forall j :: k <= j < clients + threads ==> t.producers[j] == Idle
    {
      p, t := FallsAsleep(s0, p, t, k);
    }
  }

  // Worker 0 takes every task, and each take notifies one more client.
  lemma TakeAll(cap: nat, threads: nat, clients: nat) returns (p: seq<Step>, t: Pool)
    requires cap > 0 && threads > 0 && clients > cap
    ensures Path(Init(cap, threads, clients), p, t) && Calm(t, cap, threads, clients, 1) && t.queue == []
    ensures t.workers[0] == WantLock && t.producers[cap].PAsleep?
  {
    var s0 := Init(cap, threads, clients);
    p, t := SleepClients(cap, threads, clients, cap + 1);
    p, t := Go(s0, p, t, WLoop(0));
    for k := 0 to cap
      invariant Path(s0, p, t) && Calm(t, cap, threads, clients, 1) && |t.queue| == cap - k
      invariant t.workers[0] == WantLock
      invariant forall j :: k <= j <= cap ==> t.producers[j].PAsleep?
      invariant t.producers[clients] == Idle
    {
      p, t := TakesOne(s0, p, t, 0, k);
    }
  }

  // Before any notified client gets the mutex, every worker finds the queue empty.
  lemma BothSidesAsleepReachable(cap: nat, threads: nat, clients: nat) returns (p: seq<Step>, t: Pool)
    requires cap > 0 && threads > 0 && clients > cap
    ensures Path(Init(cap, threads, clients), p, t) && AllWorkersAsleep(t) && SomeProducerAsleep(t)
  {
    var s0 := Init(cap, threads, clients);
    p, t := TakeAll(cap, threads, clients);
    for k := 0 to threads
      invariant Path(s0, p, t) && Calm(t, cap, threads, clients, k + 1) && t.queue == []
      invariant forall i :: 0 <= i < k ==> t.workers[i] == Asleep
      invariant k < threads ==> t.workers[k] == if k == 0 then WantLock else AtLoop
      invariant t.producers[cap].PAsleep?
    {
      p, t := FindsNothing(s0, p, t, k);
    }
  }

  // With no worker executing anything, the callers are all outside the pool.
  lemma OutsideAlerts(t: Pool)
    requires NestInv(t) && AllWorkersAsleep(t) && SomeProducerAsleep(t)
    ensures Total(PAlert, t.producers) < t.outside
  {
    var out, own := t.producers[..t.outside], t.producers[t.outside..];
    assert t.producers == out + own;
    TotalConcat(PAlert, out, own);
    forall j | t.outside <= j < |t.producers|
      ensures t.producers[j] == Idle
    {
      assert t.workers[j - t.outside] == Asleep;
    }
    TotalZero(PAlert, own);
    var j :| 0 <= j < |t.producers| && t.producers[j].PAsleep?;
    assert out[j] == t.producers[j];
    TotalBelow(PAlert, out, j);
  }

  ghost predicate BothSidesCanSleep(cap: nat, threads: nat, clients: nat) {
    exists p, t :: Path(Init(cap, threads, clients), p, t) && AllWorkersAsleep(t) && SomeProducerAsleep(t)
  }

  // All workers and some client can be asleep together exactly when there are
  // more clients than places in the queue.
  lemma BothSidesAsleepIff(cap: nat, threads: nat, clients: nat)
    requires cap > 0 && threads > 0
    ensures BothSidesCanSleep(cap, threads, clients) <==> clients > cap
  {
    var s0 := Init(cap, threads, clients);
    if clients > cap {
      var p, t := BothSidesAsleepReachable(cap, threads, clients);
    }
    if BothSidesCanSleep(cap, threads, clients) {
      var p, t :| Path(s0, p, t) && AllWorkersAsleep(t) && SomeProducerAsleep(t);
      InitInv(cap, threads, clients);
      PathInv(s0, p, t);
      SameThreads(s0, p, t);
      BothSidesAsleep(t);
      OutsideAlerts(t);
    }
  }

  // ---- who is still blocked after stop() ----

  // Past the test of running_ in runInThread, so bound to look at the queue.
  function PastTest(w: Worker): (n: nat) {
    if w == AtLoop || w == Exited || w.Running? then 0 else 1
  }

  // Inside runTask.
  function InCall(p: Producer): (n: nat) { if p == Idle then 0 else 1 }

  function Sleeping(p: Producer): (n: nat) { if p.PAsleep? then 1 else 0 }

  function Lookers(s: Pool): (n: nat) { Total(PastTest, s.workers) }

  function Callers(s: Pool): (n: nat) { Total(InCall, s.producers) }

  // The queue, with the task a client is just about to push.
  function Backlog(s: Pool): (n: nat) {
    |s.queue| + if s.mutex.ByProducer? && |s.queue| < s.cap then 1 else 0
  }

  function Min(a: nat, b: nat): (n: nat) { if a < b then a else b }

  // Tasks that will be taken after stop() if the clients keep out of the way.
  function SureTakes(s: Pool): (n: nat) { Min(Lookers(s), Backlog(s)) }

  // Nobody moves any more: every worker has left or waits in runTask itself, and
  // every caller has left runTask or is asleep in it. When all workers have left,
  // stop() has returned.
  predicate Finished(s: Pool) {
    && !s.running && s.stop != Cleared && s.mutex == Free
    && (forall i: nat :: i < |s.workers| ==> s.workers[i] == Exited || SelfBlocked(s, i))
    && (forall j :: 0 <= j < |s.producers| ==> s.producers[j] == Idle || s.producers[j].PAsleep?)
    && ((forall i :: 0 <= i < |s.workers| ==> s.workers[i] == Exited) ==> s.stop == Joined)
  }

  // A stopping pool neither loses nor invents a task, every worker takes at most
  // one more, and none of the sure takes is missed.
  predicate Accounted(s: Pool, t: Pool) {
    && Callers(t) + |t.queue| + |t.taken| == Callers(s) + |s.queue| + |s.taken|
    && |t.taken| + Lookers(t) <= |s.taken| + Lookers(s)
    && |t.taken| + SureTakes(t) >= |s.taken| + SureTakes(s)
  }

  lemma WorkerAccounts(s: Pool, a: Step)
    requires Inv(s) && !s.running && Enabled(s, a) && (WorkerStep(a) || a.WTake?)
    ensures Accounted(s, Next(s, a)) && |Next(s, a).taken| + SureTakes(Next(s, a)) == |s.taken| + SureTakes(s)
  {
    var t := Next(s, a);
    TotalUpdate(PastTest, s.workers, a.i, t.workers[a.i]);
    if a.WTake? && a.wake.Woke? {
      TotalUpdate(InCall, s.producers, a.wake.id, t.producers[a.wake.id]);
    }
  }

  lemma ClientAccounts(s: Pool, a: Step)
    requires Inv(s) && !s.running && Enabled(s, a) && (ProducerStep(a) || a.PPush?)
    ensures Accounted(s, Next(s, a))
    ensures !a.PLock? ==> |Next(s, a).taken| + SureTakes(Next(s, a)) == |s.taken| + SureTakes(s)
  {
    var t := Next(s, a);
    TotalUpdate(InCall, s.producers, a.j, t.producers[a.j]);
    if a.PPush? && a.wake.Woke? {
      TotalUpdate(PastTest, s.workers, a.wake.id, Signalled);
    }
  }

  lemma {:induction false} NotifyAllAccounts(ws: seq<Worker>)
    ensures Total(PastTest, NotifyAll(ws)) == Total(PastTest, ws)
  {
    if ws != [] {
      NotifyAllAccounts(ws[1..]);
      assert NotifyAll(ws)[1..] == NotifyAll(ws[1..]);
    }
  }

  lemma StepAccounts(s: Pool, a: Step)
    requires Inv(s) && !s.running && Enabled(s, a)
    ensures Inv(Next(s, a)) && !Next(s, a).running && Next(s, a).cap == s.cap
    ensures Accounted(s, Next(s, a))
    ensures !a.PLock? ==> |Next(s, a).taken| + SureTakes(Next(s, a)) == |s.taken| + SureTakes(s)
  {
    StepInv(s, a);
    if WorkerStep(a) || a.WTake? {
      WorkerAccounts(s, a);
    } else if ProducerStep(a) || a.PPush? {
      ClientAccounts(s, a);
    } else if a.StopNotify? {
      NotifyAllAccounts(s.workers);
    }
  }

  lemma {:induction false} RunAccounts(s: Pool, steps: seq<Step>, t: Pool)
    requires Inv(s) && !s.running && Path(s, steps, t)
    ensures Inv(t) && !t.running && t.cap == s.cap && Accounted(s, t)
    decreases |steps|
  {
    if steps != [] {
      StepAccounts(s, steps[0]);
      RunAccounts(Next(s, steps[0]), steps[1..], t);
    }
  }

  lemma FinishedLookers(t: Pool)
    requires Finished(t)
    ensures Lookers(t) == 0
  {
    forall i | 0 <= i < |t.workers|
      ensures PastTest(t.workers[i]) == 0
    {
      assert t.workers[i] == Exited || SelfBlocked(t, i);
    }
    TotalZero(PastTest, t.workers);
  }

  lemma FinishedCallers(t: Pool)
    requires Finished(t)
    ensures Callers(t) == Total(Sleeping, t.producers) && (Callers(t) > 0 <==> SomeProducerAsleep(t))
  {
    TotalBound(InCall, Sleeping, t.producers, t.producers, 0);
    TotalBound(Sleeping, InCall, t.producers, t.producers, 0);
    if SomeProducerAsleep(t) {
      var j :| 0 <= j < |t.producers| && t.producers[j].PAsleep?;
      TotalAtLeast(InCall, t.producers, j);
    } else {
      TotalZero(InCall, t.producers);
    }
  }

  lemma FinishedQueue(t: Pool)
    requires OrderInv(t) && SignalInv(t) && Finished(t) && SomeProducerAsleep(t)
    ensures |t.queue| == t.cap
  {
    TotalZero(PAlert, t.producers);
  }

  lemma FinishedAccounts(t: Pool)
    requires Inv(t) && Finished(t)
    ensures Lookers(t) == 0 && SureTakes(t) == 0 && Callers(t) == Total(Sleeping, t.producers)
    ensures if SomeProducerAsleep(t) then |t.queue| == t.cap && Callers(t) > 0 else Callers(t) == 0
  {
    FinishedLookers(t);
    FinishedCallers(t);
    if SomeProducerAsleep(t) {
      FinishedQueue(t);
    }
  }

  // However a stopped pool winds down, the clients left asleep for ever are the
  // callers and queued tasks that the queue and the last takes have no room for,
  // and the takes are bounded from both sides by what stop() found.
  lemma StrandedCount(s: Pool, steps: seq<Step>, t: Pool)
    requires Inv(s) && s.stop == NotStopped && Path(Next(s, StopClear), steps, t) && Finished(t)
    ensures |s.taken| <= |t.taken|
    ensures var takes := |t.taken| - |s.taken|;
            && SureTakes(s) <= takes <= Lookers(s)
            && Total(Sleeping, t.producers) ==
               (if Callers(s) + |s.queue| > s.cap + takes then Callers(s) + |s.queue| - s.cap - takes else 0)
  {
    StepInv(s, StopClear);
    RunAccounts(Next(s, StopClear), steps, t);
    FinishedAccounts(t);
  }

  // A stopping pool with a worker past its test can move without any client
  // entering the mutex.
  lemma LookerCanStep(s: Pool) returns (a: Step)
    requires Inv(s) && !s.running && Lookers(s) > 0
    ensures Internal(a) && Enabled(s, a) && !a.PLock?
  {
    if s.mutex != Free {
      a := OwnerCanStep(s);
    } else if i: nat :| Ready(s, i) {
      a := ReadyCanStep(s, i);
    } else if s.stop == Cleared {
      a := StopNotify;
    } else {
      NoLookers(s);
      assert false;
    }
  }

  lemma NoLookers(s: Pool)
    requires StopInv(s) && !s.running && s.stop != Cleared && forall k: nat :: !Ready(s, k)
    ensures Lookers(s) == 0
  {
    forall k | 0 <= k < |s.workers|
      ensures PastTest(s.workers[k]) == 0
    {
      assert !Ready(s, k);
    }
    TotalZero(PastTest, s.workers);
  }

  // The workers run first, until none of them will look at the queue again.
  lemma WindDown(s: Pool) returns (p: seq<Step>, t: Pool)
    requires Inv(s) && NestInv(s) && !s.running
    ensures Path(s, p, t) && Inv(t) && NestInv(t) && !t.running && Lookers(t) == 0
    ensures |t.taken| == |s.taken| + SureTakes(s)
  {
    p, t := [], s;
    while Lookers(t) > 0
      invariant Path(s, p, t) && Inv(t) && NestInv(t) && !t.running
      invariant |t.taken| + SureTakes(t) == |s.taken| + SureTakes(s)
      decreases Work(t)
    {
      var a := LookerCanStep(t);
      StepAccounts(t, a);
      StepWork(t, a);
      NestStep(t, a);
      p, t := Go(s, p, t, a);
    }
  }

  lemma StuckIsFinished(s: Pool)
    requires Inv(s) && NestInv(s) && !s.running && (Quiescent(s) || SelfDeadlocked(s))
    requires s.mutex == Free && forall j :: 0 <= j < |s.producers| ==> !s.producers[j].PWant? && !s.producers[j].PSignalled?
    ensures Finished(s)
  {
    if SelfDeadlocked(s) {
      var i: nat :| SelfBlocked(s, i);
      assert s.workers[i] != Exited;
    }
  }

  // The next step of a stopped pool that is not finished.
  lemma UnfinishedCanStep(s: Pool) returns (a: Step)
    requires Inv(s) && NestInv(s) && !s.running && !Finished(s)
    ensures Internal(a) && Enabled(s, a)
  {
    if s.mutex != Free {
      a := OwnerCanStep(s);
    } else if j: nat :| j < |s.producers| && (s.producers[j].PWant? || s.producers[j].PSignalled?) {
      a := PLock(j);
    } else {
      if Quiescent(s) || SelfDeadlocked(s) {
        StuckIsFinished(s);
        assert false;
      }
      a := NotStuck(s);
    }
  }

  // Then everybody goes as far as possible; no worker takes anything any more.
  lemma EverybodyFinishes(s: Pool) returns (p: seq<Step>, t: Pool)
    requires Inv(s) && NestInv(s) && !s.running && Lookers(s) == 0
    ensures Path(s, p, t) && Finished(t) && |t.taken| == |s.taken|
  {
    p, t := [], s;
    while !Finished(t)
      invariant Path(s, p, t) && Inv(t) && NestInv(t) && !t.running && Lookers(t) == 0 && |t.taken| == |s.taken|
      decreases Work(t)
    {
      var a := UnfinishedCanStep(t);
      StepAccounts(t, a);
      TakenGrows(t, a);
      StepWork(t, a);
      NestStep(t, a);
      p, t := Go(s, p, t, a);
    }
  }

  lemma TakenGrows(s: Pool, a: Step)
    requires Enabled(s, a)
    ensures |Next(s, a).taken| >= |s.taken|
  {
  }

  lemma {:induction false} PathConcat(s: Pool, p: seq<Step>, t: Pool, q: seq<Step>, u: Pool)
    requires Path(s, p, t) && Path(t, q, u)
    ensures Path(s, p + q, u)
    decreases |p|
  {
    if p == [] {
      assert p + q == q;
    } else {
      PathConcat(Next(s, p[0]), p[1..], t, q, u);
      assert (p + q)[1..] == p[1..] + q;
    }
  }

  lemma WorstWindDown(s: Pool) returns (p: seq<Step>, t: Pool)
    requires Inv(s) && NestInv(s) && s.stop == NotStopped
    ensures Path(Next(s, StopClear), p, t) && Finished(t) && |t.taken| == |s.taken| + SureTakes(s)
  {
    StepInv(s, StopClear);
    NestStep(s, StopClear);
    var c := Next(s, StopClear);
    var p1, t1 := WindDown(c);
    var p2, t2 := EverybodyFinishes(t1);
    PathConcat(c, p1, t1, p2, t2);
    p, t := p1 + p2, t2;
  }

  // Some schedule after the clearing of running_ leaves a client asleep for ever.
  ghost predicate StopCanStrand(s: Pool)
    requires s.stop == NotStopped
  {
    exists p, t :: Path(Next(s, StopClear), p, t) && Finished(t) && SomeProducerAsleep(t)
  }

  lemma StrandedWhen(s: Pool, p: seq<Step>, t: Pool)
    requires Inv(s) && s.stop == NotStopped && Path(Next(s, StopClear), p, t) && Finished(t)
    ensures |s.taken| <= |t.taken|
    ensures SomeProducerAsleep(t) <==> Callers(s) + |s.queue| > s.cap + |t.taken| - |s.taken|
  {
    StrandedCount(s, p, t);
    StepInv(s, StopClear);
    RunAccounts(Next(s, StopClear), p, t);
    FinishedAccounts(t);
  }

  // stop() can leave a client blocked for ever exactly when the callers inside
  // runTask and the queue together exceed the capacity by more than the takes
  // that are already certain.
  lemma StopStrandsIff(s: Pool)
    requires Inv(s) && NestInv(s) && s.stop == NotStopped
    ensures StopCanStrand(s) <==> Callers(s) + |s.queue| > s.cap + SureTakes(s)
  {
    if StopCanStrand(s) {
      var p, t :| Path(Next(s, StopClear), p, t) && Finished(t) && SomeProducerAsleep(t);
      StrandedWhen(s, p, t);
      StrandedCount(s, p, t);
    }
    if Callers(s) + |s.queue| > s.cap + SureTakes(s) {
      var p, t := WorstWindDown(s);
      StrandedWhen(s, p, t);
    }
  }

  // With no client inside runTask when running_ is cleared, none is ever blocked.
  lemma {:induction false} IdleClientsStayFree(s: Pool, steps: seq<Step>, t: Pool)
    requires !s.running && Path(s, steps, t)
    requires forall j :: 0 <= j < |s.producers| ==> s.producers[j] == Idle
    ensures t.producers == s.producers
    decreases |steps|
  {
    if steps != [] {
      IdleClientsStayFree(Next(s, steps[0]), steps[1..], t);
    }
  }

  // With no worker past its test of running_ when it is cleared, a client asleep
  // then is asleep for good.
  lemma {:induction false} SleepersStayAsleep(s: Pool, steps: seq<Step>, t: Pool, j: nat)
    requires !s.running && Path(s, steps, t) && forall k :: 0 <= k < |steps| ==> !steps[k].PSpurious?
    requires forall i :: 0 <= i < |s.workers| ==> PastTest(s.workers[i]) == 0
    requires j < |s.producers| && s.producers[j].PAsleep?
    ensures j < |t.producers| && t.producers[j] == s.producers[j]
    decreases |steps|
  {
    if steps != [] {
      assert !steps[0].PSpurious?;
      SleepersStayAsleep(Next(s, steps[0]), steps[1..], t, j);
    }
  }

  // One client asleep, and no worker has looked at the queue.
  lemma OneAsleep(cap: nat, threads: nat, clients: nat) returns (p: seq<Step>, s: Pool)
    requires cap > 0 && threads > 0 && clients > 0
    ensures Path(Init(cap, threads, clients), p, s) && Inv(s) && NestInv(s) && s.stop == NotStopped
    ensures Callers(s) + |s.queue| > s.cap + SureTakes(s)
    ensures forall j :: s.outside <= j < |s.producers| ==> s.producers[j] == Idle
  {
    p, s := SleepClients(cap, threads, clients, 1);
    InitInv(cap, threads, clients);
    PathInv(Init(cap, threads, clients), p, s);
    TotalZero(PastTest, s.workers);
    TotalAtLeast(InCall, s.producers, 0);
  }

  // A client asleep when stop() returns: reachable for every capacity.
  lemma StrandedReachable(cap: nat, threads: nat, clients: nat) returns (p: seq<Step>, t: Pool)
    requires cap > 0 && threads > 0 && clients > 0
    ensures Path(Init(cap, threads, clients), p, t) && Finished(t) && t.stop == Joined && SomeProducerAsleep(t)
  {
    var s0 := Init(cap, threads, clients);
    var p1, s := OneAsleep(cap, threads, clients);
    var p2, t2 := WorstWindDown(s);
    StrandedWhen(s, p2, t2);
    var p3, c := Go(s0, p1, s, StopClear);
    PathConcat(s0, p3, c, p2, t2);
    p, t := p3 + p2, t2;
    OwnCallsEnd(c, p2, t);
    AllJoined(t);
  }

  lemma AllJoined(t: Pool)
    requires Finished(t) && forall j :: t.outside <= j < |t.producers| ==> t.producers[j] == Idle
    ensures t.stop == Joined
  {
    forall i | 0 <= i < |t.workers|
      ensures t.workers[i] == Exited
    {
      assert t.workers[i] == Exited || SelfBlocked(t, i);
    }
  }

  // After stop() no task enters runTask any more.
  lemma {:induction false} OwnCallsEnd(s: Pool, steps: seq<Step>, t: Pool)
    requires !s.running && Path(s, steps, t)
    requires forall j :: s.outside <= j < |s.producers| ==> s.producers[j] == Idle
    ensures forall j :: t.outside <= j < |t.producers| ==> t.producers[j] == Idle
    decreases |steps|
  {
    if steps != [] {
      OwnCallsEnd(Next(s, steps[0]), steps[1..], t);
    }
  }

  ghost predicate StopEverStrands(cap: nat, threads: nat, clients: nat) {
    exists p, t :: Path(Init(cap, threads, clients), p, t) && t.stop == Joined && SomeProducerAsleep(t)
  }

  // Some run ends with stop() returned and a client asleep exactly when the pool
  // has threads and anybody to call runTask at all.
  lemma StrandedReachableIff(cap: nat, threads: nat, clients: nat)
    requires cap > 0
    ensures StopEverStrands(cap, threads, clients) <==> threads > 0 && clients > 0
  {
    if threads > 0 && clients > 0 {
      var p, t := StrandedReachable(cap, threads, clients);
    }
    if StopEverStrands(cap, threads, clients) {
      var s0 := Init(cap, threads, clients);
      var p, t :| Path(s0, p, t) && t.stop == Joined && SomeProducerAsleep(t);
      InitInv(cap, threads, clients);
      PathInv(s0, p, t);
      SameThreads(s0, p, t);
      SleepersAreOutside(t);
      if threads == 0 {
        WithoutThreads(s0, p, t);
      }
    }
  }

  lemma SleepersAreOutside(t: Pool)
    requires Inv(t) && NestInv(t) && t.stop == Joined && SomeProducerAsleep(t)
    ensures t.outside > 0
  {
    forall j | t.outside <= j < |t.producers|
      ensures t.producers[j] == Idle
    {
      assert t.workers[j - t.outside] == Exited;
    }
  }

  // ---- a pool that waits for itself ----

  // Worker k takes the task client 0 pushes for it.
  lemma GetsTask(s0: Pool, p: seq<Step>, s: Pool, k: nat) returns (q: seq<Step>, t: Pool)
    requires Path(s0, p, s) && s.mutex == Free && s.running && !SomeAsleep(s) && !SomeProducerAsleep(s)
    requires k < |s.workers| && s.workers[k] == AtLoop && MayCall(s, 0) && s.queue == [] && s.cap > 0
    ensures Path(s0, q, t)
    ensures t == s.(workers := s.workers[k := Running(0)], pushed := s.pushed + [0], taken := s.taken + [0])
  {
    q, t := Pushes(s0, p, s, 0);
    q, t := Go(s0, q, t, WLoop(k));
    q, t := Go(s0, q, t, WLock(k));
    assert !SomeProducerAsleep(t);
    q, t := Go(s0, q, t, WTake(k, NoOne));
  }

  predicate Busy(s: Pool, cap: nat, threads: nat, clients: nat, k: nat) {
    && s.cap == cap && s.running && s.stop == NotStopped && s.mutex == Free
    && |s.workers| == threads && s.outside == clients && |s.producers| == clients + threads
    && k <= threads && (forall i :: 0 <= i < k ==> s.workers[i] == Running(0))
    && (forall i :: k <= i < threads ==> s.workers[i] == AtLoop)
  }

  lemma AllBusy(cap: nat, threads: nat, clients: nat) returns (p: seq<Step>, t: Pool)
    requires cap > 0 && clients > 0
    ensures Path(Init(cap, threads, clients), p, t) && Busy(t, cap, threads, clients, threads) && t.queue == []
    ensures forall j :: 0 <= j < clients + threads ==> t.producers[j] == Idle
  {
    var s0 := Init(cap, threads, clients);
    p, t := [], s0;
    for k := 0 to threads
      invariant Path(s0, p, t) && Busy(t, cap, threads, clients, k) && t.queue == []
      invariant forall j :: 0 <= j < clients + threads ==> t.producers[j] == Idle
    {
      p, t := GetsTask(s0, p, t, k);
    }
  }

  // Then client 0 fills the queue, and every task calls runTask.
  lemma SelfDeadlockReachable(cap: nat, threads: nat, clients: nat) returns (p: seq<Step>, t: Pool)
    requires cap > 0 && threads > 0 && clients > 0
    ensures Path(Init(cap, threads, clients), p, t) && SelfDeadlocked(t)
  {
    var s0 := Init(cap, threads, clients);
    p, t := AllBusy(cap, threads, clients);
    while |t.queue| < cap
      invariant Path(s0, p, t) && Busy(t, cap, threads, clients, threads) && |t.queue| <= cap
      invariant forall j :: 0 <= j < clients + threads ==> t.producers[j] == Idle
    {
      p, t := Pushes(s0, p, t, 0);
    }
    for k := 0 to threads
      invariant Path(s0, p, t) && Busy(t, cap, threads, clients, threads) && |t.queue| == cap
      invariant forall j :: 0 <= j < clients ==> t.producers[j] == Idle
      invariant forall j :: clients <= j < clients + k ==> t.producers[j].PAsleep?
      invariant forall j :: clients + k <= j < clients + threads ==> t.producers[j] == Idle
    {
      p, t := FallsAsleep(s0, p, t, clients + k);
    }
    assert SelfBlocked(t, 0);
  }

  ghost predicate CanDeadlock(cap: nat, threads: nat, clients: nat) {
    exists p, t :: Path(Init(cap, threads, clients), p, t) && SelfDeadlocked(t)
  }

  lemma {:induction false} WithoutClients(s: Pool, steps: seq<Step>, t: Pool)
    requires Path(s, steps, t) && s.outside == 0 && s.queue == []
    requires forall i :: 0 <= i < |s.workers| ==> !s.workers[i].Running?
    requires forall j :: 0 <= j < |s.producers| ==> s.producers[j] == Idle
    ensures forall i :: 0 <= i < |t.workers| ==> !t.workers[i].Running?
    decreases |steps|
  {
    if steps != [] {
      WithoutClients(Next(s, steps[0]), steps[1..], t);
    }
  }

  // Tasks that call runTask can bring the pool to a halt whatever its size; only a
  // pool nobody uses is safe from it.
  lemma SelfDeadlockIff(cap: nat, threads: nat, clients: nat)
    requires cap > 0
    ensures CanDeadlock(cap, threads, clients) <==> threads > 0 && clients > 0
  {
    var s0 := Init(cap, threads, clients);
    if threads > 0 && clients > 0 {
      var p, t := SelfDeadlockReachable(cap, threads, clients);
    }
    if CanDeadlock(cap, threads, clients) {
      var p, t :| Path(s0, p, t) && SelfDeadlocked(t);
      var i: nat :| SelfBlocked(t, i);
      SameThreads(s0, p, t);
      if clients == 0 {
        WithoutClients(s0, p, t);
      }
    }
  }
}
