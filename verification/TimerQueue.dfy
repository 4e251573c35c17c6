// The TimerQueue class: addTimer, cancelTimer, getExpired and handleRead on the
// ordered set, with the loops of the source. Timer objects are heap entries.
module TimerQueueClass {
  import opened Timers
  import R = TimerRuns

  // What user code does in a callback: ticks of the clock, adds, and the cancels
  // the rules allow.
  ghost function UserNext(q: Queue, a: Step): (r: Queue) {
    match a
    case Tick(delta) => q.(clock := q.clock + delta)
    case Add(id, when, interval, _) =>
      if id !in q.heap && AddTimer(q, id, when, interval, true).Ok? then AddTimer(q, id, when, interval, true).q else q
    case Cancel(id) => if Safe(q, a) && CancelTimer(q, id).Ok? then CancelTimer(q, id).q else q
    case _ => q
  }

  ghost function AfterScript(q: Queue, script: seq<Step>): (r: Queue)
    decreases |script|
  {
    if script == [] then q else AfterScript(UserNext(q, script[0]), script[1..])
  }

  // One turn of handleRead's loop: the callback is started, runs its script and
  // ends.
  ghost function TurnEnd(q: Queue, script: seq<Step>): (r: Queue) {
    if !(q.phase.Pass? && q.batch != [] && StartTimer(q).Ok?) then q
    else
      var mid := AfterScript(StartTimer(q).q, script);
      if mid.phase.Pass? && mid.batch != [] && FinishTimer(mid).Ok? then FinishTimer(mid).q else q
  }

  function ScriptAt(scripts: seq<seq<Step>>, i: nat): (s: seq<Step>) { if i < |scripts| then scripts[i] else [] }

  // Turns i to n - 1, each with its own script.
  ghost function TurnsEnd(q: Queue, scripts: seq<seq<Step>>, i: nat, n: nat): (r: Queue)
    decreases n - i
  {
    if i >= n then q else TurnsEnd(TurnEnd(q, ScriptAt(scripts, i)), scripts, i + 1, n)
  }

  class TimerQueue {
    var clock: Time
    var timers: seq<Entry>           // std::set<Entry>, in order
    var heap: map<nat, Timer>
    var kernel: Kernel
    var adds: seq<Entry>
    ghost var phase: Phase
    ghost var batch: seq<Entry>
    ghost var running: bool
    ghost var log: seq<Fire>

    ghost function View(): (q: Queue)
      reads this
    {
      Queue(clock, timers, heap, kernel, adds, phase, batch, running, log)
    }

    constructor (now: Time)
      ensures View() == Init(now)
    {
      clock, timers, heap, kernel, adds := now, [], map[], Disarmed, [];
      phase, batch, running, log := Idle, [], false, [];
    }

    // timers_.insert: the position of the new entry.
    method InsertEntry(e: Entry) returns (pos: nat)
      modifies this`timers
      ensures timers == Insert(old(timers), e)
      ensures pos < |timers| && timers[pos] == e && (pos == 0 <==> old(timers) == [] || Less(e, old(timers)[0]))
    {
      pos := 0;
      while pos < |timers| && !Less(e, timers[pos])
        invariant pos <= |timers|
        invariant pos > 0 ==> !Less(e, timers[0])
        invariant Insert(timers, e) == timers[..pos] + Insert(timers[pos..], e)
      {
        assert timers[pos..][1..] == timers[pos + 1..];
        assert timers[..pos] + [timers[pos]] == timers[..pos + 1];
        pos := pos + 1;
      }
      timers := timers[..pos] + [e] + timers[pos..];
    }

    // timerfdSet: durationFromNow is at least one millisecond.
    method TimerfdSet(when: Time)
      modifies this`kernel
      ensures View() == Arm(old(View()), when)
    {
      kernel := Armed(when, clock);
    }

    // addTimer's task on the loop thread.
    method InsertTimerInLoop(e: Entry)
      requires InsertTimer(View(), e).Ok? && Sorted(timers)
      modifies this`timers, this`kernel
      ensures View() == InsertTimer(old(View()), e).q
    {
      InsertSpec(timers, e);
      var pos := InsertEntry(e);
      if pos == 0 {
        TimerfdSet(e.when);
      } else {
        assert timers[0] != e;
      }
    }

    method AddTimerNow(id: nat, when: Time, interval: int)
      requires Inv(View()) && id !in heap
      modifies this`timers, this`heap, this`kernel
      ensures Inv(View()) && AddTimer(old(View()), id, when, interval, true) == Ok(View())
      ensures Added(old(View()), View(), id, when, interval)
    {
      AddNowInv(View(), id, when, interval);
      assert !Matches(View(), Entry(when, id));
      AddIsExact(View(), id, when, interval, true);
      heap := heap[id := Timer(when, interval, false, when, 0)];
      InsertTimerInLoop(Entry(when, id));
    }

    // timers_.erase
    method EraseEntry(e: Entry)
      modifies this`timers
      ensures timers == Erase(old(timers), e)
    {
      var k := 0;
      while k < |timers| && timers[k] != e
        invariant k <= |timers| && forall j :: 0 <= j < k ==> timers[j] != e
      {
        k := k + 1;
      }
      EraseAt(timers, e, k);
      if k < |timers| {
        timers := timers[..k] + timers[k + 1..];
      }
    }

    method CancelTimerNow(id: nat)
      requires Inv(View()) && InUserCode(View()) && Safe(View(), Cancel(id))
      modifies this`timers, this`heap
      ensures Inv(View()) && CancelTimer(old(View()), id) == Ok(View())
      ensures |timers| == |old(timers)| - 1 && Cancelled(old(View()), View(), id)
    {
      CancelExact(View(), id);
      EraseEntry(Entry(heap[id].when, id));
      heap := heap - {id};
    }

    // getExpired: the prefix before lower_bound leaves the set.
    method GetExpired(now: Time) returns (expired: seq<Entry>)
      modifies this`timers
      ensures var n := ExpiredCount(old(timers), now);
              expired == old(timers)[..n] && timers == old(timers)[n..]
    {
      var n := 0;
      while n < |timers| && Less(timers[n], Entry(now + 1, 0))
        invariant n <= |timers|
        invariant ExpiredCount(timers, now) == n + ExpiredCount(timers[n..], now)
      {
        assert timers[n..][1..] == timers[n + 1..];
        n := n + 1;
      }
      expired := timers[..n];
      timers := timers[n..];
    }

    // What user code may do inside a callback. A caller that respects the
    // contract of cancelTimer does nothing when the timer is not in the set.
    method UserAction(a: Step, ghost before: Queue, ghost steps: seq<Step>) returns (ghost longer: seq<Step>)
      requires Inv(View()) && InUserCode(View()) && R.SafeRun(before, steps, View())
      modifies this`clock, this`timers, this`heap, this`kernel
      ensures Inv(View()) && R.SafeRun(before, longer, View()) && View() == UserNext(old(View()), a)
    {
      longer := steps;
      ghost var was := View();
      match a {
        case Tick(delta) =>
          clock := clock + delta;
          StepExactAt(was, a);
          R.ExtendRun(before, steps, was, a, View());
          longer := steps + [a];
        case Add(id, when, interval, _) =>
          if id !in heap {
            AddTimerNow(id, when, interval);
            ghost var b := Add(id, when, interval, true);
            R.ExtendRun(before, steps, was, b, View());
            longer := steps + [b];
          }
        case Cancel(id) =>
          if id in heap && Entry(heap[id].when, id) in timers {
            CancelTimerNow(id);
            R.ExtendRun(before, steps, was, a, View());
            longer := steps + [a];
          }
        case _ =>
      }
    }

    static lemma StepExactAt(q: Queue, a: Step)
      requires Inv(q) && Possible(q, a) && Safe(q, a)
      ensures Next(q, a).Ok? && Inv(Next(q, a).q)
    {
      StepExact(q, a);
    }

    method RunCallback(script: seq<Step>, ghost before: Queue, ghost steps: seq<Step>) returns (ghost longer: seq<Step>)
      requires Inv(View()) && running && R.SafeRun(before, steps, View())
      modifies this`clock, this`timers, this`heap, this`kernel
      ensures Inv(View()) && R.SafeRun(before, longer, View()) && View() == AfterScript(old(View()), script)
    {
      longer := steps;
      for i := 0 to |script|
        invariant Inv(View()) && R.SafeRun(before, longer, View())
        invariant AfterScript(View(), script[i..]) == AfterScript(old(View()), script)
      {
        assert script[i..][1..] == script[i + 1..];
        longer := UserAction(script[i], before, longer);
      }
    }

    // One turn of handleRead's loop.
    method FireOne(e: Entry, now: Time, script: seq<Step>, ghost before: Queue, ghost steps: seq<Step>)
      returns (ghost longer: seq<Step>)
      requires Inv(View()) && phase.Pass? && phase.now == now && !running && batch != [] && batch[0] == e
      requires R.SafeRun(before, steps, View())
      modifies this`clock, this`timers, this`heap, this`kernel, this`batch, this`running, this`log
      ensures Inv(View()) && R.SafeRun(before, longer, View())
      ensures batch == old(batch)[1..] && !running && phase == old(phase)
      ensures View() == TurnEnd(old(View()), script)
    {
      var canceled;
      canceled, longer := StartOne(e, now, before, steps);
      if !canceled {
        longer := RunCallback(script, before, longer);
      }
      longer := FinishOne(e, before, longer);
    }

    // Up to the callback.
    method StartOne(e: Entry, now: Time, ghost before: Queue, ghost steps: seq<Step>)
      returns (canceled: bool, ghost longer: seq<Step>)
      requires Inv(View()) && phase.Pass? && phase.now == now && !running && batch != [] && batch[0] == e
      requires R.SafeRun(before, steps, View())
      modifies this`running, this`log
      ensures Inv(View()) && R.SafeRun(before, longer, View()) && !canceled && running
      ensures StartTimer(old(View())) == Ok(View())
    {
      ghost var was := View();
      StepExactAt(was, FireStart);
      assert e in batch && Matches(was, e);
      running := true;
      canceled := heap[e.id].canceled;
      if !canceled {
        log := log + [Fire(e.id, heap[e.id].fires + 1, heap[e.id].when, now, heap[e.id].first, heap[e.id].interval)];
      }
      R.ExtendRun(before, steps, was, FireStart, View());
      longer := steps + [FireStart];
    }

    // After the callback: restart and re-insert, or delete.
    method RestartOrDelete(e: Entry)
      requires phase.Pass? && batch != [] && batch[0] == e && e.id in heap
      requires Entry(heap[e.id].when + heap[e.id].interval, e.id) !in timers || !heap[e.id].Repeat()
      modifies this`timers, this`heap, this`batch, this`running
      ensures FinishTimer(old(View())) == Ok(View())
    {
      var timer := heap[e.id];
      if !timer.canceled && timer.Repeat() {
        var restarted := timer.(when := timer.when + timer.interval, fires := timer.fires + 1);
        heap := heap[e.id := restarted];
        var _ := InsertEntry(Entry(restarted.when, e.id));
      } else {
        heap := heap - {e.id};
      }
      batch, running := batch[1..], false;
    }

    method FinishOne(e: Entry, ghost before: Queue, ghost steps: seq<Step>) returns (ghost longer: seq<Step>)
      requires Inv(View()) && phase.Pass? && running && batch != [] && batch[0] == e
      requires R.SafeRun(before, steps, View())
      modifies this`timers, this`heap, this`batch, this`running
      ensures Inv(View()) && R.SafeRun(before, longer, View())
      ensures batch == old(batch)[1..] && !running && FinishTimer(old(View())) == Ok(View())
    {
      ghost var was := View();
      FinishTimerInv(was);
      PopBatch(was);
      if heap[e.id].Repeat() {
        RestartKeyIsNew(was, Entry(heap[e.id].when + heap[e.id].interval, e.id));
      }
      RestartOrDelete(e);
      R.ExtendRun(before, steps, was, FireEnd, View());
      longer := steps + [FireEnd];
    }

    // handleRead before its loop.
    method BeginPass() returns (now: Time, expired: seq<Entry>)
      requires Inv(View()) && phase == Idle
      modifies this`kernel, this`timers, this`batch, this`running, this`phase
      ensures View() == StartPass(old(View())) && Inv(View())
      ensures now == clock && expired == batch
      ensures R.SafeRun(old(View()), [BeginRead], View())
    {
      StartPassInv(View());
      ghost var before := View();
      if kernel == Fired {
        kernel := Disarmed;            // timerfdRead
      }
      now := clock;
      expired := GetExpired(now);
      batch, running, phase := expired, false, Pass(now, expired, |log|);
      R.ExtendRun(before, [], before, BeginRead, View());
      assert [] + [BeginRead] == [BeginRead];
    }

    // handleRead after its loop.
    method EndPass(ghost before: Queue, ghost steps: seq<Step>)
      requires Inv(View()) && phase.Pass? && batch == [] && R.SafeRun(before, steps, View())
      modifies this`kernel, this`phase
      ensures View() == FinishPass(old(View())) && Inv(View()) && R.SafeRun(before, steps + [EndRead], View())
    {
      ghost var was := View();
      FinishPassInv(was);
      phase := Idle;
      if timers != [] {
        TimerfdSet(timers[0].when);
      }
      R.ExtendRun(before, steps, was, EndRead, View());
    }

    // handleRead: the whole pass is a safe run of the protocol, and the callbacks
    // that ran are exactly those of the timers due at its start, in set order.
    method HandleRead(scripts: seq<seq<Step>>) returns (ghost steps: seq<Step>)
      requires Inv(View()) && phase == Idle
      modifies this
      ensures Inv(View()) && phase == Idle && R.SafeRun(old(View()), steps, View())
      ensures |log| >= |old(log)|
      ensures FiredEntries(log[|old(log)|..]) == old(timers)[..ExpiredCount(old(timers), old(clock))]
      ensures timers != [] ==> kernel == Armed(timers[0].when, clock)
      ensures View() == FinishPass(TurnsEnd(StartPass(old(View())), scripts, 0, ExpiredCount(old(timers), old(clock))))
    {
      ghost var before := View();
      var now, expired := BeginPass();
      steps := [BeginRead];
      for i := 0 to |expired|
        invariant Inv(View()) && R.SafeRun(before, steps, View())
        invariant phase == Pass(now, expired, |before.log|) && !running && batch == expired[i..]
        invariant TurnsEnd(View(), scripts, i, |expired|) == TurnsEnd(StartPass(before), scripts, 0, |expired|)
      {
        var script := ScriptAt(scripts, i);
        assert batch[0] == expired[i] && batch[1..] == expired[i + 1..];
        steps := FireOne(expired[i], now, script, before, steps);
      }
      assert FiredEntries(log[|before.log|..]) + [] == FiredEntries(log[|before.log|..]);
      EndPass(before, steps);
      steps := steps + [EndRead];
    }
  }
}
