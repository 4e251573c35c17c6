// What holds over whole runs of the timer queue.
module TimerRuns {
  import opened Timers

  ghost predicate SafeRun(q: Queue, steps: seq<Step>, r: Queue)
    decreases |steps|
  {
    if steps == [] then q == r
    else
      Possible(q, steps[0]) && Safe(q, steps[0]) && Next(q, steps[0]).Ok? &&
      SafeRun(Next(q, steps[0]).q, steps[1..], r)
  }

  lemma {:induction false} RunInv(q: Queue, steps: seq<Step>, r: Queue)
    requires Inv(q) && SafeRun(q, steps, r)
    ensures Inv(r)
    decreases |steps|
  {
    if steps != [] {
      StepExact(q, steps[0]);
      RunInv(Next(q, steps[0]).q, steps[1..], r);
    }
  }

  lemma {:induction false} ExtendRun(q: Queue, steps: seq<Step>, r: Queue, a: Step, s: Queue)
    requires SafeRun(q, steps, r) && Possible(r, a) && Safe(r, a) && Next(r, a) == Ok(s)
    ensures SafeRun(q, steps + [a], s)
    decreases |steps|
  {
    if steps == [] {
      assert (steps + [a])[1..] == [];
    } else {
      ExtendRun(Next(q, steps[0]).q, steps[1..], r, a, s);
      assert (steps + [a])[1..] == steps[1..] + [a];
    }
  }

  // Outside a pass every timer in the set has its wakeup coming: the kernel timer
  // has fired, or it will by the later of the timer's own time and one
  // millisecond after it was armed; also when the earliest timer was cancelled
  // without re-arming.
  lemma WakeupIsDue(clock: Time, steps: seq<Step>, q: Queue, e: Entry)
    requires SafeRun(Init(clock), steps, q) && q.phase == Idle && e in q.timers
    ensures q.kernel == Fired || (q.kernel.Armed? && Deadline(q.kernel) <= Later(e.when, q.kernel.at + MILLISECOND))
    ensures q.kernel.Armed? && q.clock >= Later(e.when, q.kernel.at + MILLISECOND) ==> Possible(q, KernelFires)
  {
    InitInv(clock);
    RunInv(Init(clock), steps, q);
    if q.kernel.Armed? {
      DurationIsExact(q.kernel.requested, q.kernel.at);
    }
    var i :| 0 <= i < |q.timers| && q.timers[i] == e;
    assert i > 0 ==> Less(q.timers[0], q.timers[i]);
  }

  // Every live timer is in exactly one place and every entry refers to a live
  // timer under its current key: nothing leaks, dangles or is owned twice.
  lemma OwnershipIsExact(clock: Time, steps: seq<Step>, q: Queue, id: nat)
    requires SafeRun(Init(clock), steps, q)
    ensures id in q.heap ==>
              var e := Entry(q.heap[id].when, id);
              && (e in q.timers || e in q.batch || e in q.adds)
              && !(e in q.timers && e in q.batch) && !(e in q.timers && e in q.adds) && !(e in q.batch && e in q.adds)
    ensures forall e :: (e in q.timers || e in q.batch || e in q.adds) && e.id == id ==>
              id in q.heap && q.heap[id].when == e.when
    ensures Sorted(q.timers) && Sorted(q.batch)
  {
    InitInv(clock);
    RunInv(Init(clock), steps, q);
    forall e | (e in q.timers || e in q.batch || e in q.adds) && e.id == id
      ensures id in q.heap && q.heap[id].when == e.when
    {
      assert Matches(q, e);
    }
  }

  lemma QuotientBound(n: nat, d: int, i: int)
    requires i > 0 && n * i <= d
    ensures n <= d / i
  {
    var m := d / i;
    assert d == m * i + d % i;
    assert (n - m - 1) * i == n * i - m * i - i;
    NegativeFactor(n - m - 1, i);
  }

  lemma NegativeFactor(a: int, i: int)
    requires i > 0 && a * i < 0
    ensures a < 0
  {
  }

  // ---- the number k in a record is the ordinal of that run ----

  // The runs of the timers that lived at one address, oldest first.
  function RunsOf(log: seq<Fire>, id: nat): (r: seq<Fire>) {
    if log == [] then [] else
      var last := log[|log| - 1];
      RunsOf(log[..|log| - 1], id) + if last.id == id then [last] else []
  }

  lemma RunsAppend(log: seq<Fire>, f: Fire, id: nat)
    ensures RunsOf(log + [f], id) == RunsOf(log, id) + if f.id == id then [f] else []
  {
    assert (log + [f])[..|log + [f]| - 1] == log;
  }

  lemma {:induction false} RunsAreLogged(log: seq<Fire>, id: nat, i: nat)
    requires i < |RunsOf(log, id)|
    ensures RunsOf(log, id)[i] in log && RunsOf(log, id)[i].id == id
  {
    var prefix := log[..|log| - 1];
    if i < |RunsOf(prefix, id)| {
      RunsAreLogged(prefix, id, i);
    }
  }

  // b is the next run of the timer that a is a run of.
  predicate Follows(a: Fire, b: Fire) {
    b.k == a.k + 1 && b.first == a.first && b.interval == a.interval
  }

  predicate Numbered(runs: seq<Fire>) {
    forall i :: 0 <= i < |runs| ==> runs[i].k > 0 && (runs[i].k > 1 ==> i > 0 && Follows(runs[i - 1], runs[i]))
  }

  // How often a live timer has been started.
  function Started(q: Queue, id: nat): (n: nat)
    requires id in q.heap
  {
    q.heap[id].fires + if q.running && q.batch != [] && q.batch[0].id == id then 1 else 0
  }

  predicate LastRun(q: Queue, id: nat)
    requires id in q.heap
  {
    var runs := RunsOf(q.log, id);
    Started(q, id) > 0 ==>
      runs != [] && runs[|runs| - 1].k == Started(q, id) &&
      runs[|runs| - 1].first == q.heap[id].first && runs[|runs| - 1].interval == q.heap[id].interval
  }

  ghost predicate OrdinalInv(q: Queue) {
    && (forall id :: Numbered(RunsOf(q.log, id)))
    && (forall id :: id in q.heap ==> LastRun(q, id))
  }

  lemma NumberedAppend(runs: seq<Fire>, f: Fire)
    requires Numbered(runs) && f.k > 0 && (f.k > 1 ==> runs != [] && Follows(runs[|runs| - 1], f))
    ensures Numbered(runs + [f])
  {
    var all := runs + [f];
    forall i | 0 <= i < |all|
      ensures all[i].k > 0 && (all[i].k > 1 ==> i > 0 && Follows(all[i - 1], all[i]))
    {
      if i < |runs| {
        assert all[i] == runs[i];
        assert i > 0 ==> all[i - 1] == runs[i - 1];
      } else {
        assert all[i] == f;
        assert i > 0 ==> all[i - 1] == runs[|runs| - 1];
      }
    }
  }

  lemma FireStartRuns(q: Queue, f: Fire, id: nat)
    requires OrdinalInv(q) && f.id in q.heap && !q.running
    requires var t := q.heap[f.id]; f.k == t.fires + 1 && f.first == t.first && f.interval == t.interval
    ensures Numbered(RunsOf(q.log + [f], id))
  {
    RunsAppend(q.log, f, id);
    assert Numbered(RunsOf(q.log, id));
    if f.id == id {
      assert LastRun(q, id);
      NumberedAppend(RunsOf(q.log, id), f);
    } else {
      assert RunsOf(q.log, id) + [] == RunsOf(q.log, id);
    }
  }

  lemma FireStartLast(q: Queue, r: Queue, f: Fire, id: nat)
    requires OrdinalInv(q) && q.batch != [] && q.batch[0].id == f.id && f.id in q.heap && !q.running
    requires var t := q.heap[f.id]; f.k == t.fires + 1 && f.first == t.first && f.interval == t.interval
    requires r == q.(running := true, log := q.log + [f]) && id in r.heap
    ensures LastRun(r, id)
  {
    RunsAppend(q.log, f, id);
    assert LastRun(q, id);
    if f.id != id {
      assert RunsOf(q.log, id) + [] == RunsOf(q.log, id);
    }
  }

  lemma FireStartOrdinal(q: Queue)
    requires Inv(q) && OrdinalInv(q) && Possible(q, FireStart)
    ensures StartTimer(q).Ok? && OrdinalInv(StartTimer(q).q)
  {
    var e := q.batch[0];
    assert e in q.batch && Matches(q, e);
    var t := q.heap[e.id];
    var f := Fire(e.id, t.fires + 1, t.when, q.phase.now, t.first, t.interval);
    var r := StartTimer(q).q;
    assert r == q.(running := true, log := q.log + [f]);
    FireStartAll(q, r, f);
  }

  lemma FireStartAll(q: Queue, r: Queue, f: Fire)
    requires OrdinalInv(q) && q.batch != [] && q.batch[0].id == f.id && f.id in q.heap && !q.running
    requires var t := q.heap[f.id]; f.k == t.fires + 1 && f.first == t.first && f.interval == t.interval
    requires r == q.(running := true, log := q.log + [f])
    ensures OrdinalInv(r)
  {
    forall id
      ensures Numbered(RunsOf(r.log, id))
    {
      FireStartRuns(q, f, id);
    }
    forall id | id in r.heap
      ensures LastRun(r, id)
    {
      FireStartLast(q, r, f, id);
    }
  }

  predicate SameTimer(q: Queue, r: Queue, id: nat)
    requires id in r.heap
  {
    && id in q.heap && Started(r, id) == Started(q, id)
    && r.heap[id].first == q.heap[id].first && r.heap[id].interval == q.heap[id].interval
  }

  // Steps that log nothing and change no timer but possibly one.
  lemma QuietOrdinal(q: Queue, r: Queue)
    requires OrdinalInv(q) && r.log == q.log
    requires forall id :: id in r.heap ==> Started(r, id) == 0 || SameTimer(q, r, id)
    ensures OrdinalInv(r)
  {
    forall id | id in r.heap
      ensures LastRun(r, id)
    {
      assert id in q.heap ==> LastRun(q, id);
    }
  }

  lemma FireEndOrdinal(q: Queue)
    requires Inv(q) && OrdinalInv(q) && Possible(q, FireEnd)
    ensures FinishTimer(q).Ok? && OrdinalInv(FinishTimer(q).q)
  {
    PopBatch(q);
    QuietOrdinal(q, FinishTimer(q).q);
  }

  lemma AddOrdinal(q: Queue, a: Step)
    requires Inv(q) && OrdinalInv(q) && a.Add? && Possible(q, a) && Next(q, a).Ok?
    ensures OrdinalInv(Next(q, a).q)
  {
    if q.batch != [] {
      assert q.batch[0] in q.batch && Matches(q, q.batch[0]);
    }
    QuietOrdinal(q, Next(q, a).q);
  }

  lemma StepOrdinal(q: Queue, a: Step)
    requires Inv(q) && OrdinalInv(q) && Possible(q, a) && Next(q, a).Ok?
    ensures OrdinalInv(Next(q, a).q)
  {
    match a
    case FireStart => FireStartOrdinal(q);
    case FireEnd => FireEndOrdinal(q);
    case Add(_, _, _, _) => AddOrdinal(q, a);
    case _ => QuietOrdinal(q, Next(q, a).q);
  }

  lemma {:induction false} RunOrdinal(q: Queue, steps: seq<Step>, r: Queue)
    requires Inv(q) && OrdinalInv(q) && SafeRun(q, steps, r)
    ensures OrdinalInv(r)
    decreases |steps|
  {
    if steps != [] {
      StepExact(q, steps[0]);
      StepOrdinal(q, steps[0]);
      RunOrdinal(Next(q, steps[0]).q, steps[1..], r);
    }
  }

  // Back from a record numbered k, the k records ending there are 1, ..., k.
  lemma {:induction false} CountBack(runs: seq<Fire>, i: nat, m: nat)
    requires Numbered(runs) && i < |runs| && m < runs[i].k
    ensures i >= m && runs[i - m].k == runs[i].k - m
    ensures runs[i - m].first == runs[i].first && runs[i - m].interval == runs[i].interval
    decreases m
  {
    if m > 0 {
      CountBack(runs, i, m - 1);
      var j := i - (m - 1);
      assert runs[j].k > 1;
      assert j > 0 && Follows(runs[j - 1], runs[j]);
    }
  }

  // Fixed rate. A record numbered k closes exactly k consecutive runs of one
  // timer, numbered 1 to k; the m-th of them was for first + (m-1)*interval and
  // not early, so by the clock reading now at most (now-first)/interval + 1 runs
  // have happened.
  lemma FixedRate(clock: Time, steps: seq<Step>, q: Queue, id: nat, i: nat)
    requires SafeRun(Init(clock), steps, q) && i < |RunsOf(q.log, id)|
    ensures var runs := RunsOf(q.log, id); var f := runs[i];
            && 0 < f.k <= i + 1
            && (forall j :: i - f.k < j <= i ==>
                  runs[j].k == f.k - (i - j) && runs[j].first == f.first && runs[j].interval == f.interval)
            && f.when == f.first + (f.k - 1) * f.interval && f.when <= f.now
            && (f.interval > 0 ==> f.k <= (f.now - f.first) / f.interval + 1)
  {
    InitInv(clock);
    RunInv(Init(clock), steps, q);
    RunOrdinal(Init(clock), steps, q);
    var runs := RunsOf(q.log, id);
    var f := runs[i];
    RunsAreLogged(q.log, id, i);
    CountBack(runs, i, f.k - 1);
    forall j | i - f.k < j <= i
      ensures runs[j].k == f.k - (i - j) && runs[j].first == f.first && runs[j].interval == f.interval
    {
      CountBack(runs, i, i - j);
    }
    if f.interval > 0 {
      QuotientBound(f.k - 1, f.now - f.first, f.interval);
    }
  }

  // The last n records are the runs 1 to n of one timer.
  predicate EndsWithRuns(runs: seq<Fire>, n: nat, first: Time, interval: int) {
    n <= |runs| && forall j :: |runs| - n <= j < |runs| ==>
      runs[j].k == j - (|runs| - n) + 1 && runs[j].first == first && runs[j].interval == interval
  }

  lemma TailIsNumbered(runs: seq<Fire>)
    requires Numbered(runs) && runs != []
    ensures var last := runs[|runs| - 1]; EndsWithRuns(runs, last.k, last.first, last.interval)
  {
    var last := runs[|runs| - 1];
    CountBack(runs, |runs| - 1, last.k - 1);
    forall j | |runs| - last.k <= j < |runs|
      ensures runs[j].k == j - (|runs| - last.k) + 1
      ensures runs[j].first == last.first && runs[j].interval == last.interval
    {
      CountBack(runs, |runs| - 1, |runs| - 1 - j);
    }
  }

  // A live timer that has been started n times has its runs 1 to n at the end of
  // the log of its address, and its key is first plus one interval for each run
  // that has ended.
  lemma LiveTimerRuns(clock: Time, steps: seq<Step>, q: Queue, id: nat)
    requires SafeRun(Init(clock), steps, q) && id in q.heap
    ensures var t := q.heap[id];
            && EndsWithRuns(RunsOf(q.log, id), Started(q, id), t.first, t.interval)
            && t.when == t.first + t.fires * t.interval
  {
    InitInv(clock);
    RunInv(Init(clock), steps, q);
    RunOrdinal(Init(clock), steps, q);
    var runs := RunsOf(q.log, id);
    assert Numbered(runs) && LastRun(q, id);
    if Started(q, id) > 0 {
      TailIsNumbered(runs);
    }
  }

  lemma PassStep(q: Queue, a: Step)
    requires q.phase.Pass? && Possible(q, a) && !a.EndRead? && Next(q, a).Ok?
    ensures var r := Next(q, a).q;
            && r.phase == q.phase && |q.log| <= |r.log| && r.log[..|q.log|] == q.log
            && forall i :: |q.log| <= i < |r.log| ==> r.log[i].now == q.phase.now
  {
  }

  lemma {:induction false} PassContinues(q: Queue, steps: seq<Step>, r: Queue)
    requires Inv(q) && q.phase.Pass? && SafeRun(q, steps, r)
    requires forall k :: 0 <= k < |steps| ==> !steps[k].EndRead?
    ensures r.phase == q.phase && Inv(r)
    ensures |q.log| <= |r.log| && r.log[..|q.log|] == q.log
    ensures forall i :: |q.log| <= i < |r.log| ==> r.log[i].now == q.phase.now
    decreases |steps|
  {
    if steps != [] {
      assert !steps[0].EndRead?;
      StepExact(q, steps[0]);
      PassStep(q, steps[0]);
      var q1 := Next(q, steps[0]).q;
      PassContinues(q1, steps[1..], r);
      assert r.log[..|q.log|] == r.log[..|q1.log|][..|q.log|];
      assert forall i :: 0 <= i < |q1.log| ==> r.log[i] == r.log[..|q1.log|][i];
    }
  }

  // One handleRead pass runs the callbacks of exactly the timers that were due at
  // its start, each once and in the order of the set, whatever the callbacks add
  // or cancel and even if restarted timers are overdue again.
  lemma PassFiresExactlyTheDue(q: Queue, steps: seq<Step>, r: Queue)
    requires Inv(q) && q.phase == Idle && SafeRun(StartPass(q), steps, r)
    requires forall k :: 0 <= k < |steps| ==> !steps[k].EndRead?
    requires r.batch == []
    ensures |q.log| <= |r.log|
    ensures var fired := FiredEntries(r.log[|q.log|..]);
            && Sorted(fired)
            && forall e :: e in fired <==> e in q.timers && e.when <= q.clock
    ensures forall i :: |q.log| <= i < |r.log| ==> r.log[i].now == q.clock
  {
    StartPassInv(q);
    PassContinues(StartPass(q), steps, r);
    ExpiredSpec(q.timers, q.clock);
    var n := ExpiredCount(q.timers, q.clock);
    var fired := FiredEntries(r.log[|q.log|..]);
    assert fired + [] == fired == q.timers[..n];
    forall e
      ensures e in q.timers[..n] <==> e in q.timers && e.when <= q.clock
    {
      if e in q.timers {
        var i :| 0 <= i < |q.timers| && q.timers[i] == e;
      }
    }
  }

  // Why a callback must not cancel its own timer: handleRead then touches freed
  // memory.
  lemma SelfCancelTouchesFreed(q: Queue)
    requires Inv(q) && q.phase.Pass? && q.running
    ensures q.batch != [] && Possible(q, Cancel(q.batch[0].id)) && Next(q, Cancel(q.batch[0].id)).Ok?
    ensures var r := Next(q, Cancel(q.batch[0].id)).q;
            Possible(r, FireEnd) && Next(r, FireEnd).Fault?
  {
    assert q.batch[0] in q.batch && Matches(q, q.batch[0]);
  }

  // ---- cancelled and one-shot timers ----

  lemma AbsentStep(q: Queue, a: Step, id: nat)
    requires Inv(q) && id !in q.heap && Possible(q, a) && Next(q, a).Ok? && !(a.Add? && a.id == id)
    ensures id !in Next(q, a).q.heap && RunsOf(Next(q, a).q.log, id) == RunsOf(q.log, id)
  {
    if a.FireStart? {
      assert q.batch[0] in q.batch && Matches(q, q.batch[0]);
      var t := q.heap[q.batch[0].id];
      RunsAppend(q.log, Fire(q.batch[0].id, t.fires + 1, t.when, q.phase.now, t.first, t.interval), id);
    }
  }

  predicate NotAddedAgain(steps: seq<Step>, id: nat) {
    forall k :: 0 <= k < |steps| ==> !(steps[k].Add? && steps[k].id == id)
  }

  lemma {:induction false} AbsentStaysSilent(q: Queue, steps: seq<Step>, r: Queue, id: nat)
    requires Inv(q) && id !in q.heap && SafeRun(q, steps, r) && NotAddedAgain(steps, id)
    ensures id !in r.heap && RunsOf(r.log, id) == RunsOf(q.log, id)
    decreases |steps|
  {
    if steps != [] {
      assert !(steps[0].Add? && steps[0].id == id);
      StepExact(q, steps[0]);
      AbsentStep(q, steps[0], id);
      assert forall k :: 0 <= k < |steps[1..]| ==> steps[1..][k] == steps[k + 1];
      AbsentStaysSilent(Next(q, steps[0]).q, steps[1..], r, id);
    }
  }

  // A cancelled timer never runs again.
  lemma CancelledNeverRuns(q: Queue, id: nat, steps: seq<Step>, r: Queue)
    requires Inv(q) && Possible(q, Cancel(id)) && Safe(q, Cancel(id))
    requires Next(q, Cancel(id)).Ok? && SafeRun(Next(q, Cancel(id)).q, steps, r) && NotAddedAgain(steps, id)
    ensures id !in r.heap && RunsOf(r.log, id) == RunsOf(q.log, id)
  {
    SafeCancelInv(q, id);
    AbsentStaysSilent(Next(q, Cancel(id)).q, steps, r, id);
  }

  // Nor does a one-shot timer once its callback has returned.
  lemma OneShotRunsOnce(q: Queue, steps: seq<Step>, r: Queue)
    requires Inv(q) && Possible(q, FireEnd) && q.batch[0].id in q.heap && q.heap[q.batch[0].id].interval <= 0
    requires Next(q, FireEnd).Ok? && SafeRun(Next(q, FireEnd).q, steps, r) && NotAddedAgain(steps, q.batch[0].id)
    ensures q.batch[0].id !in r.heap && RunsOf(r.log, q.batch[0].id) == RunsOf(q.log, q.batch[0].id)
  {
    FinishTimerInv(q);
    AbsentStaysSilent(Next(q, FireEnd).q, steps, r, q.batch[0].id);
  }

  // ---- timers are what was asked for ----

  datatype Asked = Never | Asked(when: Time, interval: int)

  // The last addTimer at an address.
  function LastAdd(steps: seq<Step>, id: nat): (r: Asked) {
    if steps == [] then Never
    else
      var later := LastAdd(steps[1..], id);
      if later.Asked? then later
      else if steps[0].Add? && steps[0].id == id then Asked(steps[0].when, steps[0].interval)
      else Never
  }

  lemma KeepsAsked(q: Queue, a: Step, id: nat)
    requires Inv(q) && Possible(q, a) && Next(q, a).Ok? && id in Next(q, a).q.heap
    ensures var t := Next(q, a).q.heap[id];
            if a.Add? && a.id == id then t.first == a.when && t.interval == a.interval
            else id in q.heap && t.first == q.heap[id].first && t.interval == q.heap[id].interval
  {
    if a.FireEnd? {
      FinishTimerInv(q);
    }
  }

  lemma {:induction false} AskedAlong(q: Queue, steps: seq<Step>, r: Queue, id: nat)
    requires Inv(q) && SafeRun(q, steps, r) && id in r.heap
    ensures match LastAdd(steps, id)
            case Asked(when, interval) => r.heap[id].first == when && r.heap[id].interval == interval
            case Never => id in q.heap && r.heap[id].first == q.heap[id].first && r.heap[id].interval == q.heap[id].interval
    decreases |steps|
  {
    if steps != [] {
      StepExact(q, steps[0]);
      var e := Next(q, steps[0]).q;
      AskedAlong(e, steps[1..], r, id);
      if LastAdd(steps[1..], id).Never? {
        KeepsAsked(q, steps[0], id);
      }
    }
  }

  // A live timer has the first time and the interval of the last addTimer at its
  // address.
  lemma TimersAreAsAsked(clock: Time, steps: seq<Step>, q: Queue, id: nat)
    requires SafeRun(Init(clock), steps, q) && id in q.heap
    ensures LastAdd(steps, id) == Asked(q.heap[id].first, q.heap[id].interval)
  {
    InitInv(clock);
    AskedAlong(Init(clock), steps, q, id);
  }
}
