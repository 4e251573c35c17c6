// What a call that breaks the rules of the timer queue leads to: a failed
// assertion or the use of a freed timer, and nothing else does.
module TimerFaults {
  import opened Timers
  import opened TimerRuns

  // A run of steps that all keep the rules, the last of which fails.
  ghost predicate Breaks(q: Queue, steps: seq<Step>)
    decreases |steps|
  {
    && steps != [] && Possible(q, steps[0]) && Safe(q, steps[0])
    && (Next(q, steps[0]).Ok? ==> Breaks(Next(q, steps[0]).q, steps[1..]))
  }

  // Step a fails, or lets a step that keeps the rules fail later.
  ghost predicate LeadsToFault(q: Queue, a: Step)
    requires Possible(q, a)
  {
    Next(q, a).Fault? || exists steps :: Breaks(Next(q, a).q, steps)
  }

  lemma Prepend(q: Queue, a: Step, rest: seq<Step>) returns (steps: seq<Step>)
    requires Possible(q, a) && Safe(q, a) && (Next(q, a).Ok? ==> Breaks(Next(q, a).q, rest))
    ensures Breaks(q, steps)
  {
    steps := [a] + rest;
    assert steps[1..] == rest;
  }

  lemma {:induction false} InvNeverBreaks(q: Queue, steps: seq<Step>)
    requires Inv(q)
    ensures !Breaks(q, steps)
    decreases |steps|
  {
    if Breaks(q, steps) {
      StepExact(q, steps[0]);
      InvNeverBreaks(Next(q, steps[0]).q, steps[1..]);
    }
  }

  // ---- a freed timer in the batch ----

  lemma {:induction false} FreedInBatchBreaks(q: Queue, k: nat) returns (steps: seq<Step>)
    requires q.phase.Pass? && k < |q.batch| && q.batch[k].id !in q.heap
    ensures Breaks(q, steps)
    decreases |q.batch|, if q.running then 0 else 1
  {
    var a := if q.running then FireEnd else FireStart;
    var rest := [];
    if Next(q, a).Ok? {
      rest := FreedInBatchBreaks(Next(q, a).q, if q.running then k - 1 else k);
    }
    steps := Prepend(q, a, rest);
  }

  // ---- a freed timer in the set ----

  function Latest(s: seq<Entry>): (t: Time) {
    if s == [] then 0 else Later(s[0].when, Latest(s[1..]))
  }

  lemma {:induction false} AllDue(s: seq<Entry>, now: Time)
    requires Latest(s) <= now
    ensures ExpiredCount(s, now) == |s|
  {
    if s != [] {
      AllDue(s[1..], now);
    }
  }

  // Once everything is due the kernel timer fires and the pass reaches it.
  lemma FreedInSetBreaks(q: Queue, k: nat) returns (steps: seq<Step>)
    requires q.phase == Idle && Armedness(q) && k < |q.timers| && q.timers[k].id !in q.heap
    ensures Breaks(q, steps)
  {
    var due := if q.kernel.Armed? then Later(Latest(q.timers), Deadline(q.kernel)) else Latest(q.timers);
    var delta := if due > q.clock then due - q.clock else 0;
    var late := Next(q, Tick(delta)).q;
    var fired := late.(kernel := Fired);
    AllDue(fired.timers, fired.clock);
    steps := FreedInBatchBreaks(StartPass(fired), k);
    steps := Prepend(fired, BeginRead, steps);
    if q.kernel.Armed? {
      steps := Prepend(late, KernelFires, steps);
    }
    steps := Prepend(q, Tick(delta), steps);
  }

  // ---- a freed timer whose insert is still queued ----

  lemma {:induction false} InsertPosition(s: seq<Entry>, e: Entry) returns (k: nat)
    ensures k < |Insert(s, e)| && Insert(s, e)[k] == e
  {
    if s == [] || Less(e, s[0]) {
      k := 0;
    } else {
      k := InsertPosition(s[1..], e);
      k := k + 1;
    }
  }

  lemma {:induction false} FreedInAddsBreaks(q: Queue, k: nat) returns (steps: seq<Step>)
    requires k < |q.adds| && q.adds[k].id !in q.heap && (q.running ==> q.batch != []) && Armedness(q)
    ensures Breaks(q, steps)
    decreases |q.adds|, q.phase.Pass?, |q.batch|, if q.running then 0 else 1
  {
    var a := if q.phase == Idle then RunAdd
             else if q.batch == [] then EndRead
             else if q.running then FireEnd else FireStart;
    var rest := [];
    if Next(q, a).Ok? {
      var r := Next(q, a).q;
      if a == RunAdd && k == 0 {
        var i := InsertPosition(q.timers, q.adds[0]);
        rest := FreedInSetBreaks(r, i);
      } else {
        rest := FreedInAddsBreaks(r, if a == RunAdd then k - 1 else k);
      }
    }
    steps := Prepend(q, a, rest);
  }

  // ---- the exact rule ----

  lemma UnsafeCancelBreaks(q: Queue, id: nat)
    requires Inv(q) && Possible(q, Cancel(id)) && !Safe(q, Cancel(id))
    ensures LeadsToFault(q, Cancel(id))
  {
    if CancelTimer(q, id).Ok? {
      var d := CancelTimer(q, id).q;
      var e := Entry(q.heap[id].when, id);
      if e in q.batch {
        var k :| 0 <= k < |q.batch| && q.batch[k] == e;
        var steps := FreedInBatchBreaks(d, k);
      } else {
        var k :| 0 <= k < |q.adds| && q.adds[k] == e;
        var steps := FreedInAddsBreaks(d, k);
      }
    }
  }

  // cancelTimer on a timer in the set, and every other call, can do no harm;
  // cancelTimer on anything else has a continuation in which an assertion fails
  // or a freed timer is used.
  lemma FaultIff(q: Queue, a: Step)
    requires Inv(q) && Possible(q, a)
    ensures LeadsToFault(q, a) <==> !Safe(q, a)
  {
    StepExact(q, a);
    if Safe(q, a) {
      forall steps
        ensures !Breaks(Next(q, a).q, steps)
      {
        InvNeverBreaks(Next(q, a).q, steps);
      }
    } else {
      UnsafeCancelBreaks(q, a.id);
    }
  }
}
