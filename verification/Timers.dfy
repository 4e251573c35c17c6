// The timer queue: an ordered set of (when, timer) pairs over one kernel timer.
// Timers live in a heap of their own so that freeing and dangling are visible.
module Timers {

  type Time = int                            // nanoseconds
  const MILLISECOND: int := 1000000
  const SECOND: int := 1000000000

  // ---- durationFromNow ----

  datatype TimeSpec = TimeSpec(sec: int, nsec: int)

  function DurationFromNow(when: Time, now: Time): (ts: TimeSpec) {
    var ns := when - now;
    var d := if ns < MILLISECOND then MILLISECOND else ns;
    TimeSpec(d / SECOND, d % SECOND)
  }

  // The kernel gets a normalised, non-zero time (zero would disarm the timer),
  // and it expires at the requested time or one millisecond from now.
  lemma DurationIsExact(when: Time, now: Time)
    ensures var ts := DurationFromNow(when, now);
            && 0 <= ts.sec && 0 <= ts.nsec < SECOND && (ts.sec > 0 || ts.nsec > 0)
            && now + ts.sec * SECOND + ts.nsec == Later(when, now + MILLISECOND)
  {
  }

  function Later(a: Time, b: Time): (t: Time) { if a < b then b else a }

  // ---- the ordered set ----

  datatype Entry = Entry(when: Time, id: nat)   // std::pair<Timestamp, Timer*>

  predicate Less(a: Entry, b: Entry) {
    a.when < b.when || (a.when == b.when && a.id < b.id)
  }

  predicate Sorted(s: seq<Entry>) {
    forall i, j :: 0 <= i < j < |s| ==> Less(s[i], s[j])
  }

  function Insert(s: seq<Entry>, e: Entry): (r: seq<Entry>) {
    if s == [] || Less(e, s[0]) then [e] + s else [s[0]] + Insert(s[1..], e)
  }

  function Erase(s: seq<Entry>, e: Entry): (r: seq<Entry>) {
    if s == [] then [] else if s[0] == e then s[1..] else [s[0]] + Erase(s[1..], e)
  }

  // Length of the prefix before lower_bound((now + 1ns, nullptr)).
  function ExpiredCount(s: seq<Entry>, now: Time): (n: nat)
    ensures n <= |s|
  {
    if s == [] || !Less(s[0], Entry(now + 1, 0)) then 0 else 1 + ExpiredCount(s[1..], now)
  }

  lemma {:induction false} InsertSpec(s: seq<Entry>, e: Entry)
    requires Sorted(s) && e !in s
    ensures Sorted(Insert(s, e)) && |Insert(s, e)| == |s| + 1
    ensures forall x :: x in Insert(s, e) <==> x == e || x in s
    ensures Insert(s, e)[0] == if s == [] || Less(e, s[0]) then e else s[0]
  {
    if s != [] && !Less(e, s[0]) {
      assert s[0] in s && forall x :: x in s <==> x == s[0] || x in s[1..];
      InsertSpec(s[1..], e);
      var r := Insert(s[1..], e);
      forall j | 0 <= j < |r|
        ensures Less(s[0], r[j])
      {
        assert r[j] in r;
      }
    }
  }

  lemma {:induction false} EraseSpec(s: seq<Entry>, e: Entry)
    requires Sorted(s)
    ensures Sorted(Erase(s, e))
    ensures forall x :: x in Erase(s, e) <==> x in s && x != e
    ensures |Erase(s, e)| == |s| - if e in s then 1 else 0
  {
    if s != [] {
      assert s[0] in s && forall x :: x in s <==> x == s[0] || x in s[1..];
      if s[0] == e {
        forall x | x in s[1..]
          ensures x != e
        {
          var j :| 1 <= j < |s| && s[j] == x;
          assert Less(s[0], s[j]);
        }
      } else {
        EraseSpec(s[1..], e);
        var r := Erase(s[1..], e);
        forall j | 0 <= j < |r|
          ensures Less(s[0], r[j])
        {
          assert r[j] in r;
        }
      }
    }
  }

  // Erasing an entry found at position k, or found nowhere.
  lemma {:induction false} EraseAt(s: seq<Entry>, e: Entry, k: nat)
    requires k <= |s| && (k < |s| ==> s[k] == e) && forall j :: 0 <= j < k ==> s[j] != e
    ensures Erase(s, e) == if k < |s| then s[..k] + s[k + 1..] else s
  {
    if s != [] && k > 0 {
      EraseAt(s[1..], e, k - 1);
      assert s == [s[0]] + s[1..];
      if k < |s| {
        assert [s[0]] + s[1..][..k - 1] == s[..k] && s[1..][k..] == s[k + 1..];
      }
    }
  }

  // getExpired takes exactly the entries that are due.
  lemma {:induction false} ExpiredSpec(s: seq<Entry>, now: Time)
    requires Sorted(s)
    ensures var n := ExpiredCount(s, now);
            && (forall i :: 0 <= i < n ==> s[i].when <= now)
            && (forall i :: n <= i < |s| ==> s[i].when > now)
  {
    if s != [] && Less(s[0], Entry(now + 1, 0)) {
      ExpiredSpec(s[1..], now);
      forall i | 0 <= i < |s|
        ensures i < ExpiredCount(s, now) ==> s[i].when <= now
        ensures i >= ExpiredCount(s, now) ==> s[i].when > now
      {
        if i > 0 {
          assert s[i] == s[1..][i - 1];
        }
      }
    } else if s != [] {
      forall i | 0 <= i < |s|
        ensures s[i].when > now
      {
        if i > 0 {
          assert Less(s[0], s[i]);
        }
      }
    }
  }

  // ---- state ----

  datatype Timer = Timer(when: Time, interval: int, canceled: bool, first: Time, fires: nat) {
    predicate Repeat() { interval > 0 }
  }

  // timerfd: Armed remembers what was requested and when it was armed.
  datatype Kernel = Disarmed | Armed(requested: Time, at: Time) | Fired

  // When an armed timer expires: timerfd_settime got durationFromNow.
  function Deadline(k: Kernel): (t: Time)
    requires k.Armed?
  {
    var ts := DurationFromNow(k.requested, k.at);
    k.at + ts.sec * SECOND + ts.nsec
  }

  datatype Phase =
    | Idle
    | Pass(now: Time, all: seq<Entry>, start: nat)   // inside handleRead

  // One run of a timer's callback: the k-th of that timer.
  datatype Fire = Fire(id: nat, k: nat, when: Time, now: Time, first: Time, interval: int)

  datatype Queue = Queue(
    clock: Time,
    timers: seq<Entry>,        // timers_
    heap: map<nat, Timer>,     // live Timer objects
    kernel: Kernel,
    adds: seq<Entry>,          // inserts queued by other threads
    phase: Phase,
    batch: seq<Entry>,         // entries of the pass not yet finished
    running: bool,             // the callback of batch[0] is executing
    log: seq<Fire>)

  datatype Outcome = Ok(q: Queue) | Fault

  function Init(clock: Time): (q: Queue) {
    Queue(clock, [], map[], Disarmed, [], Idle, [], false, [])
  }

  function Arm(q: Queue, when: Time): (r: Queue) {
    q.(kernel := Armed(when, q.clock))
  }

  // The body of addTimer's task; Fault when its assertion fails.
  function InsertTimer(q: Queue, e: Entry): (r: Outcome) {
    if e in q.timers then Fault
    else
      var r := q.(timers := Insert(q.timers, e));
      Ok(if r.timers != [] && r.timers[0] == e then Arm(r, e.when) else r)
  }

  datatype Step =
    | Tick(delta: nat)
    | KernelFires
    | Add(id: nat, when: Time, interval: int, inLoop: bool)
    | RunAdd
    | Cancel(id: nat)
    | BeginRead
    | FireStart
    | FireEnd
    | EndRead

  // The loop thread is executing user code.
  predicate InUserCode(q: Queue) { q.phase == Idle || q.running }

  predicate Possible(q: Queue, a: Step) {
    match a
    case Tick(_) => true
    case KernelFires => q.kernel.Armed? && Deadline(q.kernel) <= q.clock
    case Add(id, _, _, inLoop) => id !in q.heap && (inLoop ==> InUserCode(q))
    case RunAdd => q.phase == Idle && q.adds != []
    case Cancel(_) => InUserCode(q)
    case BeginRead => q.phase == Idle
    case FireStart => q.phase.Pass? && q.batch != [] && !q.running
    case FireEnd => q.phase.Pass? && q.batch != [] && q.running
    case EndRead => q.phase.Pass? && q.batch == []
  }

  function AddTimer(q: Queue, id: nat, when: Time, interval: int, inLoop: bool): (r: Outcome) {
    var h := q.(heap := q.heap[id := Timer(when, interval, false, when, 0)]);
    if inLoop then InsertTimer(h, Entry(when, id)) else Ok(h.(adds := h.adds + [Entry(when, id)]))
  }

  function CancelTimer(q: Queue, id: nat): (r: Outcome) {
    if id !in q.heap || q.heap[id].canceled then Fault
    else Ok(q.(timers := Erase(q.timers, Entry(q.heap[id].when, id)), heap := q.heap - {id}))
  }

  // handleRead up to its loop: the pending expiration is consumed and the due
  // entries move from the set to the batch.
  function StartPass(q: Queue): (r: Queue) {
    var n := ExpiredCount(q.timers, q.clock);
    q.(kernel := if q.kernel == Fired then Disarmed else q.kernel,
       timers := q.timers[n..], batch := q.timers[..n], running := false,
       phase := Pass(q.clock, q.timers[..n], |q.log|))
  }

  // One turn of the loop: up to the callback, and from its return.
  function StartTimer(q: Queue): (r: Outcome)
    requires q.phase.Pass? && q.batch != []
  {
    var id := q.batch[0].id;
    if id !in q.heap || q.heap[id].when > q.phase.now then Fault
    else
      var t := q.heap[id];
      Ok(q.(running := true,
            log := if t.canceled then q.log
                   else q.log + [Fire(id, t.fires + 1, t.when, q.phase.now, t.first, t.interval)]))
  }

  function FinishTimer(q: Queue): (r: Outcome)
    requires q.phase.Pass? && q.batch != []
  {
    var id := q.batch[0].id;
    if id !in q.heap then Fault
    else
      var t := q.heap[id];
      var rest := q.(batch := q.batch[1..], running := false);
      if !t.canceled && t.Repeat() then
        var t' := t.(when := t.when + t.interval, fires := t.fires + 1);
        var e := Entry(t'.when, id);
        // timers_.insert without a check: a duplicate would be dropped
        Ok(rest.(heap := q.heap[id := t'], timers := if e in q.timers then q.timers else Insert(q.timers, e)))
      else Ok(rest.(heap := q.heap - {id}))
  }

  function FinishPass(q: Queue): (r: Queue) {
    var r := q.(phase := Idle);
    if q.timers != [] then Arm(r, q.timers[0].when) else r
  }

  function Next(q: Queue, a: Step): (r: Outcome)
    requires Possible(q, a)
  {
    match a
    case Tick(delta) => Ok(q.(clock := q.clock + delta))
    case KernelFires => Ok(q.(kernel := Fired))
    case Add(id, when, interval, inLoop) => AddTimer(q, id, when, interval, inLoop)
    case RunAdd => InsertTimer(q.(adds := q.adds[1..]), q.adds[0])
    case Cancel(id) => CancelTimer(q, id)
    case BeginRead => Ok(StartPass(q))
    case FireStart => StartTimer(q)
    case FireEnd => FinishTimer(q)
    case EndRead => Ok(FinishPass(q))
  }

  // ---- the invariant ----

  predicate Matches(q: Queue, e: Entry) {
    e.id in q.heap && q.heap[e.id].when == e.when
  }

  // Keys equal when(); the three lists own disjoint timers and together own all.
  ghost predicate Owned(q: Queue) {
    && (forall e :: e in q.timers ==> Matches(q, e))
    && (forall e :: e in q.batch ==> Matches(q, e))
    && (forall e :: e in q.adds ==> Matches(q, e))
    && (forall e :: e in q.timers ==> e !in q.batch && e !in q.adds)
    && (forall e :: e in q.batch ==> e !in q.adds)
    && (forall id :: id in q.heap ==>
          var e := Entry(q.heap[id].when, id); e in q.timers || e in q.batch || e in q.adds)
  }

  predicate Ordered(q: Queue) {
    && Sorted(q.timers) && Sorted(q.batch)
    && (forall i, j :: 0 <= i < j < |q.adds| ==> q.adds[i] != q.adds[j])
  }

  predicate Armedness(q: Queue) {
    && (q.kernel.Armed? ==> q.kernel.at <= q.clock)
    && (q.phase == Idle && q.timers != [] ==>
          q.kernel == Fired || (q.kernel.Armed? && q.kernel.requested <= q.timers[0].when))
  }

  ghost predicate Schedule(q: Queue) {
    && (forall id :: id in q.heap ==>
          && !q.heap[id].canceled
          && q.heap[id].when == q.heap[id].first + q.heap[id].fires * q.heap[id].interval)
    && (forall i :: 0 <= i < |q.log| ==>
          && q.log[i].k > 0 && q.log[i].when <= q.log[i].now
          && q.log[i].when == q.log[i].first + (q.log[i].k - 1) * q.log[i].interval)
  }

  function Fired1(f: Fire): (e: Entry) { Entry(f.when, f.id) }

  function FiredEntries(log: seq<Fire>): (r: seq<Entry>) {
    if log == [] then [] else FiredEntries(log[..|log| - 1]) + [Fired1(log[|log| - 1])]
  }

  predicate PassInv(q: Queue) {
    match q.phase
    case Idle => q.batch == [] && !q.running
    case Pass(now, all, start) =>
      && start <= |q.log| && now <= q.clock
      && (q.running ==> q.batch != [])
      && (forall e :: e in q.batch ==> e.when <= now)
      && FiredEntries(q.log[start..]) + (if q.running then q.batch[1..] else q.batch) == all
  }

  ghost predicate Inv(q: Queue) {
    Owned(q) && Ordered(q) && Armedness(q) && Schedule(q) && PassInv(q)
  }

  // A caller may cancel only a timer that is in the set: not one that is being
  // fired, not one already gone, not one whose insert is still queued.
  predicate Safe(q: Queue, a: Step) {
    a.Cancel? ==> a.id in q.heap && Entry(q.heap[a.id].when, a.id) in q.timers
  }

  lemma InitInv(clock: Time)
    ensures Inv(Init(clock))
  {
  }

  lemma InsertTimerInv(q: Queue, e: Entry)
    requires Ordered(q) && Armedness(q) && Schedule(q) && PassInv(q)
    requires e !in q.timers && e !in q.batch && e !in q.adds && Matches(q, e)
    requires forall x :: x in q.timers || x in q.batch || x in q.adds ==> Matches(q, x)
    requires forall x :: x in q.timers ==> x !in q.batch && x !in q.adds
    requires forall x :: x in q.batch ==> x !in q.adds
    requires forall id :: id in q.heap && id != e.id ==>
               var x := Entry(q.heap[id].when, id); x in q.timers || x in q.batch || x in q.adds
    ensures InsertTimer(q, e).Ok? && Inv(InsertTimer(q, e).q)
    // The kernel timer is set for the new entry exactly when it is the earliest.
    ensures InsertTimer(q, e).q.kernel ==
            if q.timers == [] || Less(e, q.timers[0]) then Armed(e.when, q.clock) else q.kernel
  {
    InsertSpec(q.timers, e);
  }

  lemma AddNowInv(q: Queue, id: nat, when: Time, interval: int)
    requires Inv(q) && id !in q.heap
    ensures AddTimer(q, id, when, interval, true).Ok? && Inv(AddTimer(q, id, when, interval, true).q)
  {
    var h := q.(heap := q.heap[id := Timer(when, interval, false, when, 0)]);
    InsertTimerInv(h, Entry(when, id));
  }

  // The new timer is what was asked for, and the others are what they were.
  ghost predicate Added(q: Queue, r: Queue, id: nat, when: Time, interval: int) {
    && id in r.heap && r.heap[id].when == r.heap[id].first == when && r.heap[id].interval == interval
    && r.heap[id].fires == 0 && !r.heap[id].canceled
    && (forall x :: x != id ==> (x in r.heap <==> x in q.heap) && (x in q.heap ==> r.heap[x] == q.heap[x]))
    && r.batch == q.batch && r.phase == q.phase && r.log == q.log && r.clock == q.clock
  }

  lemma AddQueuedInv(q: Queue, id: nat, when: Time, interval: int)
    requires Inv(q) && id !in q.heap
    ensures AddTimer(q, id, when, interval, false).Ok? && Inv(AddTimer(q, id, when, interval, false).q)
  {
    var e := Entry(when, id);
    assert !Matches(q, e);
    assert e !in q.adds && e !in q.timers && e !in q.batch;
  }

  // addTimer: the timer asked for, in the set or on its way to it.
  lemma AddIsExact(q: Queue, id: nat, when: Time, interval: int, inLoop: bool)
    requires Sorted(q.timers) && id !in q.heap && Entry(when, id) !in q.timers
    ensures AddTimer(q, id, when, interval, inLoop).Ok?
    ensures Added(q, AddTimer(q, id, when, interval, inLoop).q, id, when, interval)
    ensures var r := AddTimer(q, id, when, interval, inLoop).q;
            if inLoop then r.adds == q.adds && forall e :: e in r.timers <==> e == Entry(when, id) || e in q.timers
            else r.timers == q.timers && r.kernel == q.kernel && r.adds == q.adds + [Entry(when, id)]
  {
    InsertSpec(q.timers, Entry(when, id));
  }

  lemma RunAddInv(q: Queue)
    requires Inv(q) && Possible(q, RunAdd)
    ensures Next(q, RunAdd).Ok? && Inv(Next(q, RunAdd).q)
  {
    var d := q.(adds := q.adds[1..]);
    var e := q.adds[0];
    assert e in q.adds && forall x :: x in q.adds <==> x == e || x in d.adds;
    assert e !in d.adds;
    InsertTimerInv(d, e);
  }

  lemma SafeCancelInv(q: Queue, id: nat)
    requires Inv(q) && id in q.heap && Entry(q.heap[id].when, id) in q.timers
    ensures CancelTimer(q, id).Ok? && Inv(CancelTimer(q, id).q)
    ensures |CancelTimer(q, id).q.timers| == |q.timers| - 1
    ensures Cancelled(q, CancelTimer(q, id).q, id)
  {
    var e := Entry(q.heap[id].when, id);
    EraseSpec(q.timers, e);
    EraseFirst(q.timers, e);
    var d := CancelTimer(q, id).q;
    forall x | x in d.timers || x in d.batch || x in d.adds
      ensures Matches(d, x)
    {
      assert Matches(q, x) && x != e;
    }
    forall x | x in q.timers && x.id == id
      ensures x == e
    {
      assert Matches(q, x);
    }
  }

  // That timer is gone from the set and from memory, and nothing else is.
  ghost predicate Cancelled(q: Queue, r: Queue, id: nat) {
    && id !in r.heap
    && (forall x :: x != id ==> (x in r.heap <==> x in q.heap) && (x in q.heap ==> r.heap[x] == q.heap[x]))
    && (forall e :: e in r.timers <==> e in q.timers && e.id != id)
    && r == q.(timers := r.timers, heap := r.heap)
  }

  lemma UnsafeCancel(q: Queue, id: nat)
    requires Inv(q) && !(id in q.heap && Entry(q.heap[id].when, id) in q.timers)
    ensures !(CancelTimer(q, id).Ok? && Inv(CancelTimer(q, id).q))
  {
    if id in q.heap {
      var e := Entry(q.heap[id].when, id);
      var d := CancelTimer(q, id).q;
      assert e in d.batch || e in d.adds;
      assert !Matches(d, e);
    }
  }

  // Cancelling keeps ownership exactly when the timer is in the set, and then it
  // takes exactly one entry out.
  lemma CancelExact(q: Queue, id: nat)
    requires Inv(q) && Possible(q, Cancel(id))
    ensures CancelTimer(q, id).Ok? && Inv(CancelTimer(q, id).q) <==> Safe(q, Cancel(id))
    ensures Safe(q, Cancel(id)) ==>
              CancelTimer(q, id).Ok? && |CancelTimer(q, id).q.timers| == |q.timers| - 1 &&
              Cancelled(q, CancelTimer(q, id).q, id)
  {
    if Safe(q, Cancel(id)) {
      SafeCancelInv(q, id);
    } else {
      UnsafeCancel(q, id);
    }
  }

  lemma EraseFirst(s: seq<Entry>, e: Entry)
    requires Sorted(s)
    ensures Erase(s, e) != [] ==> s != [] && s[0].when <= Erase(s, e)[0].when
  {
    EraseSpec(s, e);
    if Erase(s, e) != [] {
      var x := Erase(s, e)[0];
      assert x in Erase(s, e);
      var i :| 0 <= i < |s| && s[i] == x;
      if i > 0 {
        assert Less(s[0], s[i]);
      }
    }
  }

  lemma StartPassInv(q: Queue)
    requires Inv(q) && q.phase == Idle
    ensures Inv(StartPass(q))
  {
    var n := ExpiredCount(q.timers, q.clock);
    ExpiredSpec(q.timers, q.clock);
    var r := StartPass(q);
    assert forall e :: e in q.timers <==> e in q.timers[..n] || e in q.timers[n..];
    forall e | e in q.timers[..n]
      ensures e !in q.timers[n..]
    {
      var i :| 0 <= i < n && q.timers[i] == e;
      assert forall j :: n <= j < |q.timers| ==> Less(q.timers[i], q.timers[j]);
    }
    assert r.log[|q.log|..] == [];
  }

  // handleRead before its loop: the expiration is consumed, and the due entries
  // are all that moves.
  lemma StartPassMoves(q: Queue)
    requires Sorted(q.timers)
    ensures var r := StartPass(q);
            && r.kernel != Fired && (q.kernel != Fired ==> r.kernel == q.kernel)
            && r.heap == q.heap && r.adds == q.adds && r.log == q.log && r.clock == q.clock && !r.running
            && (forall e :: e in r.batch <==> e in q.timers && e.when <= q.clock)
            && (forall e :: e in r.timers <==> e in q.timers && e.when > q.clock)
  {
    var n := ExpiredCount(q.timers, q.clock);
    ExpiredSpec(q.timers, q.clock);
    assert forall e :: e in q.timers <==> e in q.timers[..n] || e in q.timers[n..];
  }

  lemma FiredAppend(log: seq<Fire>, f: Fire)
    ensures FiredEntries(log + [f]) == FiredEntries(log) + [Fired1(f)]
  {
    assert (log + [f])[..|log + [f]| - 1] == log;
  }

  lemma StartTimerLog(q: Queue, f: Fire)
    requires PassInv(q) && Possible(q, FireStart) && Fired1(f) == q.batch[0]
    ensures PassInv(q.(running := true, log := q.log + [f]))
  {
    var start := q.phase.start;
    assert (q.log + [f])[start..] == q.log[start..] + [f];
    FiredAppend(q.log[start..], f);
    assert q.batch == [q.batch[0]] + q.batch[1..];
    assert FiredEntries(q.log[start..]) + [Fired1(f)] + q.batch[1..] == FiredEntries(q.log[start..]) + q.batch;
  }

  lemma ScheduleLog(q: Queue, f: Fire)
    requires Schedule(q) && f.k > 0 && f.when <= f.now && f.when == f.first + (f.k - 1) * f.interval
    ensures Schedule(q.(running := true, log := q.log + [f]))
  {
  }

  lemma StartTimerInv(q: Queue)
    requires Inv(q) && Possible(q, FireStart)
    ensures StartTimer(q).Ok? && Inv(StartTimer(q).q)
  {
    var e := q.batch[0];
    assert e in q.batch && Matches(q, e);
    var t := q.heap[e.id];
    var f := Fire(e.id, t.fires + 1, t.when, q.phase.now, t.first, t.interval);
    StartTimerLog(q, f);
    ScheduleLog(q, f);
    assert StartTimer(q) == Ok(q.(running := true, log := q.log + [f]));
  }

  // After the callback of batch[0]: what is left of the batch.
  lemma PopBatch(q: Queue)
    requires Inv(q) && Possible(q, FireEnd)
    ensures q.batch[0] in q.batch && q.batch[0] !in q.batch[1..] && Matches(q, q.batch[0])
    ensures forall x :: x in q.batch <==> x == q.batch[0] || x in q.batch[1..]
    ensures Sorted(q.batch[1..])
  {
    assert q.batch[0] in q.batch;
    assert forall j :: 1 <= j < |q.batch| ==> Less(q.batch[0], q.batch[j]);
  }

  lemma DeleteInv(q: Queue)
    requires Inv(q) && Possible(q, FireEnd)
    ensures Inv(q.(batch := q.batch[1..], running := false, heap := q.heap - {q.batch[0].id}))
  {
    PopBatch(q);
  }

  lemma RestartSchedule(q: Queue, id: nat)
    requires Schedule(q) && id in q.heap
    ensures var t := q.heap[id];
            Schedule(q.(heap := q.heap[id := t.(when := t.when + t.interval, fires := t.fires + 1)]))
  {
    var t := q.heap[id];
    assert (t.fires + 1) * t.interval == t.fires * t.interval + t.interval;
  }

  lemma ScheduleFrame(q: Queue, r: Queue)
    requires Schedule(q) && r.heap == q.heap && r.log == q.log
    ensures Schedule(r)
  {
  }

  function Restarted(q: Queue, e: Entry, t: Timer): (r: Queue)
    requires q.batch != []
  {
    q.(batch := q.batch[1..], running := false, heap := q.heap[e.id := t], timers := Insert(q.timers, e))
  }

  // The restarted timer goes back under its new key.
  lemma RestartKeyIsNew(q: Queue, e: Entry)
    requires Inv(q) && Possible(q, FireEnd) && e.id == q.batch[0].id && e.when != q.batch[0].when
    ensures e !in q.timers && e !in q.batch && e !in q.adds
  {
    PopBatch(q);
    assert !Matches(q, e);
  }

  lemma RestartOwned(q: Queue, e: Entry, t: Timer)
    requires Inv(q) && Possible(q, FireEnd) && e.id == q.batch[0].id && t.when == e.when != q.batch[0].when
    ensures Owned(Restarted(q, e, t))
  {
    PopBatch(q);
    RestartKeyIsNew(q, e);
    InsertSpec(q.timers, e);
    var r := Restarted(q, e, t);
    forall x | x in r.timers || x in r.batch || x in r.adds
      ensures Matches(r, x)
    {
      if x != e {
        assert Matches(q, x) && x != q.batch[0];
      }
    }
  }

  lemma RestartOrdered(q: Queue, e: Entry, t: Timer)
    requires Inv(q) && Possible(q, FireEnd) && e.id == q.batch[0].id && e.when != q.batch[0].when
    ensures Ordered(Restarted(q, e, t))
  {
    PopBatch(q);
    RestartKeyIsNew(q, e);
    InsertSpec(q.timers, e);
  }

  lemma RestartRest(q: Queue, e: Entry, t: Timer)
    requires Inv(q) && Possible(q, FireEnd)
    ensures Armedness(Restarted(q, e, t)) && PassInv(Restarted(q, e, t))
  {
  }

  lemma RestartInv(q: Queue, e: Entry, t: Timer)
    requires Inv(q) && Possible(q, FireEnd) && q.batch[0].id == e.id && e.id in q.heap && q.heap[e.id].Repeat()
    requires t == q.heap[e.id].(when := q.heap[e.id].when + q.heap[e.id].interval, fires := q.heap[e.id].fires + 1)
    requires e.when == t.when && q.heap[e.id].when == q.batch[0].when
    ensures e !in q.timers && Inv(Restarted(q, e, t))
  {
    RestartKeyIsNew(q, e);
    RestartOwned(q, e, t);
    RestartOrdered(q, e, t);
    RestartRest(q, e, t);
    RestartKeepsSchedule(q, e, t);
  }

  lemma RestartKeepsSchedule(q: Queue, e: Entry, t: Timer)
    requires Schedule(q) && q.batch != [] && e.id in q.heap
    requires t == q.heap[e.id].(when := q.heap[e.id].when + q.heap[e.id].interval, fires := q.heap[e.id].fires + 1)
    ensures Schedule(Restarted(q, e, t))
  {
    RestartSchedule(q, e.id);
    ScheduleFrame(q.(heap := q.heap[e.id := t]), Restarted(q, e, t));
  }

  lemma FinishRepeating(q: Queue)
    requires Inv(q) && Possible(q, FireEnd) && Matches(q, q.batch[0]) && q.heap[q.batch[0].id].Repeat()
    ensures FinishTimer(q).Ok? && Inv(FinishTimer(q).q)
  {
    var id := q.batch[0].id;
    var t := q.heap[id];
    var e := Entry(t.when + t.interval, id);
    var t' := t.(when := t.when + t.interval, fires := t.fires + 1);
    RestartInv(q, e, t');
    FinishIsRestart(q, e, t');
  }

  lemma FinishIsRestart(q: Queue, e: Entry, t: Timer)
    requires q.phase.Pass? && q.batch != [] && e.id == q.batch[0].id && e.id in q.heap && e !in q.timers
    requires q.heap[e.id].Repeat() && !q.heap[e.id].canceled && e.when == t.when
    requires t == q.heap[e.id].(when := q.heap[e.id].when + q.heap[e.id].interval, fires := q.heap[e.id].fires + 1)
    ensures FinishTimer(q) == Ok(Restarted(q, e, t))
  {
  }

  lemma FinishTimerInv(q: Queue)
    requires Inv(q) && Possible(q, FireEnd)
    ensures FinishTimer(q).Ok? && Inv(FinishTimer(q).q)
    ensures Ended(q, FinishTimer(q).q, q.batch[0].id)
  {
    PopBatch(q);
    FinishEnds(q);
    if q.heap[q.batch[0].id].Repeat() {
      FinishRepeating(q);
    } else {
      DeleteInv(q);
    }
  }

  // A repeating timer is back in the set one interval later; any other is gone.
  ghost predicate Ended(q: Queue, r: Queue, id: nat) {
    && id in q.heap
    && (if q.heap[id].interval > 0 then
          && id in r.heap && r.heap[id].when == q.heap[id].when + q.heap[id].interval
          && r.heap[id].interval == q.heap[id].interval && r.heap[id].first == q.heap[id].first
          && (forall e :: e in r.timers <==> e in q.timers || e == Entry(q.heap[id].when + q.heap[id].interval, id))
        else
          id !in r.heap && r.timers == q.timers)
    && (forall x :: x != id ==> (x in r.heap <==> x in q.heap) && (x in q.heap ==> r.heap[x] == q.heap[x]))
    && r.adds == q.adds && r.log == q.log && r.kernel == q.kernel && r.phase == q.phase && r.clock == q.clock
  }

  lemma FinishEnds(q: Queue)
    requires Inv(q) && Possible(q, FireEnd) && Matches(q, q.batch[0])
    ensures FinishTimer(q).Ok? && Ended(q, FinishTimer(q).q, q.batch[0].id)
  {
    var id := q.batch[0].id;
    var t := q.heap[id];
    if t.Repeat() {
      var e := Entry(t.when + t.interval, id);
      var t' := t.(when := t.when + t.interval, fires := t.fires + 1);
      RestartKeyIsNew(q, e);
      FinishIsRestart(q, e, t');
      RestartEnds(q, e, t');
    }
  }

  lemma RestartEnds(q: Queue, e: Entry, t: Timer)
    requires q.batch != [] && Sorted(q.timers) && e !in q.timers && e.id in q.heap && q.heap[e.id].interval > 0
    requires t == q.heap[e.id].(when := q.heap[e.id].when + q.heap[e.id].interval, fires := q.heap[e.id].fires + 1)
    requires e.when == t.when
    ensures Ended(q, Restarted(q, e, t), e.id)
  {
    InsertSpec(q.timers, e);
  }

  lemma FinishPassInv(q: Queue)
    requires Inv(q) && Possible(q, EndRead)
    ensures Inv(FinishPass(q))
  {
  }

  // No assertion fails, nothing freed is touched and the invariant is kept
  // exactly by the safe steps.
  lemma StepExact(q: Queue, a: Step)
    requires Inv(q) && Possible(q, a)
    ensures Next(q, a).Ok? && Inv(Next(q, a).q) <==> Safe(q, a)
  {
    match a
    case Add(id, when, interval, inLoop) =>
      if inLoop {
        AddNowInv(q, id, when, interval);
      } else {
        AddQueuedInv(q, id, when, interval);
      }
    case RunAdd => RunAddInv(q);
    case Cancel(id) => CancelExact(q, id);
    case BeginRead => StartPassInv(q);
    case FireStart => StartTimerInv(q);
    case FireEnd => FinishTimerInv(q);
    case EndRead => FinishPassInv(q);
    case Tick(_) =>
    case KernelFires =>
  }
}
