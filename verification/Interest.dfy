// Interest sets, the ADD/MOD/DEL choice of the poller and the kernel's table.
module Interest {

  datatype Event = In | Pri | Out | RdHup | Hup | Err
  type Events = set<Event>

  // Channel::enableRead ... disableAll: the new value of events_.
  datatype InterestOp = EnableRead | EnableWrite | DisableRead | DisableWrite | DisableAll

  function NewEvents(ev: Events, op: InterestOp): (r: Events) {
    match op
    case EnableRead => ev + {In, Pri}
    case EnableWrite => ev + {Out}
    case DisableRead => ev - {In}
    case DisableWrite => ev - {Out}
    case DisableAll => {}
  }

  datatype CtlOp = Add | Mod | Del

  // One row of the kernel's interest list: the mask and the user pointer.
  datatype Entry<P> = Entry(events: Events, ptr: P)
  type Table<P> = map<int, Entry<P>>

  datatype Option<T> = None | Some(value: T)

  // epoll_ctl: ADD on a present fd fails with EEXIST, MOD and DEL on an absent
  // one with ENOENT.
  function EpollCtl<P>(table: Table<P>, op: CtlOp, fd: int, entry: Entry<P>): (r: Option<Table<P>>) {
    match op
    case Add => if fd in table then None else Some(table[fd := entry])
    case Mod => if fd in table then Some(table[fd := entry]) else None
    case Del => if fd in table then Some(table - {fd}) else None
  }

  datatype Chan = Chan(events: Events, pooling: bool)

  // EPollPoller::updateChannel; None when its assertion fails.
  function ChooseOp(c: Chan): (r: Option<CtlOp>) {
    if !c.pooling then (if c.events == {} then None else Some(Add))
    else Some(if c.events != {} then Mod else Del)
  }

  function Pooled(op: CtlOp): (b: bool) { op != Del }

  // An interest change pushed down to the kernel; None on a failed assertion or
  // a refused epoll_ctl.
  function Update<P>(table: Table<P>, fd: int, ptr: P, c: Chan, op: InterestOp): (r: Option<(Chan, Table<P>)>) {
    var c' := c.(events := NewEvents(c.events, op));
    var ctl := ChooseOp(c');
    if ctl.None? then None else
      var t := EpollCtl(table, ctl.value, fd, Entry(c'.events, ptr));
      if t.None? then None else Some((c'.(pooling := Pooled(ctl.value)), t.value))
  }

  // ---- any number of channels on one poller; a channel is named by its fd ----

  datatype Poller = Poller(chans: map<int, Chan>, table: Table<int>)

  ghost predicate Agree(p: Poller) {
    && (forall fd :: fd in p.table ==> fd in p.chans)
    && (forall fd :: fd in p.chans ==>
          && (p.chans[fd].pooling <==> fd in p.table)
          && (p.chans[fd].pooling <==> p.chans[fd].events != {})
          && (fd in p.table ==> p.table[fd] == Entry(p.chans[fd].events, fd)))
  }

  datatype PollerStep =
    | Create(fd: int)                  // a Channel is constructed on a new descriptor
    | Change(fd: int, op: InterestOp)

  predicate Applicable(p: Poller, a: PollerStep) {
    if a.Create? then a.fd !in p.chans else a.fd in p.chans
  }

  function Do(p: Poller, a: PollerStep): (r: Option<Poller>)
    requires Applicable(p, a)
  {
    match a
    case Create(fd) => Some(p.(chans := p.chans[fd := Chan({}, false)]))
    case Change(fd, op) =>
      var u := Update(p.table, fd, fd, p.chans[fd], op);
      if u.None? then None else Some(Poller(p.chans[fd := u.value.0], u.value.1))
  }

  // What a caller has to respect: interest is withdrawn only from a channel that
  // has some.
  predicate Legal(p: Poller, a: PollerStep)
    requires Applicable(p, a)
  {
    a.Change? ==> p.chans[a.fd].pooling || a.op == EnableRead || a.op == EnableWrite
  }

  // From an agreeing state an update trips no assertion and gets no error from
  // epoll_ctl exactly when it is legal, and then agreement is kept.
  lemma UpdateExact(p: Poller, a: PollerStep)
    requires Agree(p) && Applicable(p, a)
    ensures Do(p, a).Some? <==> Legal(p, a)
    ensures Do(p, a).Some? ==> Agree(Do(p, a).value)
  {
    if a.Change? {
      assert Pri in NewEvents(p.chans[a.fd].events, EnableRead);
      assert Out in NewEvents(p.chans[a.fd].events, EnableWrite);
    }
  }

  ghost predicate LegalRun(p: Poller, steps: seq<PollerStep>)
    decreases |steps|
  {
    steps != [] ==>
      Applicable(p, steps[0]) && Legal(p, steps[0]) &&
      (Do(p, steps[0]).Some? ==> LegalRun(Do(p, steps[0]).value, steps[1..]))
  }

  ghost predicate RunsTo(p: Poller, steps: seq<PollerStep>, q: Poller)
    decreases |steps|
  {
    if steps == [] then p == q
    else Applicable(p, steps[0]) && Do(p, steps[0]).Some? && RunsTo(Do(p, steps[0]).value, steps[1..], q)
  }

  // Over any legal run on any number of channels the kernel's table is exactly
  // the pooled channels with their interest sets, and no epoll_ctl is refused.
  lemma {:induction false} TableAgrees(p: Poller, steps: seq<PollerStep>) returns (q: Poller)
    requires Agree(p) && LegalRun(p, steps)
    ensures RunsTo(p, steps, q) && Agree(q)
    decreases |steps|
  {
    if steps == [] {
      q := p;
    } else {
      UpdateExact(p, steps[0]);
      q := TableAgrees(Do(p, steps[0]).value, steps[1..]);
    }
  }

  // ---- dispatch ----

  datatype Callback = CloseCb | ErrorCb | ReadCb | WriteCb

  // handleEventWithGuard: which callbacks run, in which order.
  function Dispatch(revents: Events): (cbs: seq<Callback>) {
    (if Hup in revents && In !in revents then [CloseCb] else [])
    + (if Err in revents then [ErrorCb] else [])
    + (if In in revents || Pri in revents || RdHup in revents then [ReadCb] else [])
    + (if Out in revents then [WriteCb] else [])
  }

  // The same list, read from the right.
  lemma DispatchSplit(revents: Events)
    ensures Dispatch(revents) ==
              (if Hup in revents && In !in revents then [CloseCb] else [])
              + ((if Err in revents then [ErrorCb] else [])
                 + ((if In in revents || Pri in revents || RdHup in revents then [ReadCb] else [])
                    + (if Out in revents then [WriteCb] else [])))
  {
  }

  predicate ReadsAfterClose(cbs: seq<Callback>) {
    exists i, j :: 0 <= i < j < |cbs| && cbs[i] == CloseCb && cbs[j] == ReadCb
  }

  // A report that makes one dispatch close the connection and then read it.
  predicate HupWithData(revents: Events) {
    Hup in revents && In !in revents && (Pri in revents || RdHup in revents)
  }

  function Turn(cb: Callback): (n: nat) {
    match cb case CloseCb => 0 case ErrorCb => 1 case ReadCb => 2 case WriteCb => 3
  }

  // Each callback runs for the events the source names and for no others, none
  // runs twice, and they run in the order close, error, read, write.
  lemma DispatchOrder(revents: Events)
    ensures CloseCb in Dispatch(revents) <==> Hup in revents && In !in revents
    ensures ErrorCb in Dispatch(revents) <==> Err in revents
    ensures ReadCb in Dispatch(revents) <==> revents * {In, Pri, RdHup} != {}
    ensures WriteCb in Dispatch(revents) <==> Out in revents
    ensures forall i, j :: 0 <= i < j < |Dispatch(revents)| ==>
              Turn(Dispatch(revents)[i]) < Turn(Dispatch(revents)[j])
  {
    var readable := revents * {In, Pri, RdHup};
    assert In in revents ==> In in readable;
    assert Pri in revents ==> Pri in readable;
    assert RdHup in revents ==> RdHup in readable;
    if readable != {} {
      var e :| e in readable;
    }
  }

  lemma DispatchReadsAfterCloseIff(revents: Events)
    ensures ReadsAfterClose(Dispatch(revents)) <==> HupWithData(revents)
  {
    var cbs := Dispatch(revents);
    if HupWithData(revents) {
      assert cbs[0] == CloseCb;
      assert cbs[if Err in revents then 2 else 1] == ReadCb;
    }
  }
}
