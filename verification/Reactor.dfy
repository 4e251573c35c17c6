// Channel and EPollPoller: interest bits and the poller's registration, updated
// in place. The kernel's interest list is the field table.
module Reactor {
  import opened Interest

  class Channel {
    const fd: int
    var events: Events
    var revents: Events
    var pooling: bool

    constructor (fd: int)
      ensures this.fd == fd && events == {} && revents == {} && !pooling
    {
      this.fd := fd;
      events := {};
      revents := {};
      pooling := false;
    }

    ghost function View(): (c: Chan)
      reads this`events, this`pooling
    {
      Chan(events, pooling)
    }

    method IsReading() returns (b: bool)
      ensures b == (In in events)
    {
      b := In in events;
    }

    method IsWriting() returns (b: bool)
      ensures b == (Out in events)
    {
      b := Out in events;
    }

    // enableRead, enableWrite, disableRead, disableWrite and disableAll: change
    // events_, then push the change down. The precondition is the assertion of
    // updateChannel.
    method Change(op: InterestOp, poller: EPollPoller)
      requires poller.Agrees() && this in poller.chans
      requires pooling || NewEvents(events, op) != {}
      modifies this`events, this`pooling, poller`table
      ensures poller.Agrees()
      ensures Update(old(poller.table), fd, this, old(View()), op) == Some((View(), poller.table))
    {
      match op {
        case EnableRead => events := events + {In, Pri};
        case EnableWrite => events := events + {Out};
        case DisableRead => events := events - {In};
        case DisableWrite => events := events - {Out};
        case DisableAll => events := {};
      }
      poller.UpdateChannel(this);
    }
  }

  class EPollPoller {
    var table: Table<Channel>       // the kernel's interest list
    var capacity: nat               // events_.size()
    ghost const chans: set<Channel> // the channels of this loop

    constructor (ghost chans: set<Channel>)
      requires forall c <- chans :: c.events == {} && !c.pooling
      requires forall c, d :: c in chans && d in chans && c.fd == d.fd ==> c == d
      ensures this.chans == chans && table == map[] && capacity == 128 && Agrees()
    {
      table := map[];
      capacity := 128;
      this.chans := chans;
    }

    // Row by row: registered exactly when pooled, with the interest it has.
    ghost predicate AgreesOn(c: Channel)
      reads this, c
    {
      && (c.pooling <==> c.fd in table)
      && (c.pooling <==> c.events != {})
      && (c.fd in table ==> table[c.fd] == Entry(c.events, c))
    }

    ghost predicate Distinct()
      reads this
    {
      && (forall c, d :: c in chans && d in chans && c.fd == d.fd ==> c == d)
      && (forall fd :: fd in table ==> table[fd].ptr in chans && table[fd].ptr.fd == fd)
    }

    ghost predicate Agrees()
      reads this, chans
    {
      Distinct() && forall c <- chans :: AgreesOn(c)
    }

    // Called after c's events_ changed: the rest of the table is up to date.
    method UpdateChannel(c: Channel)
      requires c in chans && Distinct() && (forall d <- chans :: d != c ==> AgreesOn(d))
      requires c.pooling <==> c.fd in table
      requires c.pooling || c.events != {}
      modifies c`pooling, this`table
      ensures Agrees()
      ensures ChooseOp(old(c.View())).Some?
      ensures var op := ChooseOp(old(c.View())).value;
              c.pooling == Pooled(op) &&
              EpollCtl(old(table), op, c.fd, Entry(c.events, c)) == Some(table)
    {
      var op;
      if !c.pooling {
        op := Add;
        c.pooling := true;
      } else if c.events != {} {
        op := Mod;
      } else {
        op := Del;
        c.pooling := false;
      }
      Ctl(op, c);
      assert forall d <- chans :: d != c ==> d.fd != c.fd;
    }

    // epoll_ctl is never refused.
    method Ctl(op: CtlOp, c: Channel)
      requires EpollCtl(table, op, c.fd, Entry(c.events, c)).Some?
      modifies this`table
      ensures EpollCtl(old(table), op, c.fd, Entry(c.events, c)) == Some(table)
    {
      if op == Del {
        table := table - {c.fd};
      } else {
        table := table[c.fd := Entry(c.events, c)];
      }
    }

    // epoll_wait filled the first |ready| slots of events_ with distinct
    // registered channels; an interrupted wait is the empty list.
    method Poll(ready: seq<Entry<Channel>>) returns (active: seq<Channel>)
      requires |ready| <= capacity && 0 < capacity
      requires forall i :: 0 <= i < |ready| ==> ready[i].ptr in chans
      requires forall i, j :: 0 <= i < j < |ready| ==> ready[i].ptr != ready[j].ptr
      modifies chans`revents, this`capacity
      ensures |active| == |ready|
      ensures forall i :: 0 <= i < |ready| ==> active[i] == ready[i].ptr && active[i].revents == ready[i].events
      ensures forall c <- chans :: c !in active ==> c.revents == old(c.revents)
      ensures capacity == if |ready| == old(capacity) then 2 * old(capacity) else old(capacity)
      ensures |ready| < capacity
    {
      active := [];
      for i := 0 to |ready|
        invariant |active| == i && capacity == old(capacity)
        invariant forall k :: 0 <= k < i ==> active[k] == ready[k].ptr && active[k].revents == ready[k].events
        invariant forall c <- chans :: c !in active ==> c.revents == old(c.revents)
      {
        var channel := ready[i].ptr;
        channel.revents := ready[i].events;
        active := active + [channel];
      }
      if |ready| == capacity {
        capacity := 2 * capacity;
      }
    }
  }
}
