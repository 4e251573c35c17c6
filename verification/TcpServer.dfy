// TcpServerSingle: the set of live connections of one loop, over any number of
// connections and any interleaving of their steps.
module TcpServer {
  import opened Connection
  import opened ConnectionRuns
  import opened Interest
  import Syscalls

  // What the server configures on every new connection.
  datatype Config = Config(mark: nat, hasHighWater: bool, hasWriteComplete: bool)

  // One run of connectionCallback_, and what connected() told it.
  datatype Call = Call(id: nat, connected: bool)

  datatype Server = Server(
    conns: map<nat, Conn>,       // every connection ever accepted
    connections: set<nat>,       // connections_
    calls: seq<Call>,            // history of connectionCallback_
    fatal: bool)                 // closeConnection erased nothing

  datatype ServerStep = Accept(id: nat, config: Config) | Act(id: nat, step: Step)

  predicate ServerPossible(s: Server, a: ServerStep) {
    match a
    case Accept(id, _) => id !in s.conns
    case Act(id, step) => id in s.conns && Possible(s.conns[id], step)
  }

  function Fresh(config: Config): (c: Conn) {
    Init(config.mark, config.hasHighWater, config.hasWriteComplete)
  }

  function Announce(id: nat, c: Conn): (call: Call) { Call(id, c.state == Connected) }

  // newConnection: insert, connectEstablished, connectionCallback_.
  function NewConnection(s: Server, id: nat, config: Config): (t: Server)
    requires id !in s.conns
  {
    var c := Establish(Fresh(config)).conn;
    s.(conns := s.conns[id := c], connections := s.connections + {id}, calls := s.calls + [Announce(id, c)])
  }

  // closeConnection, run by the connection's close callback.
  function CloseConnection(s: Server, id: nat): (t: Server)
    requires id in s.conns
  {
    if id in s.connections then
      s.(connections := s.connections - {id}, calls := s.calls + [Announce(id, s.conns[id])])
    else s.(fatal := true)
  }

  // What connectionCallback_ was told about one connection, in order.
  function CallsOf(calls: seq<Call>, id: nat): (r: seq<bool>) {
    if calls == [] then [] else
      var last := calls[|calls| - 1];
      CallsOf(calls[..|calls| - 1], id) + if last.id == id then [last.connected] else []
  }

  lemma CallsAppend(calls: seq<Call>, call: Call, id: nat)
    ensures CallsOf(calls + [call], id) == CallsOf(calls, id) + if call.id == id then [call.connected] else []
  {
    assert (calls + [call])[..|calls + [call]| - 1] == calls;
  }

  // One connection replaced by a later state of it, and erased on its close.
  function Replace(s: Server, id: nat, d: Conn): (t: Server)
    requires id in s.conns
  {
    var t := s.(conns := s.conns[id := d]);
    if d.closes > s.conns[id].closes then CloseConnection(t, id) else t
  }

  function ServerNext(s: Server, a: ServerStep): (t: Server)
    requires ServerPossible(s, a) && (a.Act? ==> Next(s.conns[a.id], a.step).Ok?)
  {
    match a
    case Accept(id, config) => NewConnection(s, id, config)
    case Act(id, step) =>
      Replace(s, id, Next(s.conns[id], step).conn)
  }

  ghost predicate ServerInv(s: Server) { LiveInv(s) && Announced(s) }

  ghost predicate LiveInv(s: Server) {
    && (forall id :: id in s.conns ==> Inv(s.conns[id]) && s.conns[id].state != Connecting)
    && (forall id :: id in s.connections <==> id in s.conns && Alive(s.conns[id]))
    && !s.fatal
  }

  // The user hears of each connection once when it is up and once when it is down.
  ghost predicate Announced(s: Server) {
    forall id :: CallsOf(s.calls, id) == Expected(s.conns, id)
  }

  function Expected(conns: map<nat, Conn>, id: nat): (r: seq<bool>) {
    if id !in conns then [] else if Alive(conns[id]) then [true] else [true, false]
  }

  predicate ServerSafe(s: Server, a: ServerStep)
    requires ServerPossible(s, a)
  {
    a.Act? ==> Safe(s.conns[a.id], a.step)
  }

  // A safe step runs the close callback exactly when it leaves the live states.
  lemma CloseCallbackMeansClosed(c: Conn, a: Step)
    requires Inv(c) && c.state != Connecting && Possible(c, a) && Safe(c, a)
    ensures Next(c, a).Ok?
    ensures var d := Next(c, a).conn;
            && Inv(d) && d.state != Connecting
            && (d.closes > c.closes <==> Alive(c) && !Alive(d))
            && (!Alive(c) ==> !Alive(d))
  {
    SafeStep(c, a);
    NeverReconnecting(c, a);
    if c.state == Disconnected {
      ClosedStep(c, a);
    }
  }

  lemma NeverReconnecting(c: Conn, a: Step)
    requires c.state != Connecting && Possible(c, a) && Next(c, a).Ok?
    ensures Next(c, a).conn.state != Connecting
  {
    match a
    case DoDispatch(res, w) => DispatchState(c, res, w);
    case DoTask(w) => TaskState(c, w);
    case _ =>
  }

  lemma DispatchState(c: Conn, res: Syscalls.ReadResult, w: Syscalls.WriteResult)
    requires c.state != Connecting && Possible(c, DoDispatch(res, w)) && DispatchNext(c, res, w).Ok?
    ensures DispatchNext(c, res, w).conn.state != Connecting
  {
  }

  lemma TaskState(c: Conn, w: Syscalls.WriteResult)
    requires c.state != Connecting && Possible(c, DoTask(w)) && RunTask(c, w).Ok?
    ensures RunTask(c, w).conn.state != Connecting
  {
  }

  lemma EstablishInv(config: Config)
    ensures Establish(Fresh(config)).Ok?
    ensures Inv(Establish(Fresh(config)).conn) && Establish(Fresh(config)).conn.state == Connected
    ensures var c := Establish(Fresh(config)).conn;
            c.mark == config.mark && c.hasHighWater == config.hasHighWater && c.hasWriteComplete == config.hasWriteComplete
  {
    InitInv(config.mark, config.hasHighWater, config.hasWriteComplete);
    SafeStep(Fresh(config), DoEstablish);
  }

  lemma AcceptAnnounced(s: Server, id: nat, c: Conn)
    requires Announced(s) && id !in s.conns && c.state == Connected
    ensures Announced(s.(conns := s.conns[id := c], calls := s.calls + [Call(id, true)]))
  {
    forall x
      ensures CallsOf(s.calls + [Call(id, true)], x) == Expected(s.conns[id := c], x)
    {
      CallsAppend(s.calls, Call(id, true), x);
      assert CallsOf(s.calls, x) == Expected(s.conns, x);
    }
  }

  lemma AcceptLive(s: Server, id: nat, c: Conn, calls: seq<Call>)
    requires LiveInv(s) && id !in s.conns && Inv(c) && c.state == Connected
    ensures LiveInv(s.(conns := s.conns[id := c], connections := s.connections + {id}, calls := calls))
  {
  }

  lemma AcceptInv(s: Server, id: nat, config: Config)
    requires ServerInv(s) && id !in s.conns
    ensures ServerInv(NewConnection(s, id, config))
  {
    EstablishInv(config);
    var c := Establish(Fresh(config)).conn;
    AcceptAnnounced(s, id, c);
    AcceptLive(s, id, c, s.calls + [Call(id, true)]);
  }

  predicate Later(c: Conn, d: Conn) {
    && d.state != Connecting && (d.closes > c.closes <==> Alive(c) && !Alive(d))
    && (!Alive(c) ==> !Alive(d))
  }

  lemma CloseAnnounced(s: Server, id: nat, d: Conn)
    requires Announced(s) && id in s.conns && Alive(s.conns[id]) && d.state == Disconnected
    ensures Announced(s.(conns := s.conns[id := d], calls := s.calls + [Call(id, false)]))
  {
    forall x
      ensures CallsOf(s.calls + [Call(id, false)], x) == Expected(s.conns[id := d], x)
    {
      CallsAppend(s.calls, Call(id, false), x);
      assert CallsOf(s.calls, x) == Expected(s.conns, x);
    }
  }

  lemma ReplaceAnnounced(s: Server, id: nat, d: Conn)
    requires Announced(s) && id in s.conns && Later(s.conns[id], d)
    requires id in s.connections <==> Alive(s.conns[id])
    ensures Announced(Replace(s, id, d))
  {
    if d.closes > s.conns[id].closes {
      CloseAnnounced(s, id, d);
    }
  }

  lemma ReplaceLive(s: Server, id: nat, d: Conn)
    requires LiveInv(s) && id in s.conns && Inv(d) && Later(s.conns[id], d)
    ensures LiveInv(Replace(s, id, d))
  {
  }

  lemma ServerStepInv(s: Server, a: ServerStep)
    requires ServerInv(s) && ServerPossible(s, a) && ServerSafe(s, a)
    ensures a.Act? ==> Next(s.conns[a.id], a.step).Ok?
    ensures ServerInv(ServerNext(s, a))
  {
    match a
    case Accept(id, config) => AcceptInv(s, id, config);
    case Act(id, step) =>
      CloseCallbackMeansClosed(s.conns[id], step);
      ReplaceLive(s, id, Next(s.conns[id], step).conn);
      ReplaceAnnounced(s, id, Next(s.conns[id], step).conn);
  }

  ghost predicate ServerRun(s: Server, steps: seq<ServerStep>, t: Server)
    decreases |steps|
  {
    if steps == [] then s == t
    else
      && ServerPossible(s, steps[0]) && ServerSafe(s, steps[0])
      && (steps[0].Act? ==> Next(s.conns[steps[0].id], steps[0].step).Ok?)
      && ServerRun(ServerNext(s, steps[0]), steps[1..], t)
  }

  // connections_ is exactly the established, not yet disconnected connections,
  // every connection was closed at most once, the user was told of each once up
  // and once down, and the FATAL is unreachable.
  lemma {:induction false} LiveSetIsExact(s: Server, steps: seq<ServerStep>, t: Server)
    requires ServerInv(s) && ServerRun(s, steps, t)
    ensures t.connections == set id | id in t.conns && Alive(t.conns[id])
    ensures forall id :: id in t.conns ==> t.conns[id].closes == if Alive(t.conns[id]) then 0 else 1
    ensures forall id :: CallsOf(t.calls, id) ==
              if id !in t.conns then [] else if Alive(t.conns[id]) then [true] else [true, false]
    ensures !t.fatal
    decreases |steps|
  {
    if steps != [] {
      ServerStepInv(s, steps[0]);
      LiveSetIsExact(ServerNext(s, steps[0]), steps[1..], t);
    }
  }

  // The class: the set is reassigned in place; connections are named by id.
  class TcpServerSingle {
    var connections: set<nat>
    var calls: seq<Call>             // runs of connectionCallback_
    ghost var conns: map<nat, Conn>

    ghost function View(): (s: Server)
      reads this
    {
      Server(conns, connections, calls, false)
    }

    constructor ()
      ensures View() == Server(map[], {}, [], false) && ServerInv(View())
    {
      connections, calls := {}, [];
      conns := map[];
    }

    method OnNewConnection(id: nat, config: Config)
      requires ServerInv(View()) && id !in conns
      modifies this
      ensures ServerInv(View()) && View() == NewConnection(old(View()), id, config)
    {
      EstablishInv(config);
      AcceptInv(View(), id, config);
      connections := connections + {id};
      conns := conns[id := Establish(Fresh(config)).conn];
      calls := calls + [Call(id, true)];
    }

    // The close callback of connection id, whose step has just closed it.
    method OnCloseConnection(id: nat, ghost step: Step) returns (fatal: bool)
      requires ServerInv(View()) && id in conns && Possible(conns[id], step) && Safe(conns[id], step)
      requires Next(conns[id], step).Ok? && Next(conns[id], step).conn.closes > conns[id].closes
      modifies this
      ensures ServerInv(View()) && !fatal
      ensures View() == ServerNext(old(View()), Act(id, step))
    {
      ServerStepInv(View(), Act(id, step));
      CloseCallbackMeansClosed(conns[id], step);
      fatal := id !in connections;
      connections := connections - {id};
      conns := conns[id := Next(conns[id], step).conn];
      calls := calls + [Call(id, false)];
    }
  }
}
