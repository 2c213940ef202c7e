/** The server's objects: the network it acts on, the pool of client connections, and the
    operations that change them in place. */
module Server {
  import opened Prelude
  import opened Text
  import opened DeviceId
  import opened Luhn
  import opened Registry
  import opened Pool
  import opened Tunnels
  import opened Handling

  /** What the operating system keeps: closed connections, and listeners opened and closed. */
  class Network {
    var closedConns: set<Conn>
    var nextListener: Listener
    var closed: multiset<Listener>

    constructor ()
      ensures closedConns == {} && nextListener == 0 && closed == multiset{}
    {
      closedConns, nextListener, closed := {}, 0, multiset{};
    }

    method CloseConn(conn: Conn)
      modifies this
      ensures closedConns == old(closedConns) + {conn}
      ensures nextListener == old(nextListener) && closed == old(closed)
    {
      closedConns := closedConns + {conn};
    }

    method Listen() returns (l: Listener)
      modifies this
      ensures l == old(nextListener) && nextListener == l + 1
      ensures closedConns == old(closedConns) && closed == old(closed)
    {
      l := nextListener;
      nextListener := nextListener + 1;
    }

    method CloseAll(ls: seq<Listener>)
      modifies this
      ensures closed == old(closed) + multiset(ls)
      ensures closedConns == old(closedConns) && nextListener == old(nextListener)
    {
      for i := 0 to |ls|
        invariant closed == old(closed) + multiset(ls[..i])
        invariant closedConns == old(closedConns) && nextListener == old(nextListener)
      {
        assert ls[..i + 1] == ls[..i] + [ls[i]];
        closed := closed + multiset{ls[i]};
      }
      assert ls[..|ls|] == ls;
    }
  }

  /** The callback the pool invokes when it has let go of a client. */
  class Disconnector {
    const registry: ClientRegistry
    const net: Network

    constructor (registry: ClientRegistry, net: Network)
      ensures this.registry == registry && this.net == net
    {
      this.registry, this.net := registry, net;
    }

    function State(pool: map<Text, Conn>): World
      reads registry, net
    {
      World(registry.State(), pool, net.closedConns, net.nextListener, net.closed)
    }

    method Disconnected(id: Id, ghost pool: map<Text, Conn>)
      modifies registry, net
      ensures State(pool) == Pool.Disconnected(old(State(pool)), id)
    {
      var item := registry.DoClear(id);
      if item == None {
        assert net.closed + multiset([]) == net.closed;
        return;
      }
      net.CloseAll(item.value.listeners);
    }
  }

  class ConnPool {
    const check: Check
    const free: Disconnector
    var conns: map<Text, Conn>

    constructor (check: Check, free: Disconnector)
      ensures this.check == check && this.free == free && conns == map[]
    {
      this.check, this.free, conns := check, free, map[];
    }

    function State(): World
      reads this, free.registry, free.net
    {
      free.State(conns)
    }

    method DoClose(addr: Text)
      requires KeysOk(State()) && addr in conns
      modifies this, free.registry, free.net
      ensures State() == Pool.Close(check, old(State()), addr)
    {
      free.net.CloseConn(conns[addr]);
      conns := conns - {addr};
      free.Disconnected(Identifier(check, addr), conns);
    }

    method DoDeleteConn(id: Id)
      requires KeysOk(State())
      modifies this, free.registry, free.net
      ensures KeysOk(State())
      ensures State() == Pool.DeleteConn(check, old(State()), id)
    {
      var addr := Addr(check, id);
      if addr in conns {
        DoClose(addr);
      }
    }

    method DoAddConn(conn: Conn, id: Id, pingOk: bool, connOk: bool) returns (err: Option<AddError>)
      requires KeysOk(State())
      modifies this, free.registry, free.net
      ensures KeysOk(State())
      ensures (State(), err) == Pool.AddConn(check, old(State()), conn, id, pingOk, connOk)
    {
      var addr := Addr(check, id);
      if addr in conns {
        if pingOk {
          return Some(AlreadyConnected);
        }
        DoClose(addr);
      }
      if !connOk {
        return Some(NoClientConn);
      }
      conns := conns[addr := conn];
      err := None;
    }

    /** Searches the pool, in any order, for a connection found dead. */
    method MarkDead(conn: Conn)
      requires KeysOk(State())
      modifies this, free.registry, free.net
      ensures if conn in old(conns).Values
              then exists addr :: addr in old(conns) && old(conns)[addr] == conn &&
                                  State() == Pool.Close(check, old(State()), addr)
              else State() == old(State())
    {
      var todo := conns.Keys;
      while todo != {}
        invariant todo <= conns.Keys
        invariant State() == old(State())
        invariant forall addr :: addr in conns && conns[addr] == conn ==> addr in todo
        decreases |todo|
      {
        var addr :| addr in todo;
        if conns[addr] == conn {
          DoClose(addr);
          return;
        }
        todo := todo - {addr};
      }
    }
  }

  class Server {
    const connPool: ConnPool
    const autoSubscribe: bool
    const muxer: bool

    constructor (check: Check, autoSubscribe: bool, muxer: bool)
      ensures State() == INITIAL && Cfg() == Config(check, autoSubscribe, muxer)
    {
      var registry := new ClientRegistry();
      var net := new Network();
      var free := new Disconnector(registry, net);
      connPool := new ConnPool(check, free);
      this.autoSubscribe, this.muxer := autoSubscribe, muxer;
    }

    function Cfg(): Config {
      Config(connPool.check, autoSubscribe, muxer)
    }

    function State(): World
      reads connPool, connPool.free.registry, connPool.free.net
    {
      connPool.State()
    }

    /** Opens what the tunnels ask for, in the order they are met, and registers it; takes
        everything back if any of it cannot be had. */
    method DoAddTunnels(ts: seq<Tunnel>, listens: seq<bool>, id: Id) returns (err: Option<TunnelError>)
      requires |listens| == |ts|
      modifies connPool.free.registry, connPool.free.net
      ensures (State(), err) == Tunnels.AddTunnels(old(State()), ts, listens, muxer, id)
    {
      hide AddTunnel, SetFault, Index;
      var net := connPool.free.net;
      var registry := connPool.free.registry;
      var item := NO_ITEM;
      for i := 0 to |ts|
        invariant connPool.conns == old(connPool.conns)
        invariant registry.State() == old(registry.State())
        invariant net.closedConns == old(net.closedConns) && net.closed == old(net.closed)
        invariant Build(ts[..i], listens[..i], muxer, old(net.nextListener)) ==
                  Built(item, net.nextListener, false)
      {
        assert ts[..i + 1][..i] == ts[..i] && listens[..i + 1][..i] == listens[..i];
        var added := AddTunnel(item, ts[i], listens[i], muxer, net.nextListener);
        if added == None {
          BuildStops(ts, listens, muxer, old(net.nextListener), i + 1);
          net.CloseAll(item.listeners);
          return Some(CannotAdd);
        }
        if |added.value.listeners| > |item.listeners| {
          var _ := net.Listen();
        }
        item := added.value;
      }
      assert ts[..|ts|] == ts && listens[..|ts|] == listens;
      var fault := registry.DoSet(item, id);
      if fault != None {
        net.CloseAll(item.listeners);
        return Some(CannotSet(fault.value));
      }
      err := None;
    }

    /** Lets a client in that is subscribed, or that may be. */
    method DoAdmit(id: Id, can: bool) returns (admitted: bool)
      modifies connPool.free.registry
      ensures var (reg, ok) := Admit(Cfg(), old(State()).reg, id, can);
              State() == old(State()).(reg := reg) && admitted == ok
    {
      var registry := connPool.free.registry;
      if !autoSubscribe {
        var known := registry.IsSubscribed(id);
        if known || !can {
          return known;
        }
      }
      registry.DoSubscribe(id);
      admitted := true;
    }

    /** Receives one connection; everything that goes wrong ends in the rejection below. */
    method DoHandleClient(v: Visit) returns (accepted: bool)
      requires KeysOk(State()) && Wellformed(v)
      modifies connPool, connPool.free.registry, connPool.free.net
      ensures KeysOk(State())
      ensures (State(), accepted) == Handle(Cfg(), old(State()), v)
    {
      hide Pool.AddConn, Tunnels.AddTunnels, Pool.DeleteConn, Admit;
      var inConnPool := false;
      label reject: {
        if v.cert == None {
          break reject;
        }
        var id := v.cert.value;
        var admitted := DoAdmit(id, v.can);
        if !admitted {
          break reject;
        }
        if !v.deadlineOk {
          break reject;
        }
        var err := connPool.DoAddConn(v.conn, id, v.pingOk, v.connOk);
        if err != None {
          break reject;
        }
        inConnPool := true;
        if v.tunnels == None || v.tunnels.value == [] {
          break reject;
        }
        var fault := DoAddTunnels(v.tunnels.value, v.listens, id);
        if fault != None {
          break reject;
        }
        return true;
      }
      if inConnPool {
        connPool.DoDeleteConn(v.cert.value);
      }
      connPool.free.net.CloseConn(v.conn);
      accepted := false;
    }

    /** Disconnects the client and removes it from the registry. */
    method DoUnsubscribe(id: Id) returns (entry: Option<Entry>)
      requires KeysOk(State())
      modifies connPool, connPool.free.registry, connPool.free.net
      ensures KeysOk(State())
      ensures var w := Pool.DeleteConn(connPool.check, old(State()), id);
              State() == w.(reg := Registry.Unsubscribe(w.reg, id)) &&
              entry == if id in w.reg.items then Some(w.reg.items[id]) else None
    {
      connPool.DoDeleteConn(id);
      entry := connPool.free.registry.DoUnsubscribe(id);
    }
  }
}
