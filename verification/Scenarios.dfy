/** Building blocks for concrete runs: clients that arrive, enter the pool and ask for one web tunnel. */
module Scenarios {
  import opened Prelude
  import opened DeviceId
  import opened Luhn
  import opened Registry
  import opened Pool
  import opened Tunnels
  import opened Lifecycle

  lemma Extend(cfg: Config, ss: seq<St>, acts: seq<Action>, a: Action) returns (ss': seq<St>, acts': seq<Action>)
    requires Run(cfg, ss, acts) && Enabled(cfg, ss[|acts|], a)
    ensures Run(cfg, ss', acts') && acts' == acts + [a]
    ensures ss' == ss + [Next(cfg, ss[|acts|], a)]
    ensures ss'[|acts'|] == Next(cfg, ss[|acts|], a)
  {
    hide Next, Enabled;
    ss', acts' := ss + [Next(cfg, ss[|acts|], a)], acts + [a];
    forall i | 0 <= i < |acts'|
      ensures Steps(cfg, ss'[i], acts'[i], ss'[i + 1])
    {
      if i < |acts| {
        assert Steps(cfg, ss[i], acts[i], ss[i + 1]);
      }
    }
  }

  /** A server that subscribes whoever comes, and has no muxer. */
  function Demo(check: Check): Config {
    Handling.Config(check, true, false)
  }

  /** A tunnel for one web host, and the item made of it. */
  function Web(host: string): Tunnel {
    Tunnel(HTTP, host, "", "")
  }

  function WebItem(host: string): RegistryItem {
    RegistryItem([HostAuth(host, None)], [])
  }

  lemma WebAdded(host: string, muxer: bool, next: Listener)
    ensures AddTunnel(NO_ITEM, Web(host), true, muxer, next) == Some(WebItem(host))
  {
    assert NO_ITEM.hosts + [HostAuth(host, None)] == [HostAuth(host, None)];
  }

  /** The state with one handler changed or added. */
  function With(s: St, c: Conn, h: Handler, w: World): St {
    s.(handlers := s.handlers[c := h], w := w)
  }

  /** The handler's one web tunnel is in its batch, about to be registered. */
  function Asking(id: Id, host: string): Handler {
    Handler(id, Adding([], WebItem(host)), {}, [Web(host)])
  }

  /** A connection of a client comes as far as the pool. */
  lemma Arrive(cfg: Config, ss0: seq<St>, acts0: seq<Action>, c: Conn, id: Id)
    returns (ss: seq<St>, acts: seq<Action>)
    requires Run(cfg, ss0, acts0) && cfg.autoSubscribe
    requires KeysOk(ss0[|acts0|].w) && c !in ss0[|acts0|].handlers
    ensures Run(cfg, ss, acts)
    ensures var s := ss0[|acts0|];
            ss[|acts|] == With(s, c, Handler(id, Deadline, {}, []), s.w.(reg := Subscribe(s.w.reg, id)))
  {
    hide Close, DeleteConn, AddConn, AddTunnel;
    hide Steps, Subscribe;
    var s := ss0[|acts0|];
    ss, acts := Extend(cfg, ss0, acts0, Accept(c, id));
    ss, acts := Extend(cfg, ss, acts, Identify(c, true));
    assert ss[|acts|] == With(s, c, Handler(id, Identified, {}, []), s.w);
    ss, acts := Extend(cfg, ss, acts, CheckSubscribed(c, true));
    ss, acts := Extend(cfg, ss, acts, SetDeadline(c, true));
  }

  lemma PoolStep(cfg: Config, s: St, c: Conn, id: Id, pingOk: bool, w: World)
    requires KeysOk(s.w) && c in s.handlers && s.handlers[c] == Handler(id, Deadline, {}, [])
    requires AddConn(cfg.check, s.w, c, id, pingOk, true) == (w, None)
    ensures Enabled(cfg, s, EnterPool(c, pingOk, true))
    ensures Next(cfg, s, EnterPool(c, pingOk, true)) == With(s, c, Handler(id, Pooled, {}, []), w)
  {
    hide AddConn, KeysOk;
  }

  /** It enters the pool, where its client is not yet. */
  lemma EnterNew(cfg: Config, ss0: seq<St>, acts0: seq<Action>, c: Conn, id: Id)
    returns (ss: seq<St>, acts: seq<Action>)
    requires Run(cfg, ss0, acts0) && KeysOk(ss0[|acts0|].w)
    requires c in ss0[|acts0|].handlers && ss0[|acts0|].handlers[c] == Handler(id, Deadline, {}, [])
    requires Addr(cfg.check, id) !in ss0[|acts0|].w.pool
    ensures Run(cfg, ss, acts)
    ensures var s := ss0[|acts0|];
            ss[|acts|] ==
            With(s, c, Handler(id, Pooled, {}, []), s.w.(pool := s.w.pool[Addr(cfg.check, id) := c]))
  {
    var s, k := ss0[|acts0|], Addr(cfg.check, id);
    assert AddConn(cfg.check, s.w, c, id, true, true) == (s.w.(pool := s.w.pool[k := c]), None) by {
      hide Addr, Close;
    }
    hide Addr, AddConn, Next, Enabled, Steps, With;
    PoolStep(cfg, s, c, id, true, s.w.(pool := s.w.pool[k := c]));
    ss, acts := Extend(cfg, ss0, acts0, EnterPool(c, true, true));
  }

  /** It takes the place of a connection of its client's that does not answer and has no item yet. */
  lemma EnterInstead(cfg: Config, ss0: seq<St>, acts0: seq<Action>, c: Conn, id: Id)
    returns (ss: seq<St>, acts: seq<Action>)
    requires Run(cfg, ss0, acts0) && KeysOk(ss0[|acts0|].w)
    requires c in ss0[|acts0|].handlers && ss0[|acts0|].handlers[c] == Handler(id, Deadline, {}, [])
    requires Addr(cfg.check, id) in ss0[|acts0|].w.pool && !IsLive(ss0[|acts0|].w.reg, id)
    ensures Run(cfg, ss, acts)
    ensures var s, k := ss0[|acts0|], Addr(cfg.check, id);
            ss[|acts|] ==
            With(s, c, Handler(id, Pooled, {}, []),
                 s.w.(pool := s.w.pool[k := c], closedConns := s.w.closedConns + {s.w.pool[k]}))
  {
    var s, k := ss0[|acts0|], Addr(cfg.check, id);
    TakesOver(cfg.check, s.w, c, id);
    hide Addr, AddConn, Next, Enabled, Steps, With;
    PoolStep(cfg, s, c, id, false, s.w.(pool := s.w.pool[k := c], closedConns := s.w.closedConns + {s.w.pool[k]}));
    ss, acts := Extend(cfg, ss0, acts0, EnterPool(c, false, true));
  }

  lemma TakesOver(check: Check, w: World, c: Conn, id: Id)
    requires KeysOk(w) && Addr(check, id) in w.pool && !IsLive(w.reg, id)
    ensures var k := Addr(check, id);
            AddConn(check, w, c, id, false, true) ==
            (w.(pool := w.pool[k := c], closedConns := w.closedConns + {w.pool[k]}), None)
  {
    VoidDeleted(check, w, id);
    hide Addr, DeleteConn;
    assert (w.pool - {Addr(check, id)})[Addr(check, id) := c] == w.pool[Addr(check, id) := c];
  }

  /** Deleting the connection of a client without an item touches the pool and the connection only. */
  lemma VoidDeleted(check: Check, w: World, id: Id)
    requires KeysOk(w) && Addr(check, id) in w.pool && !IsLive(w.reg, id)
    ensures DeleteConn(check, w, id) ==
            w.(pool := w.pool - {Addr(check, id)}, closedConns := w.closedConns + {w.pool[Addr(check, id)]})
  {
    IdentifierOfAddr(check, id);
    hide Addr, Identifier;
    assert w.closed + multiset([]) == w.closed;
  }

  /** A pooled connection's handler asks for one web tunnel and takes it into its batch. */
  lemma Ask(cfg: Config, ss0: seq<St>, acts0: seq<Action>, c: Conn, id: Id, host: string)
    returns (ss: seq<St>, acts: seq<Action>)
    requires Run(cfg, ss0, acts0) && KeysOk(ss0[|acts0|].w)
    requires c in ss0[|acts0|].handlers && ss0[|acts0|].handlers[c] == Handler(id, Pooled, {}, [])
    ensures Run(cfg, ss, acts)
    ensures ss[|acts|] == With(ss0[|acts0|], c, Asking(id, host), ss0[|acts0|].w)
  {
    hide Steps, AddTunnel;
    var s := ss0[|acts0|];
    ss, acts := Extend(cfg, ss0, acts0, Handshake(c, true, [Web(host)]));
    assert ss[|acts|] == With(s, c, Handler(id, Adding([Web(host)], NO_ITEM), {}, [Web(host)]), s.w);
    WebAdded(host, cfg.muxer, s.w.nextListener);
    assert [Web(host)][1..] == [];
    ss, acts := Extend(cfg, ss, acts, OpenTunnel(c, true));
  }

  /** One web host is accepted for a client without an item, if nobody has it. */
  lemma WebAccepted(r: Reg, id: Id, host: string)
    requires id in r.items && r.items[id] == Void && HostPort.TrimPort(host) !in r.hosts
    ensures SetFault(r, WebItem(host), id) == None
    ensures Set(r, WebItem(host), id) ==
            Reg(r.items[id := Live(WebItem(host))], r.hosts[HostPort.TrimPort(host) := HostInfo(id, None)])
  {
    hide HostPort.TrimPort;
    var hs := [HostAuth(host, None)];
    assert Conflict(r, hs, 1) == None;
    assert hs[..0] == [];
    assert Index(hs, id) == map[HostPort.TrimPort(host) := HostInfo(id, None)];
  }

  /** The second half of an unsubscription. */
  lemma RemoveItem(cfg: Config, ss0: seq<St>, acts0: seq<Action>, id: Id) returns (ss: seq<St>, acts: seq<Action>)
    requires Run(cfg, ss0, acts0) && KeysOk(ss0[|acts0|].w) && id in ss0[|acts0|].unsubs
    ensures Run(cfg, ss, acts)
    ensures var s, t := ss0[|acts0|], ss[|acts|];
            t.w == s.w.(reg := Unsubscribe(s.w.reg, id)) && t.handlers == s.handlers
  {
    hide Steps, Unsubscribe, Listeners;
    ss, acts := Extend(cfg, ss0, acts0, UnsubscribeItem(id));
  }
}
