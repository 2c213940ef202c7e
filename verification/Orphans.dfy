/** What happens without the discipline, as runs: a connection that dies while its handler is still
    adding tunnels leaves an item registered for a client that is not in the pool, and a removal that
    comes late leaves a client connected without an item and its hosts routed. */
module Orphans {
  import opened Prelude
  import opened Text
  import opened DeviceId
  import opened Luhn
  import opened Registry
  import opened Pool
  import opened Tunnels
  import opened Lifecycle
  import opened Sessions
  import opened Serialised
  import opened HostIndex
  import opened Matching
  import opened Ownership
  import opened Overwriting
  import opened Registration
  import opened Scenarios

  /** Letting go of a client whose item is void leaves the registry as it is. */
  lemma VoidCleared(cfg: Config, w: World, id: Id)
    requires KeysOk(w) && !IsLive(w.reg, id)
    ensures var v := DeleteConn(cfg.check, w, id);
            KeysOk(v) && v.reg == w.reg && Addr(cfg.check, id) !in v.pool
  {
    IdentifierOfAddr(cfg.check, id);
    hide Addr, Identifier;
  }

  /** Whenever a pooled connection is found dead just before its handler registers the batch, the
      registration succeeds all the same. */
  lemma DeathMidway(cfg: Config, s: St, c: Conn)
    requires PoolSound(cfg, s) && c in s.handlers
    requires var h := s.handlers[c];
             h.pc.Adding? && h.pc.rest == [] && HeldBy(cfg, s, h.id, c) &&
             SetFault(s.w.reg, h.pc.item, h.id) == None
    ensures var dead := MarkDead(Addr(cfg.check, s.handlers[c].id));
            Enabled(cfg, s, dead) && Enabled(cfg, Next(cfg, s, dead), SetItem(c)) &&
            Orphan(cfg, Next(cfg, Next(cfg, s, dead), SetItem(c)), s.handlers[c].id)
  {
    var id := s.handlers[c].id;
    LiveAfterSet(s.w.reg, s.handlers[c].pc.item, id, id);
    DeadStep(cfg, s, id);
    hide Next, PoolSound, Addr, Orphan;
    var u := Next(cfg, s, MarkDead(Addr(cfg.check, id)));
    hide SetFault;
    SetStep(cfg, u, c);
  }

  lemma DeadStep(cfg: Config, s: St, id: Id)
    requires KeysOk(s.w) && Addr(cfg.check, id) in s.w.pool && !IsLive(s.w.reg, id)
    ensures Enabled(cfg, s, MarkDead(Addr(cfg.check, id)))
    ensures var u := Next(cfg, s, MarkDead(Addr(cfg.check, id)));
            KeysOk(u.w) && u.handlers == s.handlers && u.w.reg == s.w.reg && !IsPooled(cfg, u, id)
  {
    VoidCleared(cfg, s.w, id);
    hide Addr, IsLive, KeysOk;
    DeadWorld(cfg, s, Addr(cfg.check, id));
    assert Close(cfg.check, s.w, Addr(cfg.check, id)) == DeleteConn(cfg.check, s.w, id);
    hide Close, DeleteConn, Next, Enabled;
  }

  lemma DeadWorld(cfg: Config, s: St, addr: Text)
    requires KeysOk(s.w) && addr in s.w.pool
    ensures Enabled(cfg, s, MarkDead(addr))
    ensures Next(cfg, s, MarkDead(addr)) == s.(w := Close(cfg.check, s.w, addr))
  {
    hide KeysOk, Close;
  }

  lemma SetStep(cfg: Config, u: St, c: Conn)
    requires KeysOk(u.w) && c in u.handlers && u.handlers[c].pc.Adding? && u.handlers[c].pc.rest == []
    requires SetFault(u.w.reg, u.handlers[c].pc.item, u.handlers[c].id) == None
    requires !IsPooled(cfg, u, u.handlers[c].id)
    ensures Enabled(cfg, u, SetItem(c)) && Orphan(cfg, Next(cfg, u, SetItem(c)), u.handlers[c].id)
  {
    var h := u.handlers[c];
    LiveAfterSet(u.w.reg, h.pc.item, h.id, h.id);
    SetWorld(cfg, u, c);
    hide Next, Enabled, Addr, SetFault, Set, IsLive;
  }

  lemma SetWorld(cfg: Config, u: St, c: Conn)
    requires KeysOk(u.w) && c in u.handlers && u.handlers[c].pc.Adding? && u.handlers[c].pc.rest == []
    requires SetFault(u.w.reg, u.handlers[c].pc.item, u.handlers[c].id) == None
    ensures Enabled(cfg, u, SetItem(c))
    ensures Next(cfg, u, SetItem(c)).w == u.w.(reg := Set(u.w.reg, u.handlers[c].pc.item, u.handlers[c].id))
  {
    hide KeysOk, SetFault, Set;
  }

  /** The rejection that follows takes the orphan away, if the rejected handler's connection is
      still the one in the pool. */
  lemma RejectionRepairs(cfg: Config, s: St, c: Conn)
    requires Enabled(cfg, s, Reject(c)) && s.handlers[c].pc.inPool
    requires HeldBy(cfg, s, s.handlers[c].id, c)
    ensures !IsLive(Next(cfg, s, Reject(c)).w.reg, s.handlers[c].id)
  {
    Deleted(cfg, s.w, s.handlers[c].id, s.handlers[c].id);
    RejectStep(cfg, s, c);
    hide Next, Enabled, Addr, DeleteConn, IsLive;
  }

  lemma RejectStep(cfg: Config, s: St, c: Conn)
    requires Enabled(cfg, s, Reject(c)) && s.handlers[c].pc.inPool
    ensures Next(cfg, s, Reject(c)).w == DeleteConn(cfg.check, s.w, s.handlers[c].id)
  {
    hide DeleteConn;
  }

  // ---- Runs that go wrong ----

  /** The server with one client whose connection is pooled and whose one web host is about to be
      registered; an unsubscription may have gone half way before. */
  function OneClient(check: Check, id: Id, host: string, unsubs: multiset<Id>): St {
    St(World(Reg(map[id := Void], map[]), map[Addr(check, id) := 0], {}, 0, multiset{}),
       map[0 := Asking(id, host)], unsubs, multiset{})
  }

  lemma UpToRegistration(check: Check, id: Id, host: string, half: bool) returns (ss: seq<St>, acts: seq<Action>)
    ensures Run(Demo(check), ss, acts)
    ensures ss[|acts|] == OneClient(check, id, host, if half then multiset{id} else multiset{})
  {
    hide Identifier, HandlerNext, Addr, Steps;
    var cfg := Demo(check);
    ss, acts := Arrive(cfg, [INIT], [], 0, id);
    if half {
      ss, acts := Extend(cfg, ss, acts, UnsubscribeConn(id));
    }
    assert ss[|acts|].w == World(Reg(map[id := Void], map[]), map[], {}, 0, multiset{});
    hide Next, Enabled;
    ss, acts := EnterNew(cfg, ss, acts, 0, id);
    ss, acts := Ask(cfg, ss, acts, 0, id, host);
  }

  /** What a registration that is accepted leads to. */
  lemma Register(cfg: Config, ss0: seq<St>, acts0: seq<Action>, c: Conn, id: Id, host: string)
    returns (ss: seq<St>, acts: seq<Action>)
    requires Run(cfg, ss0, acts0) && KeysOk(ss0[|acts0|].w)
    requires c in ss0[|acts0|].handlers && ss0[|acts0|].handlers[c] == Asking(id, host)
    requires var r := ss0[|acts0|].w.reg;
             id in r.items && r.items[id] == Void && HostPort.TrimPort(host) !in r.hosts
    ensures Run(cfg, ss, acts) && acts == acts0 + [SetItem(c)]
    ensures |ss| == |ss0| + 1 && ss[|acts0|] == ss0[|acts0|]
    ensures var s, r := ss0[|acts0|], ss0[|acts0|].w.reg;
            ss[|acts|] ==
            With(s, c, Handler(id, Connected, {}, [Web(host)]),
                 s.w.(reg := Reg(r.items[id := Live(WebItem(host))],
                                 r.hosts[HostPort.TrimPort(host) := HostInfo(id, None)])))
  {
    hide Steps, SetFault, Set, HostPort.TrimPort;
    WebAccepted(ss0[|acts0|].w.reg, id, host);
    ss, acts := Extend(cfg, ss0, acts0, SetItem(c));
  }

  /** An orphan is reachable: for every client there is a run, with one handler and one death, that
      leaves the client with an item and without a connection. */
  lemma OrphanReachable(check: Check, id: Id) returns (ss: seq<St>, acts: seq<Action>)
    ensures Run(Demo(check), ss, acts) && Orphan(Demo(check), ss[|acts|], id)
  {
    var cfg := Demo(check);
    ss, acts := UpToRegistration(check, id, "web", false);
    RunSound(cfg, ss, acts, |acts|);
    WebAccepted(ss[|acts|].w.reg, id, "web");
    hide Next, Enabled, SetFault, Orphan, PoolSound, Addr;
    DeathMidway(cfg, ss[|acts|], 0);
    ss, acts := Extend(cfg, ss, acts, MarkDead(Addr(check, id)));
    ss, acts := Extend(cfg, ss, acts, SetItem(0));
  }

  /** A second connection of the client takes the place of the first, which does not answer a ping,
      and gets as far. */
  lemma Succeed(check: Check, ss0: seq<St>, acts0: seq<Action>, id: Id) returns (ss: seq<St>, acts: seq<Action>)
    requires Run(Demo(check), ss0, acts0) && ss0[|acts0|] == OneClient(check, id, "web", multiset{})
    ensures Run(Demo(check), ss, acts)
    ensures ss[|acts|] ==
            St(World(Reg(map[id := Void], map[]), map[Addr(check, id) := 1], {0}, 0, multiset{}),
               map[0 := Asking(id, "web"), 1 := Asking(id, "mail")], multiset{}, multiset{})
  {
    hide Asking;
    var cfg := Demo(check);
    hide Addr, Next, Enabled, Steps;
    ss, acts := Arrive(cfg, ss0, acts0, 1, id);
    ss, acts := EnterInstead(cfg, ss, acts, 1, id);
    ss, acts := Ask(cfg, ss, acts, 1, id, "mail");
  }

  /** The client's item is the evicted handler's, its pooled connection the successor's, and the
      successor's own batch is about to be refused. */
  predicate Usurped(cfg: Config, t: St, id: Id, evicted: Conn, successor: Conn) {
    MadeBy(t, id, evicted) && evicted in t.w.closedConns && HeldBy(cfg, t, id, successor) && !Fit(cfg, t, id) &&
    successor in t.handlers && t.handlers[successor].id == id &&
    t.handlers[successor].pc.Adding? && t.handlers[successor].pc.rest == [] &&
    SetFault(t.w.reg, t.handlers[successor].pc.item, id) == Some(Overwrite)
  }

  /** An evicted handler registers for its successor: for every client there is a run in which a second
      connection takes the place of the first, which does not answer a ping, and the first one's batch
      is then accepted all the same. */
  lemma UsurperReachable(check: Check, id: Id) returns (ss: seq<St>, acts: seq<Action>)
    ensures Run(Demo(check), ss, acts) && |acts| > 0
    ensures var s := ss[|acts| - 1];
            acts[|acts| - 1] == SetItem(0) && Usurper(Demo(check), s, id, 0) && HeldBy(Demo(check), s, id, 1)
    ensures Usurped(Demo(check), ss[|acts|], id, 0, 1)
  {
    hide WebItem, Identifier, AddTunnel, NextAfter, Keys;
    var cfg := Demo(check);
    ss, acts := UpToRegistration(check, id, "web", false);
    ss, acts := Succeed(check, ss, acts, id);
    hide Addr, Next, Enabled, Steps, HttpHosts, HostPort.TrimPort;
    UsurpingState(check, ss[|acts|], id);
    ss, acts := Register(cfg, ss, acts, 0, id, "web");
    hide Usurper, HeldBy, Usurped;
    UsurpedState(check, ss[|acts|], id);
  }

  lemma UsurpingState(check: Check, s: St, id: Id)
    requires s.w.reg == Reg(map[id := Void], map[]) && s.w.pool == map[Addr(check, id) := 1]
    requires 0 in s.handlers && s.handlers[0] == Asking(id, "web")
    ensures Usurper(Demo(check), s, id, 0) && HeldBy(Demo(check), s, id, 1)
  {
    WebAccepted(s.w.reg, id, "web");
    hide Addr, SetFault;
  }

  lemma UsurpedState(check: Check, t: St, id: Id)
    requires t.w.pool == map[Addr(check, id) := 1] && t.handlers.Keys == {0, 1} && 0 in t.w.closedConns
    requires id in t.w.reg.items && t.w.reg.items[id] == Live(WebItem("web"))
    requires t.handlers[0] == Handler(id, Connected, {}, [Web("web")]) && t.handlers[1] == Asking(id, "mail")
    ensures Usurped(Demo(check), t, id, 0, 1)
  {
    WebHosts("web");
    hide Addr, MadeOf;
    OverwriteLive(t.w.reg, WebItem("mail"), id);
    hide SetFault;
  }

  lemma WebHosts(host: string)
    ensures MadeOf(WebItem(host), [Web(host)], {})
  {
    assert [Web(host)][..0] == [];
  }

  /** An unsubscription that overtakes itself: its first half finds the client not yet connected, its
      second half finds it registered.  For any two clients there is such a run; it leaves the client
      connected without an item and, as its host was written with a port, routed though it is in no
      item; and the other client, which listed just that text as a host, served but without its
      route. */
  lemma LateRemovalReachable(check: Check, id: Id, other: Id) returns (ss: seq<St>, acts: seq<Action>)
    requires id != other
    ensures Run(Demo(check), ss, acts)
    ensures var t := ss[|acts|];
            Bare(Demo(check), t, id) && id !in t.w.reg.items &&
            Subscriber(t.w.reg, "a:80") == Some(HostInfo(id, None)) && !Agrees(t.w.reg)
    ensures var t := ss[|acts|];
            Served(Demo(check), t, other) && MadeBy(t, other, 1) && "a:80" in Listed(t.w.reg, other) &&
            Subscriber(t.w.reg, "[a:80]:90") == None
  {
    var cfg := Demo(check);
    HostPort.TrimPortNotIdempotent();
    hide Addr, Next, Enabled, Steps, HostPort.TrimPort;
    ss, acts := UpToRegistration(check, id, "a:80", true);
    ss, acts := Register(cfg, ss, acts, 0, id, "a:80");
    ss, acts := Join(check, ss, acts, id, other);
    ss, acts := RemoveItem(cfg, ss, acts, id);
    hide Bare, Served, MadeBy, Agrees, Listed, Unsubscribe, Subscriber;
    RemovedState(check, ss[|acts|], id, other);
  }

  lemma RemovedState(check: Check, t: St, id: Id, other: Id)
    requires id != other && t.w.reg == Unsubscribe(Both(id, other), id)
    requires t.w.pool == map[Addr(check, id) := 0, Addr(check, other) := 1] && t.handlers.Keys == {0, 1}
    requires t.handlers[0].pc == Connected && t.handlers[1] == Handler(other, Connected, {}, [Web("[a:80]:90")])
    ensures Bare(Demo(check), t, id) && id !in t.w.reg.items
    ensures Subscriber(t.w.reg, "a:80") == Some(HostInfo(id, None)) && !Agrees(t.w.reg)
    ensures Served(Demo(check), t, other) && MadeBy(t, other, 1)
    ensures "a:80" in Listed(t.w.reg, other) && Subscriber(t.w.reg, "[a:80]:90") == None
  {
    RouteLeft(id, other);
    AddrInjective(check, id, other);
    RemovedRoutes(t.w.reg, id, other);
    hide Agrees, Listed, Unsubscribe, Subscriber;
    ServedIn(check, t, id, 0);
    ServedIn(check, t, other, 1);
    OtherMade(t, other);
    hide *;
  }

  lemma ServedIn(check: Check, t: St, id: Id, c: Conn)
    requires Addr(check, id) in t.w.pool && t.w.pool[Addr(check, id)] == c
    requires c in t.handlers && t.handlers[c].pc == Connected
    ensures Served(Demo(check), t, id)
    ensures !IsLive(t.w.reg, id) ==> Bare(Demo(check), t, id)
  {
    hide Addr;
  }

  lemma OtherMade(t: St, other: Id)
    requires other in t.w.reg.items && t.w.reg.items[other] == Live(WebItem("[a:80]:90"))
    requires 1 in t.handlers && t.handlers[1] == Handler(other, Connected, {}, [Web("[a:80]:90")])
    ensures MadeBy(t, other, 1)
  {
    WebHosts("[a:80]:90");
    hide MadeOf;
  }

  lemma RemovedRoutes(r: Reg, id: Id, other: Id)
    requires r == Reg(map[other := Live(WebItem("[a:80]:90"))], map["a" := HostInfo(id, None)])
    ensures Subscriber(r, "a:80") == Some(HostInfo(id, None)) && Subscriber(r, "[a:80]:90") == None
  {
    HostPort.TrimPortNotIdempotent();
    hide HostPort.TrimPort;
  }

  /** The registry of the two clients, before the removal and after. */
  function Both(id: Id, other: Id): Reg {
    Reg(map[id := Live(WebItem("a:80")), other := Live(WebItem("[a:80]:90"))],
        map["a" := HostInfo(id, None), "a:80" := HostInfo(other, None)])
  }

  /** The first client alone, registered, its unsubscription half way. */
  predicate Alone(check: Check, s: St, id: Id) {
    s.w.reg == Reg(map[id := Live(WebItem("a:80"))], map["a" := HostInfo(id, None)]) && KeysOk(s.w) &&
    s.w.pool == map[Addr(check, id) := 0] && id in s.unsubs && s.handlers.Keys == {0} &&
    s.handlers[0].pc == Connected
  }

  /** Another client connects and enters the pool. */
  lemma Follow(check: Check, ss0: seq<St>, acts0: seq<Action>, id: Id, other: Id)
    returns (ss: seq<St>, acts: seq<Action>)
    requires id != other && Run(Demo(check), ss0, acts0) && Alone(check, ss0[|acts0|], id)
    ensures Run(Demo(check), ss, acts)
    ensures var t := ss[|acts|];
            t.w.reg == Reg(map[id := Live(WebItem("a:80")), other := Void], map["a" := HostInfo(id, None)]) &&
            KeysOk(t.w) && id in t.unsubs &&
            t.w.pool == map[Addr(check, id) := 0, Addr(check, other) := 1] && t.handlers.Keys == {0, 1} &&
            t.handlers[0].pc == Connected && t.handlers[1] == Handler(other, Pooled, {}, [])
  {
    hide WebItem, Next, Enabled, Steps;
    AddrInjective(check, id, other);
    hide Addr;
    ss, acts := Arrive(Demo(check), ss0, acts0, 1, other);
    ss, acts := EnterNew(Demo(check), ss, acts, 1, other);
  }

  /** It asks for its host and registers. */
  lemma Join(check: Check, ss0: seq<St>, acts0: seq<Action>, id: Id, other: Id)
    returns (ss: seq<St>, acts: seq<Action>)
    requires id != other && Run(Demo(check), ss0, acts0) && Alone(check, ss0[|acts0|], id)
    ensures Run(Demo(check), ss, acts)
    ensures var t := ss[|acts|];
            t.w.reg == Both(id, other) && KeysOk(t.w) && id in t.unsubs &&
            t.w.pool == map[Addr(check, id) := 0, Addr(check, other) := 1] && t.handlers.Keys == {0, 1} &&
            t.handlers[0].pc == Connected && t.handlers[1] == Handler(other, Connected, {}, [Web("[a:80]:90")])
  {
    hide WebItem, Web, Asking;
    var cfg := Demo(check);
    HostPort.TrimPortNotIdempotent();
    hide Addr, Next, Enabled, Steps, HostPort.TrimPort, Alone;
    ss, acts := Follow(check, ss0, acts0, id, other);
    ss, acts := Ask(cfg, ss, acts, 1, other, "[a:80]:90");
    ss, acts := Register(cfg, ss, acts, 1, other, "[a:80]:90");
  }

  lemma RouteLeft(id: Id, other: Id)
    requires id != other
    ensures var r := Unsubscribe(Both(id, other), id);
            r == Reg(map[other := Live(WebItem("[a:80]:90"))], map["a" := HostInfo(id, None)]) && !Agrees(r) &&
            "a:80" in Listed(r, other)
  {
    HostPort.TrimPortNotIdempotent();
    hide HostPort.TrimPort;
    assert RawHosts(WebItem("a:80").hosts) == {"a:80"};
    var r := Reg(map[other := Live(WebItem("[a:80]:90"))], map["a" := HostInfo(id, None)]);
    assert Unsubscribe(Both(id, other), id) == r;
    var hs := WebItem("[a:80]:90").hosts;
    assert hs[..0] == [] && Index(hs, other) == map["a:80" := HostInfo(other, None)];
    assert r.hosts["a"].id == id && "a" !in Listed(r, id);
  }
}
