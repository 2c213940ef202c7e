/** What whole visits keep: a settled server stays settled, a visit touches no other client, and it
    is accepted exactly under conditions that can be read off before it. */
module HandlingLaws {
  import opened Prelude
  import opened Text
  import opened DeviceId
  import opened Luhn
  import opened HostPort
  import opened Registry
  import opened HostIndex
  import opened Pool
  import opened Tunnels
  import opened Handling

  /** One listener has one client, and the open listeners are those of the items. */
  ghost predicate ListenersOwned(w: World) {
    (forall l :: l in w.closed ==> l < w.nextListener) &&
    (forall l: Listener, id :: l in Listeners(w.reg, id) ==> l in Open(w)) &&
    (forall l: Listener :: l in Open(w) ==> exists id :: l in Listeners(w.reg, id)) &&
    (forall l: Listener, a, b :: l in Listeners(w.reg, a) && l in Listeners(w.reg, b) ==> a == b)
  }

  /** Each pooled connection is open and pooled once. */
  ghost predicate ConnsOwned(w: World) {
    KeysOk(w) &&
    (forall a :: a in w.pool ==> w.pool[a] !in w.closedConns) &&
    (forall a, b :: a in w.pool && b in w.pool && w.pool[a] == w.pool[b] ==> a == b)
  }

  /** A client has an item exactly if it is pooled, save one whose visit is under way: that one has
      none. */
  ghost predicate Paired(check: Check, w: World, busy: Option<Id>) {
    forall id: Id :: if busy == Some(id) then !IsLive(w.reg, id) else Pairs(check, w, id)
  }

  predicate Pairs(check: Check, w: World, id: Id) {
    Addr(check, id) in w.pool <==> IsLive(w.reg, id)
  }

  ghost predicate Settled(check: Check, w: World, busy: Option<Id>) {
    ConnsOwned(w) && ListenersOwned(w) && Agrees(w.reg) && Paired(check, w, busy)
  }

  /** The item and the pool entry of a client are the same in two worlds; where the index agrees with
      the items, so are its hosts. */
  ghost predicate SameFor(check: Check, w: World, v: World, x: Id) {
    var k := Addr(check, x);
    (x in v.reg.items <==> x in w.reg.items) && (x in w.reg.items ==> v.reg.items[x] == w.reg.items[x]) &&
    (k in v.pool <==> k in w.pool) && (k in w.pool ==> v.pool[k] == w.pool[k])
  }

  // ---- The steps of a visit ----

  /** Another registry with the same live items. */
  lemma RegSettled(check: Check, w: World, r: Reg)
    requires Settled(check, w, None) && Agrees(r)
    requires forall x :: IsLive(r, x) == IsLive(w.reg, x) && Listeners(r, x) == Listeners(w.reg, x)
    ensures Settled(check, w.(reg := r), None)
  {
    var v := w.(reg := r);
    hide Addr, Agrees, IsLive, Listeners;
    assert Open(v) == Open(w);
    assert forall x :: Pairs(check, v, x) == Pairs(check, w, x);
  }

  lemma SubscribeSettled(check: Check, w: World, id: Id)
    requires Settled(check, w, None)
    ensures Settled(check, w.(reg := Subscribe(w.reg, id)), None)
  {
    SubscribeAgrees(w.reg, id);
    hide Settled, Agrees;
    RegSettled(check, w, Subscribe(w.reg, id));
  }

  lemma DropSettled(check: Check, w: World, id: Id, busy: Option<Id>)
    requires Settled(check, w, busy) && (busy == None || busy == Some(id))
    ensures var v := DeleteConn(check, w, id);
            Settled(check, v, None) && v.reg == Clear(w.reg, id) && v.pool == w.pool - {Addr(check, id)} &&
            !IsLive(v.reg, id)
    ensures forall x: Id :: x != id ==> SameFor(check, w, DeleteConn(check, w, id), x)
  {
    var v := DeleteConn(check, w, id);
    assert IsLive(w.reg, id) ==> Addr(check, id) in w.pool by {
      hide Addr, IsLive;
      assert busy == None ==> Pairs(check, w, id);
    }
    DeleteCleared(check, w, id);
    ClearAgrees(w.reg, id);
    hide DeleteConn;
    DropListeners(w, v, id);
    DropConns(check, w, v, id);
    DropPairs(check, w, v, id, busy);
    hide ListenersOwned, ConnsOwned, Paired, Agrees, SameFor;
  }

  lemma DropListeners(w: World, v: World, id: Id)
    requires ListenersOwned(w)
    requires v.reg == Clear(w.reg, id) && v.closed == w.closed + multiset(Listeners(w.reg, id))
    requires v.nextListener == w.nextListener
    ensures ListenersOwned(v)
  {
    forall x
      ensures Listeners(v.reg, x) == if x == id then [] else Listeners(w.reg, x)
    {
      hide Keys;
    }
    hide Listeners, Clear;
    assert forall l: Listener :: l in v.closed <==> l in w.closed || l in Listeners(w.reg, id);
    forall l: Listener, x | l in Listeners(v.reg, x)
      ensures l in Open(v)
    {
      assert x != id && l in Listeners(w.reg, x);
      assert l in Open(w) && l !in Listeners(w.reg, id);
    }
    forall l: Listener | l in Open(v)
      ensures exists x :: l in Listeners(v.reg, x)
    {
      assert l in Open(w) && l !in Listeners(w.reg, id);
      var x :| l in Listeners(w.reg, x);
      assert l in Listeners(v.reg, x);
    }
    forall l | l in v.closed
      ensures l < v.nextListener
    {
      assert l in Listeners(w.reg, id) ==> l in Open(w);
    }
  }

  lemma DropConns(check: Check, w: World, v: World, id: Id)
    requires ConnsOwned(w) && v.pool == w.pool - {Addr(check, id)}
    requires v.closedConns ==
             w.closedConns + if Addr(check, id) in w.pool then {w.pool[Addr(check, id)]} else {}
    ensures ConnsOwned(v)
  {
    hide Addr;
  }

  lemma DropPairs(check: Check, w: World, v: World, id: Id, busy: Option<Id>)
    requires Paired(check, w, busy) && (busy == None || busy == Some(id))
    requires v.reg == Clear(w.reg, id) && v.pool == w.pool - {Addr(check, id)}
    ensures Paired(check, v, None) && !IsLive(v.reg, id)
    ensures forall x: Id :: x != id ==> SameFor(check, w, v, x)
  {
    hide Addr;
    forall x: Id
      ensures Pairs(check, v, x)
      ensures x != id ==> SameFor(check, w, v, x)
    {
      hide Keys;
      AddrInjective(check, x, id);
      assert x != id ==> Pairs(check, w, x);
    }
  }

  lemma HangUpSettled(check: Check, w: World, conn: Conn, busy: Option<Id>)
    requires Settled(check, w, busy) && conn !in w.pool.Values
    ensures Settled(check, HangUp(w, conn), busy)
  {
    hide Addr, Agrees, Listeners, IsLive;
    var v := HangUp(w, conn);
    assert Open(v) == Open(w);
    assert forall x :: Pairs(check, v, x) == Pairs(check, w, x);
  }

  /** The pool entry a visit makes: the client is busy until its item is set. */
  lemma EntrySettled(check: Check, w: World, conn: Conn, id: Id)
    requires Settled(check, w, None) && !IsLive(w.reg, id)
    requires conn !in w.pool.Values && conn !in w.closedConns
    ensures Settled(check, w.(pool := w.pool[Addr(check, id) := conn]), Some(id))
    ensures var v := w.(pool := w.pool[Addr(check, id) := conn]);
            forall x: Id :: x != id ==> SameFor(check, w, v, x)
  {
    var v := w.(pool := w.pool[Addr(check, id) := conn]);
    hide Addr, Agrees, Listeners, IsLive;
    assert Open(v) == Open(w);
    forall x: Id | x != id
      ensures Pairs(check, v, x) && SameFor(check, w, v, x)
    {
      AddrInjective(check, x, id);
      assert Pairs(check, w, x);
    }
  }

  lemma BatchSettled(cfg: Config, w: World, ts: seq<Tunnel>, listens: seq<bool>, id: Id)
    requires Settled(cfg.check, w, Some(id)) && Addr(cfg.check, id) in w.pool && |listens| == |ts|
    ensures var (v, fault) := AddTunnels(w, ts, listens, cfg.muxer, id);
            Settled(cfg.check, v, if fault == None then None else Some(id)) &&
            v.pool == w.pool && v.closedConns == w.closedConns &&
            forall x: Id :: x != id ==> SameFor(cfg.check, w, v, x)
  {
    AddTunnelsAtomic(w, ts, listens, cfg.muxer, id);
    BatchItem(w, ts, listens, cfg.muxer, id);
    var (v, fault) := AddTunnels(w, ts, listens, cfg.muxer, id);
    hide AddTunnels;
    if fault == None {
      SetAgrees(w.reg, v.reg.items[id].item, id);
      hide SetFault, Set;
      NewListeners(w, v, id);
      ItemPairs(cfg.check, w, v, id);
    } else {
      SameOpen(cfg.check, w, v, id);
    }
    hide Agrees, Open, Listeners, ListenersOwned, Paired, Pairs, SameFor, IsLive, Addr;
  }

  lemma SameOpen(check: Check, w: World, v: World, id: Id)
    requires ListenersOwned(w) && Paired(check, w, Some(id))
    requires v.reg == w.reg && v.pool == w.pool && Open(v) == Open(w)
    requires forall l :: l in v.closed ==> l < v.nextListener
    ensures ListenersOwned(v) && Paired(check, v, Some(id))
    ensures forall x: Id :: SameFor(check, w, v, x)
  {
    hide Addr, Listeners, IsLive, Open;
    assert forall x :: Pairs(check, v, x) == Pairs(check, w, x);
  }

  lemma ItemPairs(check: Check, w: World, v: World, id: Id)
    requires Paired(check, w, Some(id)) && Addr(check, id) in w.pool
    requires v.pool == w.pool && IsLive(v.reg, id) && v.reg.items == w.reg.items[id := v.reg.items[id]]
    ensures Paired(check, v, None)
    ensures forall x: Id :: x != id ==> SameFor(check, w, v, x)
  {
    hide Addr;
    forall x: Id
      ensures Pairs(check, v, x)
    {
      assert x != id ==> Pairs(check, w, x);
    }
  }

  /** What a successful batch does to the registry. */
  lemma BatchItem(w: World, ts: seq<Tunnel>, listens: seq<bool>, muxer: bool, id: Id)
    requires |listens| == |ts|
    requires forall l :: l in w.closed ==> l < w.nextListener
    ensures var (v, fault) := AddTunnels(w, ts, listens, muxer, id);
            (forall l :: l in v.closed ==> l < v.nextListener) &&
            (fault == None ==>
               IsLive(v.reg, id) && !IsLive(w.reg, id) &&
               SetFault(w.reg, v.reg.items[id].item, id) == None &&
               v.reg == Set(w.reg, v.reg.items[id].item, id) &&
               v.reg.items == w.reg.items[id := v.reg.items[id]] && v.closed == w.closed &&
               v.nextListener == w.nextListener + |v.reg.items[id].item.listeners| &&
               forall l: Listener :: l in v.reg.items[id].item.listeners <==> w.nextListener <= l < v.nextListener)
  {
    hide Conflict, Index;
    BuildListeners(ts, listens, muxer, w.nextListener);
    var b := Build(ts, listens, muxer, w.nextListener);
    forall l: Listener
      ensures l in b.item.listeners <==> w.nextListener <= l < b.next
    {
      if w.nextListener <= l < b.next {
        assert b.item.listeners[l - w.nextListener] == l;
      }
    }
  }

  lemma NewListeners(w: World, v: World, id: Id)
    requires ListenersOwned(w) && IsLive(v.reg, id) && !IsLive(w.reg, id)
    requires v.reg.items == w.reg.items[id := v.reg.items[id]] && v.closed == w.closed
    requires v.nextListener >= w.nextListener
    requires forall l: Listener :: l in v.reg.items[id].item.listeners <==> w.nextListener <= l < v.nextListener
    ensures ListenersOwned(v)
  {
    forall x
      ensures x != id ==> Listeners(v.reg, x) == Listeners(w.reg, x)
    {
    }
    assert Listeners(w.reg, id) == [];
    var mine := v.reg.items[id].item.listeners;
    assert Listeners(v.reg, id) == mine;
    hide Listeners;
    forall l: Listener, x | l in Listeners(v.reg, x)
      ensures l in Open(v)
    {
      assert x != id ==> l in Listeners(w.reg, x) && l in Open(w);
    }
    forall l: Listener | l in Open(v)
      ensures exists x :: l in Listeners(v.reg, x)
    {
      if l < w.nextListener {
        assert l in Open(w);
        var x :| l in Listeners(w.reg, x);
        assert l in Listeners(v.reg, x);
      } else {
        assert l in Listeners(v.reg, id);
      }
    }
    forall l: Listener, a, b | l in Listeners(v.reg, a) && l in Listeners(v.reg, b)
      ensures a == b
    {
      assert a == id ==> l in mine;
      assert b == id ==> l in mine;
      assert a != id ==> l in Listeners(w.reg, a) && l in Open(w);
      assert b != id ==> l in Listeners(w.reg, b) && l in Open(w);
    }
  }

  // ---- Whole visits ----

  /** The connection is new to the server. */
  predicate Fresh(w: World, conn: Conn) {
    conn !in w.pool.Values && conn !in w.closedConns
  }

  lemma AddConnSettled(cfg: Config, w: World, id: Id, v: Visit)
    requires Settled(cfg.check, w, None) && Fresh(w, v.conn)
    ensures var (u, err) := AddConn(cfg.check, w, v.conn, id, v.pingOk, v.connOk);
            Settled(cfg.check, u, if err == None then Some(id) else None) &&
            (if err == None then Addr(cfg.check, id) in u.pool && u.pool[Addr(cfg.check, id)] == v.conn
             else Fresh(u, v.conn)) &&
            (err == None <==> !(Addr(cfg.check, id) in w.pool && v.pingOk) && v.connOk) &&
            (err == None ==> u.reg == Clear(w.reg, id)) &&
            forall x: Id :: x != id ==> SameFor(cfg.check, w, u, x)
  {
    var d := DeleteConn(cfg.check, w, id);
    var u := AddConn(cfg.check, w, v.conn, id, v.pingOk, v.connOk).0;
    DropSettled(cfg.check, w, id, None);
    DropFresh(cfg.check, w, id, v.conn);
    hide Settled, Addr, DeleteConn, Clear, IsLive, SameFor;
    if Addr(cfg.check, id) in w.pool && v.pingOk {
      assert u == w;
      SameAlways(cfg.check, w);
    } else if v.connOk {
      assert ConnsOwned(w) && ConnsOwned(d) by {
        assert Settled(cfg.check, w, None) && Settled(cfg.check, d, None);
      }
      EntrySettled(cfg.check, d, v.conn, id);
      SameAfter(cfg.check, w, d, u, id);
    }
  }

  lemma SameAlways(check: Check, w: World)
    ensures forall x: Id :: SameFor(check, w, w, x)
  {
    hide Addr;
  }

  lemma SameAfter(check: Check, w: World, u: World, v: World, id: Id)
    requires forall x: Id :: x != id ==> SameFor(check, w, u, x)
    requires forall x: Id :: x != id ==> SameFor(check, u, v, x)
    ensures forall x: Id :: x != id ==> SameFor(check, w, v, x)
  {
    hide Addr;
    forall x: Id | x != id
      ensures SameFor(check, w, v, x)
    {
      assert SameFor(check, w, u, x) && SameFor(check, u, v, x);
    }
  }

  lemma DropFresh(check: Check, w: World, id: Id, conn: Conn)
    requires KeysOk(w) && Fresh(w, conn)
    ensures Fresh(DeleteConn(check, w, id), conn)
  {
    hide Addr, Identifier, Clear;
  }

  lemma EnterSettled(cfg: Config, w: World, id: Id, v: Visit)
    requires Settled(cfg.check, w, None) && Fresh(w, v.conn) && Wellformed(v)
    ensures var (x, pooled, connected) := Enter(cfg, w, id, v);
            Settled(cfg.check, x, if pooled && !connected then Some(id) else None) &&
            (connected ==> pooled) &&
            (if pooled then Addr(cfg.check, id) in x.pool && x.pool[Addr(cfg.check, id)] == v.conn
             else Fresh(x, v.conn)) &&
            (connected ==> IsLive(x.reg, id) && x.reg.items[id].item.hosts == HttpHosts(v.tunnels.value)) &&
            forall y: Id :: y != id ==> SameFor(cfg.check, w, x, y)
  {
    assert KeysOk(w);
    hide Settled, Addr, AddConn, AddTunnels, IsLive, SameFor, HttpHosts, Fresh;
    var (u, err) := AddConn(cfg.check, w, v.conn, id, v.pingOk, v.connOk);
    AddConnSettled(cfg, w, id, v);
    if err != None {
      assert Enter(cfg, w, id, v) == (u, false, false);
    } else if v.tunnels == None || v.tunnels.value == [] {
      assert Enter(cfg, w, id, v) == (u, true, false);
    } else {
      var ts := v.tunnels.value;
      var (x, fault) := AddTunnels(u, ts, v.listens, cfg.muxer, id);
      assert Enter(cfg, w, id, v) == (x, true, fault == None);
      BatchSettled(cfg, u, ts, v.listens, id);
      BatchHosts(cfg, u, ts, v.listens, id);
      SameAfter(cfg.check, w, u, x, id);
    }
    hide Enter;
  }

  lemma BatchHosts(cfg: Config, w: World, ts: seq<Tunnel>, listens: seq<bool>, id: Id)
    requires Settled(cfg.check, w, Some(id)) && |listens| == |ts|
    ensures var (v, fault) := AddTunnels(w, ts, listens, cfg.muxer, id);
            fault == None ==> IsLive(v.reg, id) && v.reg.items[id].item.hosts == HttpHosts(ts)
  {
    AddTunnelsAtomic(w, ts, listens, cfg.muxer, id);
    hide AddTunnels, Agrees, Paired;
  }

  /** A visit to a settled server by a new connection leaves it settled, so that no listener is open
      and no host routed but for a pooled client; accepted, its connection is the client's and the
      tunnels asked for are registered; rejected, its connection is closed.  No other client's item
      or connection changes. */
  lemma HandleSettled(cfg: Config, w: World, v: Visit)
    requires Settled(cfg.check, w, None) && Fresh(w, v.conn) && Wellformed(v)
    ensures var (x, accepted) := Handle(cfg, w, v);
            Settled(cfg.check, x, None) &&
            (accepted ==>
               var id := v.cert.value;
               Addr(cfg.check, id) in x.pool && x.pool[Addr(cfg.check, id)] == v.conn &&
               IsLive(x.reg, id) && x.reg.items[id].item.hosts == HttpHosts(v.tunnels.value)) &&
            (!accepted ==> v.conn in x.closedConns && v.conn !in x.pool.Values) &&
            forall y: Id :: Some(y) != v.cert ==> SameFor(cfg.check, w, x, y)
  {
    assert KeysOk(w);
    hide Admit, Enter, Settled, SameFor, Addr, IsLive, HttpHosts, HangUp, DeleteConn;
    SameAlways(cfg.check, w);
    if v.cert == None {
      HungUp(cfg.check, w, w, v.conn, None);
    } else {
      var id := v.cert.value;
      var (reg, admitted) := Admit(cfg, w.reg, id, v.can);
      var w1 := w.(reg := reg);
      AdmitSettled(cfg, w, id, v.can);
      if !admitted || !v.deadlineOk {
        HungUp(cfg.check, w, w1, v.conn, v.cert);
      } else {
        var (x, pooled, connected) := Enter(cfg, w1, id, v);
        EnterSettled(cfg, w1, id, v);
        SameAfter(cfg.check, w, w1, x, id);
        if pooled && !connected {
          ThrownOut(cfg.check, w, x, id, v.conn);
        } else if !pooled {
          HungUp(cfg.check, w, x, v.conn, v.cert);
        }
      }
    }
  }

  lemma AdmitSettled(cfg: Config, w: World, id: Id, can: bool)
    requires Settled(cfg.check, w, None)
    ensures var v := w.(reg := Admit(cfg, w.reg, id, can).0);
            Settled(cfg.check, v, None) && forall x: Id :: x != id ==> SameFor(cfg.check, w, v, x)
  {
    SubscribeSettled(cfg.check, w, id);
    hide Addr, Settled;
  }

  /** Closing a connection that is not pooled. */
  lemma HungUp(check: Check, w: World, u: World, conn: Conn, who: Option<Id>)
    requires Settled(check, u, None) && conn !in u.pool.Values
    requires forall x: Id :: Some(x) != who ==> SameFor(check, w, u, x)
    ensures var v := HangUp(u, conn);
            Settled(check, v, None) && conn in v.closedConns && conn !in v.pool.Values &&
            forall x: Id :: Some(x) != who ==> SameFor(check, w, v, x)
  {
    HangUpSettled(check, u, conn, None);
    hide Settled, Addr;
    var v := HangUp(u, conn);
    forall x: Id | Some(x) != who
      ensures SameFor(check, w, v, x)
    {
      assert SameFor(check, w, u, x);
    }
  }

  /** Rejecting a connection that is pooled: its entry goes first. */
  lemma ThrownOut(check: Check, w: World, u: World, id: Id, conn: Conn)
    requires Settled(check, u, Some(id))
    requires Addr(check, id) in u.pool && u.pool[Addr(check, id)] == conn
    requires forall x: Id :: x != id ==> SameFor(check, w, u, x)
    ensures var v := HangUp(DeleteConn(check, u, id), conn);
            Settled(check, v, None) && conn in v.closedConns && conn !in v.pool.Values &&
            forall x: Id :: x != id ==> SameFor(check, w, v, x)
  {
    DropSettled(check, u, id, Some(id));
    var d := DeleteConn(check, u, id);
    SameAfter(check, w, u, d, id);
    assert conn !in d.pool.Values by {
      hide Addr, DeleteConn;
      assert ConnsOwned(u);
    }
    HungUp(check, w, d, conn, Some(id));
    hide Settled, Addr, DeleteConn, SameFor, HangUp;
  }

  /** A tunnel that can be registered for the client: its host, if any, has a user if it has
      credentials and is not another client's. */
  predicate Registrable(r: Reg, id: Id, t: Tunnel) {
    t.protocol == HTTP ==>
      UserGiven(t.auth) && (TrimPort(t.host) in r.hosts ==> r.hosts[TrimPort(t.host)].id == id)
  }

  /** Exactly which visits to a settled server are accepted, in terms of the server before the
      visit: a client's own former hosts are no obstacle, and a connection of its own is one only if
      it still answers. */
  lemma AcceptedIff(cfg: Config, w: World, v: Visit)
    requires Settled(cfg.check, w, None) && Fresh(w, v.conn) && Wellformed(v)
    ensures Handle(cfg, w, v).1 <==>
            v.cert.Some? && (cfg.autoSubscribe || v.cert.value in w.reg.items || v.can) && v.deadlineOk &&
            !(Addr(cfg.check, v.cert.value) in w.pool && v.pingOk) && v.connOk &&
            v.tunnels.Some? && v.tunnels.value != [] &&
            AllAddable(v.tunnels.value, v.listens, cfg.muxer) &&
            forall t :: t in v.tunnels.value ==> Registrable(w.reg, v.cert.value, t)
  {
    hide KeysOk, Close, AddConn, Agrees;
    assert KeysOk(w);
    hide Settled, Addr, AllAddable;
    if v.cert.Some? {
      var id := v.cert.value;
      var (reg, admitted) := Admit(cfg, w.reg, id, v.can);
      var w1 := w.(reg := reg);
      AdmitSettled(cfg, w, id, v.can);
      assert admitted <==> cfg.autoSubscribe || id in w.reg.items || v.can;
      assert reg.hosts == w.reg.hosts && (admitted ==> id in reg.items);
      hide Admit, SameFor, DeleteConn, HangUp;
      if admitted {
        EnteredIff(cfg, w1, id, v);
      }
    }
  }

  lemma EnteredIff(cfg: Config, w: World, id: Id, v: Visit)
    requires Settled(cfg.check, w, None) && Fresh(w, v.conn) && Wellformed(v) && id in w.reg.items
    ensures Enter(cfg, w, id, v).2 <==>
            !(Addr(cfg.check, id) in w.pool && v.pingOk) && v.connOk && v.tunnels.Some? && v.tunnels.value != [] &&
            AllAddable(v.tunnels.value, v.listens, cfg.muxer) &&
            forall t :: t in v.tunnels.value ==> Registrable(w.reg, id, t)
  {
    hide KeysOk, DeleteConn;
    AddConnSettled(cfg, w, id, v);
    assert Agrees(w.reg);
    ClearedHosts(w.reg, id);
    var (u, err) := AddConn(cfg.check, w, v.conn, id, v.pingOk, v.connOk);
    hide Settled, Addr, AddConn, AddTunnels, SameFor, UserGiven, TrimPort, AllAddable, Agrees;
    if err == None && v.tunnels.Some? {
      assert u.reg.items[id] == Void;
      hide Clear;
      AddTunnelsIff(u, v.tunnels.value, v.listens, cfg.muxer, id);
    }
  }

  // ---- Who is subscribed ----

  lemma DeleteItems(check: Check, w: World, id: Id)
    requires KeysOk(w)
    ensures DeleteConn(check, w, id).reg.items.Keys == w.reg.items.Keys
  {
    hide Addr, Identifier, Keys, Listeners;
  }

  lemma SetItems(r: Reg, item: RegistryItem, id: Id)
    ensures Set(r, item, id).items.Keys == r.items.Keys
  {
    hide Conflict, Index;
  }

  lemma EnterItems(cfg: Config, w: World, id: Id, v: Visit)
    requires KeysOk(w) && Wellformed(v)
    ensures Enter(cfg, w, id, v).0.reg.items.Keys == w.reg.items.Keys
  {
    DeleteItems(cfg.check, w, id);
    var u := AddConn(cfg.check, w, v.conn, id, v.pingOk, v.connOk).0;
    assert u.reg.items.Keys == w.reg.items.Keys by {
      hide Addr, DeleteConn;
    }
    if v.tunnels.Some? {
      SetItems(u.reg, Build(v.tunnels.value, v.listens, cfg.muxer, u.nextListener).item, id);
    }
    hide AddConn, Set, SetFault, Build;
  }

  lemma RestItems(cfg: Config, w: World, id: Id, v: Visit)
    requires KeysOk(w) && Wellformed(v)
    ensures KeysOk(Enter(cfg, w, id, v).0)
    ensures DeleteConn(cfg.check, Enter(cfg, w, id, v).0, id).reg.items.Keys == w.reg.items.Keys
    ensures Enter(cfg, w, id, v).0.reg.items.Keys == w.reg.items.Keys
  {
    EnterKeys(cfg, w, id, v);
    EnterItems(cfg, w, id, v);
    hide Enter, DeleteConn, KeysOk;
    DeleteItems(cfg.check, Enter(cfg, w, id, v).0, id);
  }

  /** A visit subscribes its client exactly if clients are subscribed by themselves or this one may be,
      accepted in the end or not, and nobody else. */
  lemma SubscribedIff(cfg: Config, w: World, v: Visit, x: Id)
    requires KeysOk(w) && Wellformed(v)
    ensures x in Handle(cfg, w, v).0.reg.items <==>
            x in w.reg.items || (v.cert == Some(x) && (cfg.autoSubscribe || v.can))
  {
    if v.cert.Some? {
      var id := v.cert.value;
      AdmittedIff(cfg, w.reg, id, v.can, x);
      var w1 := w.(reg := Admit(cfg, w.reg, id, v.can).0);
      assert KeysOk(w1);
      hide Enter, DeleteConn, Admit, KeysOk;
      RestItems(cfg, w1, id, v);
    }
  }

  lemma AdmittedIff(cfg: Config, r: Reg, id: Id, can: bool, x: Id)
    ensures x in Admit(cfg, r, id, can).0.items <==> x in r.items || (id == x && (cfg.autoSubscribe || can))
  {
  }

  // ---- The other operations ----

  lemma InitialSettled(check: Check)
    ensures Settled(check, INITIAL, None)
  {
    hide Addr;
    EmptyAgrees();
    hide Agrees;
  }

  /** A pool key that some client spells. */
  predicate KeyMade(check: Check, addr: Text) {
    |addr| >= 4 && addr == Addr(check, Identifier(check, addr))
  }

  /** A connection found dead is its client's, and letting go of it is deleting the client's. */
  lemma DeadSettled(check: Check, w: World, addr: Text)
    requires Settled(check, w, None) && addr in w.pool && KeyMade(check, addr)
    ensures var id := Identifier(check, addr);
            Close(check, w, addr) == DeleteConn(check, w, id) &&
            Settled(check, Close(check, w, addr), None) &&
            forall x: Id :: x != id ==> SameFor(check, w, Close(check, w, addr), x)
  {
    DropSettled(check, w, Identifier(check, addr), None);
    hide Addr, Settled, SameFor, Identifier;
  }

  /** Unsubscribing keeps the server settled, leaves nothing of the client, and no other client is
      touched. */
  lemma RemovalSettled(check: Check, w: World, id: Id)
    requires Settled(check, w, None)
    ensures var d := DeleteConn(check, w, id);
            var x := d.(reg := Unsubscribe(d.reg, id));
            Settled(check, x, None) && id !in x.reg.items && Addr(check, id) !in x.pool &&
            (forall k :: k in x.reg.hosts ==> x.reg.hosts[k].id != id) &&
            forall y: Id :: y != id ==> SameFor(check, w, x, y)
  {
    DropSettled(check, w, id, None);
    var d := DeleteConn(check, w, id);
    hide DeleteConn;
    RemovedSettled(check, d, id);
    var x := d.(reg := Unsubscribe(d.reg, id));
    NoHostsOfUnlisted(d.reg, id);
    assert x.reg.hosts == d.reg.hosts;
    SameAfter(check, w, d, x, id);
    hide Addr, SameFor, ListenersOwned, ConnsOwned, Paired, Agrees;
  }

  lemma RemovedSettled(check: Check, w: World, id: Id)
    requires Settled(check, w, None) && !IsLive(w.reg, id)
    ensures var x := w.(reg := Unsubscribe(w.reg, id));
            Settled(check, x, None) && forall y: Id :: y != id ==> SameFor(check, w, x, y)
  {
    var r := Unsubscribe(w.reg, id);
    UnsubscribeAgreesIff(w.reg, id);
    assert Clean(w.reg, id);
    RemovedSame(check, w, id);
    hide *;
    RegSettled(check, w, r);
  }

  lemma RemovedSame(check: Check, w: World, id: Id)
    requires !IsLive(w.reg, id)
    ensures var r := Unsubscribe(w.reg, id);
            forall y :: IsLive(r, y) == IsLive(w.reg, y) && Listeners(r, y) == Listeners(w.reg, y)
    ensures forall y: Id :: y != id ==> SameFor(check, w, w.(reg := Unsubscribe(w.reg, id)), y)
  {
    hide Addr;
  }

  // ---- Servers in use ----

  /** The operations the server is used by, one at a time. */
  datatype Op = Visiting(visit: Visit) | Dying(addr: Text) | Removing(id: Id)

  /** A visit brings a connection the server has not got; only a pooled connection is found dead. */
  predicate Possible(w: World, op: Op) {
    KeysOk(w) &&
    match op
    case Visiting(v) => Wellformed(v) && Fresh(w, v.conn)
    case Dying(addr) => addr in w.pool
    case Removing(_) => true
  }

  function Do(cfg: Config, w: World, op: Op): World
    requires Possible(w, op)
  {
    match op
    case Visiting(v) => Handle(cfg, w, v).0
    case Dying(addr) => Close(cfg.check, w, addr)
    case Removing(id) =>
      var d := DeleteConn(cfg.check, w, id);
      d.(reg := Unsubscribe(d.reg, id))
  }

  ghost predicate Uses(cfg: Config, ws: seq<World>, ops: seq<Op>) {
    |ws| == |ops| + 1 && ws[0] == INITIAL &&
    forall i :: 0 <= i < |ops| ==> Possible(ws[i], ops[i]) && ws[i + 1] == Do(cfg, ws[i], ops[i])
  }

  lemma DoKeys(cfg: Config, w: World, op: Op, addr: Text)
    requires Possible(w, op) && (addr in w.pool ==> KeyMade(cfg.check, addr))
    ensures addr in Do(cfg, w, op).pool ==> KeyMade(cfg.check, addr)
  {
    hide Addr, Clear, Listeners, Unsubscribe, KeyMade;
    if op.Visiting? {
      hide Identifier;
      HandlePool(cfg, w, op.visit, addr);
      if addr !in w.pool && op.visit.cert.Some? {
        MadeKey(cfg.check, op.visit.cert.value);
      }
    }
  }

  lemma MadeKey(check: Check, id: Id)
    ensures KeyMade(check, Addr(check, id))
  {
    IdentifierOfAddr(check, id);
    hide Addr, Identifier;
  }

  lemma DeletePoolKeys(check: Check, w: World, id: Id)
    requires KeysOk(w)
    ensures DeleteConn(check, w, id).pool.Keys <= w.pool.Keys
  {
    hide Addr, Identifier, Clear, Listeners, KeysOk;
  }

  lemma EnterPoolKeys(cfg: Config, w: World, id: Id, v: Visit)
    requires KeysOk(w) && Wellformed(v)
    ensures Enter(cfg, w, id, v).0.pool.Keys <= w.pool.Keys + {Addr(cfg.check, id)}
  {
    DeletePoolKeys(cfg.check, w, id);
    hide Addr, DeleteConn, Build, SetFault, Set, KeysOk;
  }

  /** A visit adds no pool key but the client's own. */
  lemma HandlePool(cfg: Config, w: World, v: Visit, addr: Text)
    requires KeysOk(w) && Wellformed(v)
    ensures addr in Handle(cfg, w, v).0.pool ==>
              addr in w.pool || (v.cert.Some? && addr == Addr(cfg.check, v.cert.value))
  {
    hide Identifier, IsLive, AddTunnel, NextAfter, Keys, RawHosts, TrimPort;
    if v.cert.Some? {
      var id := v.cert.value;
      var w1 := w.(reg := Admit(cfg, w.reg, id, v.can).0);
      assert KeysOk(w1);
      EnterPoolKeys(cfg, w1, id, v);
      AddConnKeys(cfg.check, w1, v.conn, id, v.pingOk, v.connOk);
      hide Enter, DeleteConn, Addr, Admit;
      var (x, pooled, connected) := Enter(cfg, w1, id, v);
      DeletePoolKeys(cfg.check, x, id);
    }
  }

  /** Every server reached by visits, deaths and removals in any order is settled, and its pool keys
      are those of clients. */
  lemma {:induction false} ReachedSettled(cfg: Config, ws: seq<World>, ops: seq<Op>, i: nat)
    requires Uses(cfg, ws, ops) && i < |ws|
    ensures Settled(cfg.check, ws[i], None)
    ensures forall addr :: addr in ws[i].pool ==> KeyMade(cfg.check, addr)
    decreases i
  {
    hide Settled, Handle, Close, DeleteConn, Unsubscribe, KeyMade;
    if i == 0 {
      InitialSettled(cfg.check);
    } else {
      var w := ws[i - 1];
      ReachedSettled(cfg, ws, ops, i - 1);
      forall addr | addr in ws[i].pool
        ensures KeyMade(cfg.check, addr)
      {
        DoKeys(cfg, w, ops[i - 1], addr);
      }
      match ops[i - 1]
      case Visiting(v) => HandleSettled(cfg, w, v);
      case Dying(addr) => DeadSettled(cfg.check, w, addr);
      case Removing(id) => RemovalSettled(cfg.check, w, id);
    }
  }
}
