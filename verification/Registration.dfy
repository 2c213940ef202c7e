/** Over every interleaving, what a client has registered is what it asked for: each live item was
    made, in full, from the tunnels of a connected handler of that client. */
module Registration {
  import opened Prelude
  import opened DeviceId
  import opened HostPort
  import opened Registry
  import opened HostIndex
  import opened Pool
  import opened Tunnels
  import opened Lifecycle
  import opened Sessions

  /** An item made of all the tunnels listed: their hosts, in order, and a listener for each of the
      others, the listeners being those that one handler opened. */
  predicate MadeOf(item: RegistryItem, ts: seq<Tunnel>, mine: set<Listener>) {
    item.hosts == HttpHosts(ts) && |item.hosts| + |item.listeners| == |ts| &&
    (forall l :: l in item.listeners ==> l in mine) && (forall l :: l in mine ==> l in item.listeners)
  }

  /** A handler opens nothing before it adds tunnels, and a batch in the making is made of the tunnels
      already met. */
  predicate InProgress(h: Handler) {
    (BeforePool(h.pc) || h.pc.Pooled? ==> h.mine == {}) &&
    (h.pc.Adding? ==>
       |h.pc.rest| <= |h.asked| &&
       h.pc.rest == h.asked[|h.asked| - |h.pc.rest|..] &&
       MadeOf(h.pc.item, h.asked[..|h.asked| - |h.pc.rest|], h.mine))
  }

  predicate MadeBy(s: St, id: Id, c: Conn) {
    c in s.handlers && s.handlers[c].id == id && s.handlers[c].pc.Connected? &&
    IsLive(s.w.reg, id) && MadeOf(s.w.reg.items[id].item, s.handlers[c].asked, s.handlers[c].mine)
  }

  ghost predicate AsAsked(s: St) {
    (forall c :: c in s.handlers ==> InProgress(s.handlers[c])) &&
    (forall id :: IsLive(s.w.reg, id) ==> exists c :: MadeBy(s, id, c))
  }

  lemma OpenInProgress(cfg: Config, s: St, a: Action)
    requires Enabled(cfg, s, a) && a.OpenTunnel? && InProgress(s.handlers[a.conn])
    ensures a.conn in Next(cfg, s, a).handlers && InProgress(Next(cfg, s, a).handlers[a.conn])
  {
    hide KeysOk, DeleteConn, AddConn, MadeOf;
    var h := s.handlers[a.conn];
    var n := |h.asked| - |h.pc.rest|;
    assert h.asked[..n] + [h.asked[n]] == h.asked[..n + 1];
    assert h.pc.rest[0] == h.asked[n] && h.pc.rest[1..] == h.asked[n + 1..];
    MadeAdded(h.pc.item, h.asked[..n], h.asked[n], a.listenOk, cfg.muxer, s.w.nextListener, h.mine);
    hide AddTunnel;
  }

  /** One more tunnel, met by the handler that made the item so far. */
  lemma MadeAdded(item: RegistryItem, ts: seq<Tunnel>, t: Tunnel, ok: bool, muxer: bool, next: Listener,
                  mine: set<Listener>)
    requires MadeOf(item, ts, mine)
    ensures match AddTunnel(item, t, ok, muxer, next)
            case None => true
            case Some(r) =>
              MadeOf(r, ts + [t], if NextAfter(item, r, next) > next then mine + {next} else mine)
  {
    HostsAdded(item, t, ok, muxer, next);
    assert (ts + [t])[..|ts|] == ts;
  }

  /** What one tunnel adds to the hosts, in the terms of the whole list. */
  lemma HostsAdded(item: RegistryItem, t: Tunnel, ok: bool, muxer: bool, next: Listener)
    ensures match AddTunnel(item, t, ok, muxer, next)
            case None => true
            case Some(r) =>
              r.hosts == item.hosts + if t.protocol == HTTP then [HostAuth(t.host, Auth.NewAuth(t.auth))] else []
  {
  }

  lemma HandlerInProgress(cfg: Config, s: St, a: Action)
    requires Enabled(cfg, s, a) && OfHandler(a) && InProgress(s.handlers[a.conn])
    ensures a.conn in Next(cfg, s, a).handlers && InProgress(Next(cfg, s, a).handlers[a.conn])
  {
    hide AddConn, DeleteConn, Set, SetFault, Subscribe, AddTunnel, KeysOk;
    if a.OpenTunnel? {
      OpenInProgress(cfg, s, a);
    } else if a.Handshake? {
      assert a.tunnels[..0] == [];
    } else {
      HandlerSteps(cfg, s, a);
      hide HttpHosts, MadeOf;
    }
  }

  /** Apart from registration, a step keeps or voids each client's item. */
  lemma ItemsAfter(r: Reg, id: Id, x: Id)
    ensures var v := Clear(r, id); IsLive(v, x) ==> IsLive(r, x) && v.items[x] == r.items[x]
    ensures var v := Unsubscribe(r, id); IsLive(v, x) ==> IsLive(r, x) && v.items[x] == r.items[x]
    ensures var v := Subscribe(r, id); IsLive(v, x) ==> IsLive(r, x) && v.items[x] == r.items[x]
  {
  }

  /** Handlers that are connected stay as they are. */
  lemma ConnectedStays(cfg: Config, s: St, a: Action, c: Conn)
    requires Enabled(cfg, s, a) && c in s.handlers && s.handlers[c].pc.Connected?
    ensures c in Next(cfg, s, a).handlers && Next(cfg, s, a).handlers[c] == s.handlers[c]
  {
    hide KeysOk, Identifier;
    if OfHandler(a) {
      HandlerSteps(cfg, s, a);
      hide Next;
    } else {
      hide Close, DeleteConn, Unsubscribe, Listeners;
    }
  }

  /** An item that stands goes on being its handler's. */
  lemma MadeStays(cfg: Config, s: St, a: Action, id: Id, c: Conn)
    requires Enabled(cfg, s, a) && MadeBy(s, id, c) && IsLive(Next(cfg, s, a).w.reg, id)
    ensures MadeBy(Next(cfg, s, a), id, c)
  {
    ConnectedStays(cfg, s, a, c);
    SameItem(cfg, s, a, id);
    hide Next, Enabled, IsLive, MadeOf;
  }

  /** A live item that is live after a step is the same item. */
  lemma SameItem(cfg: Config, s: St, a: Action, id: Id)
    requires Enabled(cfg, s, a) && IsLive(s.w.reg, id) && IsLive(Next(cfg, s, a).w.reg, id)
    ensures Next(cfg, s, a).w.reg.items[id] == s.w.reg.items[id]
  {
    var x := RegAfter(cfg, s, a);
    ItemsAfter(s.w.reg, x, id);
    if a.SetItem? {
      SetItems(s.w.reg, s.handlers[a.conn].pc.item, s.handlers[a.conn].id, id);
      Overwriting(s.w.reg, s.handlers[a.conn].pc.item, id);
    }
    hide Next, Enabled, Clear, Unsubscribe, Subscribe, Set, SetFault;
  }

  lemma Overwriting(r: Reg, item: RegistryItem, id: Id)
    requires IsLive(r, id)
    ensures SetFault(r, item, id) == Some(Overwrite)
  {
  }

  /** A registration makes the item its handler's. */
  lemma MadeNew(cfg: Config, s: St, a: Action)
    requires Enabled(cfg, s, a) && a.SetItem? && InProgress(s.handlers[a.conn])
    requires SetFault(s.w.reg, s.handlers[a.conn].pc.item, s.handlers[a.conn].id) == None
    ensures MadeBy(Next(cfg, s, a), s.handlers[a.conn].id, a.conn)
  {
    hide KeysOk, Addr, Identifier;
    var h := s.handlers[a.conn];
    assert h.asked[..|h.asked|] == h.asked;
    SetItems(s.w.reg, h.pc.item, h.id, h.id);
    hide Set, SetFault, MadeOf;
  }

  lemma ItemMade(cfg: Config, s: St, a: Action, id: Id)
    requires Enabled(cfg, s, a) && AsAsked(s) && IsLive(Next(cfg, s, a).w.reg, id)
    ensures exists c :: MadeBy(Next(cfg, s, a), id, c)
  {
    hide InProgress, MadeBy;
    if IsLive(s.w.reg, id) {
      var c :| MadeBy(s, id, c);
      MadeStays(cfg, s, a, id, c);
    } else {
      NewlyLive(cfg, s, a, id);
      assert InProgress(s.handlers[a.conn]);
      MadeNew(cfg, s, a);
    }
  }

  lemma NewlyLive(cfg: Config, s: St, a: Action, id: Id)
    requires Enabled(cfg, s, a) && !IsLive(s.w.reg, id) && IsLive(Next(cfg, s, a).w.reg, id)
    ensures a.SetItem? && s.handlers[a.conn].id == id
    ensures SetFault(s.w.reg, s.handlers[a.conn].pc.item, id) == None
  {
    var x := RegAfter(cfg, s, a);
    ItemsAfter(s.w.reg, x, id);
    if a.SetItem? {
      SetItems(s.w.reg, s.handlers[a.conn].pc.item, s.handlers[a.conn].id, id);
    }
    hide Next, Enabled, Clear, Unsubscribe, Subscribe, Set, SetFault, IsLive;
  }

  lemma SetItems(r: Reg, item: RegistryItem, id: Id, x: Id)
    ensures var v := Set(r, item, id);
            if SetFault(r, item, id) == None && x == id then IsLive(v, x) && v.items[x] == Live(item)
            else IsLive(v, x) ==> IsLive(r, x) && v.items[x] == r.items[x]
  {
  }

  lemma StepAsAsked(cfg: Config, s: St, a: Action)
    requires Enabled(cfg, s, a) && AsAsked(s)
    ensures AsAsked(Next(cfg, s, a))
  {
    var t := Next(cfg, s, a);
    forall c | c in t.handlers
      ensures InProgress(t.handlers[c])
    {
      if OfHandler(a) {
        HandlerSteps(cfg, s, a);
        HandlerInProgress(cfg, s, a);
      } else {
        OutsideHandlers(cfg, s, a);
      }
      hide Next, InProgress;
      assert c in s.handlers ==> InProgress(s.handlers[c]);
    }
    forall id | IsLive(t.w.reg, id)
      ensures exists c :: MadeBy(t, id, c)
    {
      ItemMade(cfg, s, a, id);
    }
    hide Next, InProgress, MadeBy;
  }

  lemma OutsideHandlers(cfg: Config, s: St, a: Action)
    requires Enabled(cfg, s, a) && !OfHandler(a)
    ensures var t := Next(cfg, s, a);
            forall c :: c in t.handlers ==>
              if c in s.handlers then t.handlers[c] == s.handlers[c] else InProgress(t.handlers[c])
  {
    hide Close, DeleteConn, Unsubscribe, Listeners, HttpHosts;
  }

  lemma {:induction false} RunAsAsked(cfg: Config, ss: seq<St>, acts: seq<Action>, i: nat)
    requires Run(cfg, ss, acts) && i < |ss|
    ensures AsAsked(ss[i])
    decreases i
  {
    hide Next, Enabled;
    if i > 0 {
      RunAsAsked(cfg, ss, acts, i - 1);
      assert Steps(cfg, ss[i - 1], acts[i - 1], ss[i]);
      hide AsAsked;
      StepAsAsked(cfg, ss[i - 1], acts[i - 1]);
    }
  }

  // ---- Hosts without ports ----

  /** The web hosts asked for are written as they are indexed. */
  predicate HostsFixed(ts: seq<Tunnel>) {
    forall t :: t in ts && t.protocol == HTTP ==> TrimPort(t.host) == t.host
  }

  ghost predicate AskedFixed(s: St) {
    forall c :: c in s.handlers ==> HostsFixed(s.handlers[c].asked)
  }

  lemma StepAskedFixed(cfg: Config, s: St, a: Action)
    requires Enabled(cfg, s, a) && AskedFixed(s) && (a.Handshake? ==> HostsFixed(a.tunnels))
    ensures AskedFixed(Next(cfg, s, a))
  {
    if a.Handshake? {
      hide HostsFixed, KeysOk;
      assert HostsFixed(s.handlers[a.conn].asked);
    } else if OfHandler(a) {
      HandlerSteps(cfg, s, a);
      hide Next, Enabled, HostsFixed;
    } else {
      OutsideAsked(cfg, s, a);
      assert HostsFixed([]);
      hide Next, Enabled, HostsFixed;
    }
  }

  lemma OutsideAsked(cfg: Config, s: St, a: Action)
    requires Enabled(cfg, s, a) && !OfHandler(a)
    ensures var t := Next(cfg, s, a);
            forall c :: c in t.handlers ==>
              if c in s.handlers then t.handlers[c] == s.handlers[c] else t.handlers[c].asked == []
  {
    hide Close, DeleteConn, Unsubscribe, Listeners, KeysOk;
  }

  lemma FixedItems(s: St, id: Id)
    requires AsAsked(s) && AskedFixed(s) && Agrees(s.w.reg)
    ensures Clean(s.w.reg, id)
  {
    hide TrimPort, Agrees, Clean, Auth.NewAuth;
    if IsLive(s.w.reg, id) {
      var c :| MadeBy(s, id, c);
      assert HostsFixed(s.handlers[c].asked);
      forall h | h in s.w.reg.items[id].item.hosts
        ensures TrimPort(h.host) == h.host
      {
        HttpHostsFrom(s.handlers[c].asked, h);
      }
    }
    hide MadeBy, HttpHosts;
    FixedIsClean(s.w.reg, id);
  }

  /** If every web host asked for is written as it is indexed, without a port to trim, the index
      agrees with the items over every run, however removals and handlers are interleaved. */
  lemma {:induction false} FixedHostsAgree(cfg: Config, ss: seq<St>, acts: seq<Action>, i: nat)
    requires Run(cfg, ss, acts) && i < |ss|
    requires forall j :: 0 <= j < i && acts[j].Handshake? ==> HostsFixed(acts[j].tunnels)
    ensures Agrees(ss[i].w.reg) && AskedFixed(ss[i])
    decreases i
  {
    hide Next, Enabled, Agrees, Clean, HostsFixed;
    if i == 0 {
      EmptyAgrees();
    } else {
      var n := i - 1;
      FixedHostsAgree(cfg, ss, acts, n);
      RunAsAsked(cfg, ss, acts, n);
      assert Steps(cfg, ss[n], acts[n], ss[i]);
      hide AsAsked, AskedFixed;
      StepAskedFixed(cfg, ss[n], acts[n]);
      if acts[n].UnsubscribeItem? {
        FixedItems(ss[n], acts[n].id);
      }
      StepAgreesIff(cfg, ss[n], acts[n]);
    }
  }
}
