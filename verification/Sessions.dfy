/** What every interleaving of the lifecycle keeps: a connection the server has closed is not in
    the pool, a rejected handler leaves no listener open, the host index stays guarded, and it
    agrees with the items as long as removals are clean. */
module Sessions {
  import opened Prelude
  import opened Text
  import opened DeviceId
  import opened Registry
  import opened HostIndex
  import opened Pool
  import opened Tunnels
  import opened Lifecycle
  import opened Conservation

  // ---- Connections ----

  /** The handler may have its connection in the pool. */
  predicate MayBePooled(pc: Pc) {
    pc.Pooled? || pc.Adding? || pc.RollingBack? || pc.Connected? || (pc.Rejecting? && pc.inPool)
  }

  predicate BeforePool(pc: Pc) {
    pc.Start? || pc.Identified? || pc.Subscribing? || pc.Ready? || pc.Deadline?
  }

  /** Each pool entry is the open connection of a handler for the client the key spells. */
  ghost predicate PoolSound(cfg: Config, s: St) {
    KeysOk(s.w) &&
    (forall addr :: addr in s.w.pool ==> Belongs(cfg, s, addr, s.w.pool[addr])) &&
    (forall c :: c in s.w.closedConns ==> c in s.handlers && !BeforePool(s.handlers[c].pc))
  }

  predicate Belongs(cfg: Config, s: St, addr: Text, c: Conn) {
    c in s.handlers && addr == Addr(cfg.check, s.handlers[c].id) &&
    MayBePooled(s.handlers[c].pc) && c !in s.w.closedConns
  }

  /** Letting go of one entry keeps the pool sound: no other entry holds the connection closed. */
  lemma DropSound(cfg: Config, s: St, t: St, addr: Text)
    requires PoolSound(cfg, s) && t.handlers == s.handlers && addr in s.w.pool
    requires t.w.pool == s.w.pool - {addr} && t.w.closedConns == s.w.closedConns + {s.w.pool[addr]}
    ensures PoolSound(cfg, t)
  {
    hide Addr;
    assert Belongs(cfg, s, addr, s.w.pool[addr]);
    forall b | b in t.w.pool
      ensures Belongs(cfg, t, b, t.w.pool[b])
    {
      assert Belongs(cfg, s, b, s.w.pool[b]);
    }
  }

  lemma DeleteSound(cfg: Config, s: St, t: St, id: Id)
    requires PoolSound(cfg, s) && t.handlers == s.handlers && t.w == DeleteConn(cfg.check, s.w, id)
    ensures PoolSound(cfg, t)
    ensures t.w.pool == s.w.pool - {Addr(cfg.check, id)}
    ensures forall c :: c in t.w.closedConns && c !in s.w.closedConns ==>
              c in s.handlers && MayBePooled(s.handlers[c].pc)
  {
    hide Addr, Clear, Identifier;
    var addr := Addr(cfg.check, id);
    if addr in s.w.pool {
      assert Belongs(cfg, s, addr, s.w.pool[addr]);
      DropSound(cfg, s, t, addr);
    } else {
      assert s.w.pool - {addr} == s.w.pool;
    }
  }

  /** A handler moves on without touching the pool. */
  lemma GoSound(cfg: Config, s: St, t: St, c: Conn)
    requires PoolSound(cfg, s) && c in s.handlers && c in t.handlers
    requires forall d :: d != c ==> (d in t.handlers <==> d in s.handlers)
    requires forall d :: d != c && d in s.handlers ==> t.handlers[d] == s.handlers[d]
    requires t.handlers[c].id == s.handlers[c].id
    requires t.w.pool == s.w.pool && t.w.closedConns == s.w.closedConns
    requires MayBePooled(s.handlers[c].pc) ==> MayBePooled(t.handlers[c].pc) || !(c in s.w.pool.Values)
    requires BeforePool(t.handlers[c].pc) ==> BeforePool(s.handlers[c].pc)
    ensures PoolSound(cfg, t)
  {
    hide Addr;
    forall b | b in t.w.pool
      ensures Belongs(cfg, t, b, t.w.pool[b])
    {
      assert Belongs(cfg, s, b, s.w.pool[b]);
    }
  }

  lemma EnterSound(cfg: Config, s: St, a: Action)
    requires PoolSound(cfg, s) && Enabled(cfg, s, a) && a.EnterPool?
    ensures PoolSound(cfg, Next(cfg, s, a))
  {
    hide Index, Subscribe, Unsubscribe, Listeners, IsLive, AddTunnel, Addr, Clear, Identifier, DeleteConn;
    var t, c := Next(cfg, s, a), a.conn;
    var addr := Addr(cfg.check, s.handlers[c].id);
    if addr in s.w.pool && a.pingOk {
      GoSound(cfg, s, t, c);
    } else {
      var u := s.(w := DeleteConn(cfg.check, s.w, s.handlers[c].id));
      DeleteSound(cfg, s, u, s.handlers[c].id);
      assert c !in u.w.closedConns;
      forall b | b in t.w.pool
        ensures Belongs(cfg, t, b, t.w.pool[b])
      {
        if b in u.w.pool {
          assert Belongs(cfg, u, b, u.w.pool[b]);
        }
      }
    }
    hide *;
  }

  lemma RejectSound(cfg: Config, s: St, a: Action)
    requires PoolSound(cfg, s) && Enabled(cfg, s, a) && a.Reject?
    ensures PoolSound(cfg, Next(cfg, s, a))
  {
    hide Addr, Clear, Identifier, DeleteConn;
    var t, c := Next(cfg, s, a), a.conn;
    var h := s.handlers[c];
    var u := if h.pc.inPool then s.(w := DeleteConn(cfg.check, s.w, h.id)) else s;
    if h.pc.inPool {
      DeleteSound(cfg, s, u, h.id);
    }
    forall b | b in u.w.pool
      ensures u.w.pool[b] != c
    {
      assert Belongs(cfg, u, b, u.w.pool[b]);
    }
    GoSound(cfg, u, t, c);
  }

  lemma StepSound(cfg: Config, s: St, a: Action)
    requires PoolSound(cfg, s) && Enabled(cfg, s, a)
    ensures PoolSound(cfg, Next(cfg, s, a))
  {
    hide Next, PoolSound;
    match a
    case MarkDead(_) => OutsideSound(cfg, s, a);
    case UnsubscribeConn(_) => OutsideSound(cfg, s, a);
    case UnsubscribeItem(_) => OutsideSound(cfg, s, a);
    case EnterPool(_, _, _) => EnterSound(cfg, s, a);
    case Reject(_) => RejectSound(cfg, s, a);
    case Accept(_, _) => OutsideSound(cfg, s, a);
    case CloseConn(_) => CloseConnSound(cfg, s, a);
    case OpenTunnel(_, _) => OpenSound(cfg, s, a);
    case _ => MoveOnSound(cfg, s, a);
  }

  lemma OutsideSound(cfg: Config, s: St, a: Action)
    requires PoolSound(cfg, s) && Enabled(cfg, s, a)
    requires a.MarkDead? || a.UnsubscribeConn? || a.UnsubscribeItem? || a.Accept?
    ensures PoolSound(cfg, Next(cfg, s, a))
  {
    hide Addr, Clear, Identifier, DeleteConn, Unsubscribe, PoolSound;
    var t := Next(cfg, s, a);
    match a
    case MarkDead(addr) => DropSound(cfg, s, t, addr);
    case UnsubscribeConn(id) =>
      DeleteSound(cfg, s, s.(w := t.w), id);
      SameSound(cfg, s.(w := t.w), t);
    case UnsubscribeItem(_) => SameSound(cfg, s, t);
    case Accept(c, _) => AcceptSound(cfg, s, t, c);
  }

  /** A step of a handler that neither enters nor leaves the pool. */
  predicate StaysPut(s: St, t: St, c: Conn)
    requires c in s.handlers && c in t.handlers
  {
    t.w.pool == s.w.pool && t.w.closedConns == s.w.closedConns &&
    (MayBePooled(s.handlers[c].pc) ==> MayBePooled(t.handlers[c].pc)) &&
    (BeforePool(t.handlers[c].pc) ==> BeforePool(s.handlers[c].pc))
  }

  lemma MoveOnSound(cfg: Config, s: St, a: Action)
    requires PoolSound(cfg, s) && Enabled(cfg, s, a)
    requires a.Identify? || a.CheckSubscribed? || a.LetIn? || a.SetDeadline? || a.Handshake? ||
             a.SetItem? || a.CloseListener?
    ensures PoolSound(cfg, Next(cfg, s, a))
  {
    HandlerSteps(cfg, s, a);
    if a.Handshake? || a.SetItem? || a.CloseListener? {
      PooledStays(cfg, s, a);
    } else {
      UnpooledStays(cfg, s, a);
    }
    hide Next, PoolSound;
    GoSound(cfg, s, Next(cfg, s, a), a.conn);
  }

  lemma UnpooledStays(cfg: Config, s: St, a: Action)
    requires Enabled(cfg, s, a)
    requires a.Identify? || a.CheckSubscribed? || a.LetIn? || a.SetDeadline?
    ensures a.conn in Next(cfg, s, a).handlers && StaysPut(s, Next(cfg, s, a), a.conn)
  {
    hide KeysOk, Addr, Identifier, Subscribe;
  }

  lemma PooledStays(cfg: Config, s: St, a: Action)
    requires Enabled(cfg, s, a)
    requires a.Handshake? || a.SetItem? || a.CloseListener?
    ensures a.conn in Next(cfg, s, a).handlers && StaysPut(s, Next(cfg, s, a), a.conn)
  {
    hide Close, AddConn, Set, SetFault;
  }

  lemma OpenSound(cfg: Config, s: St, a: Action)
    requires PoolSound(cfg, s) && Enabled(cfg, s, a) && a.OpenTunnel?
    ensures PoolSound(cfg, Next(cfg, s, a))
  {
    hide Addr, AddTunnel, PoolSound;
    GoSound(cfg, s, Next(cfg, s, a), a.conn);
  }

  lemma SameSound(cfg: Config, s: St, t: St)
    requires PoolSound(cfg, s) && t.handlers == s.handlers
    requires t.w.pool == s.w.pool && t.w.closedConns == s.w.closedConns
    ensures PoolSound(cfg, t)
  {
  }

  lemma AcceptSound(cfg: Config, s: St, t: St, c: Conn)
    requires PoolSound(cfg, s) && c !in s.handlers
    requires t.w == s.w && c in t.handlers && t.handlers == s.handlers[c := t.handlers[c]]
    ensures PoolSound(cfg, t)
  {
    hide Addr;
    forall b | b in t.w.pool
      ensures Belongs(cfg, t, b, t.w.pool[b])
    {
      assert Belongs(cfg, s, b, s.w.pool[b]);
    }
  }

  lemma CloseConnSound(cfg: Config, s: St, a: Action)
    requires PoolSound(cfg, s) && Enabled(cfg, s, a) && a.CloseConn?
    ensures PoolSound(cfg, Next(cfg, s, a))
  {
    hide Addr;
    var t := Next(cfg, s, a);
    forall b | b in t.w.pool
      ensures Belongs(cfg, t, b, t.w.pool[b])
    {
      assert Belongs(cfg, s, b, s.w.pool[b]);
    }
  }

  lemma {:induction false} RunSound(cfg: Config, ss: seq<St>, acts: seq<Action>, i: nat)
    requires Run(cfg, ss, acts) && i < |ss|
    ensures PoolSound(cfg, ss[i])
    decreases i
  {
    hide Next, Enabled;
    if i > 0 {
      RunSound(cfg, ss, acts, i - 1);
      assert Steps(cfg, ss[i - 1], acts[i - 1], ss[i]);
      StepSound(cfg, ss[i - 1], acts[i - 1]);
    }
  }

  /** Over every interleaving, although a rejected handler deletes by client and not by connection,
      no connection the server has closed is in the pool, and no two entries share a connection. */
  lemma ClosedNotPooled(cfg: Config, ss: seq<St>, acts: seq<Action>, i: nat)
    requires Run(cfg, ss, acts) && i < |ss|
    ensures var w := ss[i].w;
            (forall addr :: addr in w.pool ==> w.pool[addr] !in w.closedConns) &&
            (forall a, b :: a in w.pool && b in w.pool && w.pool[a] == w.pool[b] ==> a == b)
  {
    RunSound(cfg, ss, acts, i);
    var w := ss[i].w;
    hide Addr;
    assert forall addr :: addr in w.pool ==> Belongs(cfg, ss[i], addr, w.pool[addr]);
  }

  // ---- Rejected handlers ----

  /** Whatever a handler has opened is registered with a connected handler, still in its batch, or
      closed. */
  ghost predicate Accounted(s: St) {
    forall c, l :: c in s.handlers && l in s.handlers[c].mine ==>
      s.handlers[c].pc.Connected? || l in BatchOf(s.handlers[c].pc) || l in s.w.closed
  }

  /** Closed listeners stay closed. */
  lemma ClosedGrows(cfg: Config, s: St, a: Action)
    requires Enabled(cfg, s, a)
    ensures s.w.closed <= Next(cfg, s, a).w.closed
  {
    hide Addr, Identifier, Listeners, AddTunnel, SetFault, Clear;
  }

  lemma {:induction false} RunClosedGrows(cfg: Config, ss: seq<St>, acts: seq<Action>, i: nat, k: nat)
    requires Run(cfg, ss, acts) && i <= k < |ss|
    ensures ss[i].w.closed <= ss[k].w.closed
    decreases k
  {
    hide Next, Enabled;
    if i < k {
      RunClosedGrows(cfg, ss, acts, i, k - 1);
      assert Steps(cfg, ss[k - 1], acts[k - 1], ss[k]);
      ClosedGrows(cfg, ss[k - 1], acts[k - 1]);
    }
  }

  lemma OpenAccounted(cfg: Config, s: St, a: Action)
    requires Accounted(s) && Enabled(cfg, s, a) && a.OpenTunnel?
    ensures Accounted(Next(cfg, s, a))
  {
    hide AddTunnel;
    var c, h := a.conn, s.handlers[a.conn];
    forall l | l in h.mine
      ensures l in h.pc.item.listeners || l in s.w.closed
    {
    }
  }

  lemma CloseAccounted(cfg: Config, s: St, a: Action)
    requires Accounted(s) && Enabled(cfg, s, a) && a.CloseListener?
    ensures Accounted(Next(cfg, s, a))
  {
    var t, left := Next(cfg, s, a), s.handlers[a.conn].pc.left;
    if left != [] {
      assert left == [left[0]] + left[1..];
      forall l | l in s.handlers[a.conn].mine
        ensures l in left[1..] || l in t.w.closed
      {
        assert l in left ==> l == left[0] || l in left[1..];
      }
    }
  }

  lemma StepAccounted(cfg: Config, s: St, a: Action)
    requires Accounted(s) && Enabled(cfg, s, a)
    ensures Accounted(Next(cfg, s, a))
  {
    if a.OpenTunnel? {
      OpenAccounted(cfg, s, a);
    } else if a.CloseListener? {
      CloseAccounted(cfg, s, a);
    } else {
      OtherAccounted(cfg, s, a);
    }
  }

  /** Other steps keep a handler's batch, or register it. */
  lemma BatchKept(cfg: Config, s: St, a: Action)
    requires Enabled(cfg, s, a) && OfHandler(a) && !a.OpenTunnel? && !a.CloseListener?
    ensures a.conn in Next(cfg, s, a).handlers && !s.handlers[a.conn].pc.Connected?
    ensures var pc := Next(cfg, s, a).handlers[a.conn].pc;
            pc.Connected? || BatchOf(pc) == BatchOf(s.handlers[a.conn].pc)
  {
    hide KeysOk, Close, AddConn, DeleteConn, Set, SetFault, Subscribe;
  }

  lemma KeptAccounted(s: St, t: St, c: Conn)
    requires Accounted(s) && s.w.closed <= t.w.closed
    requires c in s.handlers && c in t.handlers && t.handlers == s.handlers[c := t.handlers[c]]
    requires t.handlers[c].mine == s.handlers[c].mine && !s.handlers[c].pc.Connected?
    requires t.handlers[c].pc.Connected? || BatchOf(t.handlers[c].pc) == BatchOf(s.handlers[c].pc)
    ensures Accounted(t)
  {
  }

  lemma OutsideAccounted(cfg: Config, s: St, a: Action)
    requires Accounted(s) && Enabled(cfg, s, a) && !OfHandler(a)
    ensures Accounted(Next(cfg, s, a))
  {
    hide KeysOk, Addr, Identifier, IsLive, AddTunnel;
    ClosedGrows(cfg, s, a);
    hide DeleteConn, Close, Unsubscribe, Listeners;
    var t := Next(cfg, s, a);
    assert forall c, l :: c in t.handlers && l in t.handlers[c].mine ==>
             c in s.handlers && l in s.handlers[c].mine;
  }

  lemma OtherAccounted(cfg: Config, s: St, a: Action)
    requires Accounted(s) && Enabled(cfg, s, a) && !a.OpenTunnel? && !a.CloseListener?
    ensures Accounted(Next(cfg, s, a))
  {
    if OfHandler(a) {
      ClosedGrows(cfg, s, a);
      HandlerSteps(cfg, s, a);
      BatchKept(cfg, s, a);
      hide Next, Accounted;
      KeptAccounted(s, Next(cfg, s, a), a.conn);
    } else {
      OutsideAccounted(cfg, s, a);
    }
  }

  lemma {:induction false} RunAccounted(cfg: Config, ss: seq<St>, acts: seq<Action>, i: nat)
    requires Run(cfg, ss, acts) && i < |ss|
    ensures Accounted(ss[i])
    decreases i
  {
    hide Next, Enabled;
    if i > 0 {
      RunAccounted(cfg, ss, acts, i - 1);
      assert Steps(cfg, ss[i - 1], acts[i - 1], ss[i]);
      StepAccounted(cfg, ss[i - 1], acts[i - 1]);
    }
  }

  /** A handler past the point of rejection has closed every listener it opened, and once it has
      finished its connection is closed and out of the pool. */
  lemma RejectedLeavesNothing(cfg: Config, ss: seq<St>, acts: seq<Action>, i: nat, c: Conn)
    requires Run(cfg, ss, acts) && i < |ss| && c in ss[i].handlers
    ensures var s, h := ss[i], ss[i].handlers[c];
            (h.pc.Rejecting? || h.pc.Closing? || h.pc.Rejected? ==> forall l :: l in h.mine ==> l in s.w.closed) &&
            (h.pc.Closing? || h.pc.Rejected? ==> c !in s.w.pool.Values)
    ensures ss[i].handlers[c].pc.Rejected? ==> c in ss[i].w.closedConns
  {
    hide KeysOk, Close;
    RunAccounted(cfg, ss, acts, i);
    RunSound(cfg, ss, acts, i);
    RunRejectedClosed(cfg, ss, acts, i);
    hide Addr;
    var w := ss[i].w;
    forall addr | addr in w.pool
      ensures Belongs(cfg, ss[i], addr, w.pool[addr])
    {
    }
  }

  ghost predicate RejectedClosed(s: St) {
    forall c :: c in s.handlers && s.handlers[c].pc.Rejected? ==> c in s.w.closedConns
  }

  lemma StepRejectedClosed(cfg: Config, s: St, a: Action)
    requires RejectedClosed(s) && Enabled(cfg, s, a)
    ensures RejectedClosed(Next(cfg, s, a))
  {
    hide IsLive, NextAfter, Keys, Enabled, Addr, Identifier, Clear, Listeners, Set, SetFault,
      Unsubscribe, Subscribe, AddTunnel;
  }

  lemma {:induction false} RunRejectedClosed(cfg: Config, ss: seq<St>, acts: seq<Action>, i: nat)
    requires Run(cfg, ss, acts) && i < |ss|
    ensures RejectedClosed(ss[i])
    decreases i
  {
    hide Next, Enabled;
    if i > 0 {
      RunRejectedClosed(cfg, ss, acts, i - 1);
      assert Steps(cfg, ss[i - 1], acts[i - 1], ss[i]);
      StepRejectedClosed(cfg, ss[i - 1], acts[i - 1]);
    }
  }

  // ---- The host index ----

  /** How a step can change the registry. */
  lemma RegAfter(cfg: Config, s: St, a: Action) returns (id: Id)
    requires Enabled(cfg, s, a)
    ensures var r, v := s.w.reg, Next(cfg, s, a).w.reg;
            v == r || v == Subscribe(r, id) || v == Clear(r, id) ||
            (a.UnsubscribeItem? && id == a.id && v == Unsubscribe(r, id)) ||
            (a.SetItem? && id == s.handlers[a.conn].id && v == Set(r, s.handlers[a.conn].pc.item, id))
  {
    hide NextAfter, Addr, Identifier, Clear, Listeners, Set, SetFault, Unsubscribe, Subscribe, AddTunnel;
    match a
    case MarkDead(addr) => id := Identifier(cfg.check, addr);
    case UnsubscribeConn(x) => id := Identifier(cfg.check, Addr(cfg.check, x));
    case UnsubscribeItem(x) => id := x;
    case Accept(_, x) => id := x;
    case EnterPool(c, _, _) => id := Identifier(cfg.check, Addr(cfg.check, s.handlers[c].id));
    case Reject(c) => id := Identifier(cfg.check, Addr(cfg.check, s.handlers[c].id));
    case _ => id := s.handlers[a.conn].id;
  }

  /** A step keeps the index and the items in agreement exactly when it is not an unclean removal. */
  lemma StepAgreesIff(cfg: Config, s: St, a: Action)
    requires Enabled(cfg, s, a) && Agrees(s.w.reg)
    ensures Agrees(Next(cfg, s, a).w.reg) <==> (a.UnsubscribeItem? ==> Clean(s.w.reg, a.id))
  {
    hide Agrees, Clean, Clear, Set, Unsubscribe, Subscribe;
    if a.UnsubscribeItem? {
      UnsubscribeAgreesIff(s.w.reg, a.id);
    } else {
      var id := RegAfter(cfg, s, a);
      SubscribeAgrees(s.w.reg, id);
      ClearAgrees(s.w.reg, id);
      if a.SetItem? {
        SetAgrees(s.w.reg, s.handlers[a.conn].pc.item, id);
      }
    }
  }

  /** Over every run whose removals so far were clean, the index agrees with the items. */
  lemma {:induction false} RunAgrees(cfg: Config, ss: seq<St>, acts: seq<Action>, i: nat)
    requires Run(cfg, ss, acts) && i < |ss|
    requires forall j :: 0 <= j < i && acts[j].UnsubscribeItem? ==> Clean(ss[j].w.reg, acts[j].id)
    ensures Agrees(ss[i].w.reg)
    decreases i
  {
    hide Next, Enabled, Clean, Agrees;
    if i == 0 {
      EmptyAgrees();
    } else {
      RunAgrees(cfg, ss, acts, i - 1);
      assert Steps(cfg, ss[i - 1], acts[i - 1], ss[i]);
      StepAgreesIff(cfg, ss[i - 1], acts[i - 1]);
    }
  }

  // ---- Credentials ----

  /** Batches in the making carry credentials as configuration produces them. */
  ghost predicate BatchesConfigured(s: St) {
    forall c :: c in s.handlers && s.handlers[c].pc.Adding? ==> Configured(s.handlers[c].pc.item.hosts)
  }

  lemma AddTunnelConfigured(item: RegistryItem, t: Tunnel, ok: bool, muxer: bool, next: Listener)
    requires Configured(item.hosts) && AddTunnel(item, t, ok, muxer, next).Some?
    ensures Configured(AddTunnel(item, t, ok, muxer, next).value.hosts)
  {
  }

  lemma StepConfigured(cfg: Config, s: St, a: Action)
    requires BatchesConfigured(s) && Enabled(cfg, s, a)
    ensures BatchesConfigured(Next(cfg, s, a))
  {
    hide KeysOk;
    hide AddConn, DeleteConn, Close, Set, SetFault, Unsubscribe, Subscribe, Listeners, AddTunnel,
      Configured;
    if a.OpenTunnel? {
      var h := s.handlers[a.conn];
      if AddTunnel(h.pc.item, h.pc.rest[0], a.listenOk, cfg.muxer, s.w.nextListener).Some? {
        AddTunnelConfigured(h.pc.item, h.pc.rest[0], a.listenOk, cfg.muxer, s.w.nextListener);
      }
    } else if a.Handshake? {
      NoItemConfigured();
    }
  }

  lemma NoItemConfigured()
    ensures Configured(NO_ITEM.hosts)
  {
  }

  lemma StepGuarded(cfg: Config, s: St, a: Action)
    requires BatchesConfigured(s) && Guarded(s.w.reg) && Enabled(cfg, s, a)
    ensures Guarded(Next(cfg, s, a).w.reg)
  {
    hide Guarded, Clear, Set, Unsubscribe, Subscribe, Configured;
    var id := RegAfter(cfg, s, a);
    NoItemConfigured();
    OperationsGuarded(s.w.reg, if a.SetItem? then s.handlers[a.conn].pc.item else NO_ITEM, id);
  }

  /** Over every run, clean or not, every protected host in the index has a user that a request can
      present. */
  lemma {:induction false} RunGuarded(cfg: Config, ss: seq<St>, acts: seq<Action>, i: nat)
    requires Run(cfg, ss, acts) && i < |ss|
    ensures Guarded(ss[i].w.reg) && BatchesConfigured(ss[i])
    decreases i
  {
    hide Next, Enabled, Guarded, BatchesConfigured;
    if i == 0 {
      EmptyAgrees();
      InitConfigured();
    } else {
      RunGuarded(cfg, ss, acts, i - 1);
      assert Steps(cfg, ss[i - 1], acts[i - 1], ss[i]);
      StepGuarded(cfg, ss[i - 1], acts[i - 1]);
      StepConfigured(cfg, ss[i - 1], acts[i - 1]);
    }
  }

  lemma InitConfigured()
    ensures BatchesConfigured(INIT)
  {
  }
}
