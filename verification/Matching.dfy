/** When items and pooled connections match, over every interleaving and exactly: which steps leave a
    client with an item and no connection, or connected and without an item. */
module Matching {
  import opened Prelude
  import opened DeviceId
  import opened Registry
  import opened Pool
  import opened Lifecycle
  import opened Sessions
  import opened Serialised

  // ---- What a step does to one client ----

  /** The step lets go of the client's pool entry, if there is one. */
  predicate Lets(cfg: Config, s: St, a: Action, id: Id)
    requires Enabled(cfg, s, a)
  {
    match a
    case MarkDead(addr) => Identifier(cfg.check, addr) == id
    case UnsubscribeConn(x) => x == id
    case EnterPool(c, pingOk, _) => s.handlers[c].id == id && !(IsPooled(cfg, s, id) && pingOk)
    case Reject(c) => s.handlers[c].id == id && s.handlers[c].pc.inPool
    case _ => false
  }

  /** The step makes a connection the client's pool entry. */
  predicate Enters(cfg: Config, s: St, a: Action, id: Id)
    requires Enabled(cfg, s, a)
  {
    a.EnterPool? && Lets(cfg, s, a, id) && a.connOk
  }

  /** The step registers an item for the client. */
  predicate Registers(cfg: Config, s: St, a: Action, id: Id)
    requires Enabled(cfg, s, a)
  {
    a.SetItem? && s.handlers[a.conn].id == id && SetFault(s.w.reg, s.handlers[a.conn].pc.item, id) == None
  }

  /** The client's pooled connection. */
  function Holding(cfg: Config, s: St, id: Id): Conn
    requires IsPooled(cfg, s, id)
  {
    s.w.pool[Addr(cfg.check, id)]
  }

  /** The client after the step, in terms of the client before it: an item comes with registration
      and goes with removal or with the connection; a pool entry is let go or made. */
  predicate Becomes(cfg: Config, s: St, a: Action, t: St, id: Id)
    requires Enabled(cfg, s, a)
  {
    (IsLive(t.w.reg, id) <==>
       Registers(cfg, s, a, id) ||
       (IsLive(s.w.reg, id) && a != UnsubscribeItem(id) && !(Lets(cfg, s, a, id) && IsPooled(cfg, s, id)))) &&
    (IsPooled(cfg, t, id) <==> Enters(cfg, s, a, id) || (IsPooled(cfg, s, id) && !Lets(cfg, s, a, id))) &&
    (IsPooled(cfg, t, id) ==>
       Holding(cfg, t, id) == if Enters(cfg, s, a, id) then a.conn else Holding(cfg, s, id))
  }

  lemma StepClient(cfg: Config, s: St, a: Action, id: Id)
    requires PoolSound(cfg, s) && Enabled(cfg, s, a)
    ensures Becomes(cfg, s, a, Next(cfg, s, a), id)
  {
    hide Becomes;
    if a.EnterPool? {
      EnterClient(cfg, s, a, id);
    } else if a.Reject? {
      RejectClient(cfg, s, a, id);
    } else if OfHandler(a) {
      HandlerClient(cfg, s, a, id);
    } else if a.MarkDead? {
      DeadClient(cfg, s, a, id);
    } else {
      OutsideClient(cfg, s, a, id);
    }
  }

  lemma EnterClient(cfg: Config, s: St, a: Action, id: Id)
    requires Enabled(cfg, s, a) && a.EnterPool?
    ensures Becomes(cfg, s, a, Next(cfg, s, a), id)
  {
    hide KeysOk, Addr, Identifier, Close, DeleteConn, IsLive, SetFault;
    var x := s.handlers[a.conn].id;
    Deleted(cfg, s.w, x, id);
    AddrInjective(cfg.check, x, id);
    var w := AddConn(cfg.check, s.w, a.conn, x, a.pingOk, a.connOk).0;
    assert Next(cfg, s, a).w == w by {
      hide AddConn;
    }
    hide Next, Enabled;
  }

  /** A step that deletes a client's connection and does nothing else to the world. */
  lemma DeletedClient(cfg: Config, s: St, a: Action, t: St, x: Id, id: Id)
    requires Enabled(cfg, s, a) && !a.EnterPool? && !a.SetItem? && !a.UnsubscribeItem?
    requires t.w == DeleteConn(cfg.check, s.w, x) && (Lets(cfg, s, a, id) <==> id == x)
    ensures Becomes(cfg, s, a, t, id)
  {
    hide KeysOk, Identifier, Close, SetFault;
    Deleted(cfg, s.w, x, id);
    hide Enabled, Addr, DeleteConn, IsLive, Lets;
  }

  /** A step that leaves the pool alone. */
  lemma UnpooledClient(cfg: Config, s: St, a: Action, t: St, id: Id)
    requires Enabled(cfg, s, a) && !a.EnterPool? && !Lets(cfg, s, a, id) && t.w.pool == s.w.pool
    requires IsLive(t.w.reg, id) <==> Registers(cfg, s, a, id) || (IsLive(s.w.reg, id) && a != UnsubscribeItem(id))
    ensures Becomes(cfg, s, a, t, id)
  {
    hide Enabled, Addr, IsLive, Lets, Registers;
  }

  lemma RejectClient(cfg: Config, s: St, a: Action, id: Id)
    requires Enabled(cfg, s, a) && a.Reject?
    ensures Becomes(cfg, s, a, Next(cfg, s, a), id)
  {
    hide DeleteConn, IsLive, Becomes, Addr;
    var h, t := s.handlers[a.conn], Next(cfg, s, a);
    if h.pc.inPool {
      DeletedClient(cfg, s, a, t, h.id, id);
    } else {
      UnpooledClient(cfg, s, a, t, id);
    }
  }

  lemma HandlerClient(cfg: Config, s: St, a: Action, id: Id)
    requires Enabled(cfg, s, a) && OfHandler(a) && !a.EnterPool? && !a.Reject?
    ensures Becomes(cfg, s, a, Next(cfg, s, a), id)
  {
    HandlerWorld(cfg, s, a, id);
    hide Next, Enabled, Becomes, IsLive, SetFault;
    UnpooledClient(cfg, s, a, Next(cfg, s, a), id);
  }

  lemma DeadClient(cfg: Config, s: St, a: Action, id: Id)
    requires PoolSound(cfg, s) && Enabled(cfg, s, a) && a.MarkDead?
    ensures Becomes(cfg, s, a, Next(cfg, s, a), id)
  {
    hide DeleteConn, Identifier, Addr, Close, Becomes, PoolSound, KeysOk;
    MarkDeadDeletes(cfg, s, a.addr);
    assert Next(cfg, s, a).w == Close(cfg.check, s.w, a.addr);
    hide Next, Enabled;
    DeletedClient(cfg, s, a, Next(cfg, s, a), Identifier(cfg.check, a.addr), id);
  }

  lemma OutsideClient(cfg: Config, s: St, a: Action, id: Id)
    requires Enabled(cfg, s, a) && (a.Accept? || a.UnsubscribeConn? || a.UnsubscribeItem?)
    ensures Becomes(cfg, s, a, Next(cfg, s, a), id)
  {
    hide Addr, Identifier, Close, Set;
    LiveAfter(s.w.reg, a.id, id);
    hide DeleteConn, IsLive, Unsubscribe, Listeners, Becomes, KeysOk;
    if a.UnsubscribeConn? {
      DeletedClient(cfg, s, a, Next(cfg, s, a), a.id, id);
    } else {
      UnpooledClient(cfg, s, a, Next(cfg, s, a), id);
    }
  }

  // ---- An item without a connection ----

  predicate Orphan(cfg: Config, s: St, id: Id) {
    IsLive(s.w.reg, id) && !IsPooled(cfg, s, id)
  }

  ghost predicate NoOrphans(cfg: Config, s: St) {
    forall id :: !Orphan(cfg, s, id)
  }

  /** The step registers an item for the client, which is not pooled any more. */
  predicate Orphans(cfg: Config, s: St, a: Action, id: Id)
    requires Enabled(cfg, s, a)
  {
    Registers(cfg, s, a, id) && !IsPooled(cfg, s, id)
  }

  lemma OrphanAfter(cfg: Config, s: St, a: Action, id: Id)
    requires PoolSound(cfg, s) && Enabled(cfg, s, a) && !Orphan(cfg, s, id)
    ensures Orphan(cfg, Next(cfg, s, a), id) <==> Orphans(cfg, s, a, id)
  {
    StepClient(cfg, s, a, id);
    hide Next, Enabled, PoolSound, IsLive, IsPooled, Holding, SetFault;
  }

  /** The handler's batch is about to be accepted although its client is not pooled any more. */
  predicate Late(cfg: Config, s: St, c: Conn) {
    c in s.handlers && s.handlers[c].pc.Adding? && !IsPooled(cfg, s, s.handlers[c].id) &&
    SetFault(s.w.reg, s.handlers[c].pc.item, s.handlers[c].id) == None
  }

  /** Exactly which steps make the first item without a connection: late registrations. */
  lemma StepOrphansIff(cfg: Config, s: St, a: Action)
    requires PoolSound(cfg, s) && Enabled(cfg, s, a) && NoOrphans(cfg, s)
    ensures NoOrphans(cfg, Next(cfg, s, a)) <==> !(a.SetItem? && Late(cfg, s, a.conn))
  {
    hide SetFault, IsPooled, KeysOk;
    if a.SetItem? {
      assert forall id :: Orphans(cfg, s, a, id) ==> id == s.handlers[a.conn].id;
      assert Orphans(cfg, s, a, s.handlers[a.conn].id) <==> Late(cfg, s, a.conn);
    } else {
      assert forall id :: !Orphans(cfg, s, a, id);
    }
    hide Next, Enabled, PoolSound, Orphan, Orphans, Late;
    forall id
      ensures Orphan(cfg, Next(cfg, s, a), id) <==> Orphans(cfg, s, a, id)
    {
      OrphanAfter(cfg, s, a, id);
    }
  }

  /** Over every run: no state up to the i-th has an item without a connection exactly if no
      registration among the first i steps was late. */
  lemma {:induction false} RunOrphansIff(cfg: Config, ss: seq<St>, acts: seq<Action>, i: nat)
    requires Run(cfg, ss, acts) && i < |ss|
    ensures (forall j :: 0 <= j <= i ==> NoOrphans(cfg, ss[j])) <==>
            (forall j :: 0 <= j < i && acts[j].SetItem? ==> !Late(cfg, ss[j], acts[j].conn))
    decreases i
  {
    hide Next, Enabled, PoolSound, Late;
    if i == 0 {
      assert NoOrphans(cfg, INIT);
    } else {
      var n := i - 1;
      RunOrphansIff(cfg, ss, acts, n);
      RunSound(cfg, ss, acts, n);
      assert Steps(cfg, ss[n], acts[n], ss[n + 1]);
      hide NoOrphans;
      if NoOrphans(cfg, ss[n]) {
        StepOrphansIff(cfg, ss[n], acts[n]);
      }
    }
  }

  /** An item without a connection stands until the client is unsubscribed or connects again, and
      while it stands every batch for the client is refused. */
  lemma OrphanEndsIff(cfg: Config, s: St, a: Action, id: Id)
    requires PoolSound(cfg, s) && Enabled(cfg, s, a) && Orphan(cfg, s, id)
    ensures Orphan(cfg, Next(cfg, s, a), id) <==>
            a != UnsubscribeItem(id) && !(a.EnterPool? && s.handlers[a.conn].id == id && a.connOk)
    ensures a.SetItem? && s.handlers[a.conn].id == id ==>
              SetFault(s.w.reg, s.handlers[a.conn].pc.item, id) == Some(Overwrite)
  {
    StepClient(cfg, s, a, id);
    hide Next, Enabled, PoolSound, IsPooled, Holding, Conflict;
  }

  // ---- A connection without an item ----

  /** The client's pooled connection is past its handler's work, and yet there is no item. */
  predicate Bare(cfg: Config, s: St, id: Id) {
    Served(cfg, s, id) && !IsLive(s.w.reg, id)
  }

  /** The handler of the client's pooled connection is connected. */
  predicate Served(cfg: Config, s: St, id: Id) {
    IsPooled(cfg, s, id) && Holding(cfg, s, id) in s.handlers && s.handlers[Holding(cfg, s, id)].pc.Connected?
  }

  ghost predicate NoneBare(cfg: Config, s: St) {
    forall id :: !Bare(cfg, s, id)
  }

  /** A handler is connected once it has registered, and from then on. */
  lemma ConnectedAfter(cfg: Config, s: St, a: Action, c: Conn)
    requires Enabled(cfg, s, a)
    ensures var t := Next(cfg, s, a);
            c in t.handlers && t.handlers[c].pc.Connected? <==>
            c in s.handlers && (s.handlers[c].pc.Connected? ||
                                (a.SetItem? && a.conn == c && Registers(cfg, s, a, s.handlers[c].id)))
  {
    hide Addr, Identifier;
    if OfHandler(a) {
      HandlerSteps(cfg, s, a);
      ConnectedSteps(cfg, s, a);
      hide Next;
    } else {
      hide Close, DeleteConn, Unsubscribe, Listeners, KeysOk;
    }
  }

  lemma ConnectedSteps(cfg: Config, s: St, a: Action)
    requires Enabled(cfg, s, a) && OfHandler(a)
    ensures a.conn in Next(cfg, s, a).handlers && !s.handlers[a.conn].pc.Connected?
    ensures Next(cfg, s, a).handlers[a.conn].pc.Connected? <==>
            a.SetItem? && Registers(cfg, s, a, s.handlers[a.conn].id)
  {
    hide AddConn, DeleteConn, Set, SetFault, Subscribe, Tunnels.AddTunnel, KeysOk;
  }

  lemma BareAfter(cfg: Config, s: St, a: Action, id: Id)
    requires PoolSound(cfg, s) && Enabled(cfg, s, a) && !Bare(cfg, s, id)
    ensures Bare(cfg, Next(cfg, s, a), id) <==> a == UnsubscribeItem(id) && Served(cfg, s, id)
  {
    var t := Next(cfg, s, a);
    StepClient(cfg, s, a, id);
    if IsPooled(cfg, t, id) {
      ConnectedAfter(cfg, s, a, Holding(cfg, t, id));
      if IsPooled(cfg, s, id) {
        assert Belongs(cfg, s, Addr(cfg.check, id), Holding(cfg, s, id));
        AddrInjective(cfg.check, id, s.handlers[Holding(cfg, s, id)].id);
      }
    }
    hide Next, PoolSound, IsLive, SetFault, Addr;
  }

  /** Exactly which steps make the first connected client without an item: the second halves of
      unsubscriptions that find the client connected again. */
  lemma StepBareIff(cfg: Config, s: St, a: Action)
    requires PoolSound(cfg, s) && Enabled(cfg, s, a) && NoneBare(cfg, s)
    ensures NoneBare(cfg, Next(cfg, s, a)) <==> !(a.UnsubscribeItem? && Served(cfg, s, a.id))
  {
    hide Next, Enabled, PoolSound, Bare, Served;
    forall id
      ensures Bare(cfg, Next(cfg, s, a), id) <==> a == UnsubscribeItem(id) && Served(cfg, s, id)
    {
      BareAfter(cfg, s, a, id);
    }
  }

  /** Over every run: no state up to the i-th has a connected client without an item exactly if no
      unsubscription among the first i steps came to its second half with the client connected. */
  lemma {:induction false} RunBareIff(cfg: Config, ss: seq<St>, acts: seq<Action>, i: nat)
    requires Run(cfg, ss, acts) && i < |ss|
    ensures (forall j :: 0 <= j <= i ==> NoneBare(cfg, ss[j])) <==>
            (forall j :: 0 <= j < i && acts[j].UnsubscribeItem? ==> !Served(cfg, ss[j], acts[j].id))
    decreases i
  {
    hide Next, Enabled, PoolSound, Served, NoneBare;
    if i == 0 {
      InitBare(cfg);
    } else {
      var n := i - 1;
      RunBareIff(cfg, ss, acts, n);
      RunSound(cfg, ss, acts, n);
      assert Steps(cfg, ss[n], acts[n], ss[n + 1]);
      if NoneBare(cfg, ss[n]) {
        StepBareIff(cfg, ss[n], acts[n]);
      }
    }
  }

  lemma InitBare(cfg: Config)
    ensures NoneBare(cfg, INIT)
  {
  }

  /** The two together: a client without a handler at work has an item exactly if it is pooled, as
      long as no registration is late and no removal finds the client connected again. */
  lemma Matched(cfg: Config, ss: seq<St>, acts: seq<Action>, i: nat, id: Id)
    requires Run(cfg, ss, acts) && i < |ss| && forall c :: !Holder(ss[i], id, c)
    requires forall j :: 0 <= j < i && acts[j].SetItem? ==> !Late(cfg, ss[j], acts[j].conn)
    requires forall j :: 0 <= j < i && acts[j].UnsubscribeItem? ==> !Served(cfg, ss[j], acts[j].id)
    ensures IsLive(ss[i].w.reg, id) <==> IsPooled(cfg, ss[i], id)
  {
    RunOrphansIff(cfg, ss, acts, i);
    RunBareIff(cfg, ss, acts, i);
    RunSound(cfg, ss, acts, i);
    var s := ss[i];
    assert !Orphan(cfg, s, id) && !Bare(cfg, s, id);
    hide Run, Late, IsLive;
    if IsPooled(cfg, s, id) {
      var c := Holding(cfg, s, id);
      assert Belongs(cfg, s, Addr(cfg.check, id), c);
      AddrInjective(cfg.check, id, s.handlers[c].id);
      hide Addr;
      assert !Holder(s, id, c);
    }
  }
}
