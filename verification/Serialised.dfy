/** The lifecycle when the stretch from a client's entry into the pool to the end of its handler's
    work, or of its removal, is not disturbed by another step that changes the same client.

    Then a client's item is registered exactly while its connection is pooled.  Other clients' steps
    may come in between as they please.  Module Matching says exactly when the correspondence
    holds without the discipline, and module Orphans gives runs in which it does not. */
module Serialised {
  import opened Prelude
  import opened Text
  import opened DeviceId
  import opened Registry
  import opened Pool
  import opened Tunnels
  import opened Lifecycle
  import opened Sessions

  /** Between entering the pool and either connecting or leaving it again. */
  predicate Critical(pc: Pc) {
    pc.Pooled? || pc.Adding? || pc.RollingBack? || (pc.Rejecting? && pc.inPool)
  }

  predicate Holder(s: St, id: Id, c: Conn) {
    c in s.handlers && s.handlers[c].id == id && Critical(s.handlers[c].pc)
  }

  /** Nobody is in the middle of something with the client. */
  ghost predicate Quiet(s: St, id: Id) {
    s.unsubs[id] == 0 && forall c :: !Holder(s, id, c)
  }

  predicate IsPooled(cfg: Config, s: St, id: Id) {
    Addr(cfg.check, id) in s.w.pool
  }

  /** Entering the pool changes nothing: a connection that answers is there already, or there is
      none and HTTP/2 cannot be set up. */
  predicate TurnedAway(cfg: Config, s: St, id: Id, pingOk: bool, connOk: bool) {
    if IsPooled(cfg, s, id) then pingOk else !connOk
  }

  /** The discipline: only a quiet client's pool entry is made, or taken away, by others. */
  ghost predicate Serial(cfg: Config, s: St, a: Action)
    requires Enabled(cfg, s, a)
  {
    match a
    case EnterPool(c, pingOk, connOk) =>
      Quiet(s, s.handlers[c].id) || TurnedAway(cfg, s, s.handlers[c].id, pingOk, connOk)
    case MarkDead(addr) => Quiet(s, Identifier(cfg.check, addr))
    case UnsubscribeConn(id) => Quiet(s, id)
    case _ => true
  }

  predicate HeldBy(cfg: Config, s: St, id: Id, c: Conn) {
    Addr(cfg.check, id) in s.w.pool && s.w.pool[Addr(cfg.check, id)] == c
  }

  /** One client's state: a handler or a removal in progress owns it alone, with the item void;
      and when it is quiet, it has an item exactly if it is pooled. */
  ghost predicate Ordered(cfg: Config, s: St, id: Id) {
    s.unsubs[id] <= 1 &&
    (s.unsubs[id] == 1 ==> !IsPooled(cfg, s, id) && !IsLive(s.w.reg, id)) &&
    (forall c :: Holder(s, id, c) ==> HeldBy(cfg, s, id, c) && !IsLive(s.w.reg, id)) &&
    (Quiet(s, id) ==> (IsPooled(cfg, s, id) <==> IsLive(s.w.reg, id)))
  }

  ghost predicate AllOrdered(cfg: Config, s: St) {
    forall id :: Ordered(cfg, s, id)
  }

  // ---- Other clients ----

  function Subject(cfg: Config, s: St, a: Action): Id
    requires Enabled(cfg, s, a)
  {
    match a
    case Accept(_, id) => id
    case MarkDead(addr) => Identifier(cfg.check, addr)
    case UnsubscribeConn(id) => id
    case UnsubscribeItem(id) => id
    case _ => s.handlers[a.conn].id
  }

  /** Nothing about a client has changed. */
  ghost predicate Untouched(cfg: Config, s: St, t: St, id: Id) {
    (IsPooled(cfg, t, id) <==> IsPooled(cfg, s, id)) &&
    (forall c :: HeldBy(cfg, t, id, c) <==> HeldBy(cfg, s, id, c)) &&
    (forall c :: Holder(t, id, c) <==> Holder(s, id, c)) &&
    (IsLive(t.w.reg, id) <==> IsLive(s.w.reg, id)) &&
    t.unsubs[id] == s.unsubs[id]
  }

  lemma UntouchedOrdered(cfg: Config, s: St, t: St, id: Id)
    requires Ordered(cfg, s, id) && Untouched(cfg, s, t, id)
    ensures Ordered(cfg, t, id)
  {
  }

  lemma LiveAfter(r: Reg, id: Id, x: Id)
    ensures IsLive(Clear(r, id), x) <==> x != id && IsLive(r, x)
    ensures IsLive(Unsubscribe(r, id), x) <==> x != id && IsLive(r, x)
    ensures IsLive(Subscribe(r, id), x) <==> IsLive(r, x)
  {
  }

  lemma LiveAfterSet(r: Reg, item: RegistryItem, id: Id, x: Id)
    requires SetFault(r, item, id) == None
    ensures !IsLive(r, id)
    ensures IsLive(Set(r, item, id), x) <==> x == id || IsLive(r, x)
  {
  }

  /** What deleting a client's connection does, client by client. */
  lemma Deleted(cfg: Config, w: World, id: Id, x: Id)
    requires KeysOk(w)
    ensures var v := DeleteConn(cfg.check, w, id);
            var k := Addr(cfg.check, x);
            (k in v.pool <==> x != id && k in w.pool) &&
            (k in v.pool ==> v.pool[k] == w.pool[k]) &&
            (IsLive(v.reg, x) <==> IsLive(w.reg, x) && (x == id ==> k !in w.pool))
  {
    AddrInjective(cfg.check, id, x);
    IdentifierOfAddr(cfg.check, id);
    LiveAfter(w.reg, id, x);
    hide Addr, Identifier, Clear, IsLive;
  }

  /** A sound pool's dead connection belongs to the client its key spells. */
  lemma MarkDeadDeletes(cfg: Config, s: St, addr: Text)
    requires PoolSound(cfg, s) && addr in s.w.pool
    ensures Addr(cfg.check, Identifier(cfg.check, addr)) == addr
    ensures Close(cfg.check, s.w, addr) == DeleteConn(cfg.check, s.w, Identifier(cfg.check, addr))
  {
    hide Addr, Identifier;
    assert Belongs(cfg, s, addr, s.w.pool[addr]);
    IdentifierOfAddr(cfg.check, s.handlers[s.w.pool[addr]].id);
  }

  /** Deleting another client's connection leaves a client alone. */
  lemma DeleteElsewhere(cfg: Config, s: St, t: St, x: Id, id: Id)
    requires KeysOk(s.w) && id != x
    requires t.w == DeleteConn(cfg.check, s.w, x)
    requires forall c :: Holder(t, id, c) <==> Holder(s, id, c)
    requires t.unsubs[id] == s.unsubs[id]
    ensures Untouched(cfg, s, t, id)
  {
    Deleted(cfg, s.w, x, id);
    hide Addr, DeleteConn, IsLive, Holder;
  }

  lemma OutsideElsewhere(cfg: Config, s: St, a: Action, id: Id)
    requires PoolSound(cfg, s) && Enabled(cfg, s, a) && !OfHandler(a) && id != Subject(cfg, s, a)
    ensures Untouched(cfg, s, Next(cfg, s, a), id)
  {
    hide KeysOk, AddConn, Set, Addr, Identifier, Close, DeleteConn, IsLive, Unsubscribe, Untouched,
      Listeners;
    match a
    case MarkDead(addr) =>
      MarkDeadDeletes(cfg, s, addr);
      DeleteElsewhere(cfg, s, Next(cfg, s, a), Identifier(cfg.check, addr), id);
    case UnsubscribeConn(x) => DeleteElsewhere(cfg, s, Next(cfg, s, a), x, id);
    case UnsubscribeItem(x) => ItemElsewhere(cfg, s, Next(cfg, s, a), x, id);
    case Accept(c, x) => ItemElsewhere(cfg, s, Next(cfg, s, a), x, id);
  }

  lemma ItemElsewhere(cfg: Config, s: St, t: St, x: Id, id: Id)
    requires id != x && t.w.pool == s.w.pool
    requires t.w.reg == s.w.reg || t.w.reg == Unsubscribe(s.w.reg, x)
    requires forall c :: Holder(t, id, c) <==> Holder(s, id, c)
    requires t.unsubs[id] == s.unsubs[id]
    ensures Untouched(cfg, s, t, id)
  {
    LiveAfter(s.w.reg, x, id);
    hide Addr, IsLive, Holder, Unsubscribe;
  }

  /** A handler that stays on its side of the critical stretch leaves every client with the same
      holders; one that crosses it, every client but its own. */
  lemma HandlerUntouched(cfg: Config, s: St, t: St, c: Conn, id: Id)
    requires c in s.handlers && c in t.handlers && t.handlers == s.handlers[c := t.handlers[c]]
    requires t.handlers[c].id == s.handlers[c].id && t.unsubs == s.unsubs
    requires id != s.handlers[c].id || (Critical(t.handlers[c].pc) <==> Critical(s.handlers[c].pc))
    requires var k := Addr(cfg.check, id);
             (k in t.w.pool <==> k in s.w.pool) && (k in t.w.pool ==> t.w.pool[k] == s.w.pool[k])
    requires IsLive(t.w.reg, id) <==> IsLive(s.w.reg, id)
    ensures Untouched(cfg, s, t, id)
  {
    hide Addr, IsLive, Critical;
  }

  lemma EnterElsewhere(cfg: Config, s: St, a: Action, id: Id)
    requires Enabled(cfg, s, a) && a.EnterPool? && id != s.handlers[a.conn].id
    ensures Untouched(cfg, s, Next(cfg, s, a), id)
  {
    hide Addr, Identifier, Close, DeleteConn, IsLive, Untouched, Critical, KeysOk;
    var x := s.handlers[a.conn].id;
    Deleted(cfg, s.w, x, id);
    AddrInjective(cfg.check, x, id);
    HandlerUntouched(cfg, s, Next(cfg, s, a), a.conn, id);
  }

  /** What a handler's step, other than entering the pool, does to the world as seen from one
      client. */
  lemma HandlerWorld(cfg: Config, s: St, a: Action, id: Id)
    requires Enabled(cfg, s, a) && OfHandler(a) && !a.EnterPool? && !a.Reject?
    ensures var t, h := Next(cfg, s, a), s.handlers[a.conn];
            t.w.pool == s.w.pool &&
            (IsLive(t.w.reg, id) <==>
               IsLive(s.w.reg, id) || (a.SetItem? && id == h.id && SetFault(s.w.reg, h.pc.item, id) == None))
  {
    hide KeysOk, Addr, Identifier;
    var h := s.handlers[a.conn];
    LiveAfter(s.w.reg, h.id, id);
    if a.SetItem? && SetFault(s.w.reg, h.pc.item, h.id) == None {
      LiveAfterSet(s.w.reg, h.pc.item, h.id, id);
    }
    hide Set, SetFault, Subscribe, AddTunnel, IsLive;
  }

  lemma HandlerElsewhere(cfg: Config, s: St, a: Action, id: Id)
    requires Enabled(cfg, s, a) && OfHandler(a) && id != s.handlers[a.conn].id
    ensures Untouched(cfg, s, Next(cfg, s, a), id)
  {
    hide KeysOk, Close, HandlerNext;
    HandlerSteps(cfg, s, a);
    if a.EnterPool? {
      EnterElsewhere(cfg, s, a, id);
    } else if a.Reject? {
      RejectElsewhere(cfg, s, a, id);
    } else {
      HandlerWorld(cfg, s, a, id);
      hide Next, Addr, IsLive;
    }
  }

  lemma RejectElsewhere(cfg: Config, s: St, a: Action, id: Id)
    requires Enabled(cfg, s, a) && a.Reject? && id != s.handlers[a.conn].id
    ensures Untouched(cfg, s, Next(cfg, s, a), id)
  {
    hide Addr, DeleteConn, IsLive, Untouched;
    var t := Next(cfg, s, a);
    if s.handlers[a.conn].pc.inPool {
      DeleteElsewhere(cfg, s, t, s.handlers[a.conn].id, id);
    } else {
      ItemElsewhere(cfg, s, t, s.handlers[a.conn].id, id);
    }
  }

  // ---- The client a step is about ----

  lemma NowQuiet(cfg: Config, t: St, id: Id)
    requires t.unsubs[id] == 0 && forall c :: !Holder(t, id, c)
    requires IsPooled(cfg, t, id) <==> IsLive(t.w.reg, id)
    ensures Ordered(cfg, t, id)
  {
  }

  lemma OutsideOrdered(cfg: Config, s: St, a: Action)
    requires PoolSound(cfg, s) && Enabled(cfg, s, a) && !OfHandler(a) && Serial(cfg, s, a)
    requires Ordered(cfg, s, Subject(cfg, s, a))
    ensures Ordered(cfg, Next(cfg, s, a), Subject(cfg, s, a))
  {
    hide Addr, Identifier, Close, DeleteConn, IsLive, Unsubscribe, Listeners, Ordered;
    match a
    case MarkDead(addr) => DeadOrdered(cfg, s, a);
    case UnsubscribeConn(_) => RemovalOrdered(cfg, s, a);
    case UnsubscribeItem(_) => RemovedOrdered(cfg, s, a);
    case Accept(_, id) => AcceptOrdered(cfg, s, a);
  }

  lemma DeadOrdered(cfg: Config, s: St, a: Action)
    requires PoolSound(cfg, s) && Enabled(cfg, s, a) && a.MarkDead? && Serial(cfg, s, a)
    ensures Ordered(cfg, Next(cfg, s, a), Identifier(cfg.check, a.addr))
  {
    var id := Identifier(cfg.check, a.addr);
    MarkDeadDeletes(cfg, s, a.addr);
    Deleted(cfg, s.w, id, id);
    hide Addr, Identifier, Close, DeleteConn, IsLive;
    assert forall c :: Holder(Next(cfg, s, a), id, c) <==> Holder(s, id, c);
    NowQuiet(cfg, Next(cfg, s, a), id);
  }

  lemma RemovalOrdered(cfg: Config, s: St, a: Action)
    requires Enabled(cfg, s, a) && a.UnsubscribeConn? && Serial(cfg, s, a) && Ordered(cfg, s, a.id)
    ensures Ordered(cfg, Next(cfg, s, a), a.id)
  {
    Deleted(cfg, s.w, a.id, a.id);
    hide Addr, DeleteConn, IsLive;
    assert forall c :: Holder(Next(cfg, s, a), a.id, c) <==> Holder(s, a.id, c);
  }

  lemma RemovedOrdered(cfg: Config, s: St, a: Action)
    requires Enabled(cfg, s, a) && a.UnsubscribeItem? && Ordered(cfg, s, a.id)
    ensures Ordered(cfg, Next(cfg, s, a), a.id)
  {
    hide KeysOk, Close, Index, Subscribe, AddTunnel;
    LiveAfter(s.w.reg, a.id, a.id);
    hide Addr, IsLive, Unsubscribe, Listeners;
    assert forall c :: Holder(Next(cfg, s, a), a.id, c) <==> Holder(s, a.id, c);
    assert s.unsubs[a.id] == 1;
    assert forall c :: Holder(s, a.id, c) ==> IsPooled(cfg, s, a.id);
    NowQuiet(cfg, Next(cfg, s, a), a.id);
  }

  lemma AcceptOrdered(cfg: Config, s: St, a: Action)
    requires Enabled(cfg, s, a) && a.Accept? && Ordered(cfg, s, a.id)
    ensures Ordered(cfg, Next(cfg, s, a), a.id)
  {
    hide Addr, IsLive;
    UntouchedOrdered(cfg, s, Next(cfg, s, a), a.id);
  }

  lemma EnterOrdered(cfg: Config, s: St, a: Action)
    requires Enabled(cfg, s, a) && a.EnterPool? && Serial(cfg, s, a)
    requires Ordered(cfg, s, s.handlers[a.conn].id)
    ensures Ordered(cfg, Next(cfg, s, a), s.handlers[a.conn].id)
  {
    if TurnedAway(cfg, s, s.handlers[a.conn].id, a.pingOk, a.connOk) {
      TurnedAwayOrdered(cfg, s, a);
    } else {
      QuietEnterOrdered(cfg, s, a);
    }
  }

  lemma TurnedAwayOrdered(cfg: Config, s: St, a: Action)
    requires Enabled(cfg, s, a) && a.EnterPool? && Ordered(cfg, s, s.handlers[a.conn].id)
    requires TurnedAway(cfg, s, s.handlers[a.conn].id, a.pingOk, a.connOk)
    ensures Ordered(cfg, Next(cfg, s, a), s.handlers[a.conn].id)
  {
    var c := a.conn;
    hide Addr, IsLive, Ordered, Untouched, Close;
    assert Next(cfg, s, a) == Go(s, c, Rejecting(false), s.w);
    HandlerUntouched(cfg, s, Next(cfg, s, a), c, s.handlers[c].id);
    hide Next;
    UntouchedOrdered(cfg, s, Next(cfg, s, a), s.handlers[c].id);
  }

  lemma QuietEnterOrdered(cfg: Config, s: St, a: Action)
    requires Enabled(cfg, s, a) && a.EnterPool? && Quiet(s, s.handlers[a.conn].id)
    requires Ordered(cfg, s, s.handlers[a.conn].id)
    ensures Ordered(cfg, Next(cfg, s, a), s.handlers[a.conn].id)
  {
    hide KeysOk, Close, Listeners;
    var t, c, id := Next(cfg, s, a), a.conn, s.handlers[a.conn].id;
    Deleted(cfg, s.w, id, id);
    hide Addr, DeleteConn, IsLive;
    assert forall d :: d != c ==> (Holder(t, id, d) <==> Holder(s, id, d));
    if t.handlers[c].pc.Pooled? {
      assert HeldBy(cfg, t, id, c) && !IsLive(t.w.reg, id) && Holder(t, id, c);
      assert forall d :: Holder(t, id, d) ==> d == c;
    } else {
      NowQuiet(cfg, t, id);
    }
  }

  lemma RejectOrdered(cfg: Config, s: St, a: Action)
    requires Enabled(cfg, s, a) && a.Reject?
    requires Ordered(cfg, s, s.handlers[a.conn].id)
    ensures Ordered(cfg, Next(cfg, s, a), s.handlers[a.conn].id)
  {
    hide KeysOk, Close, SetFault, Index;
    var t, c, id := Next(cfg, s, a), a.conn, s.handlers[a.conn].id;
    Deleted(cfg, s.w, id, id);
    HandlerSteps(cfg, s, a);
    if s.handlers[c].pc.inPool {
      LastHolder(cfg, s, id, c);
      hide Addr, DeleteConn, IsLive, Ordered;
      assert forall d :: d != c ==> (Holder(t, id, d) <==> Holder(s, id, d));
      NowQuiet(cfg, t, id);
    } else {
      hide Addr, DeleteConn, IsLive, Ordered, Untouched;
      HandlerUntouched(cfg, s, t, c, id);
      UntouchedOrdered(cfg, s, t, id);
    }
  }

  lemma LastHolder(cfg: Config, s: St, id: Id, c: Conn)
    requires Ordered(cfg, s, id) && Holder(s, id, c)
    ensures s.unsubs[id] == 0 && !IsLive(s.w.reg, id) && IsPooled(cfg, s, id)
    ensures forall d :: Holder(s, id, d) ==> d == c
  {
  }

  lemma SetOrdered(cfg: Config, s: St, a: Action)
    requires Enabled(cfg, s, a) && a.SetItem?
    requires Ordered(cfg, s, s.handlers[a.conn].id)
    ensures Ordered(cfg, Next(cfg, s, a), s.handlers[a.conn].id)
  {
    hide KeysOk, DeleteConn, Clear;
    var t, c, h := Next(cfg, s, a), a.conn, s.handlers[a.conn];
    HandlerWorld(cfg, s, a, h.id);
    HandlerSteps(cfg, s, a);
    LastHolder(cfg, s, h.id, c);
    if SetFault(s.w.reg, h.pc.item, h.id) == None {
      assert !Critical(t.handlers[c].pc);
      hide Next, Addr, IsLive, SetFault, Ordered;
      assert forall d :: d != c ==> (Holder(t, h.id, d) <==> Holder(s, h.id, d));
      NowQuiet(cfg, t, h.id);
    } else {
      assert Critical(t.handlers[c].pc);
      hide Next, Addr, IsLive, SetFault, Ordered, Untouched;
      HandlerUntouched(cfg, s, t, c, h.id);
      UntouchedOrdered(cfg, s, t, h.id);
    }
  }

  lemma MoveOrdered(cfg: Config, s: St, a: Action)
    requires Enabled(cfg, s, a) && OfHandler(a) && !a.EnterPool? && !a.Reject? && !a.SetItem?
    requires Ordered(cfg, s, s.handlers[a.conn].id)
    ensures Ordered(cfg, Next(cfg, s, a), s.handlers[a.conn].id)
  {
    var t, c, h := Next(cfg, s, a), a.conn, s.handlers[a.conn];
    HandlerWorld(cfg, s, a, h.id);
    HandlerSteps(cfg, s, a);
    MoveCritical(cfg, s, a);
    hide Next, Addr, IsLive, Ordered, Untouched, Critical, SetFault;
    HandlerUntouched(cfg, s, t, c, h.id);
    UntouchedOrdered(cfg, s, t, h.id);
  }

  lemma MoveCritical(cfg: Config, s: St, a: Action)
    requires Enabled(cfg, s, a) && OfHandler(a) && !a.EnterPool? && !a.Reject? && !a.SetItem?
    ensures a.conn in Next(cfg, s, a).handlers
    ensures Critical(Next(cfg, s, a).handlers[a.conn].pc) <==> Critical(s.handlers[a.conn].pc)
  {
    hide KeysOk, Addr, Identifier, Subscribe, AddTunnel;
  }

  lemma StepOrdered(cfg: Config, s: St, a: Action)
    requires PoolSound(cfg, s) && AllOrdered(cfg, s) && Enabled(cfg, s, a) && Serial(cfg, s, a)
    ensures AllOrdered(cfg, Next(cfg, s, a))
  {
    hide Next, Ordered, Untouched, Serial, PoolSound;
    var x := Subject(cfg, s, a);
    forall id
      ensures Ordered(cfg, Next(cfg, s, a), id)
    {
      assert Ordered(cfg, s, id);
      if !OfHandler(a) {
        if id == x {
          OutsideOrdered(cfg, s, a);
        } else {
          OutsideElsewhere(cfg, s, a, id);
          UntouchedOrdered(cfg, s, Next(cfg, s, a), id);
        }
      } else if id != x {
        HandlerElsewhere(cfg, s, a, id);
        UntouchedOrdered(cfg, s, Next(cfg, s, a), id);
      } else if a.EnterPool? {
        EnterOrdered(cfg, s, a);
      } else if a.Reject? {
        RejectOrdered(cfg, s, a);
      } else if a.SetItem? {
        SetOrdered(cfg, s, a);
      } else {
        MoveOrdered(cfg, s, a);
      }
    }
  }

  // ---- Serialised runs ----

  ghost predicate SerialRun(cfg: Config, ss: seq<St>, acts: seq<Action>) {
    Run(cfg, ss, acts) &&
    forall i :: 0 <= i < |acts| ==> Steps(cfg, ss[i], acts[i], ss[i + 1]) && Serial(cfg, ss[i], acts[i])
  }

  lemma SerialStep(cfg: Config, ss: seq<St>, acts: seq<Action>, i: nat)
    requires SerialRun(cfg, ss, acts) && i < |acts|
    ensures Enabled(cfg, ss[i], acts[i]) && Serial(cfg, ss[i], acts[i]) && ss[i + 1] == Next(cfg, ss[i], acts[i])
  {
    hide Serial, Next, Enabled;
    assert Steps(cfg, ss[i], acts[i], ss[i + 1]);
  }

  lemma {:induction false} RunOrdered(cfg: Config, ss: seq<St>, acts: seq<Action>, i: nat)
    requires SerialRun(cfg, ss, acts) && i < |ss|
    ensures AllOrdered(cfg, ss[i])
    decreases i
  {
    hide Next, Enabled, Serial, PoolSound, AllOrdered;
    if i == 0 {
      InitOrdered(cfg);
    } else {
      RunOrdered(cfg, ss, acts, i - 1);
      RunSound(cfg, ss, acts, i - 1);
      SerialStep(cfg, ss, acts, i - 1);
      StepOrdered(cfg, ss[i - 1], acts[i - 1]);
    }
  }

  lemma InitOrdered(cfg: Config)
    ensures AllOrdered(cfg, INIT)
  {
  }

  /** In every state of a serialised run, a quiet client has an item exactly if it is pooled. */
  lemma ItemIffPooled(cfg: Config, ss: seq<St>, acts: seq<Action>, i: nat, id: Id)
    requires SerialRun(cfg, ss, acts) && i < |ss| && Quiet(ss[i], id)
    ensures IsLive(ss[i].w.reg, id) <==> Addr(cfg.check, id) in ss[i].w.pool
  {
    RunOrdered(cfg, ss, acts, i);
    hide Addr, IsLive;
    assert Ordered(cfg, ss[i], id);
  }

  /** A handler never finds an item already registered. */
  lemma NeverOverwrites(cfg: Config, ss: seq<St>, acts: seq<Action>, i: nat)
    requires SerialRun(cfg, ss, acts) && i < |acts| && acts[i].SetItem?
    requires Enabled(cfg, ss[i], acts[i])
    ensures var h := ss[i].handlers[acts[i].conn];
            SetFault(ss[i].w.reg, h.pc.item, h.id) != Some(Overwrite)
  {
    RunOrdered(cfg, ss, acts, i);
    var c, h := acts[i].conn, ss[i].handlers[acts[i].conn];
    hide Addr, Conflict;
    assert Ordered(cfg, ss[i], h.id) && Holder(ss[i], h.id, c);
    ConflictKind(ss[i].w.reg, h.pc.item.hosts, 0);
  }

  lemma {:induction false} ConflictKind(r: Reg, hs: seq<HostAuth>, i: nat)
    requires i <= |hs|
    ensures Conflict(r, hs, i) != Some(Overwrite)
    decreases |hs| - i
  {
    if i < |hs| {
      ConflictKind(r, hs, i + 1);
    }
  }
}
