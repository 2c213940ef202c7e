/** Listeners are conserved: over every interleaving, each listener ever opened is in exactly one
    place, and it is closed at most once. */
module Conservation {
  import opened Prelude
  import opened Text
  import opened DeviceId
  import opened Luhn
  import opened Registry
  import opened Pool
  import opened Tunnels
  import opened Lifecycle

  /** Where a listener can be: in a handler's pending batch, in a client's registered item, in an
      item that was handed back by Unsubscribe, or closed. */
  datatype Place = InBatch(conn: Conn) | InItem(id: Id) | Handed | Closed

  function BatchOf(pc: Pc): seq<Listener> {
    match pc
    case Adding(_, item) => item.listeners
    case RollingBack(left) => left
    case _ => []
  }

  function Batch(s: St, c: Conn): seq<Listener> {
    if c in s.handlers then BatchOf(s.handlers[c].pc) else []
  }

  /** How many times a listener is found in a place. */
  function Count(s: St, l: Listener, p: Place): nat {
    match p
    case InBatch(c) => multiset(Batch(s, c))[l]
    case InItem(id) => multiset(Listeners(s.w.reg, id))[l]
    case Handed => s.handed[l]
    case Closed => s.w.closed[l]
  }

  ghost predicate Located(s: St, l: Listener) {
    exists p :: Count(s, l, p) > 0
  }

  /** Every listener opened so far is found exactly once, in exactly one place. */
  ghost predicate Conserved(s: St) {
    (forall l: Listener, p :: Count(s, l, p) <= 1) &&
    (forall l: Listener, p :: Count(s, l, p) > 0 ==> l < s.w.nextListener) &&
    (forall l: Listener, p, q :: Count(s, l, p) > 0 && Count(s, l, q) > 0 ==> p == q) &&
    (forall l: Listener :: l < s.w.nextListener ==> Located(s, l))
  }

  // ---- Every step moves listeners from one place to another ----

  datatype Shift = Shift(moved: multiset<Listener>, from: Place, to: Place)

  const NOTHING: Shift := Shift(multiset{}, Closed, Handed)

  function Letting(s: St, id: Id): Shift {
    Shift(multiset(Listeners(s.w.reg, id)), InItem(id), Closed)
  }

  function ShiftOf(cfg: Config, s: St, a: Action): Shift
    requires Enabled(cfg, s, a)
  {
    match a
    case MarkDead(addr) => Letting(s, Identifier(cfg.check, addr))
    case UnsubscribeConn(id) => LettingIfPooled(cfg, s, id)
    case UnsubscribeItem(id) => Shift(multiset(Listeners(s.w.reg, id)), InItem(id), Handed)
    case EnterPool(c, pingOk, _) =>
      if pingOk then NOTHING else LettingIfPooled(cfg, s, s.handlers[c].id)
    case Reject(c) =>
      if s.handlers[c].pc.inPool then LettingIfPooled(cfg, s, s.handlers[c].id) else NOTHING
    case SetItem(c) =>
      var h := s.handlers[c];
      if SetFault(s.w.reg, h.pc.item, h.id) == None
      then Shift(multiset(h.pc.item.listeners), InBatch(c), InItem(h.id)) else NOTHING
    case CloseListener(c) =>
      var left := s.handlers[c].pc.left;
      if left == [] then NOTHING else Shift(multiset{left[0]}, InBatch(c), Closed)
    case _ => NOTHING
  }

  function LettingIfPooled(cfg: Config, s: St, id: Id): Shift
    requires KeysOk(s.w)
  {
    var addr := Addr(cfg.check, id);
    if addr in s.w.pool then Letting(s, Identifier(cfg.check, addr)) else NOTHING
  }

  /** The step opens a listener. */
  predicate Opens(cfg: Config, s: St, a: Action)
    requires Enabled(cfg, s, a)
  {
    Next(cfg, s, a).w.nextListener != s.w.nextListener
  }

  predicate Moves(s: St, t: St, sh: Shift, l: Listener, p: Place) {
    Count(t, l, p) + (if p == sh.from then sh.moved[l] else 0)
      == Count(s, l, p) + (if p == sh.to then sh.moved[l] else 0)
  }

  lemma ListenersAfter(r: Reg, id: Id, x: Id)
    ensures Listeners(Clear(r, id), x) == if x == id then [] else Listeners(r, x)
    ensures Listeners(Unsubscribe(r, id), x) == if x == id then [] else Listeners(r, x)
    ensures Listeners(Subscribe(r, id), x) == Listeners(r, x)
  {
  }

  lemma ListenersAfterSet(r: Reg, item: RegistryItem, id: Id, x: Id)
    requires SetFault(r, item, id) == None
    ensures Listeners(r, id) == []
    ensures Listeners(Set(r, item, id), x) == if x == id then item.listeners else Listeners(r, x)
  {
  }

  /** Letting go of a pool entry closes one client's listeners. */
  lemma LettingMoves(s: St, t: St, id: Id, l: Listener, p: Place)
    requires forall x :: Listeners(t.w.reg, x) == if x == id then [] else Listeners(s.w.reg, x)
    requires t.w.closed == s.w.closed + multiset(Listeners(s.w.reg, id))
    requires t.handed == s.handed && forall c :: Batch(t, c) == Batch(s, c)
    ensures Moves(s, t, Letting(s, id), l, p)
  {
  }

  lemma ClosedReg(check: Check, w: World, addr: Text, x: Id)
    requires KeysOk(w) && addr in w.pool
    ensures var id := Identifier(check, addr);
            var v := Close(check, w, addr);
            Listeners(v.reg, x) == (if x == id then [] else Listeners(w.reg, x)) &&
            v.closed == w.closed + multiset(Listeners(w.reg, id)) &&
            v.nextListener == w.nextListener
  {
    ListenersAfter(w.reg, Identifier(check, addr), x);
    hide Identifier, Clear, Listeners;
  }

  lemma CloseMoves(cfg: Config, s: St, t: St, addr: Text, l: Listener, p: Place)
    requires KeysOk(s.w) && addr in s.w.pool
    requires t.w.reg == Close(cfg.check, s.w, addr).reg
    requires t.w.closed == Close(cfg.check, s.w, addr).closed
    requires t.handed == s.handed && forall c :: Batch(t, c) == Batch(s, c)
    ensures Moves(s, t, Letting(s, Identifier(cfg.check, addr)), l, p)
  {
    forall x
      ensures Listeners(t.w.reg, x) == if x == Identifier(cfg.check, addr) then [] else Listeners(s.w.reg, x)
    {
      ClosedReg(cfg.check, s.w, addr, x);
    }
    ClosedReg(cfg.check, s.w, addr, Identifier(cfg.check, addr));
    hide Listeners, Batch, Identifier, Close;
    LettingMoves(s, t, Identifier(cfg.check, addr), l, p);
  }

  lemma DeleteMoves(cfg: Config, s: St, t: St, id: Id, l: Listener, p: Place)
    requires KeysOk(s.w)
    requires t.w.reg == DeleteConn(cfg.check, s.w, id).reg
    requires t.w.closed == DeleteConn(cfg.check, s.w, id).closed
    requires t.handed == s.handed && forall c :: Batch(t, c) == Batch(s, c)
    ensures Moves(s, t, LettingIfPooled(cfg, s, id), l, p)
  {
    hide Listeners, Batch, Identifier, Close, Addr;
    var addr := Addr(cfg.check, id);
    if addr in s.w.pool {
      CloseMoves(cfg, s, t, addr, l, p);
    }
  }

  /** A step that opens no listener moves the listeners of one place, if any, to one other. */
  lemma Accounting(cfg: Config, s: St, a: Action, l: Listener, p: Place)
    requires Enabled(cfg, s, a) && !Opens(cfg, s, a)
    ensures Moves(s, Next(cfg, s, a), ShiftOf(cfg, s, a), l, p)
  {
    hide Clear, Unsubscribe, Set, Subscribe, Addr, Identifier, Close, DeleteConn, AddConn, SetFault, Listeners,
      Opens, Moves;
    match a
    case MarkDead(addr) => CloseMoves(cfg, s, Next(cfg, s, a), addr, l, p);
    case UnsubscribeConn(id) => DeleteMoves(cfg, s, Next(cfg, s, a), id, l, p);
    case UnsubscribeItem(id) => UnsubscribeMoves(cfg, s, a, l, p);
    case Reject(c) => RejectMoves(cfg, s, a, l, p);
    case EnterPool(c, pingOk, connOk) => EnterMoves(cfg, s, a, l, p);
    case SetItem(c) => SetMoves(cfg, s, a, l, p);
    case CloseListener(c) => CloseListenerMoves(cfg, s, a, l, p);
    case OpenTunnel(c, _) => RefusedMoves(cfg, s, a, l, p);
    case _ => QuietMoves(cfg, s, a, l, p);
  }

  /** The remaining steps touch no listener. */
  lemma QuietMoves(cfg: Config, s: St, a: Action, l: Listener, p: Place)
    requires Enabled(cfg, s, a)
    requires a.Accept? || a.Identify? || a.CheckSubscribed? || a.LetIn? || a.SetDeadline? || a.Handshake? ||
             a.CloseConn?
    ensures Moves(s, Next(cfg, s, a), ShiftOf(cfg, s, a), l, p)
  {
    hide KeysOk, Addr, Identifier, Clear, Set, SetFault, Subscribe, Listeners, Moves;
    var t := Next(cfg, s, a);
    SubscribeMoves(s, t, if a.Accept? then a.id else s.handlers[a.conn].id, l, p);
  }

  lemma UnsubscribeMoves(cfg: Config, s: St, a: Action, l: Listener, p: Place)
    requires Enabled(cfg, s, a) && a.UnsubscribeItem?
    ensures Moves(s, Next(cfg, s, a), ShiftOf(cfg, s, a), l, p)
  {
    hide KeysOk, Addr, Identifier, Unsubscribe, Listeners;
    var t := Next(cfg, s, a);
    forall x
      ensures Listeners(t.w.reg, x) == if x == a.id then [] else Listeners(s.w.reg, x)
    {
      ListenersAfter(s.w.reg, a.id, x);
    }
  }

  lemma RejectMoves(cfg: Config, s: St, a: Action, l: Listener, p: Place)
    requires Enabled(cfg, s, a) && a.Reject?
    ensures Moves(s, Next(cfg, s, a), ShiftOf(cfg, s, a), l, p)
  {
    hide Addr, Listeners, Close, Identifier, DeleteConn;
    var t, h := Next(cfg, s, a), s.handlers[a.conn];
    if h.pc.inPool {
      DeleteMoves(cfg, s, t, h.id, l, p);
    }
  }

  /** A tunnel that opens no listener leaves the batch's listeners as they are. */
  lemma RefusedMoves(cfg: Config, s: St, a: Action, l: Listener, p: Place)
    requires Enabled(cfg, s, a) && a.OpenTunnel? && !Opens(cfg, s, a)
    ensures Moves(s, Next(cfg, s, a), ShiftOf(cfg, s, a), l, p)
  {
    hide AddTunnel, Listeners, Moves, Opens;
    RefusedBatch(cfg, s, a);
    SubscribeMoves(s, Next(cfg, s, a), s.handlers[a.conn].id, l, p);
  }

  lemma RefusedBatch(cfg: Config, s: St, a: Action)
    requires Enabled(cfg, s, a) && a.OpenTunnel? && !Opens(cfg, s, a)
    ensures var t := Next(cfg, s, a);
            t.w == s.w && t.handed == s.handed && forall c :: Batch(t, c) == Batch(s, c)
  {
    hide AddTunnel;
  }

  lemma SubscribeMoves(s: St, t: St, id: Id, l: Listener, p: Place)
    requires t.w.reg == s.w.reg || t.w.reg == Subscribe(s.w.reg, id)
    requires t.w.closed == s.w.closed && t.handed == s.handed && forall c :: Batch(t, c) == Batch(s, c)
    ensures Moves(s, t, NOTHING, l, p)
  {
  }

  lemma EnterMoves(cfg: Config, s: St, a: Action, l: Listener, p: Place)
    requires Enabled(cfg, s, a) && a.EnterPool?
    ensures Moves(s, Next(cfg, s, a), ShiftOf(cfg, s, a), l, p)
  {
    hide Addr, Listeners, Close, Identifier;
    var t, id := Next(cfg, s, a), s.handlers[a.conn].id;
    if !a.pingOk {
      DeleteMoves(cfg, s, t, id, l, p);
    }
  }

  lemma SetMoves(cfg: Config, s: St, a: Action, l: Listener, p: Place)
    requires Enabled(cfg, s, a) && a.SetItem?
    ensures Moves(s, Next(cfg, s, a), ShiftOf(cfg, s, a), l, p)
  {
    hide KeysOk, Addr, Identifier, Close, DeleteConn, AddConn, Set, SetFault, Listeners, Moves;
    var t, h := Next(cfg, s, a), s.handlers[a.conn];
    if SetFault(s.w.reg, h.pc.item, h.id) == None {
      forall x
        ensures Listeners(t.w.reg, x) == if x == h.id then h.pc.item.listeners else Listeners(s.w.reg, x)
      {
        ListenersAfterSet(s.w.reg, h.pc.item, h.id, x);
      }
      ListenersAfterSet(s.w.reg, h.pc.item, h.id, h.id);
      BatchRegistered(s, t, a.conn, h.id, l, p);
    } else {
      SubscribeMoves(s, t, h.id, l, p);
    }
  }

  lemma BatchRegistered(s: St, t: St, c: Conn, id: Id, l: Listener, p: Place)
    requires Listeners(s.w.reg, id) == [] && Batch(t, c) == []
    requires forall x :: Listeners(t.w.reg, x) == if x == id then Batch(s, c) else Listeners(s.w.reg, x)
    requires forall d :: d != c ==> Batch(t, d) == Batch(s, d)
    requires t.w.closed == s.w.closed && t.handed == s.handed
    ensures Moves(s, t, Shift(multiset(Batch(s, c)), InBatch(c), InItem(id)), l, p)
  {
  }

  lemma CloseListenerMoves(cfg: Config, s: St, a: Action, l: Listener, p: Place)
    requires Enabled(cfg, s, a) && a.CloseListener?
    ensures Moves(s, Next(cfg, s, a), ShiftOf(cfg, s, a), l, p)
  {
    hide KeysOk, Addr, Identifier, Listeners, Moves;
    var t, left := Next(cfg, s, a), s.handlers[a.conn].pc.left;
    if left == [] {
      SubscribeMoves(s, t, s.handlers[a.conn].id, l, p);
    } else {
      FirstClosed(s, t, a.conn, left[0], l, p);
    }
  }

  lemma FirstClosed(s: St, t: St, c: Conn, x: Listener, l: Listener, p: Place)
    requires Batch(s, c) != [] && Batch(s, c)[0] == x && Batch(t, c) == Batch(s, c)[1..]
    requires forall d :: d != c ==> Batch(t, d) == Batch(s, d)
    requires t.w.reg == s.w.reg && t.handed == s.handed
    requires t.w.closed == s.w.closed + multiset{x}
    ensures Moves(s, t, Shift(multiset{x}, InBatch(c), Closed), l, p)
  {
    hide Listeners, Batch;
    assert Batch(s, c) == [x] + Batch(t, c);
    assert multiset(Batch(s, c)) == multiset{x} + multiset(Batch(t, c));
  }

  /** What is moved was there. */
  lemma Available(cfg: Config, s: St, a: Action, l: Listener)
    requires Enabled(cfg, s, a)
    ensures var sh := ShiftOf(cfg, s, a);
            sh.from != sh.to && sh.moved[l] <= Count(s, l, sh.from)
  {
    hide Listeners, Addr, Identifier, SetFault;
    if a.CloseListener? {
      var left := s.handlers[a.conn].pc.left;
      assert left != [] ==> left[0] in left;
    }
  }

  // ---- Conservation ----

  lemma ShiftConserves(s: St, t: St, sh: Shift)
    requires Conserved(s) && t.w.nextListener == s.w.nextListener && sh.from != sh.to
    requires forall l: Listener :: sh.moved[l] <= Count(s, l, sh.from)
    requires forall l: Listener, p :: Moves(s, t, sh, l, p)
    ensures Conserved(t)
  {
    hide Count;
    assert forall l: Listener, p :: Moves(s, t, sh, l, p) ==>
      Count(t, l, p) <= Count(s, l, p) + sh.moved[l];
    forall l: Listener, p
      ensures Count(t, l, p) > 0 <==>
              if sh.moved[l] > 0 then p == sh.to else Count(s, l, p) > 0
      ensures Count(t, l, p) <= 1
    {
      assert Moves(s, t, sh, l, p);
      assert Count(s, l, p) <= 1;
      assert sh.moved[l] <= Count(s, l, sh.from);
    }
    forall l: Listener | l < t.w.nextListener
      ensures Located(t, l)
    {
      assert Located(s, l);
      var p :| Count(s, l, p) > 0;
      assert Count(t, l, if sh.moved[l] > 0 then sh.to else p) > 0;
    }
  }

  lemma OpenedCount(s: St, t: St, c: Conn, l: Listener, p: Place)
    requires t.w == s.w.(nextListener := s.w.nextListener + 1) && t.handed == s.handed
    requires Batch(t, c) == Batch(s, c) + [s.w.nextListener]
    requires forall d :: d != c ==> Batch(t, d) == Batch(s, d)
    ensures Count(t, l, p) == Count(s, l, p) + if l == s.w.nextListener && p == InBatch(c) then 1 else 0
  {
  }

  lemma OpenConserves(cfg: Config, s: St, a: Action)
    requires Enabled(cfg, s, a) && Opens(cfg, s, a) && Conserved(s)
    ensures Conserved(Next(cfg, s, a))
  {
    hide Listeners, Next, Opens, Count;
    OpensOnly(cfg, s, a);
    var t := Next(cfg, s, a);
    var newest := s.w.nextListener;
    forall l: Listener, p
      ensures Count(t, l, p) == Count(s, l, p) + if l == newest && p == InBatch(a.conn) then 1 else 0
    {
      OpenedCount(s, t, a.conn, l, p);
    }
    assert forall p :: Count(s, newest, p) == 0;
    forall l: Listener | l < t.w.nextListener
      ensures Located(t, l)
    {
      if l == newest {
        assert Count(t, l, InBatch(a.conn)) > 0;
      } else {
        assert Located(s, l);
        var p :| Count(s, l, p) > 0;
        assert Count(t, l, p) > 0;
      }
    }
  }

  /** Only opening a tunnel opens a listener, one at a time, into the handler's batch. */
  lemma OpensOnly(cfg: Config, s: St, a: Action)
    requires Enabled(cfg, s, a) && Opens(cfg, s, a)
    ensures var t := Next(cfg, s, a);
            a.OpenTunnel? && t.w == s.w.(nextListener := s.w.nextListener + 1) && t.handed == s.handed &&
            Batch(t, a.conn) == Batch(s, a.conn) + [s.w.nextListener] &&
            forall c :: c != a.conn ==> Batch(t, c) == Batch(s, c)
  {
    hide AddTunnel, Clear, Unsubscribe, Set, Subscribe, Addr, Identifier, SetFault, Listeners;
  }

  lemma StepConserves(cfg: Config, s: St, a: Action)
    requires Enabled(cfg, s, a) && Conserved(s)
    ensures Conserved(Next(cfg, s, a))
  {
    hide Next, ShiftOf, Conserved, Moves;
    if Opens(cfg, s, a) {
      OpenConserves(cfg, s, a);
    } else {
      forall l: Listener, p
        ensures Moves(s, Next(cfg, s, a), ShiftOf(cfg, s, a), l, p)
      {
        Accounting(cfg, s, a, l, p);
      }
      forall l: Listener
        ensures ShiftOf(cfg, s, a).moved[l] <= Count(s, l, ShiftOf(cfg, s, a).from)
      {
        Available(cfg, s, a, l);
      }
      Available(cfg, s, a, 0);
      ShiftConserves(s, Next(cfg, s, a), ShiftOf(cfg, s, a));
    }
  }

  lemma InitConserved()
    ensures Conserved(INIT)
  {
  }

  /** Over every run, in every state passed through, listeners are conserved. */
  lemma {:induction false} RunConserves(cfg: Config, ss: seq<St>, acts: seq<Action>, i: nat)
    requires Run(cfg, ss, acts) && i < |ss|
    ensures Conserved(ss[i])
    decreases i
  {
    hide Conserved, Next, Enabled;
    if i == 0 {
      InitConserved();
    } else {
      RunConserves(cfg, ss, acts, i - 1);
      assert Steps(cfg, ss[i - 1], acts[i - 1], ss[i]);
      StepConserves(cfg, ss[i - 1], acts[i - 1]);
    }
  }

  /** What conservation says about closing: no listener is closed twice, and none that a client's
      item or a pending batch still holds is closed. */
  lemma ClosedOnce(cfg: Config, ss: seq<St>, acts: seq<Action>, i: nat, l: Listener)
    requires Run(cfg, ss, acts) && i < |ss|
    ensures ss[i].w.closed[l] <= 1
    ensures l in ss[i].w.closed ==>
              l !in ss[i].handed && (forall id :: l !in Listeners(ss[i].w.reg, id)) &&
              forall c :: l !in Batch(ss[i], c)
  {
    hide Listeners, Batch;
    RunConserves(cfg, ss, acts, i);
    var s := ss[i];
    assert Count(s, l, Closed) <= 1;
    if l in s.w.closed {
      assert Count(s, l, Closed) > 0;
      assert Count(s, l, Handed) == 0;
      forall id
        ensures l !in Listeners(s.w.reg, id)
      {
        assert Count(s, l, InItem(id)) == 0;
      }
      forall c
        ensures l !in Batch(s, c)
      {
        assert Count(s, l, InBatch(c)) == 0;
      }
    }
  }
}
