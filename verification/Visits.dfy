/** The lifecycle's steps against a whole visit: a handler that runs from the accepted connection to
    its end, without anyone in between, does to the server exactly what the visit does as one call. */
module Visits {
  import opened Prelude
  import opened DeviceId
  import opened Registry
  import opened Pool
  import opened Tunnels
  import opened Handling
  import opened Lifecycle
  import opened Sequential

  predicate Underway(s: St, c: Conn) {
    KeysOk(s.w) && c in s.handlers && !s.handlers[c].pc.Connected? && !s.handlers[c].pc.Rejected?
  }

  /** The handler's next step, with the outcomes of the visit. */
  function NextChoice(s: St, v: Visit, listens: seq<bool>): Action
    requires Underway(s, v.conn)
  {
    var c := v.conn;
    if Inside(s, c) then Choice(s, c, listens)
    else
      match s.handlers[c].pc
      case Start => Identify(c, v.cert.Some?)
      case Identified => CheckSubscribed(c, v.can)
      case Subscribing => LetIn(c)
      case Ready => SetDeadline(c, v.deadlineOk)
      case Deadline => EnterPool(c, v.pingOk, v.connOk)
      case Pooled => Handshake(c, v.tunnels.Some?, if v.tunnels.Some? then v.tunnels.value else [])
      case Rejecting(_) => Reject(c)
      case _ => CloseConn(c)
  }

  function Rank(pc: Pc): nat {
    match pc
    case Start => 9
    case Identified => 8
    case Subscribing => 7
    case Ready => 6
    case Deadline => 5
    case Pooled => 4
    case Adding(_, _) => 3
    case RollingBack(_) => 3
    case Rejecting(_) => 2
    case Closing => 1
    case Connected => 0
    case Rejected => 0
  }

  function Inner(s: St, c: Conn): nat
    requires c in s.handlers
  {
    if Inside(s, c) then Left(s, c) else 0
  }

  /** The step is the handler's own, and it comes nearer to its end. */
  ghost predicate Nearer(s: St, t: St, c: Conn)
    requires c in s.handlers
  {
    c in t.handlers && KeysOk(t.w) && t.handlers[c].id == s.handlers[c].id &&
    (Rank(t.handlers[c].pc) < Rank(s.handlers[c].pc) || (Inside(s, c) && Inside(t, c) && Left(t, c) < Left(s, c)))
  }

  lemma Progress(cfg: Config, s: St, v: Visit, listens: seq<bool>)
    requires Underway(s, v.conn)
    ensures Enabled(cfg, s, NextChoice(s, v, listens))
    ensures Nearer(s, Next(cfg, s, NextChoice(s, v, listens)), v.conn)
  {
    if Inside(s, v.conn) {
      InsideProgress(cfg, s, v.conn, listens);
    } else {
      OutsideProgress(cfg, s, v, listens);
    }
    hide Next, Enabled, Nearer, Choice;
  }

  lemma InsideProgress(cfg: Config, s: St, c: Conn, listens: seq<bool>)
    requires Inside(s, c)
    ensures Enabled(cfg, s, Choice(s, c, listens))
    ensures Nearer(s, Next(cfg, s, Choice(s, c, listens)), c)
  {
    var a := Choice(s, c, listens);
    assert OfHandler(a) && a.conn == c && c in s.handlers;
    StepShrinks(cfg, s, c, listens);
    InsideStays(cfg, s, c, listens);
    hide *;
    HandlerSteps(cfg, s, a);
    NearerInside(s, Next(cfg, s, a), c);
  }

  lemma NearerInside(s: St, t: St, c: Conn)
    requires Inside(s, c) && c in t.handlers && KeysOk(t.w) && t.handlers[c].id == s.handlers[c].id
    requires Inside(t, c) ==> Left(t, c) < Left(s, c)
    requires t.handlers[c].pc.Adding? || t.handlers[c].pc.RollingBack? || t.handlers[c].pc.Rejecting? ||
             t.handlers[c].pc.Connected?
    ensures Nearer(s, t, c)
  {
    hide Left, KeysOk;
  }

  lemma InsideStays(cfg: Config, s: St, c: Conn, listens: seq<bool>)
    requires Inside(s, c) && Enabled(cfg, s, Choice(s, c, listens))
    ensures var t := Next(cfg, s, Choice(s, c, listens));
            c in t.handlers && (t.handlers[c].pc.Adding? || t.handlers[c].pc.RollingBack? ||
                                t.handlers[c].pc.Rejecting? || t.handlers[c].pc.Connected?)
  {
    hide AddTunnel, Set, SetFault, KeysOk;
  }

  lemma OutsideProgress(cfg: Config, s: St, v: Visit, listens: seq<bool>)
    requires Underway(s, v.conn) && !Inside(s, v.conn)
    ensures Enabled(cfg, s, NextChoice(s, v, listens))
    ensures Nearer(s, Next(cfg, s, NextChoice(s, v, listens)), v.conn)
  {
    hide Addr, Close;
    var a := NextChoice(s, v, listens);
    assert Enabled(cfg, s, a) && OfHandler(a) && a.conn == v.conn;
    HandlerSteps(cfg, s, a);
    OutsideRank(cfg, s, v, listens);
    OutsideKeys(cfg, s, v, listens);
    hide Next, Enabled, NextChoice, KeysOk, OfHandler, Inside, Rank;
  }

  lemma OutsideRank(cfg: Config, s: St, v: Visit, listens: seq<bool>)
    requires Underway(s, v.conn) && !Inside(s, v.conn) && Enabled(cfg, s, NextChoice(s, v, listens))
    ensures var t := Next(cfg, s, NextChoice(s, v, listens));
            v.conn in t.handlers && Rank(t.handlers[v.conn].pc) < Rank(s.handlers[v.conn].pc)
  {
    hide AddConn, DeleteConn, Subscribe, KeysOk, Left, Choice, Set, SetFault, AddTunnel, Close;
    var a, pc := NextChoice(s, v, listens), s.handlers[v.conn].pc;
    assert pc.Start? || pc.Identified? || pc.Subscribing? || pc.Ready? ==>
             a.Identify? || a.CheckSubscribed? || a.LetIn? || a.SetDeadline?;
  }

  lemma OutsideKeys(cfg: Config, s: St, v: Visit, listens: seq<bool>)
    requires Underway(s, v.conn) && !Inside(s, v.conn) && Enabled(cfg, s, NextChoice(s, v, listens))
    ensures KeysOk(Next(cfg, s, NextChoice(s, v, listens)).w)
  {
    var c, id := v.conn, s.handlers[v.conn].id;
    AddConnKeys(cfg.check, s.w, c, id, v.pingOk, v.connOk);
    DeleteConnKeys(cfg.check, s.w, id);
    hide AddConn, DeleteConn, Subscribe, KeysOk;
    match s.handlers[c].pc
    case Deadline =>
      assert Next(cfg, s, EnterPool(c, v.pingOk, v.connOk)).w ==
             AddConn(cfg.check, s.w, c, id, v.pingOk, v.connOk).0;
    case Rejecting(inPool) =>
      assert Next(cfg, s, Reject(c)).w == if inPool then DeleteConn(cfg.check, s.w, id) else s.w;
    case _ => PoolStays(cfg, s, v, listens);
  }

  lemma PoolStays(cfg: Config, s: St, v: Visit, listens: seq<bool>)
    requires Underway(s, v.conn) && !Inside(s, v.conn) && Enabled(cfg, s, NextChoice(s, v, listens))
    requires !s.handlers[v.conn].pc.Deadline? && !s.handlers[v.conn].pc.Rejecting?
    ensures KeysOk(Next(cfg, s, NextChoice(s, v, listens)).w)
  {
    hide Addr, Identifier, Close, DeleteConn, AddConn, Clear, Set, SetFault, Subscribe;
    assert Next(cfg, s, NextChoice(s, v, listens)).w.pool == s.w.pool;
    hide Next;
  }

  /** The state in which the handler ends. */
  function Serve(cfg: Config, s: St, v: Visit, listens: seq<bool>): St
    requires Underway(s, v.conn)
    decreases Rank(s.handlers[v.conn].pc), Inner(s, v.conn)
  {
    Progress(cfg, s, v, listens);
    var t := Next(cfg, s, NextChoice(s, v, listens));
    if Underway(t, v.conn) then
      Serve(cfg, t, v, if Inside(s, v.conn) && listens != [] then listens[1..] else listens)
    else t
  }

  /** How a visit ends: the world, and the handler connected or rejected. */
  predicate Ends(t: St, c: Conn, w: World, accepted: bool) {
    t.w == w && c in t.handlers && t.handlers[c].pc == if accepted then Connected else Rejected
  }

  /** What a rejection does to the world. */
  function Rejection(cfg: Config, w: World, id: Id, c: Conn, pooled: bool): World
    requires KeysOk(w)
  {
    HangUp(if pooled then DeleteConn(cfg.check, w, id) else w, c)
  }

  lemma ServeStep(cfg: Config, s: St, v: Visit, listens: seq<bool>, t: St)
    requires Underway(s, v.conn) && !Inside(s, v.conn) && Enabled(cfg, s, NextChoice(s, v, listens))
    requires t == Next(cfg, s, NextChoice(s, v, listens))
    ensures Serve(cfg, s, v, listens) == if Underway(t, v.conn) then Serve(cfg, t, v, listens) else t
  {
    hide Next, Enabled, NextChoice;
  }

  lemma ServeClosing(cfg: Config, s: St, v: Visit, listens: seq<bool>)
    requires Underway(s, v.conn) && s.handlers[v.conn].pc.Closing?
    ensures Ends(Serve(cfg, s, v, listens), v.conn, HangUp(s.w, v.conn), false)
  {
    hide Serve, KeysOk;
    var t := Go(s, v.conn, Rejected, HangUp(s.w, v.conn));
    assert Next(cfg, s, CloseConn(v.conn)) == t;
    ServeStep(cfg, s, v, listens, t);
  }

  lemma RejectStep(cfg: Config, s: St, v: Visit, listens: seq<bool>)
    requires Underway(s, v.conn) && s.handlers[v.conn].pc.Rejecting?
    ensures var c, h := v.conn, s.handlers[v.conn];
            var w := if h.pc.inPool then DeleteConn(cfg.check, s.w, h.id) else s.w;
            var a := NextChoice(s, v, listens);
            !Inside(s, c) && Enabled(cfg, s, a) && Next(cfg, s, a) == Go(s, c, Closing, w) &&
            Underway(Go(s, c, Closing, w), c)
  {
    DeleteConnKeys(cfg.check, s.w, s.handlers[v.conn].id);
    hide DeleteConn, KeysOk;
  }

  lemma ServeRejected(cfg: Config, s: St, v: Visit, listens: seq<bool>)
    requires Underway(s, v.conn) && s.handlers[v.conn].pc.Rejecting?
    ensures var h := s.handlers[v.conn];
            Ends(Serve(cfg, s, v, listens), v.conn, Rejection(cfg, s.w, h.id, v.conn, h.pc.inPool), false)
  {
    hide DeleteConn, KeysOk, Serve, Next, NextChoice, Enabled;
    var c, h := v.conn, s.handlers[v.conn];
    var w := if h.pc.inPool then DeleteConn(cfg.check, s.w, h.id) else s.w;
    var t := Go(s, c, Closing, w);
    RejectStep(cfg, s, v, listens);
    ServeStep(cfg, s, v, listens, t);
    ServeClosing(cfg, t, v, listens);
  }

  /** Through addTunnels, given where the call leaves. */
  lemma {:induction false} ServeInside(cfg: Config, s: St, v: Visit, listens: seq<bool>, w: World,
                                       err: Option<TunnelError>)
    requires Inside(s, v.conn) && Leaves(Finish(cfg, s, v.conn, listens), v.conn, w, err)
    ensures KeysOk(w)
    ensures Ends(Serve(cfg, s, v, listens), v.conn,
                 if err == None then w else Rejection(cfg, w, s.handlers[v.conn].id, v.conn, true), err == None)
    decreases Left(s, v.conn)
  {
    hide Conflict, Index, Subscribe, Unsubscribe, Listeners, IsLive, AddTunnel, NextAfter, Close,
      DeleteConn, AddConn, Set;
    var c := v.conn;
    var rest := if listens == [] then [] else listens[1..];
    var t := InnerStep(cfg, s, v, listens, rest);
    hide Serve, Finish, KeysOk, Rejection, Left;
    if Inside(t, c) {
      ServeInside(cfg, t, v, rest, w, err);
    } else if err != None {
      ServeRejected(cfg, t, v, rest);
    }
  }

  /** One step inside addTunnels, as both descriptions see it. */
  lemma InnerStep(cfg: Config, s: St, v: Visit, listens: seq<bool>, rest: seq<bool>) returns (t: St)
    requires Inside(s, v.conn) && rest == if listens == [] then [] else listens[1..]
    ensures KeysOk(t.w) && v.conn in t.handlers && t.handlers[v.conn].id == s.handlers[v.conn].id
    ensures Inside(t, v.conn) ==> Left(t, v.conn) < Left(s, v.conn)
    ensures Finish(cfg, s, v.conn, listens) == if Inside(t, v.conn) then Finish(cfg, t, v.conn, rest) else t
    ensures Serve(cfg, s, v, listens) == if Underway(t, v.conn) then Serve(cfg, t, v, rest) else t
  {
    var c := v.conn;
    StepShrinks(cfg, s, c, listens);
    InsideProgress(cfg, s, c, listens);
    t := Next(cfg, s, Choice(s, c, listens));
    hide Next, Enabled, KeysOk, Left, Choice;
  }

  // ---- From the pool on ----

  lemma EnterStep(cfg: Config, s: St, v: Visit, listens: seq<bool>)
    requires Underway(s, v.conn) && s.handlers[v.conn].pc.Deadline?
    ensures var c, h := v.conn, s.handlers[v.conn];
            var (w, err) := AddConn(cfg.check, s.w, c, h.id, v.pingOk, v.connOk);
            var t := Go(s, c, if err == None then Pooled else Rejecting(false), w);
            var a := NextChoice(s, v, listens);
            !Inside(s, c) && Enabled(cfg, s, a) && Next(cfg, s, a) == t && Underway(t, c)
  {
    hide Addr, Close;
    AddConnKeys(cfg.check, s.w, v.conn, s.handlers[v.conn].id, v.pingOk, v.connOk);
    hide AddConn, KeysOk;
  }

  lemma HandshakeStep(cfg: Config, s: St, v: Visit, listens: seq<bool>)
    requires Underway(s, v.conn) && s.handlers[v.conn].pc.Pooled?
    ensures var c, h := v.conn, s.handlers[v.conn];
            var a := NextChoice(s, v, listens);
            !Inside(s, c) && Enabled(cfg, s, a) &&
            var t := Next(cfg, s, a);
            t.w == s.w && Underway(t, c) && t.handlers[c].id == h.id &&
            t.handlers[c].pc ==
              if v.tunnels.Some? && v.tunnels.value != [] then Adding(v.tunnels.value, NO_ITEM) else Rejecting(true)
  {
    hide KeysOk;
  }

  /** What is left of the visit once the connection is about to enter the pool. */
  function Remainder(cfg: Config, w: World, id: Id, v: Visit): (World, bool)
    requires KeysOk(w) && Wellformed(v)
  {
    EnterKeys(cfg, w, id, v);
    var (x, pooled, connected) := Enter(cfg, w, id, v);
    (if connected then x else Rejection(cfg, x, id, v.conn, pooled), connected)
  }

  lemma ServePooled(cfg: Config, s: St, v: Visit)
    requires Underway(s, v.conn) && s.handlers[v.conn].pc.Pooled? && Wellformed(v)
    ensures var id := s.handlers[v.conn].id;
            var t := Serve(cfg, s, v, v.listens);
            if v.tunnels.Some? && v.tunnels.value != [] then
              var (w, err) := AddTunnels(s.w, v.tunnels.value, v.listens, cfg.muxer, id);
              KeysOk(w) &&
              Ends(t, v.conn, if err == None then w else Rejection(cfg, w, id, v.conn, true), err == None)
            else
              Ends(t, v.conn, Rejection(cfg, s.w, id, v.conn, true), false)
  {
    HandshakeStep(cfg, s, v, v.listens);
    hide Serve, Rejection, AddTunnels;
    var t := Next(cfg, s, NextChoice(s, v, v.listens));
    ServeStep(cfg, s, v, v.listens, t);
    hide Next, Enabled, NextChoice, KeysOk;
    if v.tunnels.Some? && v.tunnels.value != [] {
      var (w, err) := AddTunnels(s.w, v.tunnels.value, v.listens, cfg.muxer, s.handlers[v.conn].id);
      UninterruptedIsCall(cfg, t, v.conn, v.tunnels.value, v.listens);
      ServeInside(cfg, t, v, v.listens, w, err);
    } else {
      ServeRejected(cfg, t, v, v.listens);
    }
  }

  lemma ServeEntering(cfg: Config, s: St, v: Visit)
    requires Underway(s, v.conn) && s.handlers[v.conn].pc.Deadline? && Wellformed(v)
    ensures var (w, accepted) := Remainder(cfg, s.w, s.handlers[v.conn].id, v);
            Ends(Serve(cfg, s, v, v.listens), v.conn, w, accepted)
  {
    var c, id := v.conn, s.handlers[v.conn].id;
    var (w, err) := AddConn(cfg.check, s.w, c, id, v.pingOk, v.connOk);
    EnterStep(cfg, s, v, v.listens);
    hide Serve, Rejection, AddTunnels, AddConn;
    var t := Go(s, c, if err == None then Pooled else Rejecting(false), w);
    ServeStep(cfg, s, v, v.listens, t);
    hide Next, Enabled, NextChoice, KeysOk;
    if err == None {
      ServePooled(cfg, t, v);
    } else {
      ServeRejected(cfg, t, v, v.listens);
    }
  }

  // ---- Up to the pool ----

  /** One step before the pool. */
  lemma EarlyStep(cfg: Config, s: St, v: Visit, pc: Pc, reg: Reg)
    requires Underway(s, v.conn) && v.cert == Some(s.handlers[v.conn].id)
    requires var h := s.handlers[v.conn];
             match h.pc
             case Start => pc == Identified && reg == s.w.reg
             case Identified =>
               var (r, ok) := Admit(cfg, s.w.reg, h.id, v.can);
               if ok && !cfg.autoSubscribe && h.id !in s.w.reg.items then pc == Subscribing && reg == s.w.reg
               else pc == (if ok then Ready else Rejecting(false)) && reg == r
             case Subscribing => pc == Ready && reg == Subscribe(s.w.reg, h.id)
             case Ready => pc == (if v.deadlineOk then Deadline else Rejecting(false)) && reg == s.w.reg
             case _ => false
    ensures var t := Go(s, v.conn, pc, s.w.(reg := reg));
            Underway(t, v.conn) && Serve(cfg, s, v, v.listens) == Serve(cfg, t, v, v.listens)
  {
    hide Addr, Close, Serve, Subscribe;
    var t := Go(s, v.conn, pc, s.w.(reg := reg));
    assert Underway(t, v.conn);
    hide KeysOk;
    var a := NextChoice(s, v, v.listens);
    assert Enabled(cfg, s, a) && Next(cfg, s, a) == t;
    ServeStep(cfg, s, v, v.listens, t);
  }

  lemma ServeReady(cfg: Config, s: St, v: Visit)
    requires Underway(s, v.conn) && s.handlers[v.conn].pc.Ready? && Wellformed(v)
    requires v.cert == Some(s.handlers[v.conn].id)
    ensures var (w, accepted) :=
              if v.deadlineOk then Remainder(cfg, s.w, v.cert.value, v) else (HangUp(s.w, v.conn), false);
            Ends(Serve(cfg, s, v, v.listens), v.conn, w, accepted)
  {
    var pc := if v.deadlineOk then Deadline else Rejecting(false);
    EarlyStep(cfg, s, v, pc, s.w.reg);
    var t := Go(s, v.conn, pc, s.w);
    assert s.w.(reg := s.w.reg) == s.w;
    hide Serve, Remainder, KeysOk;
    if v.deadlineOk {
      ServeEntering(cfg, t, v);
    } else {
      ServeRejected(cfg, t, v, v.listens);
    }
  }

  lemma ServeIdentified(cfg: Config, s: St, v: Visit)
    requires Underway(s, v.conn) && s.handlers[v.conn].pc.Identified? && Wellformed(v)
    requires v.cert == Some(s.handlers[v.conn].id)
    ensures var (w, accepted) := Handle(cfg, s.w, v);
            Ends(Serve(cfg, s, v, v.listens), v.conn, w, accepted)
  {
    var c, id := v.conn, s.handlers[v.conn].id;
    var (reg, ok) := Admit(cfg, s.w.reg, id, v.can);
    var w := s.w.(reg := reg);
    HandleParts(cfg, s.w, v);
    assert Rejection(cfg, w, id, c, false) == HangUp(w, c);
    assert s.w.(reg := s.w.reg) == s.w;
    assert Subscribe(s.w.reg, id) == reg || !ok || id in s.w.reg.items;
    hide Serve, Subscribe, Handle, Remainder, Rejection, HangUp;
    if !ok {
      EarlyStep(cfg, s, v, Rejecting(false), reg);
      ServeRejected(cfg, Go(s, c, Rejecting(false), w), v, v.listens);
    } else if !cfg.autoSubscribe && id !in s.w.reg.items {
      EarlyStep(cfg, s, v, Subscribing, s.w.reg);
      var t := Go(s, c, Subscribing, s.w);
      EarlyStep(cfg, t, v, Ready, reg);
      ServeReady(cfg, Go(t, c, Ready, w), v);
    } else {
      EarlyStep(cfg, s, v, Ready, reg);
      ServeReady(cfg, Go(s, c, Ready, w), v);
    }
    hide KeysOk;
  }

  /** The visit in terms of what is left of it after admission. */
  lemma HandleParts(cfg: Config, w: World, v: Visit)
    requires KeysOk(w) && Wellformed(v) && v.cert.Some?
    ensures var (reg, ok) := Admit(cfg, w.reg, v.cert.value, v.can);
            var w1 := w.(reg := reg);
            KeysOk(w1) &&
            Handle(cfg, w, v) ==
              if ok && v.deadlineOk then Remainder(cfg, w1, v.cert.value, v) else (HangUp(w1, v.conn), false)
  {
    var (reg, ok) := Admit(cfg, w.reg, v.cert.value, v.can);
    assert KeysOk(w.(reg := reg));
    hide Admit, Enter, KeysOk, DeleteConn;
  }

  /** Uninterrupted, a handler's steps from the accepted connection on amount to the visit as one
      call: the same world in the end, and the handler connected exactly if the visit is accepted. */
  lemma UninterruptedIsVisit(cfg: Config, s: St, v: Visit)
    requires Underway(s, v.conn) && s.handlers[v.conn].pc.Start? && Wellformed(v)
    requires v.cert.Some? ==> v.cert.value == s.handlers[v.conn].id
    ensures var (w, accepted) := Handle(cfg, s.w, v);
            Ends(Serve(cfg, s, v, v.listens), v.conn, w, accepted)
  {
    var c := v.conn;
    hide Serve, Enter, Admit;
    if v.cert.Some? {
      EarlyStep(cfg, s, v, Identified, s.w.reg);
      assert s.w.(reg := s.w.reg) == s.w;
      ServeIdentified(cfg, Go(s, c, Identified, s.w), v);
    } else {
      var t := Go(s, c, Rejecting(false), s.w);
      assert Next(cfg, s, NextChoice(s, v, v.listens)) == t;
      ServeStep(cfg, s, v, v.listens, t);
      ServeRejected(cfg, t, v, v.listens);
    }
  }
}
