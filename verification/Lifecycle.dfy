/** The server's session lifecycle as a machine whose steps are the program's lock-protected
    regions.

    Any number of handleClient runs proceed at once, one for each accepted connection, interleaved
    with connections being found dead and with clients being unsubscribed.  Everything decided
    outside - certificates, handshakes, pings, listening - is part of the action taken.  Letting go
    of a pooled connection, clearing its client's item and closing its listeners happen under the
    pool's lock and are one step. */
module Lifecycle {
  import opened Prelude
  import opened Text
  import opened DeviceId
  import opened Registry
  import opened Pool
  import opened Tunnels
  import Handling

  type Config = Handling.Config

  /** Where a handleClient run stands. */
  datatype Pc =
    | Start                                            // accepted
    | Identified                                       // the certificate gave an ID
    | Subscribing                                      // the listener lets the client in
    | Ready                                            // subscribed
    | Deadline                                         // about to enter the pool
    | Pooled                                           // in the pool, handshake under way
    | Adding(rest: seq<Tunnel>, item: RegistryItem)    // inside addTunnels
    | RollingBack(left: seq<Listener>)                 // addTunnels undoing itself
    | Rejecting(inPool: bool)
    | Closing                                          // about to close its own connection
    | Connected
    | Rejected

  /** One run: the peer's ID, the program counter, and, as history, every listener the run has
      opened and the tunnels the client asked for, in the order the server meets them. */
  datatype Handler = Handler(id: Id, pc: Pc, mine: set<Listener>, asked: seq<Tunnel>)

  /** The machine's state; unsubs are the unsubscriptions between their two steps, handed the
      listeners returned to callers of Unsubscribe. */
  datatype St = St(w: World, handlers: map<Conn, Handler>, unsubs: multiset<Id>, handed: multiset<Listener>)

  const INIT: St := St(INITIAL, map[], multiset{}, multiset{})

  datatype Action =
    | Accept(conn: Conn, id: Id)
    | Identify(conn: Conn, ok: bool)
    | CheckSubscribed(conn: Conn, can: bool)
    | LetIn(conn: Conn)
    | SetDeadline(conn: Conn, ok: bool)
    | EnterPool(conn: Conn, pingOk: bool, connOk: bool)
    | Handshake(conn: Conn, ok: bool, tunnels: seq<Tunnel>)
    | OpenTunnel(conn: Conn, listenOk: bool)
    | SetItem(conn: Conn)
    | CloseListener(conn: Conn)
    | Reject(conn: Conn)
    | CloseConn(conn: Conn)
    | MarkDead(addr: Text)
    | UnsubscribeConn(id: Id)
    | UnsubscribeItem(id: Id)

  /** The program counter at which a handler takes the action. */
  predicate At(cfg: Config, a: Action, pc: Pc) {
    match a
    case Identify(_, _) => pc.Start?
    case CheckSubscribed(_, _) => pc.Identified?
    case LetIn(_) => pc.Subscribing?
    case SetDeadline(_, _) => pc.Ready?
    case EnterPool(_, _, _) => pc.Deadline?
    case Handshake(_, _, _) => pc.Pooled?
    case OpenTunnel(_, _) => pc.Adding? && pc.rest != []
    case SetItem(_) => pc.Adding? && pc.rest == []
    case CloseListener(_) => pc.RollingBack?
    case Reject(_) => pc.Rejecting?
    case CloseConn(_) => pc.Closing?
    case _ => false
  }

  predicate Enabled(cfg: Config, s: St, a: Action) {
    KeysOk(s.w) &&
    match a
    case Accept(c, _) => c !in s.handlers
    case MarkDead(addr) => addr in s.w.pool
    case UnsubscribeConn(_) => true
    case UnsubscribeItem(id) => id in s.unsubs
    case _ => a.conn in s.handlers && At(cfg, a, s.handlers[a.conn].pc)
  }

  /** The handler moves to a new program counter and the server to a new world. */
  function Go(s: St, c: Conn, pc: Pc, w: World): St
    requires c in s.handlers
  {
    s.(handlers := s.handlers[c := s.handlers[c].(pc := pc)], w := w)
  }

  function Next(cfg: Config, s: St, a: Action): St
    requires Enabled(cfg, s, a)
  {
    match a
    case Accept(c, id) => s.(handlers := s.handlers[c := Handler(id, Start, {}, [])])
    case MarkDead(addr) => s.(w := Close(cfg.check, s.w, addr))
    case UnsubscribeConn(id) =>
      s.(w := DeleteConn(cfg.check, s.w, id), unsubs := s.unsubs + multiset{id})
    case UnsubscribeItem(id) =>
      s.(w := s.w.(reg := Unsubscribe(s.w.reg, id)),
         unsubs := s.unsubs - multiset{id},
         handed := s.handed + multiset(Listeners(s.w.reg, id)))
    case _ => HandlerNext(cfg, s, a, s.handlers[a.conn])
  }

  function HandlerNext(cfg: Config, s: St, a: Action, h: Handler): St
    requires Enabled(cfg, s, a)
    requires !a.Accept? && !a.MarkDead? && !a.UnsubscribeConn? && !a.UnsubscribeItem?
    requires h == s.handlers[a.conn]
  {
    match a
    case Identify(c, ok) => Go(s, c, if ok then Identified else Rejecting(false), s.w)
    case CheckSubscribed(c, can) =>
      if cfg.autoSubscribe then Go(s, c, Ready, s.w.(reg := Subscribe(s.w.reg, h.id)))
      else if h.id in s.w.reg.items then Go(s, c, Ready, s.w)
      else Go(s, c, if can then Subscribing else Rejecting(false), s.w)
    case LetIn(c) => Go(s, c, Ready, s.w.(reg := Subscribe(s.w.reg, h.id)))
    case SetDeadline(c, ok) => Go(s, c, if ok then Deadline else Rejecting(false), s.w)
    case EnterPool(c, pingOk, connOk) =>
      var (w, err) := AddConn(cfg.check, s.w, c, h.id, pingOk, connOk);
      Go(s, c, if err == None then Pooled else Rejecting(false), w)
    case Handshake(c, ok, ts) =>
      if ok && ts != [] then s.(handlers := s.handlers[c := h.(pc := Adding(ts, NO_ITEM), asked := ts)])
      else Go(s, c, Rejecting(true), s.w)
    case OpenTunnel(c, ok) => OpenNext(cfg, s, c, ok, h)
    case SetItem(c) =>
      if SetFault(s.w.reg, h.pc.item, h.id) == None
      then Go(s, c, Connected, s.w.(reg := Set(s.w.reg, h.pc.item, h.id)))
      else Go(s, c, RollingBack(h.pc.item.listeners), s.w)
    case CloseListener(c) =>
      if h.pc.left == [] then Go(s, c, Rejecting(true), s.w)
      else Go(s, c, RollingBack(h.pc.left[1..]), s.w.(closed := s.w.closed + multiset{h.pc.left[0]}))
    case Reject(c) =>
      Go(s, c, Closing, if h.pc.inPool then DeleteConn(cfg.check, s.w, h.id) else s.w)
    case CloseConn(c) => Go(s, c, Rejected, s.w.(closedConns := s.w.closedConns + {c}))
  }

  function OpenNext(cfg: Config, s: St, c: Conn, ok: bool, h: Handler): St
    requires c in s.handlers && h == s.handlers[c] && h.pc.Adding? && h.pc.rest != []
  {
    var next := s.w.nextListener;
    match AddTunnel(h.pc.item, h.pc.rest[0], ok, cfg.muxer, next)
    case None => Go(s, c, RollingBack(h.pc.item.listeners), s.w)
    case Some(item) =>
      var n := NextAfter(h.pc.item, item, next);
      s.(handlers := s.handlers[c := h.(pc := Adding(h.pc.rest[1..], item),
                                        mine := if n > next then h.mine + {next} else h.mine)],
         w := s.w.(nextListener := n))
  }

  // ---- The shape of a step ----

  predicate OfHandler(a: Action) {
    !a.Accept? && !a.MarkDead? && !a.UnsubscribeConn? && !a.UnsubscribeItem?
  }

  /** A handler's step moves that handler alone and leaves its identity. */
  lemma HandlerSteps(cfg: Config, s: St, a: Action)
    requires Enabled(cfg, s, a) && OfHandler(a)
    ensures var t := Next(cfg, s, a);
            a.conn in t.handlers && t.handlers == s.handlers[a.conn := t.handlers[a.conn]] &&
            t.handlers[a.conn].id == s.handlers[a.conn].id &&
            (!a.OpenTunnel? ==> t.handlers[a.conn].mine == s.handlers[a.conn].mine) &&
            (!a.Handshake? ==> t.handlers[a.conn].asked == s.handlers[a.conn].asked) &&
            t.unsubs == s.unsubs && t.handed == s.handed
  {
    hide KeysOk, Close, Unsubscribe, AddConn, DeleteConn, Set, SetFault, Subscribe, AddTunnel;
  }

  // ---- Runs ----

  /** A run: the states passed through and the actions between them. */
  ghost predicate Run(cfg: Config, ss: seq<St>, acts: seq<Action>) {
    |ss| == |acts| + 1 && ss[0] == INIT &&
    forall i :: 0 <= i < |acts| ==> Steps(cfg, ss[i], acts[i], ss[i + 1])
  }

  ghost predicate Steps(cfg: Config, s: St, a: Action, t: St) {
    Enabled(cfg, s, a) && t == Next(cfg, s, a)
  }
}
