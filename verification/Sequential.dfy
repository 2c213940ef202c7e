/** The lifecycle's fine steps against addTunnels taken as one call: a handler that runs from the
    first tunnel to the end of addTunnels without anyone in between does to the server exactly what
    the call does. */
module Sequential {
  import opened Prelude
  import opened Registry
  import opened Pool
  import opened Tunnels
  import opened Lifecycle

  /** The handler is inside addTunnels. */
  predicate Inside(s: St, c: Conn) {
    KeysOk(s.w) && c in s.handlers && (s.handlers[c].pc.Adding? || s.handlers[c].pc.RollingBack?)
  }

  /** The handler's next step, listening with the outcomes given. */
  function Choice(s: St, c: Conn, listens: seq<bool>): Action
    requires Inside(s, c)
  {
    var pc := s.handlers[c].pc;
    if pc.RollingBack? then CloseListener(c)
    else if pc.rest == [] then SetItem(c)
    else OpenTunnel(c, listens != [] && listens[0])
  }

  /** How many steps are left at most: each tunnel, each listener to close, and the turns between. */
  function Left(s: St, c: Conn): nat
    requires Inside(s, c)
  {
    match s.handlers[c].pc
    case Adding(rest, item) => |rest| + |rest| + |item.listeners| + 3
    case RollingBack(left) => |left| + 1
    case _ => 0
  }

  lemma StepShrinks(cfg: Config, s: St, c: Conn, listens: seq<bool>)
    requires Inside(s, c)
    ensures Enabled(cfg, s, Choice(s, c, listens))
    ensures var t := Next(cfg, s, Choice(s, c, listens));
            c in t.handlers && KeysOk(t.w) && (Inside(t, c) ==> Left(t, c) < Left(s, c))
  {
    hide Addr, Identifier, Clear, AddTunnel, Set, SetFault;
  }

  /** The state in which the handler leaves addTunnels. */
  function Finish(cfg: Config, s: St, c: Conn, listens: seq<bool>): (t: St)
    requires Inside(s, c)
    ensures c in t.handlers && KeysOk(t.w)
    decreases Left(s, c)
  {
    StepShrinks(cfg, s, c, listens);
    var t := Next(cfg, s, Choice(s, c, listens));
    if Inside(t, c) then Finish(cfg, t, c, if listens == [] then [] else listens[1..]) else t
  }

  lemma {:induction false} FinishRollback(cfg: Config, s: St, c: Conn, listens: seq<bool>)
    requires Inside(s, c) && s.handlers[c].pc.RollingBack?
    ensures var t := Finish(cfg, s, c, listens);
            t.w == s.w.(closed := s.w.closed + multiset(s.handlers[c].pc.left)) &&
            c in t.handlers && t.handlers[c].pc == Rejecting(true)
    decreases Left(s, c)
  {
    hide KeysOk, Addr, Identifier;
    var left := s.handlers[c].pc.left;
    StepShrinks(cfg, s, c, listens);
    var t := Next(cfg, s, CloseListener(c));
    if left == [] {
      assert s.w.closed + multiset(left) == s.w.closed;
    } else {
      FinishRollback(cfg, t, c, if listens == [] then [] else listens[1..]);
      assert left == [left[0]] + left[1..];
      assert multiset(left) == multiset{left[0]} + multiset(left[1..]);
    }
    hide *;
  }

  /** What the call leaves: the world, and the handler connected or on its way out. */
  predicate Leaves(t: St, c: Conn, w: World, err: Option<TunnelError>) {
    t.w == w && c in t.handlers && t.handlers[c].pc == if err == None then Connected else Rejecting(true)
  }

  lemma FinishSet(cfg: Config, s: St, c: Conn, w: World, ts: seq<Tunnel>, listens: seq<bool>, rest: seq<bool>)
    requires Inside(s, c) && |listens| == |ts|
    requires s.handlers[c].pc == Adding([], Build(ts, listens, cfg.muxer, w.nextListener).item)
    requires var b := Build(ts, listens, cfg.muxer, w.nextListener);
             !b.failed && s.w == w.(nextListener := b.next)
    ensures var (v, err) := AddTunnels(w, ts, listens, cfg.muxer, s.handlers[c].id);
            Leaves(Finish(cfg, s, c, rest), c, v, err)
  {
    hide Addr, Identifier, Close, DeleteConn, AddConn, Clear;
    var h := s.handlers[c];
    StepShrinks(cfg, s, c, rest);
    hide Build, Set, SetFault, KeysOk;
    var t := Next(cfg, s, SetItem(c));
    if SetFault(s.w.reg, h.pc.item, h.id) != None {
      FinishRollback(cfg, t, c, if rest == [] then [] else rest[1..]);
    }
  }

  /** From any tunnel on. */
  lemma {:induction false} FinishFrom(cfg: Config, s: St, c: Conn, w: World, ts: seq<Tunnel>,
                                      listens: seq<bool>, i: nat)
    requires Inside(s, c) && |listens| == |ts| && i <= |ts|
    requires var b := Build(ts[..i], listens[..i], cfg.muxer, w.nextListener);
             !b.failed && s.w == w.(nextListener := b.next) && s.handlers[c].pc == Adding(ts[i..], b.item)
    ensures var (v, err) := AddTunnels(w, ts, listens, cfg.muxer, s.handlers[c].id);
            Leaves(Finish(cfg, s, c, listens[i..]), c, v, err)
    decreases |ts| - i
  {
    if i == |ts| {
      assert ts[..i] == ts && listens[..i] == listens;
      FinishSet(cfg, s, c, w, ts, listens, listens[i..]);
    } else {
      StepShrinks(cfg, s, c, listens[i..]);
      BuildNext(ts, listens, cfg.muxer, w.nextListener, i);
      OpenStep(cfg, s, c, w, ts, listens, i);
      var t := Next(cfg, s, OpenTunnel(c, listens[i]));
      assert listens[i..][1..] == listens[i + 1..];
      hide Next, Build, KeysOk;
      if Build(ts[..i + 1], listens[..i + 1], cfg.muxer, w.nextListener).failed {
        BuildStops(ts, listens, cfg.muxer, w.nextListener, i + 1);
        FinishRollback(cfg, t, c, listens[i + 1..]);
      } else {
        FinishFrom(cfg, t, c, w, ts, listens, i + 1);
      }
    }
  }

  lemma BuildNext(ts: seq<Tunnel>, listens: seq<bool>, muxer: bool, next: Listener, i: nat)
    requires |listens| == |ts| && i < |ts|
    ensures var b := Build(ts[..i], listens[..i], muxer, next);
            !b.failed ==>
              Build(ts[..i + 1], listens[..i + 1], muxer, next) ==
                match AddTunnel(b.item, ts[i], listens[i], muxer, b.next)
                case None => b.(failed := true)
                case Some(item) => Built(item, NextAfter(b.item, item, b.next), false)
  {
    hide AddTunnel;
    assert ts[..i + 1][..i] == ts[..i] && listens[..i + 1][..i] == listens[..i];
  }

  lemma OpenStep(cfg: Config, s: St, c: Conn, w: World, ts: seq<Tunnel>, listens: seq<bool>, i: nat)
    requires Inside(s, c) && |listens| == |ts| && i < |ts|
    requires var b := Build(ts[..i], listens[..i], cfg.muxer, w.nextListener);
             !b.failed && s.w == w.(nextListener := b.next) && s.handlers[c].pc == Adding(ts[i..], b.item)
    ensures Enabled(cfg, s, OpenTunnel(c, listens[i]))
    ensures Choice(s, c, listens[i..]) == OpenTunnel(c, listens[i])
    ensures var t := Next(cfg, s, OpenTunnel(c, listens[i]));
            var b := Build(ts[..i + 1], listens[..i + 1], cfg.muxer, w.nextListener);
            Inside(t, c) && t.w == w.(nextListener := b.next) && t.handlers[c].id == s.handlers[c].id &&
            t.handlers[c].pc == if b.failed then RollingBack(b.item.listeners) else Adding(ts[i + 1..], b.item)
  {
    hide Addr, Identifier, Clear, Set, SetFault, Conflict, Unsubscribe, Listeners, At, Close,
      DeleteConn, AddConn, Index;
    BuildNext(ts, listens, cfg.muxer, w.nextListener, i);
    OpenEffect(cfg, s, c, listens[i]);
    assert ts[i..][0] == ts[i] && listens[i..][0] == listens[i];
    assert Choice(s, c, listens[i..]) == OpenTunnel(c, listens[i]);
    hide Next, Enabled, Build, AddTunnel, KeysOk, NextAfter, Choice;
    assert ts[i..][1..] == ts[i + 1..];
  }

  lemma OpenEffect(cfg: Config, s: St, c: Conn, ok: bool)
    requires Inside(s, c) && s.handlers[c].pc.Adding? && s.handlers[c].pc.rest != []
    ensures Enabled(cfg, s, OpenTunnel(c, ok))
    ensures var t, pc := Next(cfg, s, OpenTunnel(c, ok)), s.handlers[c].pc;
            Inside(t, c) && t.handlers[c].id == s.handlers[c].id &&
            match AddTunnel(pc.item, pc.rest[0], ok, cfg.muxer, s.w.nextListener)
            case None => t.w == s.w && t.handlers[c].pc == RollingBack(pc.item.listeners)
            case Some(item) =>
              t.w == s.w.(nextListener := NextAfter(pc.item, item, s.w.nextListener)) &&
              t.handlers[c].pc == Adding(pc.rest[1..], item)
  {
    hide AddTunnel;
  }

  /** Uninterrupted, the machine's steps through addTunnels amount to the call: the same world in
      the end, the handler connected if it returns no error, and rejecting otherwise. */
  lemma UninterruptedIsCall(cfg: Config, s: St, c: Conn, ts: seq<Tunnel>, listens: seq<bool>)
    requires Inside(s, c) && |listens| == |ts| && s.handlers[c].pc == Adding(ts, NO_ITEM)
    ensures var (w, err) := AddTunnels(s.w, ts, listens, cfg.muxer, s.handlers[c].id);
            Leaves(Finish(cfg, s, c, listens), c, w, err)
  {
    assert ts[..0] == [] && listens[..0] == [] && ts[0..] == ts && listens[0..] == listens;
    FinishFrom(cfg, s, c, s.w, ts, listens, 0);
  }
}
