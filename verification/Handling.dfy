/** A client's whole visit: what handleClient does to the server when nothing comes in between. */
module Handling {
  import opened Prelude
  import opened DeviceId
  import opened Luhn
  import opened Registry
  import opened Pool
  import opened Tunnels

  datatype Config = Config(check: Check, autoSubscribe: bool, muxer: bool)

  /** A connection and everything decided outside about it: the ID its certificate gives, whether
      the subscription listener would let it in, the outcomes of the calls on it, the tunnels its
      handshake asks for, and which of them can be listened for. */
  datatype Visit = Visit(
    conn: Conn,
    cert: Option<Id>,
    can: bool,
    deadlineOk: bool,
    pingOk: bool,
    connOk: bool,
    tunnels: Option<seq<Tunnel>>,
    listens: seq<bool>
  )

  predicate Wellformed(v: Visit) {
    v.tunnels.Some? ==> |v.listens| == |v.tunnels.value|
  }

  /** Whether the client may connect, and the registry with the client subscribed if so. */
  function Admit(cfg: Config, r: Reg, id: Id, can: bool): (Reg, bool) {
    if cfg.autoSubscribe then (Subscribe(r, id), true)
    else if id in r.items then (r, true)
    else if can then (Subscribe(r, id), true)
    else (r, false)
  }

  function HangUp(w: World, conn: Conn): World {
    w.(closedConns := w.closedConns + {conn})
  }

  lemma AddConnKeys(check: Check, w: World, conn: Conn, id: Id, pingOk: bool, connOk: bool)
    requires KeysOk(w)
    ensures KeysOk(AddConn(check, w, conn, id, pingOk, connOk).0)
  {
    hide Identifier, Clear;
  }

  lemma DeleteConnKeys(check: Check, w: World, id: Id)
    requires KeysOk(w)
    ensures KeysOk(DeleteConn(check, w, id))
  {
    hide Addr, Identifier, Clear;
  }

  /** From the pool on: the world before hanging up, whether the connection entered the pool, and
      whether the client is connected. */
  function Enter(cfg: Config, w: World, id: Id, v: Visit): (World, bool, bool)
    requires KeysOk(w) && Wellformed(v)
  {
    var (u, err) := AddConn(cfg.check, w, v.conn, id, v.pingOk, v.connOk);
    if err != None then (u, false, false)
    else if v.tunnels == None || v.tunnels.value == [] then (u, true, false)
    else
      var (x, fault) := AddTunnels(u, v.tunnels.value, v.listens, cfg.muxer, id);
      (x, true, fault == None)
  }

  lemma EnterKeys(cfg: Config, w: World, id: Id, v: Visit)
    requires KeysOk(w) && Wellformed(v)
    ensures KeysOk(Enter(cfg, w, id, v).0)
  {
    AddConnKeys(cfg.check, w, v.conn, id, v.pingOk, v.connOk);
    hide AddConn;
  }

  /** The whole visit, and whether it was accepted. */
  function Handle(cfg: Config, w: World, v: Visit): (World, bool)
    requires KeysOk(w) && Wellformed(v)
  {
    if v.cert == None then (HangUp(w, v.conn), false)
    else
      var id := v.cert.value;
      var (reg, admitted) := Admit(cfg, w.reg, id, v.can);
      var w1 := w.(reg := reg);
      if !admitted || !v.deadlineOk then (HangUp(w1, v.conn), false)
      else
        EnterKeys(cfg, w1, id, v);
        var (w2, pooled, connected) := Enter(cfg, w1, id, v);
        if connected then (w2, true)
        else (HangUp(if pooled then DeleteConn(cfg.check, w2, id) else w2, v.conn), false)
  }
}
