/** The connection pool: live client connections keyed by the clients' spelled IDs, and the
    clean-up that closing one sets off.

    The pool keeps a connection together with the HTTP/2 client connection made from it; each
    connection is offered to the pool once, so one number stands for both.  The outcomes of a ping
    and of setting up HTTP/2 are inputs. */
module Pool {
  import opened Prelude
  import opened Text
  import opened HostIndex
  import opened ErrorDetection
  import opened DeviceId
  import opened Luhn
  import opened Registry

  const PORT: Text := ":443"

  function Addr(check: Check, id: Id): (addr: Text)
    ensures |addr| >= 4
  {
    Spell(check, id) + PORT
  }

  /** The client a pool key stands for.  A key that does not parse would leave the zero ID. */
  function Identifier(check: Check, addr: Text): Id
    requires |addr| >= 4
  {
    match Parse(check, addr[..|addr| - 4])
    case Ok(id) => id
    case Err(_) => ZERO
  }

  /** Pool keys give back the clients they were made for. */
  lemma IdentifierOfAddr(check: Check, id: Id)
    ensures Identifier(check, Addr(check, id)) == id
  {
    var addr := Addr(check, id);
    assert addr[..|addr| - 4] == Spell(check, id);
    RoundTrip(check, id);
  }

  lemma AddrInjective(check: Check, a: Id, b: Id)
    ensures Addr(check, a) == Addr(check, b) <==> a == b
  {
    IdentifierOfAddr(check, a);
    IdentifierOfAddr(check, b);
  }

  // ---- The server's shared state ----

  /** Registry, pool, and what has become of the connections and listeners.  Listeners are numbered
      in the order they are opened. */
  datatype World = World(
    reg: Reg,
    pool: map<Text, Conn>,
    closedConns: set<Conn>,
    nextListener: nat,
    closed: multiset<Listener>
  )

  const INITIAL: World := World(EMPTY, map[], {}, 0, multiset{})

  /** The listeners of a client's registered item. */
  function Listeners(r: Reg, id: Id): seq<Listener> {
    if IsLive(r, id) then r.items[id].item.listeners else []
  }

  /** The server's reaction to a client going away. */
  function Disconnected(w: World, id: Id): World {
    w.(reg := Clear(w.reg, id), closed := w.closed + multiset(Listeners(w.reg, id)))
  }

  /** Pool keys long enough to carry the port. */
  predicate KeysOk(w: World) {
    forall addr :: addr in w.pool ==> |addr| >= 4
  }

  function Close(check: Check, w: World, addr: Text): World
    requires KeysOk(w) && addr in w.pool
  {
    Disconnected(w.(pool := w.pool - {addr}, closedConns := w.closedConns + {w.pool[addr]}),
                 Identifier(check, addr))
  }

  function DeleteConn(check: Check, w: World, id: Id): World
    requires KeysOk(w)
  {
    if Addr(check, id) in w.pool then Close(check, w, Addr(check, id)) else w
  }

  datatype AddError = AlreadyConnected | NoClientConn

  /** An existing connection is pinged, and evicted if it does not answer. */
  function AddConn(check: Check, w: World, conn: Conn, id: Id, pingOk: bool, connOk: bool)
    : (World, Option<AddError>)
    requires KeysOk(w)
  {
    var addr := Addr(check, id);
    if addr in w.pool && pingOk then (w, Some(AlreadyConnected))
    else
      var v := DeleteConn(check, w, id);
      if connOk then (v.(pool := v.pool[addr := conn]), None) else (v, Some(NoClientConn))
  }

  /** Closing a client's pool entry takes away that entry, that client's item and hosts, and closes
      that client's listeners; no other client loses its entry, its item or a host. */
  lemma CloseExact(check: Check, w: World, id: Id)
    requires KeysOk(w) && Addr(check, id) in w.pool
    ensures var v := Close(check, w, Addr(check, id));
            KeysOk(v) && v.pool == w.pool - {Addr(check, id)} &&
            v.reg == Clear(w.reg, id) &&
            v.closed == w.closed + multiset(Listeners(w.reg, id)) &&
            v.closedConns == w.closedConns + {w.pool[Addr(check, id)]} &&
            v.nextListener == w.nextListener && !IsLive(v.reg, id) &&
            (Agrees(w.reg) ==>
               v.reg.hosts == map k | k in w.reg.hosts && w.reg.hosts[k].id != id :: w.reg.hosts[k])
    ensures forall x: Id :: x != id ==>
              var v := Close(check, w, Addr(check, id));
              (Addr(check, x) in v.pool <==> Addr(check, x) in w.pool) &&
              (x in v.reg.items <==> x in w.reg.items) &&
              (x in w.reg.items ==> v.reg.items[x] == w.reg.items[x])
  {
    hide Addr, Spell, Parse, HostPort.TrimPort, Keys, Agrees;
    IdentifierOfAddr(check, id);
    if Agrees(w.reg) {
      ClearedHosts(w.reg, id);
    }
    forall x: Id | x != id
      ensures Addr(check, x) != Addr(check, id)
    {
      AddrInjective(check, x, id);
    }
  }

  /** Deleting by client: with an entry it is the close; without one nothing changes, and an item
      that stood without a connection goes on standing. */
  lemma DeleteExact(check: Check, w: World, id: Id)
    requires KeysOk(w)
    ensures var k := Addr(check, id);
            var v := DeleteConn(check, w, id);
            KeysOk(v) && v.pool == w.pool - {k} && v.nextListener == w.nextListener &&
            (IsLive(v.reg, id) <==> IsLive(w.reg, id) && k !in w.pool) &&
            (if k in w.pool
             then v.reg == Clear(w.reg, id) && v.closed == w.closed + multiset(Listeners(w.reg, id)) &&
                  v.closedConns == w.closedConns + {w.pool[k]}
             else v == w)
  {
    IdentifierOfAddr(check, id);
    hide Addr, Identifier, Keys;
    if Addr(check, id) !in w.pool {
      assert w.pool - {Addr(check, id)} == w.pool;
    }
  }

  /** The same for a client that has no item unless it is pooled: its item is cleared either way. */
  lemma DeleteCleared(check: Check, w: World, id: Id)
    requires KeysOk(w)
    requires IsLive(w.reg, id) ==> Addr(check, id) in w.pool
    ensures var v := DeleteConn(check, w, id);
            KeysOk(v) && v.reg == Clear(w.reg, id) && v.pool == w.pool - {Addr(check, id)} &&
            v.closed == w.closed + multiset(Listeners(w.reg, id)) && v.nextListener == w.nextListener &&
            v.closedConns == w.closedConns + if Addr(check, id) in w.pool then {w.pool[Addr(check, id)]} else {}
  {
    DeleteExact(check, w, id);
    hide Addr, Keys, DeleteConn;
    assert w.closed + multiset([]) == w.closed;
  }

  /** What a connection offered to the pool meets: a predecessor that answers refuses it and nothing
      changes; any other predecessor is let go first, and then it enters, unless HTTP/2 cannot be set
      up. */
  lemma AddConnIff(check: Check, w: World, conn: Conn, id: Id, pingOk: bool, connOk: bool)
    requires KeysOk(w)
    ensures var (v, err) := AddConn(check, w, conn, id, pingOk, connOk);
            (err == Some(AlreadyConnected) <==> Addr(check, id) in w.pool && pingOk) &&
            (err == Some(NoClientConn) <==> !(Addr(check, id) in w.pool && pingOk) && !connOk) &&
            (err == Some(AlreadyConnected) ==> v == w) &&
            (err != Some(AlreadyConnected) ==>
               v.pool == (if err == None then w.pool[Addr(check, id) := conn] else w.pool - {Addr(check, id)}) &&
               (Addr(check, id) in w.pool ==> w.pool[Addr(check, id)] in v.closedConns && !IsLive(v.reg, id)))
  {
    DeleteExact(check, w, id);
    hide Addr, DeleteConn, IsLive;
    var k := Addr(check, id);
    assert (w.pool - {k})[k := conn] == w.pool[k := conn];
  }

  /** Keys are what the transport derives from a client's URL, https and its spelled ID: the spelling
      with the port of https. */
  lemma AddrText(check: Check, id: Id)
    ensures Addr(check, id) == Spell(check, id) + ":443" && |Addr(check, id)| == 67
  {
    SpellShape(check, id);
  }
}
