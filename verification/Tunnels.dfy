/** The tunnels a client asks for, and the registry item the server makes of them. */
module Tunnels {
  import opened Prelude
  import opened DeviceId
  import opened Auth
  import opened HostPort
  import opened Registry
  import opened RegistryLaws
  import opened Pool

  datatype Tunnel = Tunnel(protocol: string, host: string, auth: string, addr: string)

  const HTTP: string := "http"
  const HTTPS: string := "https"
  const TCP: string := "tcp"
  const TCP4: string := "tcp4"
  const TCP6: string := "tcp6"
  const UNIX: string := "unix"
  const SNI: string := "sni"

  const NO_ITEM: RegistryItem := RegistryItem([], [])

  /** What one tunnel adds to the item: a host, or the listener opened for it.  Opening may fail;
      SNI needs a muxer; anything else is not supported. */
  function AddTunnel(item: RegistryItem, t: Tunnel, listenOk: bool, muxer: bool, next: Listener)
    : (r: Option<RegistryItem>)
    ensures r.Some? ==>
              (r.value.listeners == item.listeners &&
               r.value.hosts == item.hosts + [HostAuth(t.host, NewAuth(t.auth))]) ||
              (r.value.listeners == item.listeners + [next] && r.value.hosts == item.hosts)
  {
    if t.protocol == HTTP then
      Some(item.(hosts := item.hosts + [HostAuth(t.host, NewAuth(t.auth))]))
    else if t.protocol in {TCP, TCP4, TCP6, UNIX} then
      if listenOk then Some(item.(listeners := item.listeners + [next])) else None
    else if t.protocol == SNI && muxer then
      if listenOk then Some(item.(listeners := item.listeners + [next])) else None
    else None
  }

  /** The listeners from some number on that a batch has opened. */
  function NextAfter(item: RegistryItem, r: RegistryItem, next: Listener): Listener {
    if |r.listeners| > |item.listeners| then next + 1 else next
  }

  // ---- A whole batch ----

  datatype Built = Built(item: RegistryItem, next: Listener, failed: bool)

  /** The batch built from the tunnels met so far, up to the first that cannot be added. */
  function Build(ts: seq<Tunnel>, listens: seq<bool>, muxer: bool, next: Listener): Built
    requires |listens| == |ts|
    decreases |ts|
  {
    if ts == [] then Built(NO_ITEM, next, false)
    else
      var n := |ts| - 1;
      var b := Build(ts[..n], listens[..n], muxer, next);
      if b.failed then b
      else
        match AddTunnel(b.item, ts[n], listens[n], muxer, b.next)
        case None => b.(failed := true)
        case Some(item) => Built(item, NextAfter(b.item, item, b.next), false)
  }

  /** Once a tunnel has failed, later ones are not met. */
  lemma {:induction false} BuildStops(ts: seq<Tunnel>, listens: seq<bool>, muxer: bool, next: Listener, i: nat)
    requires |listens| == |ts| && i <= |ts|
    requires Build(ts[..i], listens[..i], muxer, next).failed
    ensures Build(ts, listens, muxer, next) == Build(ts[..i], listens[..i], muxer, next)
    decreases |ts|
  {
    hide AddTunnel;
    if i < |ts| {
      var n := |ts| - 1;
      assert ts[..n][..i] == ts[..i] && listens[..n][..i] == listens[..i];
      BuildStops(ts[..n], listens[..n], muxer, next, i);
    } else {
      assert ts[..i] == ts && listens[..i] == listens;
    }
  }

  datatype TunnelError = CannotAdd | CannotSet(fault: SetError)

  /** The server after addTunnels: the batch registered, or its listeners closed again. */
  function AddTunnels(w: World, ts: seq<Tunnel>, listens: seq<bool>, muxer: bool, id: Id)
    : (World, Option<TunnelError>)
    requires |listens| == |ts|
  {
    var b := Build(ts, listens, muxer, w.nextListener);
    var v := w.(nextListener := b.next);
    var rolledBack := v.(closed := w.closed + multiset(b.item.listeners));
    if b.failed then (rolledBack, Some(CannotAdd))
    else
      match SetFault(w.reg, b.item, id)
      case Some(fault) => (rolledBack, Some(CannotSet(fault)))
      case None => (v.(reg := Set(w.reg, b.item, id)), None)
  }

  /** The listeners that are open. */
  function Open(w: World): set<Listener> {
    set l: Listener | 0 <= l < w.nextListener && l !in w.closed
  }

  /** A batch holds exactly the listeners opened for it, each once and in order. */
  lemma {:induction false} BuildListeners(ts: seq<Tunnel>, listens: seq<bool>, muxer: bool, next: Listener)
    requires |listens| == |ts|
    ensures var b := Build(ts, listens, muxer, next);
            b.next == next + |b.item.listeners| &&
            forall i :: 0 <= i < |b.item.listeners| ==> b.item.listeners[i] == next + i
    decreases |ts|
  {
    hide AddTunnel;
    if ts != [] {
      var n := |ts| - 1;
      BuildListeners(ts[..n], listens[..n], muxer, next);
    }
  }

  /** The hosts of a batch that was completed: those of the HTTP tunnels, in order. */
  function HttpHosts(ts: seq<Tunnel>): seq<HostAuth> {
    if ts == [] then []
    else
      var n := |ts| - 1;
      HttpHosts(ts[..n]) + if ts[n].protocol == HTTP then [HostAuth(ts[n].host, NewAuth(ts[n].auth))] else []
  }

  lemma {:induction false} BuildHosts(ts: seq<Tunnel>, listens: seq<bool>, muxer: bool, next: Listener)
    requires |listens| == |ts|
    ensures !Build(ts, listens, muxer, next).failed ==>
            Build(ts, listens, muxer, next).item.hosts == HttpHosts(ts)
    decreases |ts|
  {
    if ts != [] {
      var n := |ts| - 1;
      BuildHosts(ts[..n], listens[..n], muxer, next);
    }
  }

  /** The hosts registered from a list of tunnels. */
  lemma {:induction false} HttpHostsFrom(ts: seq<Tunnel>, h: HostAuth)
    ensures h in HttpHosts(ts) <==>
            exists t :: t in ts && t.protocol == HTTP && h == HostAuth(t.host, NewAuth(t.auth))
    decreases |ts|
  {
    hide NewAuth;
    if ts != [] {
      var n := |ts| - 1;
      HttpHostsFrom(ts[..n], h);
      assert ts == ts[..n] + [ts[n]];
    }
  }

  /** A completed batch has a host for each HTTP tunnel and a listener for each of the others. */
  lemma {:induction false} BuildCounts(ts: seq<Tunnel>, listens: seq<bool>, muxer: bool, next: Listener)
    requires |listens| == |ts| && !Build(ts, listens, muxer, next).failed
    ensures |Build(ts, listens, muxer, next).item.listeners| + |HttpHosts(ts)| == |ts|
    decreases |ts|
  {
    if ts != [] {
      var n := |ts| - 1;
      hide NewAuth;
      BuildCounts(ts[..n], listens[..n], muxer, next);
    }
  }

  /** A tunnel the server can provide. */
  predicate Addable(t: Tunnel, listenOk: bool, muxer: bool) {
    t.protocol == "http" || (t.protocol in {"tcp", "tcp4", "tcp6", "unix"} && listenOk) ||
    (t.protocol == "sni" && muxer && listenOk)
  }

  predicate AllAddable(ts: seq<Tunnel>, listens: seq<bool>, muxer: bool)
    requires |listens| == |ts|
  {
    forall i :: 0 <= i < |ts| ==> Addable(ts[i], listens[i], muxer)
  }

  lemma AddableIff(item: RegistryItem, t: Tunnel, listenOk: bool, muxer: bool, next: Listener)
    ensures AddTunnel(item, t, listenOk, muxer, next) == None <==> !Addable(t, listenOk, muxer)
  {
    hide NewAuth;
  }

  lemma AllAddableLast(ts: seq<Tunnel>, listens: seq<bool>, muxer: bool, n: nat)
    requires |listens| == |ts| == n + 1
    ensures AllAddable(ts, listens, muxer) <==>
            AllAddable(ts[..n], listens[..n], muxer) && Addable(ts[n], listens[n], muxer)
  {
    hide Addable;
    assert forall i :: 0 <= i < n ==> ts[..n][i] == ts[i] && listens[..n][i] == listens[i];
  }

  lemma {:induction false} BuildFails(ts: seq<Tunnel>, listens: seq<bool>, muxer: bool, next: Listener)
    requires |listens| == |ts|
    ensures Build(ts, listens, muxer, next).failed <==> !AllAddable(ts, listens, muxer)
    decreases |ts|
  {
    if ts != [] {
      var n := |ts| - 1;
      hide Addable, AddTunnel, AllAddable;
      AllAddableLast(ts, listens, muxer, n);
      BuildFails(ts[..n], listens[..n], muxer, next);
      var b := Build(ts[..n], listens[..n], muxer, next);
      AddableIff(b.item, ts[n], listens[n], muxer, b.next);
    }
  }

  /** Credentials with a user, or none: what registration asks of a protected host. */
  predicate UserGiven(auth: string) {
    auth == "" || auth[0] != ':'
  }

  /** A subscribed client's batch is accepted exactly when each of its tunnels can be provided and
      each web host has a user if it has credentials and is not indexed yet. */
  lemma AddTunnelsIff(w: World, ts: seq<Tunnel>, listens: seq<bool>, muxer: bool, id: Id)
    requires |listens| == |ts| && id in w.reg.items && w.reg.items[id] == Void
    ensures AddTunnels(w, ts, listens, muxer, id).1 == None <==>
            AllAddable(ts, listens, muxer) &&
            (forall t :: t in ts && t.protocol == HTTP ==> UserGiven(t.auth) && TrimPort(t.host) !in w.reg.hosts)
  {
    var b := Build(ts, listens, muxer, w.nextListener);
    BuildFails(ts, listens, muxer, w.nextListener);
    if !b.failed {
      BuildHosts(ts, listens, muxer, w.nextListener);
      SetAllOrNothing(w.reg, b.item, id);
      HostsClear(w.reg, ts);
      hide SetFault, AllAddable, UserGiven, TrimPort;
    }
  }

  /** Which error a batch is refused with: that a tunnel cannot be added, before the registry is asked,
      or the registry's own. */
  lemma AddTunnelsFault(w: World, ts: seq<Tunnel>, listens: seq<bool>, muxer: bool, id: Id, f: SetError)
    requires |listens| == |ts|
    ensures AddTunnels(w, ts, listens, muxer, id).1 == Some(CannotAdd) <==> !AllAddable(ts, listens, muxer)
    ensures AddTunnels(w, ts, listens, muxer, id).1 == Some(CannotSet(f)) <==>
            AllAddable(ts, listens, muxer) &&
            SetFault(w.reg, Build(ts, listens, muxer, w.nextListener).item, id) == Some(f)
  {
    BuildFails(ts, listens, muxer, w.nextListener);
    hide Build, AllAddable, SetFault, Set;
  }

  lemma HostsClear(r: Reg, ts: seq<Tunnel>)
    ensures (forall h :: h in HttpHosts(ts) ==>
               (h.auth.Some? ==> h.auth.value.user != "") && TrimPort(h.host) !in r.hosts) <==>
            (forall t :: t in ts && t.protocol == HTTP ==> UserGiven(t.auth) && TrimPort(t.host) !in r.hosts)
  {
    hide TrimPort;
    forall t: Tunnel
      ensures UserGiven(t.auth) <==> (NewAuth(t.auth).Some? ==> NewAuth(t.auth).value.user != "")
    {
    }
    hide NewAuth, UserGiven;
    forall h
      ensures h in HttpHosts(ts) <==>
              exists t :: t in ts && t.protocol == HTTP && h == HostAuth(t.host, NewAuth(t.auth))
    {
      HttpHostsFrom(ts, h);
    }
    forall t | t in ts && t.protocol == HTTP
      ensures HostAuth(t.host, NewAuth(t.auth)) in HttpHosts(ts)
    {
    }
  }

  /** Adding tunnels is all or nothing: on an error the registry is untouched and no listener is
      left open, on success the new open listeners are exactly those of the registered item. */
  lemma AddTunnelsAtomic(w: World, ts: seq<Tunnel>, listens: seq<bool>, muxer: bool, id: Id)
    requires |listens| == |ts|
    requires forall l :: l in w.closed ==> l < w.nextListener
    ensures var (v, err) := AddTunnels(w, ts, listens, muxer, id);
            v.pool == w.pool && v.closedConns == w.closedConns &&
            match err
            case Some(_) => v.reg == w.reg && Open(v) == Open(w)
            case None =>
              IsLive(v.reg, id) && !IsLive(w.reg, id) &&
              v.reg.items[id].item.hosts == HttpHosts(ts) &&
              (forall l :: l in Open(v) <==> l in Open(w) || l in v.reg.items[id].item.listeners)
  {
    hide Build, HttpHosts, Conflict, Index;
    var b := Build(ts, listens, muxer, w.nextListener);
    BuildListeners(ts, listens, muxer, w.nextListener);
    BuildHosts(ts, listens, muxer, w.nextListener);
    forall l: Listener
      ensures l in b.item.listeners <==> w.nextListener <= l < b.next
    {
      if w.nextListener <= l < b.next {
        assert b.item.listeners[l - w.nextListener] == l;
      }
    }
    var (v, err) := AddTunnels(w, ts, listens, muxer, id);
    if err.Some? {
      assert forall l :: l in v.closed <==> l in w.closed || l in b.item.listeners;
      assert Open(v) == Open(w);
    }
  }
}
