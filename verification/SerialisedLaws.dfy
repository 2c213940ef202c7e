/** Consequences of serialised runs: what rejection and removal leave behind, and which listeners
    are open. */
module SerialisedLaws {
  import opened DeviceId
  import opened Registry
  import opened HostIndex
  import opened Pool
  import opened Tunnels
  import opened Lifecycle
  import opened Conservation
  import opened Sessions
  import opened Serialised

  lemma RejectVoids(cfg: Config, s: St, a: Action)
    requires Enabled(cfg, s, a) && a.Reject? && s.handlers[a.conn].pc.inPool
    requires Ordered(cfg, s, s.handlers[a.conn].id)
    ensures var t, id := Next(cfg, s, a), s.handlers[a.conn].id;
            !IsLive(t.w.reg, id) && Addr(cfg.check, id) !in t.w.pool && Quiet(t, id)
  {
    hide KeysOk, Close;
    var t, c, id := Next(cfg, s, a), a.conn, s.handlers[a.conn].id;
    LastHolder(cfg, s, id, c);
    Deleted(cfg, s.w, id, id);
    HandlerSteps(cfg, s, a);
    hide Addr, DeleteConn, IsLive, Ordered;
    assert forall d :: d != c ==> (Holder(t, id, d) <==> Holder(s, id, d));
    assert !Holder(t, id, c);
  }

  /** A handler that is rejected after entering the pool leaves its client without item and
      without connection. */
  lemma RejectionLeavesNoItem(cfg: Config, ss: seq<St>, acts: seq<Action>, i: nat)
    requires SerialRun(cfg, ss, acts) && i < |acts| && acts[i].Reject?
    requires Enabled(cfg, ss[i], acts[i]) && ss[i].handlers[acts[i].conn].pc.inPool
    ensures var id := ss[i].handlers[acts[i].conn].id;
            !IsLive(ss[i + 1].w.reg, id) && Addr(cfg.check, id) !in ss[i + 1].w.pool && Quiet(ss[i + 1], id)
  {
    RunOrdered(cfg, ss, acts, i);
    SerialStep(cfg, ss, acts, i);
    hide SerialRun, Next, Addr, IsLive, Quiet, Ordered;
    assert Ordered(cfg, ss[i], ss[i].handlers[acts[i].conn].id);
    RejectVoids(cfg, ss[i], acts[i]);
  }

  // ---- Removal ----

  /** The item removed in the second step of an unsubscription is void by then. */
  lemma RemovedIsVoid(cfg: Config, ss: seq<St>, acts: seq<Action>, i: nat)
    requires SerialRun(cfg, ss, acts) && i < |acts| && acts[i].UnsubscribeItem?
    ensures !IsLive(ss[i].w.reg, acts[i].id) && Addr(cfg.check, acts[i].id) !in ss[i].w.pool
    ensures Listeners(ss[i].w.reg, acts[i].id) == []
  {
    hide KeysOk, Identifier, DeleteConn, Clear, Index, Subscribe, Unsubscribe, IsLive, AddTunnel;
    RunOrdered(cfg, ss, acts, i);
    SerialStep(cfg, ss, acts, i);
    assert Ordered(cfg, ss[i], acts[i].id);
    hide Addr, Next, Quiet;
  }

  /** Serialised removals are always clean, whatever ports the hosts are written with. */
  lemma RemovalsClean(cfg: Config, ss: seq<St>, acts: seq<Action>, i: nat)
    requires SerialRun(cfg, ss, acts) && i < |ss|
    ensures forall j :: 0 <= j < i && acts[j].UnsubscribeItem? ==> Clean(ss[j].w.reg, acts[j].id)
  {
    forall j | 0 <= j < i && acts[j].UnsubscribeItem?
      ensures Clean(ss[j].w.reg, acts[j].id)
    {
      RemovedIsVoid(cfg, ss, acts, j);
    }
  }

  /** So the index agrees with the items throughout. */
  lemma SerialAgrees(cfg: Config, ss: seq<St>, acts: seq<Action>, i: nat)
    requires SerialRun(cfg, ss, acts) && i < |ss|
    ensures Agrees(ss[i].w.reg)
  {
    RemovalsClean(cfg, ss, acts, i);
    hide Clean, Agrees, Next;
    RunAgrees(cfg, ss, acts, i);
  }

  /** When an unsubscription completes, the client is in neither map, not in the pool, and no host
      leads to it. */
  lemma UnsubscribedGone(cfg: Config, ss: seq<St>, acts: seq<Action>, i: nat)
    requires SerialRun(cfg, ss, acts) && i < |acts| && acts[i].UnsubscribeItem?
    ensures var w, id := ss[i + 1].w, acts[i].id;
            id !in w.reg.items && Addr(cfg.check, id) !in w.pool &&
            forall k :: k in w.reg.hosts ==> w.reg.hosts[k].id != id
  {
    hide KeysOk, Clear, Index, Listeners, Critical, HandlerNext;
    RemovedIsVoid(cfg, ss, acts, i);
    SerialStep(cfg, ss, acts, i);
    SerialAgrees(cfg, ss, acts, i + 1);
    var w, id := ss[i + 1].w, acts[i].id;
    hide Addr, SerialRun;
    assert Listed(w.reg, id) == map[];
    hide Listed, Agrees;
    NoHostsOfUnlisted(w.reg, id);
  }

  /** The hosts that do not lead to a client. */
  function HostsWithout(r: Reg, id: Id): map<string, HostInfo> {
    map k | k in r.hosts && r.hosts[k].id != id :: r.hosts[k]
  }

  /** The first half of an unsubscription: the client loses its connection, its item, its hosts and
      its listeners, and nobody else loses anything. */
  lemma Disconnects(cfg: Config, ss: seq<St>, acts: seq<Action>, i: nat)
    requires SerialRun(cfg, ss, acts) && i < |acts| && acts[i].UnsubscribeConn?
    ensures var s, t, id := ss[i], ss[i + 1], acts[i].id;
            t.w.reg.items == (if id in s.w.reg.items then s.w.reg.items[id := Void] else s.w.reg.items) &&
            t.w.reg.hosts == HostsWithout(s.w.reg, id) &&
            t.w.pool == s.w.pool - {Addr(cfg.check, id)} &&
            t.w.closed == s.w.closed + multiset(Listeners(s.w.reg, id)) &&
            t.handed == s.handed && t.handlers == s.handlers
  {
    var s, id := ss[i], acts[i].id;
    SerialStep(cfg, ss, acts, i);
    RunOrdered(cfg, ss, acts, i);
    SerialAgrees(cfg, ss, acts, i);
    QuietPooled(cfg, s, id);
    assert KeysOk(s.w);
    ConnStep(cfg, s, id);
    hide Next, Serial, Addr, SerialRun, AllOrdered, Agrees, DeleteConn, Listeners, Quiet, Enabled;
    DeleteCleared(cfg.check, s.w, id);
    ClearedHosts(s.w.reg, id);
    ClearedItems(s.w.reg, id);
    hide Clear, IsLive;
  }

  lemma ConnStep(cfg: Config, s: St, id: Id)
    requires Enabled(cfg, s, UnsubscribeConn(id))
    ensures var t := Next(cfg, s, UnsubscribeConn(id));
            t.w == DeleteConn(cfg.check, s.w, id) && t.handed == s.handed && t.handlers == s.handlers
  {
    hide DeleteConn;
  }

  lemma QuietPooled(cfg: Config, s: St, id: Id)
    requires AllOrdered(cfg, s) && Quiet(s, id)
    ensures Addr(cfg.check, id) in s.w.pool <==> IsLive(s.w.reg, id)
  {
    hide Addr, IsLive, Quiet;
    assert Ordered(cfg, s, id);
  }

  lemma ClearedItems(r: Reg, id: Id)
    ensures Clear(r, id).items == if id in r.items then r.items[id := Void] else r.items
  {
  }

  /** The second half: the void item goes, and nothing else changes. */
  lemma Removes(cfg: Config, ss: seq<St>, acts: seq<Action>, i: nat)
    requires SerialRun(cfg, ss, acts) && i < |acts| && acts[i].UnsubscribeItem?
    ensures var s, t, id := ss[i], ss[i + 1], acts[i].id;
            t.w == s.w.(reg := Reg(s.w.reg.items - {id}, s.w.reg.hosts)) &&
            t.handed == s.handed && t.handlers == s.handlers
  {
    RemovedIsVoid(cfg, ss, acts, i);
    SerialStep(cfg, ss, acts, i);
    HandedVoid(cfg, ss, acts, i);
    ItemStep(cfg, ss[i], acts[i].id);
    hide Next, Enabled, Serial, SerialRun, Addr, Listeners;
    assert Unsubscribe(ss[i].w.reg, acts[i].id) == Reg(ss[i].w.reg.items - {acts[i].id}, ss[i].w.reg.hosts);
  }

  lemma ItemStep(cfg: Config, s: St, id: Id)
    requires Enabled(cfg, s, UnsubscribeItem(id))
    ensures var t := Next(cfg, s, UnsubscribeItem(id));
            t.w == s.w.(reg := Unsubscribe(s.w.reg, id)) && t.handlers == s.handlers
  {
    hide Unsubscribe, Listeners;
  }

  /** An unsubscription over a serialised run, with any steps on other clients between its halves
      and whatever ports the hosts were written with: the two halves take away what is the client's
      and nothing of anybody else's, the listeners it had are closed from then on, and at the end
      it is in neither map, not in the pool, and no host leads to it. */
  lemma UnsubscribeLeavesNoTrace(cfg: Config, ss: seq<St>, acts: seq<Action>, i: nat, j: nat, id: Id)
    requires SerialRun(cfg, ss, acts) && i < j < |acts|
    requires acts[i] == UnsubscribeConn(id) && acts[j] == UnsubscribeItem(id)
    ensures var s, t := ss[i], ss[i + 1];
            t.w.reg.items == (if id in s.w.reg.items then s.w.reg.items[id := Void] else s.w.reg.items) &&
            t.w.reg.hosts == HostsWithout(s.w.reg, id) &&
            t.w.pool == s.w.pool - {Addr(cfg.check, id)} &&
            t.w.closed == s.w.closed + multiset(Listeners(s.w.reg, id)) &&
            t.handed == s.handed && t.handlers == s.handlers
    ensures var s, t := ss[j], ss[j + 1];
            t.w == s.w.(reg := Reg(s.w.reg.items - {id}, s.w.reg.hosts)) &&
            t.handed == s.handed && t.handlers == s.handlers &&
            id !in t.w.reg.items && Addr(cfg.check, id) !in t.w.pool &&
            forall k :: k in t.w.reg.hosts ==> t.w.reg.hosts[k].id != id
    ensures forall l, k :: l in Listeners(ss[i].w.reg, id) && i < k < |ss| ==> l in ss[k].w.closed
  {
    Disconnects(cfg, ss, acts, i);
    Removes(cfg, ss, acts, j);
    UnsubscribedGone(cfg, ss, acts, j);
    hide SerialRun, Addr, Listeners, HostsWithout;
    forall l, k | l in Listeners(ss[i].w.reg, id) && i < k < |ss|
      ensures l in ss[k].w.closed
    {
      RunClosedGrows(cfg, ss, acts, i + 1, k);
      assert ss[i + 1].w.closed[l] > 0;
    }
  }

  // ---- Open listeners ----

  /** No listener is ever handed back to a caller of Unsubscribe. */
  lemma {:induction false} NothingHanded(cfg: Config, ss: seq<St>, acts: seq<Action>, i: nat)
    requires SerialRun(cfg, ss, acts) && i < |ss|
    ensures ss[i].handed == multiset{}
    decreases i
  {
    if i > 0 {
      NothingHanded(cfg, ss, acts, i - 1);
      SerialStep(cfg, ss, acts, i - 1);
      hide SerialRun;
      if acts[i - 1].UnsubscribeItem? {
        HandedVoid(cfg, ss, acts, i - 1);
      } else {
        HandedKept(cfg, ss[i - 1], acts[i - 1]);
      }
    }
  }

  lemma HandedVoid(cfg: Config, ss: seq<St>, acts: seq<Action>, i: nat)
    requires SerialRun(cfg, ss, acts) && i < |acts| && acts[i].UnsubscribeItem?
    ensures ss[i + 1].handed == ss[i].handed
  {
    hide KeysOk, Addr, Identifier;
    RemovedIsVoid(cfg, ss, acts, i);
    SerialStep(cfg, ss, acts, i);
    hide SerialRun, Listeners;
    assert ss[i].handed + multiset(Listeners(ss[i].w.reg, acts[i].id)) == ss[i].handed;
  }

  lemma HandedKept(cfg: Config, s: St, a: Action)
    requires Enabled(cfg, s, a) && !a.UnsubscribeItem?
    ensures Next(cfg, s, a).handed == s.handed
  {
    hide Close, DeleteConn, AddConn, Set, SetFault, Subscribe, AddTunnel;
  }

  /** In a serialised run the open listeners are exactly those in a batch being added or rolled
      back and those registered for clients in the pool. */
  lemma OpenExactly(cfg: Config, ss: seq<St>, acts: seq<Action>, i: nat, l: Listener)
    requires SerialRun(cfg, ss, acts) && i < |ss|
    ensures l in Open(ss[i].w) <==>
            (exists c :: l in Batch(ss[i], c)) ||
            (exists id :: l in Listeners(ss[i].w.reg, id) && Addr(cfg.check, id) in ss[i].w.pool)
  {
    hide KeysOk, Identifier, Close, At, HandlerNext;
    var s := ss[i];
    RunConserves(cfg, ss, acts, i);
    NothingHanded(cfg, ss, acts, i);
    RunOrdered(cfg, ss, acts, i);
    forall id | l in Listeners(s.w.reg, id)
      ensures Addr(cfg.check, id) in s.w.pool
    {
      LivePooled(cfg, s, id);
    }
    hide SerialRun, Listeners, Batch, Addr, AllOrdered;
    if l in Open(s.w) {
      assert Located(s, l);
      var p :| Count(s, l, p) > 0;
      assert p != Closed && p != Handed;
      match p
      case InBatch(c) => assert l in Batch(s, c);
      case InItem(id) => assert l in Listeners(s.w.reg, id);
      case _ =>
    }
    if c :| l in Batch(s, c) {
      HeldOpen(s, l, InBatch(c));
    }
    if id :| l in Listeners(s.w.reg, id) {
      HeldOpen(s, l, InItem(id));
    }
  }

  lemma HeldOpen(s: St, l: Listener, p: Place)
    requires Conserved(s) && p != Closed && Count(s, l, p) > 0
    ensures l in Open(s.w)
  {
    hide Listeners, Batch;
    assert Count(s, l, Closed) == 0;
  }

  lemma LivePooled(cfg: Config, s: St, id: Id)
    requires AllOrdered(cfg, s) && IsLive(s.w.reg, id)
    ensures Addr(cfg.check, id) in s.w.pool
  {
    hide Addr, IsLive, Holder;
    assert Ordered(cfg, s, id);
    assert s.unsubs[id] == 0 && forall c :: !Holder(s, id, c);
  }

  /** Between sessions the open listeners are exactly those of the clients in the pool. */
  lemma OpenOfPooled(cfg: Config, ss: seq<St>, acts: seq<Action>, i: nat, l: Listener)
    requires SerialRun(cfg, ss, acts) && i < |ss|
    requires forall c :: c in ss[i].handlers ==> !Critical(ss[i].handlers[c].pc)
    ensures l in Open(ss[i].w) <==>
            exists id :: l in Listeners(ss[i].w.reg, id) && Addr(cfg.check, id) in ss[i].w.pool
  {
    OpenExactly(cfg, ss, acts, i, l);
    hide SerialRun, Listeners, Addr, Open;
    assert forall c :: Batch(ss[i], c) == [];
  }
}
