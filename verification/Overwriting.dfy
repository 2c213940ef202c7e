/** When a handler meets the overwrite error, over every interleaving and exactly: what the run did
    to the client's item since the handler's connection entered the pool. */
module Overwriting {
  import opened Prelude
  import opened DeviceId
  import opened Registry
  import opened Pool
  import opened Lifecycle
  import opened Sessions
  import opened Registration
  import opened Serialised
  import opened Matching
  import opened Ownership

  /** The step takes the client's item away, if it has one. */
  predicate Clears(cfg: Config, s: St, a: Action, id: Id) {
    Enabled(cfg, s, a) && (a == UnsubscribeItem(id) || (Lets(cfg, s, a, id) && IsPooled(cfg, s, id)))
  }

  /** The step gives the client an item. */
  predicate Makes(cfg: Config, s: St, a: Action, id: Id) {
    Enabled(cfg, s, a) && Registers(cfg, s, a, id)
  }

  /** Nothing takes the client's item away from step i on, up to step n. */
  ghost predicate Uncleared(cfg: Config, ss: seq<St>, acts: seq<Action>, id: Id, i: nat, n: nat)
    requires |ss| == |acts| + 1 && n < |ss|
  {
    forall m :: i <= m < n ==> !Clears(cfg, ss[m], acts[m], id)
  }

  /** A registration among the steps from e up to n that nothing has taken away again. */
  ghost predicate Standing(cfg: Config, ss: seq<St>, acts: seq<Action>, id: Id, e: nat, n: nat)
    requires |ss| == |acts| + 1 && n < |ss|
  {
    exists k :: e <= k < n && Makes(cfg, ss[k], acts[k], id) && Uncleared(cfg, ss, acts, id, k + 1, n)
  }

  lemma LiveStep(cfg: Config, ss: seq<St>, acts: seq<Action>, id: Id, n: nat)
    requires Run(cfg, ss, acts) && n < |acts|
    ensures IsLive(ss[n + 1].w.reg, id) <==>
            Makes(cfg, ss[n], acts[n], id) || (IsLive(ss[n].w.reg, id) && !Clears(cfg, ss[n], acts[n], id))
  {
    RunSound(cfg, ss, acts, n);
    assert Steps(cfg, ss[n], acts[n], ss[n + 1]);
    hide Run;
    StepClient(cfg, ss[n], acts[n], id);
    hide Next, Enabled, PoolSound, IsPooled, IsLive, Lets, Registers, Holding;
  }

  /** A client has an item exactly if it had one and kept it, or a registration stands. */
  lemma {:induction false} LiveIff(cfg: Config, ss: seq<St>, acts: seq<Action>, id: Id, e: nat, n: nat)
    requires Run(cfg, ss, acts) && e <= n < |ss|
    ensures IsLive(ss[n].w.reg, id) <==>
            (IsLive(ss[e].w.reg, id) && Uncleared(cfg, ss, acts, id, e, n)) || Standing(cfg, ss, acts, id, e, n)
    decreases n
  {
    hide Steps;
    assert |ss| == |acts| + 1;
    hide IsLive, Makes, Clears, Run;
    if e < n {
      hide *;
      var m := n - 1;
      LiveIff(cfg, ss, acts, id, e, m);
      LiveStep(cfg, ss, acts, id, m);
      StandingStep(cfg, ss, acts, id, e, m);
      UnclearedStep(cfg, ss, acts, id, e, m);
    }
  }

  lemma UnclearedStep(cfg: Config, ss: seq<St>, acts: seq<Action>, id: Id, e: nat, n: nat)
    requires |ss| == |acts| + 1 && e <= n < |acts|
    ensures Uncleared(cfg, ss, acts, id, e, n + 1) <==>
            Uncleared(cfg, ss, acts, id, e, n) && !Clears(cfg, ss[n], acts[n], id)
  {
    hide Clears;
  }

  lemma StandingStep(cfg: Config, ss: seq<St>, acts: seq<Action>, id: Id, e: nat, n: nat)
    requires |ss| == |acts| + 1 && e <= n < |acts|
    ensures Standing(cfg, ss, acts, id, e, n + 1) <==>
            Makes(cfg, ss[n], acts[n], id) ||
            (Standing(cfg, ss, acts, id, e, n) && !Clears(cfg, ss[n], acts[n], id))
  {
    hide Makes, Clears;
    if Makes(cfg, ss[n], acts[n], id) {
      assert Uncleared(cfg, ss, acts, id, n + 1, n + 1);
    }
    if Standing(cfg, ss, acts, id, e, n) && !Clears(cfg, ss[n], acts[n], id) {
      var k :| e <= k < n && Makes(cfg, ss[k], acts[k], id) && Uncleared(cfg, ss, acts, id, k + 1, n);
      assert Uncleared(cfg, ss, acts, id, k + 1, n + 1);
    }
    if Standing(cfg, ss, acts, id, e, n + 1) && !Makes(cfg, ss[n], acts[n], id) {
      var k :| e <= k < n + 1 && Makes(cfg, ss[k], acts[k], id) && Uncleared(cfg, ss, acts, id, k + 1, n + 1);
      assert k < n && Uncleared(cfg, ss, acts, id, k + 1, n);
      assert !Clears(cfg, ss[n], acts[n], id);
    }
  }

  // ---- A handler's own entry ----

  lemma NewlyEntered(cfg: Config, s: St, a: Action, c: Conn)
    requires Enabled(cfg, s, a)
    requires c in Next(cfg, s, a).handlers && MayBePooled(Next(cfg, s, a).handlers[c].pc)
    ensures c in s.handlers && s.handlers[c].id == Next(cfg, s, a).handlers[c].id
    ensures MayBePooled(s.handlers[c].pc) || (a.EnterPool? && a.conn == c && Enters(cfg, s, a, s.handlers[c].id))
  {
    if OfHandler(a) {
      HandlerSteps(cfg, s, a);
      EntersOnly(cfg, s, a);
      hide Next, Enabled, Enters, MayBePooled;
      assert c != a.conn ==> c in s.handlers && Next(cfg, s, a).handlers[c] == s.handlers[c];
    } else {
      OutsideHandlers(cfg, s, a);
      if c !in s.handlers {
        AcceptedEarly(cfg, s, a, c);
      }
      hide Next, Enabled, InProgress, MayBePooled;
    }
  }

  lemma EntersOnly(cfg: Config, s: St, a: Action)
    requires Enabled(cfg, s, a) && OfHandler(a)
    ensures a.conn in Next(cfg, s, a).handlers
    ensures MayBePooled(Next(cfg, s, a).handlers[a.conn].pc) ==>
              MayBePooled(s.handlers[a.conn].pc) || (a.EnterPool? && Enters(cfg, s, a, s.handlers[a.conn].id))
  {
    hide DeleteConn, Set, SetFault, Subscribe, Tunnels.AddTunnel, KeysOk;
  }

  lemma AcceptedEarly(cfg: Config, s: St, a: Action, c: Conn)
    requires Enabled(cfg, s, a) && !OfHandler(a) && c in Next(cfg, s, a).handlers && c !in s.handlers
    ensures !MayBePooled(Next(cfg, s, a).handlers[c].pc)
  {
    hide Close, DeleteConn, Unsubscribe, Listeners, KeysOk;
  }

  /** The step at which a handler's connection entered the pool. */
  lemma {:induction false} EntryOf(cfg: Config, ss: seq<St>, acts: seq<Action>, n: nat, c: Conn) returns (e: nat)
    requires Run(cfg, ss, acts) && n < |ss| && c in ss[n].handlers && MayBePooled(ss[n].handlers[c].pc)
    ensures e < n && Enabled(cfg, ss[e], acts[e]) && acts[e].EnterPool? && acts[e].conn == c
    ensures Enters(cfg, ss[e], acts[e], ss[n].handlers[c].id)
    decreases n
  {
    hide Next, Enabled, Enters, MayBePooled;
    assert n > 0 by {
      assert ss[0] == INIT;
    }
    assert Steps(cfg, ss[n - 1], acts[n - 1], ss[n]);
    NewlyEntered(cfg, ss[n - 1], acts[n - 1], c);
    if MayBePooled(ss[n - 1].handlers[c].pc) {
      e := EntryOf(cfg, ss, acts, n - 1, c);
    } else {
      e := n - 1;
    }
  }

  lemma {:induction false} ConnectedRun(cfg: Config, ss: seq<St>, acts: seq<Action>, k: nat, n: nat, c: Conn)
    requires Run(cfg, ss, acts) && k <= n < |ss| && c in ss[k].handlers && ss[k].handlers[c].pc.Connected?
    ensures c in ss[n].handlers && ss[n].handlers[c].pc.Connected?
    decreases n
  {
    hide Next, Enabled;
    if k < n {
      ConnectedRun(cfg, ss, acts, k, n - 1, c);
      assert Steps(cfg, ss[n - 1], acts[n - 1], ss[n]);
      ConnectedStays(cfg, ss[n - 1], acts[n - 1], c);
    }
  }

  // ---- The overwrite error ----

  lemma OverwriteLive(r: Reg, item: RegistryItem, id: Id)
    ensures SetFault(r, item, id) == Some(Overwrite) <==> IsLive(r, id)
  {
    ConflictKind(r, item.hosts, 0);
    hide Conflict;
  }

  /** After a connection has entered the pool, its client has an item exactly if it had one that stood
      without a connection. */
  lemma EntryLive(cfg: Config, ss: seq<St>, acts: seq<Action>, e: nat, id: Id)
    requires Run(cfg, ss, acts) && e < |acts|
    requires Enabled(cfg, ss[e], acts[e]) && Enters(cfg, ss[e], acts[e], id)
    ensures IsLive(ss[e + 1].w.reg, id) <==> Orphan(cfg, ss[e], id)
  {
    LiveStep(cfg, ss, acts, id, e);
    hide Run, Enabled, IsLive, IsPooled;
  }

  /** Over every run: a handler's registration meets the overwrite error exactly if an item stood
      without a connection when the handler's connection entered the pool, and still stands, or if
      another handler has registered for the client since then, and that registration stands.  A
      handler that did so while this one's connection was the pool entry had lost the entry itself. */
  lemma OverwriteIff(cfg: Config, ss: seq<St>, acts: seq<Action>, n: nat) returns (e: nat)
    requires Run(cfg, ss, acts) && n < |acts| && acts[n].SetItem? && Enabled(cfg, ss[n], acts[n])
    ensures e < n && Enabled(cfg, ss[e], acts[e]) && acts[e].EnterPool? && acts[e].conn == acts[n].conn
    ensures Enters(cfg, ss[e], acts[e], ss[n].handlers[acts[n].conn].id)
    ensures var c, h := acts[n].conn, ss[n].handlers[acts[n].conn];
            SetFault(ss[n].w.reg, h.pc.item, h.id) == Some(Overwrite) <==>
            (Orphan(cfg, ss[e], h.id) && Uncleared(cfg, ss, acts, h.id, e + 1, n)) ||
            Standing(cfg, ss, acts, h.id, e + 1, n)
    ensures var c, id := acts[n].conn, ss[n].handlers[acts[n].conn].id;
            forall k :: e < k < n && Makes(cfg, ss[k], acts[k], id) ==>
              acts[k].conn != c && (HeldBy(cfg, ss[k], id, c) ==> Usurper(cfg, ss[k], id, acts[k].conn))
  {
    var c, h := acts[n].conn, ss[n].handlers[acts[n].conn];
    e := EntryOf(cfg, ss, acts, n, c);
    EntryLive(cfg, ss, acts, e, h.id);
    LiveIff(cfg, ss, acts, h.id, e + 1, n);
    OverwriteLive(ss[n].w.reg, h.pc.item, h.id);
    forall k | e < k < n && Makes(cfg, ss[k], acts[k], h.id)
      ensures acts[k].conn != c && (HeldBy(cfg, ss[k], h.id, c) ==> Usurper(cfg, ss[k], h.id, acts[k].conn))
    {
      OtherRegisters(cfg, ss, acts, k, n, h.id);
    }
    hide Run, Enters, IsLive, Orphan, SetFault, Makes, Uncleared, Standing, HeldBy, Usurper;
  }

  lemma OtherRegisters(cfg: Config, ss: seq<St>, acts: seq<Action>, k: nat, n: nat, id: Id)
    requires Run(cfg, ss, acts) && k < n < |acts| && Makes(cfg, ss[k], acts[k], id)
    requires acts[n].SetItem? && Enabled(cfg, ss[n], acts[n])
    ensures acts[k].conn != acts[n].conn
    ensures HeldBy(cfg, ss[k], id, acts[n].conn) ==> Usurper(cfg, ss[k], id, acts[k].conn)
  {
    var d := acts[k].conn;
    assert Steps(cfg, ss[k], acts[k], ss[k + 1]);
    ConnectedAfter(cfg, ss[k], acts[k], d);
    UsurperRegisters(cfg, ss[k], acts[k], id);
    if d == acts[n].conn {
      ConnectedRun(cfg, ss, acts, k + 1, n, d);
    }
    hide Run, Next, SetFault;
  }
}
