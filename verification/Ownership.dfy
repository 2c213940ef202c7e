/** Whose item a client's requests meet, over every interleaving and exactly: whether the item was
    made by the very handler whose connection is in the pool, however often the client has
    reconnected and with whatever tunnels. */
module Ownership {
  import opened Prelude
  import opened DeviceId
  import opened Registry
  import opened Pool
  import opened Lifecycle
  import opened Sessions
  import opened Registration
  import opened Serialised
  import opened Matching

  /** A client that is served has an item, made by the handler of its pooled connection. */
  predicate Owned(cfg: Config, s: St, id: Id) {
    Served(cfg, s, id) ==> MadeBy(s, id, Holding(cfg, s, id))
  }

  /** And a client that has an item is served. */
  predicate Fit(cfg: Config, s: St, id: Id) {
    Owned(cfg, s, id) && (IsLive(s.w.reg, id) ==> Served(cfg, s, id))
  }

  /** The handler's batch is about to be accepted although its connection is not, or not any more,
      the client's pool entry: it has been let go, or a successor has taken its place. */
  predicate Usurper(cfg: Config, s: St, id: Id, c: Conn) {
    c in s.handlers && s.handlers[c].id == id && s.handlers[c].pc.Adding? && !HeldBy(cfg, s, id, c) &&
    SetFault(s.w.reg, s.handlers[c].pc.item, id) == None
  }

  // ---- One step ----

  /** The pooled connection belongs to a handler of the client. */
  lemma HoldingOf(cfg: Config, s: St, id: Id)
    requires PoolSound(cfg, s) && IsPooled(cfg, s, id)
    ensures Holding(cfg, s, id) in s.handlers && s.handlers[Holding(cfg, s, id)].id == id
  {
    var c := Holding(cfg, s, id);
    assert Belongs(cfg, s, Addr(cfg.check, id), c);
    AddrInjective(cfg.check, id, s.handlers[c].id);
    hide Addr;
  }

  /** A client is served as long as its connection is kept, from the registration by the handler of
      that connection on. */
  lemma ServedAfter(cfg: Config, s: St, a: Action, id: Id)
    requires PoolSound(cfg, s) && Enabled(cfg, s, a)
    ensures Served(cfg, Next(cfg, s, a), id) <==>
            (Served(cfg, s, id) && !Lets(cfg, s, a, id)) ||
            (Registers(cfg, s, a, id) && HeldBy(cfg, s, id, a.conn))
    ensures Served(cfg, Next(cfg, s, a), id) ==>
              IsPooled(cfg, s, id) && Holding(cfg, Next(cfg, s, a), id) == Holding(cfg, s, id)
  {
    var t := Next(cfg, s, a);
    StepClient(cfg, s, a, id);
    if IsPooled(cfg, s, id) {
      HoldingOf(cfg, s, id);
      ConnectedAfter(cfg, s, a, Holding(cfg, s, id));
    }
    if Enters(cfg, s, a, id) {
      ConnectedAfter(cfg, s, a, a.conn);
      EntersUnserved(cfg, s, a);
    }
    hide Next, PoolSound, IsLive, SetFault, Addr, KeysOk;
  }

  lemma EntersUnserved(cfg: Config, s: St, a: Action)
    requires Enabled(cfg, s, a) && a.EnterPool?
    ensures !s.handlers[a.conn].pc.Connected?
  {
    hide KeysOk;
  }

  /** Exactly which steps part a served client from its handler's item: the second halves of
      unsubscriptions that find it served. */
  lemma StepOwnedIff(cfg: Config, s: St, a: Action, id: Id)
    requires PoolSound(cfg, s) && AsAsked(s) && Enabled(cfg, s, a) && Owned(cfg, s, id)
    ensures Owned(cfg, Next(cfg, s, a), id) <==> !(a == UnsubscribeItem(id) && Served(cfg, s, id))
  {
    hide PoolSound, IsPooled, IsLive, SetFault, Holding, Next, Enabled, MadeBy, InProgress, Served, Lets, KeysOk;
    var t := Next(cfg, s, a);
    ServedAfter(cfg, s, a, id);
    if Served(cfg, t, id) {
      var c := Holding(cfg, s, id);
      if Registers(cfg, s, a, id) {
        Registered(cfg, s, a, id);
        HeldIsHolding(cfg, s, id, a.conn);
        if Served(cfg, s, id) {
          OwnedLive(cfg, s, id);
        }
      } else if a != UnsubscribeItem(id) {
        StepClient(cfg, s, a, id);
        StillMade(cfg, s, a, id, c);
      } else {
        Unmade(cfg, s, id, c);
      }
    } else {
      UnservedAfter(cfg, s, a, id);
    }
  }

  lemma HeldIsHolding(cfg: Config, s: St, id: Id, c: Conn)
    ensures HeldBy(cfg, s, id, c) ==> IsPooled(cfg, s, id) && Holding(cfg, s, id) == c
    ensures Served(cfg, s, id) ==> IsPooled(cfg, s, id)
  {
    hide Addr;
  }

  lemma OwnedLive(cfg: Config, s: St, id: Id)
    requires Owned(cfg, s, id) && Served(cfg, s, id)
    ensures IsLive(s.w.reg, id)
  {
    hide MadeOf, IsPooled;
  }

  /** A removal lets go of no connection. */
  lemma UnservedAfter(cfg: Config, s: St, a: Action, id: Id)
    requires PoolSound(cfg, s) && Enabled(cfg, s, a) && !Served(cfg, Next(cfg, s, a), id)
    ensures !(a == UnsubscribeItem(id) && Served(cfg, s, id))
  {
    ServedAfter(cfg, s, a, id);
    hide Next, Enabled, PoolSound, Served, Registers, HeldBy, IsPooled;
  }

  lemma Registered(cfg: Config, s: St, a: Action, id: Id)
    requires AsAsked(s) && Enabled(cfg, s, a) && Registers(cfg, s, a, id)
    ensures MadeBy(Next(cfg, s, a), id, a.conn) && !IsLive(s.w.reg, id)
  {
    assert InProgress(s.handlers[a.conn]);
    hide InProgress, MadeBy, Next, Enabled;
    MadeNew(cfg, s, a);
    hide Conflict;
  }

  lemma StillMade(cfg: Config, s: St, a: Action, id: Id, c: Conn)
    requires Enabled(cfg, s, a) && Becomes(cfg, s, a, Next(cfg, s, a), id)
    requires MadeBy(s, id, c) && a != UnsubscribeItem(id) && !Lets(cfg, s, a, id)
    ensures MadeBy(Next(cfg, s, a), id, c)
  {
    assert IsLive(s.w.reg, id);
    hide MadeBy, Next, Enabled, IsLive, IsPooled, Registers;
    MadeStays(cfg, s, a, id, c);
  }

  lemma Unmade(cfg: Config, s: St, id: Id, c: Conn)
    requires Enabled(cfg, s, UnsubscribeItem(id))
    ensures !MadeBy(Next(cfg, s, UnsubscribeItem(id)), id, c)
  {
    LiveAfter(s.w.reg, id, id);
    hide IsLive, Unsubscribe, Listeners, KeysOk, MadeOf;
  }

  /** Exactly which steps part a client's item from its pooled connection, either way: removals that
      find the client served, and registrations by handlers that do not hold its pool entry. */
  lemma StepFitIff(cfg: Config, s: St, a: Action, id: Id)
    requires PoolSound(cfg, s) && AsAsked(s) && Enabled(cfg, s, a) && Fit(cfg, s, id)
    ensures Fit(cfg, Next(cfg, s, a), id) <==>
            !(a == UnsubscribeItem(id) && Served(cfg, s, id)) && !(a.SetItem? && Usurper(cfg, s, id, a.conn))
  {
    StepOwnedIff(cfg, s, a, id);
    StepClient(cfg, s, a, id);
    ServedAfter(cfg, s, a, id);
    ServedLive(cfg, s, id);
    UsurperRegisters(cfg, s, a, id);
    hide PoolSound, AsAsked, IsPooled, IsLive, Registers, Holding, Next, Enabled, HeldBy, Served, Usurper,
      Owned, Lets;
  }

  lemma ServedLive(cfg: Config, s: St, id: Id)
    requires Fit(cfg, s, id)
    ensures Served(cfg, s, id) <==> IsLive(s.w.reg, id)
    ensures Served(cfg, s, id) ==> IsPooled(cfg, s, id)
  {
    hide IsPooled, IsLive, MadeOf;
  }

  lemma UsurperRegisters(cfg: Config, s: St, a: Action, id: Id)
    requires Enabled(cfg, s, a)
    ensures Registers(cfg, s, a, id) ==> !IsLive(s.w.reg, id)
    ensures a.SetItem? && Usurper(cfg, s, id, a.conn) <==> Registers(cfg, s, a, id) && !HeldBy(cfg, s, id, a.conn)
  {
    hide Conflict, HeldBy, KeysOk;
  }

  // ---- Whole runs ----

  /** Over every run, client by client: whenever the client has been served, its item was made by the
      handler of its pooled connection, exactly if no removal came to its second half with the
      client served. */
  lemma {:induction false} RunOwnedIff(cfg: Config, ss: seq<St>, acts: seq<Action>, i: nat, id: Id)
    requires Run(cfg, ss, acts) && i < |ss|
    ensures (forall j :: 0 <= j <= i ==> Owned(cfg, ss[j], id)) <==>
            (forall j :: 0 <= j < i ==> !(acts[j] == UnsubscribeItem(id) && Served(cfg, ss[j], id)))
    decreases i
  {
    hide Next, Enabled, PoolSound, AsAsked, Served, Owned;
    if i == 0 {
      InitFit(cfg, id);
    } else {
      var n := i - 1;
      RunOwnedIff(cfg, ss, acts, n, id);
      RunSound(cfg, ss, acts, n);
      RunAsAsked(cfg, ss, acts, n);
      assert Steps(cfg, ss[n], acts[n], ss[n + 1]);
      if Owned(cfg, ss[n], id) {
        StepOwnedIff(cfg, ss[n], acts[n], id);
      }
    }
  }

  lemma InitFit(cfg: Config, id: Id)
    ensures Owned(cfg, INIT, id) && Fit(cfg, INIT, id)
  {
    hide Addr;
  }

  /** Over every run, client by client: the client has always had an item exactly while served, and
      made by the handler serving it, exactly if no removal found it served and no handler without
      its pool entry registered for it. */
  lemma {:induction false} RunFitIff(cfg: Config, ss: seq<St>, acts: seq<Action>, i: nat, id: Id)
    requires Run(cfg, ss, acts) && i < |ss|
    ensures (forall j :: 0 <= j <= i ==> Fit(cfg, ss[j], id)) <==>
            (forall j :: 0 <= j < i ==>
               !(acts[j] == UnsubscribeItem(id) && Served(cfg, ss[j], id)) &&
               !(acts[j].SetItem? && Usurper(cfg, ss[j], id, acts[j].conn)))
    decreases i
  {
    hide Next, Enabled, PoolSound, AsAsked, Served, Fit, Usurper;
    if i == 0 {
      InitFit(cfg, id);
    } else {
      var n := i - 1;
      RunFitIff(cfg, ss, acts, n, id);
      RunSound(cfg, ss, acts, n);
      RunAsAsked(cfg, ss, acts, n);
      assert Steps(cfg, ss[n], acts[n], ss[n + 1]);
      if Fit(cfg, ss[n], id) {
        StepFitIff(cfg, ss[n], acts[n], id);
      }
    }
  }
}
