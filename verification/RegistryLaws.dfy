/** What the registry's operations guarantee: registration is all or nothing and is undone by
    clearing, the order in which a client's tunnels are met does not matter, and the host index
    agrees with the registered items. */
module RegistryLaws {
  import opened Prelude
  import opened DeviceId
  import opened HostPort
  import opened Registry

  // ---- The index of one item ----

  lemma {:induction false} IndexKeys(hs: seq<HostAuth>, id: Id)
    ensures Index(hs, id).Keys == Keys(hs)
  {
    if hs != [] {
      var n := |hs| - 1;
      IndexKeys(hs[..n], id);
      assert hs == hs[..n] + [hs[n]];
      assert Keys(hs) == Keys(hs[..n]) + {TrimPort(hs[n].host)};
    }
  }

  /** Entry i is the last one that lists the host k. */
  predicate LastListed(hs: seq<HostAuth>, k: string, i: nat) {
    i < |hs| && TrimPort(hs[i].host) == k && forall j :: i < j < |hs| ==> TrimPort(hs[j].host) != k
  }

  /** The auth of an indexed host is that of the last entry listing it. */
  lemma {:induction false} IndexLast(hs: seq<HostAuth>, id: Id, k: string, i: nat)
    requires LastListed(hs, k, i)
    ensures k in Index(hs, id) && Index(hs, id)[k] == HostInfo(id, hs[i].auth)
    decreases |hs|
  {
    hide TrimPort;
    var n := |hs| - 1;
    if i < n {
      assert LastListed(hs[..n], k, i);
      IndexLast(hs[..n], id, k, i);
    }
  }

  /** Each indexed host has a last entry listing it. */
  lemma {:induction false} IndexFrom(hs: seq<HostAuth>, id: Id, k: string) returns (i: nat)
    requires k in Index(hs, id)
    ensures LastListed(hs, k, i) && Index(hs, id)[k] == HostInfo(id, hs[i].auth)
    decreases |hs|
  {
    hide TrimPort;
    var n := |hs| - 1;
    if TrimPort(hs[n].host) == k {
      i := n;
    } else {
      i := IndexFrom(hs[..n], id, k);
      assert hs[i] == hs[..n][i];
    }
  }

  // ---- Registration ----

  lemma {:induction false} ConflictFree(r: Reg, hs: seq<HostAuth>, i: nat)
    requires i <= |hs|
    ensures Conflict(r, hs, i) == None <==>
            forall j :: i <= j < |hs| ==>
              (hs[j].auth.Some? ==> hs[j].auth.value.user != "") && TrimPort(hs[j].host) !in r.hosts
    decreases |hs| - i
  {
    if i < |hs| {
      ConflictFree(r, hs, i + 1);
    }
  }

  /** What is wrong with a host by itself, if anything. */
  predicate Unguarded(h: HostAuth) {
    h.auth.Some? && h.auth.value.user == ""
  }

  predicate Offends(r: Reg, h: HostAuth) {
    Unguarded(h) || TrimPort(h.host) in r.hosts
  }

  /** Entry k is the first, from entry i on, that offends. */
  predicate FirstOffender(r: Reg, hs: seq<HostAuth>, i: nat, k: nat) {
    i <= k < |hs| && Offends(r, hs[k]) && forall j :: i <= j < k ==> !Offends(r, hs[j])
  }

  /** The conflict reported is that of the first entry with one; a missing user goes before an occupied
      host, which is named as it was written. */
  lemma {:induction false} FirstConflict(r: Reg, hs: seq<HostAuth>, i: nat, e: SetError)
    requires i <= |hs|
    ensures Conflict(r, hs, i) == Some(e) <==>
            exists k: nat :: FirstOffender(r, hs, i, k) &&
                             e == if Unguarded(hs[k]) then MissingUser else Occupied(hs[k].host)
    decreases |hs| - i
  {
    hide TrimPort;
    if i < |hs| {
      FirstConflict(r, hs, i + 1, e);
      if Offends(r, hs[i]) {
        assert FirstOffender(r, hs, i, i);
        assert forall k: nat :: FirstOffender(r, hs, i, k) ==> k == i;
      } else {
        assert forall k: nat :: FirstOffender(r, hs, i, k) <==> FirstOffender(r, hs, i + 1, k);
      }
    }
  }

  /** Which error a batch is refused with: that the client is not subscribed, that it has an item, or
      the conflict of its first offending host. */
  lemma SetFaultIff(r: Reg, item: RegistryItem, id: Id, e: SetError)
    ensures SetFault(r, item, id) == Some(e) <==>
            if id !in r.items then e == NotSubscribed
            else if IsLive(r, id) then e == Overwrite
            else
              exists k: nat :: FirstOffender(r, item.hosts, 0, k) &&
                               e == if Unguarded(item.hosts[k]) then MissingUser else Occupied(item.hosts[k].host)
  {
    FirstConflict(r, item.hosts, 0, e);
    hide Conflict, FirstOffender;
  }

  /** A batch is accepted exactly when the client holds the void item, every protected host has a
      user, and no host is taken; a refused batch changes nothing, an accepted one registers all. */
  lemma SetAllOrNothing(r: Reg, item: RegistryItem, id: Id)
    ensures SetFault(r, item, id) == None <==>
            id in r.items && r.items[id] == Void &&
            forall h :: h in item.hosts ==>
              (h.auth.Some? ==> h.auth.value.user != "") && TrimPort(h.host) !in r.hosts
    ensures SetFault(r, item, id) != None ==> Set(r, item, id) == r
    ensures SetFault(r, item, id) == None ==>
            Set(r, item, id).items == r.items[id := Live(item)] &&
            Set(r, item, id).hosts.Keys == r.hosts.Keys + Keys(item.hosts)
  {
    ConflictFree(r, item.hosts, 0);
    IndexKeys(item.hosts, id);
  }

  /** Clearing a client just registered restores both maps exactly, repeated hosts or not. */
  lemma ClearUndoesSet(r: Reg, item: RegistryItem, id: Id)
    requires SetFault(r, item, id) == None
    ensures Clear(Set(r, item, id), id) == r
    ensures Cleared(Set(r, item, id), id) == Some(item)
  {
    var s := Set(r, item, id);
    ConflictFree(r, item.hosts, 0);
    IndexKeys(item.hosts, id);
    assert Keys(item.hosts) !! r.hosts.Keys;
    assert s.hosts - Keys(item.hosts) == r.hosts;
    assert s.items[id := Void] == r.items;
  }

  // ---- Order ----

  /** No host is listed twice with different credentials. */
  ghost predicate Consistent(hs: seq<HostAuth>) {
    forall g, h :: g in hs && h in hs && TrimPort(g.host) == TrimPort(h.host) ==> g.auth == h.auth
  }

  lemma IndexMember(hs: seq<HostAuth>, id: Id, h: HostAuth)
    requires Consistent(hs) && h in hs
    ensures TrimPort(h.host) in Index(hs, id)
    ensures Index(hs, id)[TrimPort(h.host)] == HostInfo(id, h.auth)
  {
    IndexKeys(hs, id);
    var k := TrimPort(h.host);
    assert k in Keys(hs);
    var i := IndexFrom(hs, id, k);
    assert hs[i] in hs;
  }

  lemma SameMembers(hs: seq<HostAuth>, ps: seq<HostAuth>)
    requires multiset(hs) == multiset(ps)
    ensures forall h :: h in hs <==> h in ps
  {
    forall h
      ensures h in hs <==> h in ps
    {
      assert h in hs <==> h in multiset(hs);
      assert h in ps <==> h in multiset(ps);
    }
  }

  lemma IndexPermuted(hs: seq<HostAuth>, ps: seq<HostAuth>, id: Id)
    requires Consistent(hs) && multiset(hs) == multiset(ps)
    ensures Index(hs, id) == Index(ps, id)
  {
    SameMembers(hs, ps);
    IndexKeys(hs, id);
    IndexKeys(ps, id);
    forall k | k in Index(hs, id)
      ensures Index(hs, id)[k] == Index(ps, id)[k]
    {
      var i := IndexFrom(hs, id, k);
      IndexMember(ps, id, hs[i]);
    }
  }

  /** The list without one of its entries. */
  lemma Without(hs: seq<HostAuth>, i: nat) returns (rest: seq<HostAuth>)
    requires i < |hs|
    ensures |rest| == |hs| - 1 && multiset(hs) == multiset(rest) + multiset{hs[i]}
    ensures forall k :: 0 <= k < i ==> rest[k] == hs[k]
  {
    var a, b := hs[..i], hs[i + 1..];
    rest := a + b;
    assert hs == a + [hs[i]] + b;
  }

  /** Two entries brought to the end of the list, in the order given. */
  lemma BringLast(hs: seq<HostAuth>, i: nat, j: nat) returns (ps: seq<HostAuth>, qs: seq<HostAuth>)
    requires i < j < |hs|
    ensures multiset(ps) == multiset(hs) && multiset(qs) == multiset(hs)
    ensures |ps| == |qs| == |hs|
    ensures ps[|hs| - 1] == hs[j] && qs[|hs| - 1] == hs[i]
  {
    var most := Without(hs, j);
    var rest := Without(most, i);
    ps, qs := rest + [hs[i], hs[j]], rest + [hs[j], hs[i]];
    hide *;
    assert multiset(ps) == multiset(rest) + multiset([hs[i], hs[j]]);
    assert multiset(qs) == multiset(rest) + multiset([hs[j], hs[i]]);
  }

  lemma InconsistentOrders(hs: seq<HostAuth>, id: Id, i: nat, j: nat)
    requires i < j < |hs|
    requires TrimPort(hs[i].host) == TrimPort(hs[j].host) && hs[i].auth != hs[j].auth
    ensures exists ps :: multiset(ps) == multiset(hs) && Index(ps, id) != Index(hs, id)
  {
    hide TrimPort;
    var ps, qs := BringLast(hs, i, j);
    var k := TrimPort(hs[i].host);
    assert Index(ps, id)[k] == HostInfo(id, hs[j].auth);
    assert Index(qs, id)[k] == HostInfo(id, hs[i].auth);
    assert Index(ps, id) != Index(hs, id) || Index(qs, id) != Index(hs, id);
  }

  /** The index does not depend on the order of the tunnels exactly when no host is listed twice
      with different credentials. */
  lemma OrderIndependentIff(hs: seq<HostAuth>, id: Id)
    ensures Consistent(hs) <==> forall ps :: multiset(ps) == multiset(hs) ==> Index(ps, id) == Index(hs, id)
  {
    if Consistent(hs) {
      forall ps | multiset(ps) == multiset(hs)
        ensures Index(ps, id) == Index(hs, id)
      {
        IndexPermuted(hs, ps, id);
      }
    } else {
      var g, h :| g in hs && h in hs && TrimPort(g.host) == TrimPort(h.host) && g.auth != h.auth;
      var i :| 0 <= i < |hs| && hs[i] == g;
      var j :| 0 <= j < |hs| && hs[j] == h;
      InconsistentOrders(hs, id, if i < j then i else j, if i < j then j else i);
    }
  }

  /** Whether a batch is accepted never depends on the order. */
  lemma AcceptanceOrderIndependent(r: Reg, it: RegistryItem, jt: RegistryItem, id: Id)
    requires multiset(it.hosts) == multiset(jt.hosts)
    ensures SetFault(r, it, id) == None <==> SetFault(r, jt, id) == None
  {
    SameMembers(it.hosts, jt.hosts);
    SetAllOrNothing(r, it, id);
    SetAllOrNothing(r, jt, id);
  }
}
