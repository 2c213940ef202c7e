/** The host index against the registered items: what it means for them to agree, which operations
    keep them in agreement, and exactly when removal does not. */
module HostIndex {
  import opened Prelude
  import opened DeviceId
  import opened HostPort
  import opened Auth
  import opened Registry
  import opened RegistryLaws

  /** The index entries a client is entitled to. */
  function Listed(r: Reg, id: Id): (m: map<string, HostInfo>)
    ensures forall k :: k in m ==> m[k].id == id
  {
    if IsLive(r, id) then Index(r.items[id].item.hosts, id) else map[]
  }

  /** The index holds exactly the entries of the live items: each key is listed by the client it
      names, with that client's credentials, and each listed host is indexed to its own client. */
  ghost predicate Agrees(r: Reg) {
    (forall k :: k in r.hosts ==> k in Listed(r, r.hosts[k].id)) &&
    (forall id, k :: k in Listed(r, id) ==> k in r.hosts && r.hosts[k] == Listed(r, id)[k])
  }

  /** Every protected host can be reached by some request. */
  ghost predicate Guarded(r: Reg) {
    forall k :: k in r.hosts ==> Presentable(r.hosts[k].auth)
  }

  /** What a lookup returns, in terms of the items alone: a client whose live item lists the host,
      with the credentials of the last entry that does. */
  lemma ResolvedIff(r: Reg, hostPort: string, info: HostInfo)
    requires Agrees(r)
    ensures Subscriber(r, hostPort) == Some(info) <==>
            IsLive(r, info.id) &&
            exists i: nat :: LastListed(r.items[info.id].item.hosts, TrimPort(hostPort), i) &&
                        r.items[info.id].item.hosts[i].auth == info.auth
  {
    hide TrimPort, Index;
    var k := TrimPort(hostPort);
    if Subscriber(r, hostPort) == Some(info) {
      assert k in Listed(r, info.id);
      var i := IndexFrom(r.items[info.id].item.hosts, info.id, k);
    }
    if IsLive(r, info.id) {
      var hs := r.items[info.id].item.hosts;
      if i: nat :| LastListed(hs, k, i) && hs[i].auth == info.auth {
        IndexLast(hs, info.id, k, i);
        assert k in Listed(r, info.id);
      }
    }
  }

  /** No two clients list the same host. */
  lemma NoSharedHost(r: Reg, a: Id, b: Id, k: string)
    requires Agrees(r) && k in Listed(r, a) && k in Listed(r, b)
    ensures a == b
  {
    assert r.hosts[k].id == a && r.hosts[k].id == b;
  }

  lemma EmptyAgrees()
    ensures Agrees(EMPTY) && Guarded(EMPTY)
  {
  }

  lemma SubscribeAgrees(r: Reg, id: Id)
    requires Agrees(r)
    ensures Agrees(Subscribe(r, id))
  {
    hide Index;
    forall x
      ensures Listed(Subscribe(r, id), x) == Listed(r, x)
    {
    }
  }

  lemma SetListed(r: Reg, item: RegistryItem, id: Id, x: Id)
    requires SetFault(r, item, id) == None
    ensures Listed(Set(r, item, id), x) == if x == id then Index(item.hosts, id) else Listed(r, x)
  {
  }

  lemma SetAgrees(r: Reg, item: RegistryItem, id: Id)
    requires Agrees(r)
    ensures Agrees(Set(r, item, id))
  {
    if SetFault(r, item, id) == None {
      SetAllOrNothing(r, item, id);
      IndexKeys(item.hosts, id);
      assert Index(item.hosts, id).Keys !! r.hosts.Keys;
      hide Index, TrimPort, Keys;
      forall x
        ensures Listed(Set(r, item, id), x) == if x == id then Index(item.hosts, id) else Listed(r, x)
      {
        SetListed(r, item, id, x);
      }
      AddedAgrees(r, Set(r, item, id), Index(item.hosts, id), id);
    }
  }

  lemma AddedAgrees(r: Reg, s: Reg, added: map<string, HostInfo>, id: Id)
    requires Agrees(r)
    requires Listed(r, id) == map[]
    requires added.Keys !! r.hosts.Keys && s.hosts == r.hosts + added
    requires forall k :: k in added ==> added[k].id == id
    requires forall x :: Listed(s, x) == if x == id then added else Listed(r, x)
    ensures Agrees(s)
  {
    hide Listed;
  }

  lemma ClearListed(r: Reg, id: Id, x: Id)
    ensures Listed(Clear(r, id), x) == if x == id then map[] else Listed(r, x)
  {
  }

  lemma UnsubscribeListed(r: Reg, id: Id, x: Id)
    ensures Listed(Unsubscribe(r, id), x) == if x == id then map[] else Listed(r, x)
  {
  }

  /** One client's entries leave the items, and some keys leave the index. */
  ghost predicate Dropped(r: Reg, s: Reg, gone: set<string>, id: Id) {
    s.hosts == r.hosts - gone &&
    forall x :: Listed(s, x) == if x == id then map[] else Listed(r, x)
  }

  lemma DroppedKey(r: Reg, s: Reg, gone: set<string>, id: Id, k: string)
    requires Agrees(r) && Dropped(r, s, gone, id) && k in r.hosts
    ensures k in Listed(r, id) <==> r.hosts[k].id == id
    ensures k in Listed(s, r.hosts[k].id) <==> k !in Listed(r, id)
  {
    hide Listed;
    assert k in Listed(r, r.hosts[k].id);
  }

  lemma DroppedIf(r: Reg, s: Reg, gone: set<string>, id: Id)
    requires Agrees(r) && Dropped(r, s, gone, id) && Listed(r, id).Keys == gone * r.hosts.Keys
    ensures Agrees(s)
  {
    hide Listed;
    forall k | k in s.hosts
      ensures k in Listed(s, s.hosts[k].id)
    {
      DroppedKey(r, s, gone, id, k);
      assert k in Listed(r, id) <==> k in gone * r.hosts.Keys;
    }
    forall x, k | k in Listed(s, x)
      ensures k in s.hosts && s.hosts[k] == Listed(s, x)[k]
    {
      assert x != id && k in Listed(r, x);
      assert r.hosts[k].id == x;
      DroppedKey(r, s, gone, id, k);
      assert k in Listed(r, id) <==> k in gone * r.hosts.Keys;
    }
  }

  lemma DroppedOnlyIf(r: Reg, s: Reg, gone: set<string>, id: Id)
    requires Agrees(r) && Dropped(r, s, gone, id) && Agrees(s)
    ensures Listed(r, id).Keys == gone * r.hosts.Keys
  {
    hide Listed;
    forall k
      ensures k in Listed(r, id).Keys <==> k in gone * r.hosts.Keys
    {
      if k in r.hosts {
        DroppedKey(r, s, gone, id, k);
        assert k in s.hosts ==> k in Listed(s, s.hosts[k].id);
        assert k in Listed(s, r.hosts[k].id) ==> k in s.hosts;
      }
    }
  }

  /** The two still agree exactly when the keys gone are that client's, all of them and no other's. */
  lemma DroppedAgrees(r: Reg, s: Reg, gone: set<string>, id: Id)
    requires Agrees(r) && Dropped(r, s, gone, id)
    ensures Agrees(s) <==> Listed(r, id).Keys == gone * r.hosts.Keys
  {
    hide Agrees, Listed, Dropped;
    if Agrees(s) {
      DroppedOnlyIf(r, s, gone, id);
    }
    if Listed(r, id).Keys == gone * r.hosts.Keys {
      DroppedIf(r, s, gone, id);
    }
  }

  lemma ClearAgrees(r: Reg, id: Id)
    requires Agrees(r)
    ensures Agrees(Clear(r, id))
  {
    hide TrimPort, Index, Keys, Conflict;
    if IsLive(r, id) {
      var hs := r.items[id].item.hosts;
      IndexKeys(hs, id);
      forall k | k in Keys(hs)
        ensures k in r.hosts
      {
        assert k in Listed(r, id);
      }
      forall x
        ensures Listed(Clear(r, id), x) == if x == id then map[] else Listed(r, x)
      {
        ClearListed(r, id, x);
      }
      DroppedAgrees(r, Clear(r, id), Keys(hs), id);
    }
  }

  /** Clearing a client takes away exactly the hosts indexed to it. */
  lemma ClearedHosts(r: Reg, id: Id)
    requires Agrees(r)
    ensures Clear(r, id).hosts == map k | k in r.hosts && r.hosts[k].id != id :: r.hosts[k]
  {
    hide Agrees;
    ListedHosts(r, id);
    if IsLive(r, id) {
      IndexKeys(r.items[id].item.hosts, id);
      hide Index, Keys, TrimPort;
      var c := Clear(r, id).hosts;
      assert forall k :: k in c <==> k in r.hosts && k !in Listed(r, id);
      assert c == map k | k in r.hosts && r.hosts[k].id != id :: r.hosts[k];
    } else {
      assert r.hosts == map k | k in r.hosts && r.hosts[k].id != id :: r.hosts[k];
    }
  }

  lemma ListedHosts(r: Reg, id: Id)
    requires Agrees(r)
    ensures forall k :: k in Listed(r, id) <==> k in r.hosts && r.hosts[k].id == id
  {
  }

  lemma NoHostsOfUnlisted(r: Reg, id: Id)
    requires Agrees(r) && Listed(r, id) == map[]
    ensures forall k :: k in r.hosts ==> r.hosts[k].id != id
  {
  }

  // ---- Removal ----

  /** Every indexed form of the client's hosts was also written that way, and none of its hosts as
      written is another client's indexed form. */
  predicate Clean(r: Reg, id: Id) {
    IsLive(r, id) ==>
      var hs := r.items[id].item.hosts;
      Keys(hs) <= RawHosts(hs) &&
      forall h :: h in RawHosts(hs) && h in r.hosts ==> r.hosts[h].id == id
  }

  /** Removing a client keeps the index and the items in agreement exactly when its item is clean:
      removal deletes the hosts as written, while the index holds them trimmed. */
  lemma UnsubscribeAgreesIff(r: Reg, id: Id)
    requires Agrees(r)
    ensures Agrees(Unsubscribe(r, id)) <==> Clean(r, id)
  {
    forall x
      ensures Listed(Unsubscribe(r, id), x) == if x == id then map[] else Listed(r, x)
    {
      UnsubscribeListed(r, id, x);
    }
    if IsLive(r, id) {
      var hs := r.items[id].item.hosts;
      IndexKeys(hs, id);
      DroppedAgrees(r, Unsubscribe(r, id), RawHosts(hs), id);
      hide Keys, RawHosts, Index, TrimPort;
      CleanIff(r, id, Keys(hs), RawHosts(hs));
    } else {
      DroppedAgrees(r, Unsubscribe(r, id), {}, id);
    }
  }

  lemma CleanIff(r: Reg, id: Id, keys: set<string>, raw: set<string>)
    requires Agrees(r) && Listed(r, id).Keys == keys
    ensures keys == raw * r.hosts.Keys <==>
            keys <= raw && forall h :: h in raw && h in r.hosts ==> r.hosts[h].id == id
  {
    hide Listed;
    if keys == raw * r.hosts.Keys {
      assert forall h :: h in raw && h in r.hosts ==> h in Listed(r, id);
    }
    if keys <= raw && forall h :: h in raw && h in r.hosts ==> r.hosts[h].id == id {
      forall h
        ensures h in keys <==> h in raw * r.hosts.Keys
      {
        if h in keys {
          assert h in Listed(r, id);
        }
        if h in raw && h in r.hosts {
          assert h in Listed(r, r.hosts[h].id);
        }
      }
    }
  }

  /** Hosts that trimming leaves alone are always removed cleanly. */
  lemma FixedIsClean(r: Reg, id: Id)
    requires Agrees(r)
    requires IsLive(r, id) ==> forall h :: h in r.items[id].item.hosts ==> TrimPort(h.host) == h.host
    ensures Clean(r, id)
  {
    hide TrimPort;
    if IsLive(r, id) {
      var hs := r.items[id].item.hosts;
      IndexKeys(hs, id);
      assert Keys(hs) == RawHosts(hs);
      forall h | h in RawHosts(hs)
        ensures h in r.hosts && r.hosts[h].id == id
      {
        assert h in Listed(r, id);
      }
    }
  }

  /** What removal leaves wrong, route by route: a host stays routed to the client that is gone
      exactly when it is the trimmed form of some of its hosts and was not itself written, and
      another client loses a host it lists exactly when that was written by the client removed. */
  lemma RemovalDamage(r: Reg, id: Id, k: string, x: Id)
    requires Agrees(r) && IsLive(r, id)
    ensures var hs, s := r.items[id].item.hosts, Unsubscribe(r, id);
            id !in s.items &&
            (k in s.hosts && s.hosts[k].id == id <==> k in Keys(hs) && k !in RawHosts(hs)) &&
            (x != id && k in Listed(r, x) ==> k in Listed(s, x) && (k !in s.hosts <==> k in RawHosts(hs)))
  {
    hide TrimPort, Index, Keys, RawHosts;
    IndexKeys(r.items[id].item.hosts, id);
    UnsubscribeListed(r, id, x);
    ListedHosts(r, id);
    assert k in Listed(r, x) ==> k in r.hosts && r.hosts[k].id == x;
    hide Agrees;
  }

  /** A registry on which both happen: one client wrote a:80, another [a:80]:90. */
  lemma UncleanRemoval(a: Id, b: Id)
    requires a != b
    ensures var ia := RegistryItem([HostAuth("a:80", None)], []);
            var ib := RegistryItem([HostAuth("[a:80]:90", None)], []);
            var r0 := Subscribe(Subscribe(EMPTY, a), b);
            SetFault(r0, ia, a) == None && SetFault(Set(r0, ia, a), ib, b) == None &&
            var s := Unsubscribe(Set(Set(r0, ia, a), ib, b), a);
            "a" in s.hosts && s.hosts["a"].id == a && a !in s.items && "a:80" !in s.hosts
  {
    TrimPortNotIdempotent();
    hide TrimPort;
    var ha, hb := HostAuth("a:80", None), HostAuth("[a:80]:90", None);
    var ia, ib := RegistryItem([ha], []), RegistryItem([hb], []);
    var r0 := Subscribe(Subscribe(EMPTY, a), b);
    assert Index([ha], a) == map["a" := HostInfo(a, None)] by {
      assert [ha][..0] == [];
    }
    assert Index([hb], b) == map["a:80" := HostInfo(b, None)] by {
      assert [hb][..0] == [];
    }
    var r1 := Set(r0, ia, a);
    assert Conflict(r0, [ha], 1) == None;
    assert SetFault(r0, ia, a) == None;
    assert r1.hosts == map[] + map["a" := HostInfo(a, None)] == map["a" := HostInfo(a, None)];
    assert "a:80" !in r1.hosts;
    var r2 := Set(r1, ib, b);
    assert RawHosts([ha]) == {"a:80"};
  }

  // ---- Credentials ----

  /** Credentials as configuration produces them: the user stops at the first colon. */
  predicate Configured(hs: seq<HostAuth>) {
    forall h :: h in hs && h.auth.Some? ==> ':' !in h.auth.value.user
  }

  /** Every operation keeps the index guarded, whatever is removed and however. */
  lemma OperationsGuarded(r: Reg, item: RegistryItem, id: Id)
    requires Guarded(r) && Configured(item.hosts)
    ensures Guarded(Subscribe(r, id)) && Guarded(Clear(r, id)) && Guarded(Unsubscribe(r, id))
    ensures Guarded(Set(r, item, id))
  {
    hide TrimPort;
    var s := Set(r, item, id);
    if SetFault(r, item, id) == None {
      SetAllOrNothing(r, item, id);
      forall k | k in s.hosts
        ensures Presentable(s.hosts[k].auth)
      {
        if k in Index(item.hosts, id) {
          var i := IndexFrom(item.hosts, id, k);
          assert item.hosts[i] in item.hosts;
        }
      }
    }
  }
}
