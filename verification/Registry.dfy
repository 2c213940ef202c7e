/** The server's registry: which clients are subscribed, what each has registered, and the index
    from host names to clients.

    The functions say what each operation does to the two maps; the class carries the operations
    out in place, loop by loop.  A client that is subscribed without tunnels holds the one shared
    void item, which the program recognises by reference: here it is the constructor Void, which
    no registered item equals, not even an empty one. */
module Registry {
  import opened Prelude
  import opened DeviceId
  import opened HostPort
  import opened Auth

  type Listener = nat

  datatype HostAuth = HostAuth(host: string, auth: Option<Auth>)

  datatype RegistryItem = RegistryItem(hosts: seq<HostAuth>, listeners: seq<Listener>)

  datatype Entry = Void | Live(item: RegistryItem)

  datatype HostInfo = HostInfo(id: Id, auth: Option<Auth>)

  datatype Reg = Reg(items: map<Id, Entry>, hosts: map<string, HostInfo>)

  datatype SetError = NotSubscribed | Overwrite | MissingUser | Occupied(host: string)

  const EMPTY: Reg := Reg(map[], map[])

  // ---- Operations ----

  function Subscribe(r: Reg, id: Id): Reg {
    if id in r.items then r else r.(items := r.items[id := Void])
  }

  function Subscriber(r: Reg, hostPort: string): Option<HostInfo> {
    var k := TrimPort(hostPort);
    if k in r.hosts then Some(r.hosts[k]) else None
  }

  predicate IsLive(r: Reg, id: Id) {
    id in r.items && r.items[id].Live?
  }

  /** The part of the host index that one client's hosts make up: for a repeated host the last
      entry counts. */
  function Index(hs: seq<HostAuth>, id: Id): (m: map<string, HostInfo>)
    ensures forall k :: k in m ==> m[k].id == id
  {
    if hs == [] then map[]
    else
      var h := hs[|hs| - 1];
      Index(hs[..|hs| - 1], id)[TrimPort(h.host) := HostInfo(id, h.auth)]
  }

  function Keys(hs: seq<HostAuth>): set<string> {
    set h | h in hs :: TrimPort(h.host)
  }

  function RawHosts(hs: seq<HostAuth>): set<string> {
    set h | h in hs :: h.host
  }

  /** The first reason, from entry i on, why the hosts cannot be registered. */
  function Conflict(r: Reg, hs: seq<HostAuth>, i: nat): Option<SetError>
    requires i <= |hs|
    decreases |hs| - i
  {
    if i == |hs| then None
    else if hs[i].auth.Some? && hs[i].auth.value.user == "" then Some(MissingUser)
    else if TrimPort(hs[i].host) in r.hosts then Some(Occupied(hs[i].host))
    else Conflict(r, hs, i + 1)
  }

  function SetFault(r: Reg, item: RegistryItem, id: Id): Option<SetError> {
    if id !in r.items then Some(NotSubscribed)
    else if r.items[id] != Void then Some(Overwrite)
    else Conflict(r, item.hosts, 0)
  }

  function Set(r: Reg, item: RegistryItem, id: Id): Reg {
    if SetFault(r, item, id) != None then r
    else Reg(r.items[id := Live(item)], r.hosts + Index(item.hosts, id))
  }

  function Clear(r: Reg, id: Id): Reg {
    if !IsLive(r, id) then r
    else Reg(r.items[id := Void], r.hosts - Keys(r.items[id].item.hosts))
  }

  function Cleared(r: Reg, id: Id): Option<RegistryItem> {
    if IsLive(r, id) then Some(r.items[id].item) else None
  }

  /** Removal deletes the hosts as they were written, not as they were indexed. */
  function Unsubscribe(r: Reg, id: Id): Reg {
    if id !in r.items then r
    else Reg(r.items - {id},
             match r.items[id]
             case Void => r.hosts
             case Live(item) => r.hosts - RawHosts(item.hosts))
  }

  // ---- The same operations in place ----

  class ClientRegistry {
    var items: map<Id, Entry>
    var hosts: map<string, HostInfo>

    function State(): Reg
      reads this
    {
      Reg(items, hosts)
    }

    constructor ()
      ensures State() == EMPTY
    {
      items, hosts := map[], map[];
    }

    method DoSubscribe(id: Id)
      modifies this
      ensures State() == Subscribe(old(State()), id)
    {
      if id in items {
        return;
      }
      items := items[id := Void];
    }

    method IsSubscribed(id: Id) returns (ok: bool)
      ensures ok <==> id in items
    {
      ok := id in items;
    }

    method DoSubscriber(hostPort: string) returns (info: Option<HostInfo>)
      ensures info == Subscriber(State(), hostPort)
    {
      var k := TrimPort(hostPort);
      info := if k in hosts then Some(hosts[k]) else None;
    }

    method DoUnsubscribe(id: Id) returns (entry: Option<Entry>)
      modifies this
      ensures State() == Unsubscribe(old(State()), id)
      ensures entry == if id in old(items) then Some(old(items)[id]) else None
    {
      if id !in items {
        return None;
      }
      entry := Some(items[id]);
      if items[id].Live? {
        var hs := items[id].item.hosts;
        for i := 0 to |hs|
          invariant items == old(items)
          invariant hosts == old(hosts) - RawHosts(hs[..i])
        {
          assert hs[..i + 1] == hs[..i] + [hs[i]];
          assert RawHosts(hs[..i + 1]) == RawHosts(hs[..i]) + {hs[i].host};
          hosts := hosts - {hs[i].host};
        }
        assert hs[..|hs|] == hs;
      }
      items := items - {id};
    }

    /** The first loop of set: nothing is changed before every host has been checked. */
    method CheckHosts(hs: seq<HostAuth>) returns (err: Option<SetError>)
      ensures err == Conflict(State(), hs, 0)
    {
      for i := 0 to |hs|
        invariant Conflict(State(), hs, 0) == Conflict(State(), hs, i)
      {
        if hs[i].auth.Some? && hs[i].auth.value.user == "" {
          return Some(MissingUser);
        }
        if TrimPort(hs[i].host) in hosts {
          return Some(Occupied(hs[i].host));
        }
      }
      err := None;
    }

    /** The second loop of set. */
    method AddHosts(hs: seq<HostAuth>, id: Id)
      modifies this`hosts
      ensures hosts == old(hosts) + Index(hs, id)
    {
      hide TrimPort;
      for i := 0 to |hs|
        invariant hosts == old(hosts) + Index(hs[..i], id)
      {
        assert hs[..i + 1][..i] == hs[..i];
        ghost var added := Index(hs[..i], id);
        assert Index(hs[..i + 1], id) == added[TrimPort(hs[i].host) := HostInfo(id, hs[i].auth)];
        hosts := hosts[TrimPort(hs[i].host) := HostInfo(id, hs[i].auth)];
      }
      assert hs[..|hs|] == hs;
    }

    method DoSet(item: RegistryItem, id: Id) returns (err: Option<SetError>)
      modifies this
      ensures err == SetFault(old(State()), item, id)
      ensures State() == Set(old(State()), item, id)
    {
      if id !in items {
        return Some(NotSubscribed);
      }
      if items[id] != Void {
        return Some(Overwrite);
      }
      err := CheckHosts(item.hosts);
      if err != None {
        return;
      }
      AddHosts(item.hosts, id);
      items := items[id := Live(item)];
    }

    method DoClear(id: Id) returns (item: Option<RegistryItem>)
      modifies this
      ensures item == Cleared(old(State()), id)
      ensures State() == Clear(old(State()), id)
    {
      if id !in items || items[id] == Void {
        return None;
      }
      item := Some(items[id].item);
      var hs := items[id].item.hosts;
      for i := 0 to |hs|
        invariant items == old(items)
        invariant hosts == old(hosts) - Keys(hs[..i])
      {
        assert hs[..i + 1] == hs[..i] + [hs[i]];
        assert Keys(hs[..i + 1]) == Keys(hs[..i]) + {TrimPort(hs[i].host)};
        hosts := hosts - {TrimPort(hs[i].host)};
      }
      assert hs[..|hs|] == hs;
      items := items[id := Void];
    }
  }
}
