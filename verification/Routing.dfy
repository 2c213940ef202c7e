/** A request's way from the public host to the client's local service: the server's lookup and
    credentials check, the control message, and the client's choice of a local URL.

    A local URL is represented by the address it was parsed from. */
module Routing {
  import opened Prelude
  import opened DeviceId
  import opened HostPort
  import opened Auth
  import opened Registry
  import opened RegistryLaws
  import opened HostIndex
  import opened Tunnels
  import opened Lifecycle
  import opened Sessions
  import opened Registration
  import opened Matching
  import opened Ownership

  // ---- The server's side ----

  datatype Request = Request(host: string, scheme: string, tls: bool, credentials: Option<string>)

  datatype ControlMessage = ControlMessage(action: string, forwardedHost: string, forwardedProto: string)

  datatype Outcome = ClientNotSubscribed | Unauthorised | Forwarded(id: Id, msg: ControlMessage)

  const PROXY: string := "proxy"

  function SchemeOf(q: Request): string {
    if q.scheme != "" then q.scheme else if q.tls then HTTPS else HTTP
  }

  function RoundTrip(r: Reg, q: Request): Outcome {
    match Subscriber(r, q.host)
    case None => ClientNotSubscribed
    case Some(info) =>
      if !Authorised(info.auth, q.credentials) then Unauthorised
      else Forwarded(info.id, ControlMessage(PROXY, q.host, SchemeOf(q)))
  }

  // ---- The client's side ----

  /** A tunnel as the client's configuration has it. */
  datatype Local = Local(protocol: string, addr: string, auth: string, host: string, remoteAddr: string)

  function ToServer(t: Local): Tunnel {
    Tunnel(t.protocol, t.host, t.auth, t.remoteAddr)
  }

  /** The tunnels the client sends to the server. */
  method TunnelsFor(m: map<string, Local>) returns (p: map<string, Tunnel>)
    ensures p == map n | n in m :: ToServer(m[n])
    ensures forall n :: n in m ==> p[n] == Tunnel(m[n].protocol, m[n].host, m[n].auth, m[n].remoteAddr)
  {
    p := map[];
    var todo := m.Keys;
    while todo != {}
      invariant todo <= m.Keys
      invariant p == map n | n in m.Keys - todo :: ToServer(m[n])
      decreases |todo|
    {
      var name :| name in todo;
      p := p[name := ToServer(m[name])];
      todo := todo - {name};
    }
    assert m.Keys - todo == m.Keys;
  }

  predicate IsTcp(t: Local) {
    t.protocol == TCP || t.protocol == TCP4 || t.protocol == TCP6
  }

  /** The key under which the TCP proxy files a tunnel, if it handles it. */
  function TcpKey(t: Local): Option<string> {
    if IsTcp(t) then Some(t.remoteAddr) else if t.protocol == SNI then Some(t.host) else None
  }

  function HttpKey(t: Local): Option<string> {
    if t.protocol == HTTP then Some(t.host) else None
  }

  /** A proxy map for the tunnels named: its keys are those of the tunnels, and each leads to the
      address of some tunnel with that key. */
  ghost predicate Files(m: map<string, Local>, names: set<string>, key: Local -> Option<string>,
                        u: map<string, string>)
    requires names <= m.Keys
  {
    (forall n :: n in names && key(m[n]).Some? ==> key(m[n]).value in u) &&
    (forall k :: k in u ==> exists n :: n in names && key(m[n]) == Some(k) && m[n].addr == u[k])
  }

  /** Builds the client's two proxy maps, meeting the tunnels in any order. */
  method ProxyMaps(m: map<string, Local>) returns (httpURL: map<string, string>, tcpAddr: map<string, string>)
    ensures Files(m, m.Keys, HttpKey, httpURL) && Files(m, m.Keys, TcpKey, tcpAddr)
  {
    httpURL, tcpAddr := map[], map[];
    var todo := m.Keys;
    assert m.Keys - todo == {};
    hide Files;
    FilesNone(m, HttpKey);
    FilesNone(m, TcpKey);
    while todo != {}
      invariant todo <= m.Keys
      invariant Files(m, m.Keys - todo, HttpKey, httpURL)
      invariant Files(m, m.Keys - todo, TcpKey, tcpAddr)
      decreases |todo|
    {
      var name :| name in todo;
      var t := m[name];
      ghost var done := m.Keys - todo;
      var h, c := httpURL, tcpAddr;
      if t.protocol == HTTP {
        h := httpURL[t.host := t.addr];
      } else if IsTcp(t) {
        c := tcpAddr[t.remoteAddr := t.addr];
      } else if t.protocol == SNI {
        c := tcpAddr[t.host := t.addr];
      }
      FilesAdd(m, done, name, HttpKey, httpURL, h);
      FilesAdd(m, done, name, TcpKey, tcpAddr, c);
      httpURL, tcpAddr := h, c;
      assert m.Keys - (todo - {name}) == done + {name};
      todo := todo - {name};
    }
    assert m.Keys - todo == m.Keys;
  }

  lemma FilesNone(m: map<string, Local>, key: Local -> Option<string>)
    ensures Files(m, {}, key, map[])
  {
  }

  lemma FilesAdd(m: map<string, Local>, done: set<string>, name: string, key: Local -> Option<string>,
                 u: map<string, string>, v: map<string, string>)
    requires done <= m.Keys && name in m && Files(m, done, key, u)
    requires v == match key(m[name]) case None => u case Some(k) => u[k := m[name].addr]
    ensures Files(m, done + {name}, key, v)
  {
  }

  // ---- The two maps of listening tunnels ----

  predicate ListensOnAddr(protocol: string) {
    protocol == "tcp" || protocol == "tcp4" || protocol == "tcp6"
  }

  /** What the server is asked for under tunnel n: to listen at an address, or for a host. */
  predicate AskedFor(p: map<string, Tunnel>, n: string, k: string) {
    n in p && ((ListensOnAddr(p[n].protocol) && p[n].addr == k) || (p[n].protocol == "sni" && p[n].host == k))
  }

  /** The map sent to the server and the client's own map agree: the server is asked for each TCP
      tunnel's remote address and each SNI tunnel's host; whatever it is asked for leads the client to
      the local address of a tunnel asked for under it; and the client's map holds nothing else. */
  lemma ListeningAgree(m: map<string, Local>, p: map<string, Tunnel>, tcpAddr: map<string, string>)
    requires p == (map n | n in m :: ToServer(m[n])) && Files(m, m.Keys, TcpKey, tcpAddr)
    ensures p.Keys == m.Keys
    ensures forall n :: n in m && ListensOnAddr(m[n].protocol) ==> AskedFor(p, n, m[n].remoteAddr)
    ensures forall n :: n in m && m[n].protocol == "sni" ==> AskedFor(p, n, m[n].host)
    ensures forall n, k :: AskedFor(p, n, k) ==> k in tcpAddr
    ensures forall k :: k in tcpAddr ==> exists n :: AskedFor(p, n, k) && tcpAddr[k] == m[n].addr
  {
    forall n | n in m
      ensures forall k :: TcpKey(m[n]) == Some(k) <==> AskedFor(p, n, k)
    {
      assert p[n] == Tunnel(m[n].protocol, m[n].host, m[n].auth, m[n].remoteAddr);
    }
    hide TcpKey, ToServer;
    forall k | k in tcpAddr
      ensures exists n :: AskedFor(p, n, k) && tcpAddr[k] == m[n].addr
    {
      var n :| n in m && TcpKey(m[n]) == Some(k) && m[n].addr == tcpAddr[k];
      assert AskedFor(p, n, k);
    }
  }

  /** When no two tunnels are asked for under the same name, each leads to its own local address. */
  lemma ListeningOwn(m: map<string, Local>, p: map<string, Tunnel>, tcpAddr: map<string, string>,
                     n: string, k: string)
    requires p == (map n | n in m :: ToServer(m[n])) && Files(m, m.Keys, TcpKey, tcpAddr)
    requires AskedFor(p, n, k) && forall o :: AskedFor(p, o, k) ==> o == n
    ensures k in tcpAddr && tcpAddr[k] == m[n].addr
  {
    ListeningAgree(m, p, tcpAddr);
    hide ToServer, Files, AskedFor;
  }

  function PortOf(host: string): string {
    match SplitHostPort(host)
    case Ok(hp) => hp.port
    case Err(_) => ""
  }

  function HostOf(host: string): string {
    match SplitHostPort(host)
    case Ok(hp) => hp.host
    case Err(_) => ""
  }

  /** The lookup's precedence: host and port, then port, then host, then the default. */
  function LocalURLFor(localURL: Option<string>, m: map<string, string>, host: string): Option<string> {
    if |m| == 0 then localURL
    else if host in m then Some(m[host])
    else if PortOf(host) in m then Some(m[PortOf(host)])
    else if HostOf(host) in m then Some(m[HostOf(host)])
    else localURL
  }

  /** The lookup, for any map and any host: the host as it came; else, if it splits, the entry of its
      port, and then that of its host; if it does not split, the entry of the empty text, if there is
      one; and in the end the default. */
  lemma LookupOrder(localURL: Option<string>, m: map<string, string>, host: string)
    ensures host in m ==> LocalURLFor(localURL, m, host) == Some(m[host])
    ensures forall h, p :: Splits(host, h, p) && host !in m ==>
              LocalURLFor(localURL, m, host) ==
              (if p in m then Some(m[p]) else if h in m then Some(m[h]) else localURL)
    ensures (forall h, p :: !Splits(host, h, p)) && host !in m ==>
              LocalURLFor(localURL, m, host) == if "" in m then Some(m[""]) else localURL
  {
    forall h, p | Splits(host, h, p)
      ensures PortOf(host) == p && HostOf(host) == h
    {
      SplitIff(host, h, p);
    }
    if SplitHostPort(host).Ok? {
      SplitIff(host, SplitHostPort(host).value.host, SplitHostPort(host).value.port);
    }
    hide Splits, SplitHostPort;
  }

  /** What the client makes of a control message: nothing unless every header arrived filled and the
      protocol is the HTTP proxy's. */
  function ClientTarget(urls: map<string, string>, msg: ControlMessage): Option<string> {
    if msg.action == "" || msg.forwardedHost == "" || msg.forwardedProto == "" then None
    else if msg.action != PROXY || (msg.forwardedProto != HTTP && msg.forwardedProto != HTTPS) then None
    else LocalURLFor(None, urls, msg.forwardedHost)
  }

  /** Only a complete message for the HTTP proxy reaches the lookup, by the host it names. */
  lemma TargetIff(urls: map<string, string>, msg: ControlMessage, url: string)
    ensures ClientTarget(urls, msg) == Some(url) <==>
            msg.action == "proxy" && msg.forwardedHost != "" && msg.forwardedProto in {"http", "https"} &&
            LocalURLFor(None, urls, msg.forwardedHost) == Some(url)
  {
    hide LocalURLFor;
  }

  // ---- The two sides together ----

  predicate IsHttp(m: map<string, Local>, n: string) {
    n in m && m[n].protocol == HTTP
  }

  /** Tunnel hosts that are names: not empty, without colons and brackets, and each used once. */
  ghost predicate GoodHosts(m: map<string, Local>) {
    (forall n :: IsHttp(m, n) ==> m[n].host != "" && Plain(m[n].host)) &&
    (forall n, o :: IsHttp(m, n) && IsHttp(m, o) && m[n].host == m[o].host ==> n == o)
  }

  /** The tunnels the server met are those of the configuration. */
  ghost predicate Asked(m: map<string, Local>, ts: seq<Tunnel>) {
    (forall n :: n in m ==> ToServer(m[n]) in ts) &&
    (forall t :: t in ts ==> exists n :: n in m && t == ToServer(m[n]))
  }

  lemma UrlOf(m: map<string, Local>, urls: map<string, string>, n: string)
    requires Files(m, m.Keys, HttpKey, urls) && GoodHosts(m) && IsHttp(m, n)
    ensures m[n].host in urls && urls[m[n].host] == m[n].addr
    ensures "" !in urls
    ensures forall k :: k in urls ==> Plain(k)
  {
    hide Plain;
    assert HttpKey(m[n]) == Some(m[n].host);
    forall k | k in urls
      ensures exists o :: IsHttp(m, o) && m[o].host == k && m[o].addr == urls[k]
    {
      var o :| o in m.Keys && HttpKey(m[o]) == Some(k) && m[o].addr == urls[k];
      assert IsHttp(m, o);
    }
  }

  /** A host that trims to a plain name is that name, or splits with it. */
  lemma TrimsToPlain(host: string, k: string)
    requires TrimPort(host) == k && k != "" && Plain(k)
    ensures if host == k then PortOf(host) == "" else HostOf(host) == k && !Plain(host)
  {
  }

  /** For a request host that trims to a tunnel's host, the client picks that tunnel's URL, except
      that a port which is itself a tunnel host takes precedence. */
  lemma ClientResolves(m: map<string, Local>, urls: map<string, string>, host: string, n: string)
    requires Files(m, m.Keys, HttpKey, urls) && GoodHosts(m) && IsHttp(m, n)
    requires TrimPort(host) == m[n].host
    ensures LocalURLFor(None, urls, host) ==
            Some(if PortOf(host) in urls then urls[PortOf(host)] else m[n].addr)
  {
    UrlOf(m, urls, n);
    TrimsToPlain(host, m[n].host);
    hide TrimPort, PortOf, HostOf, Plain, Files, GoodHosts;
    assert |urls| > 0;
  }

  const HERE: Local := Local(HTTP, "here", "", "a", "")
  const THERE: Local := Local(HTTP, "there", "", "80", "")

  lemma PartsOfPlain(h: string, p: string)
    requires Plain(h) && Plain(p) && h != ""
    ensures TrimPort(h + ":" + p) == h && PortOf(h + ":" + p) == p
  {
    SplitPlain(h, p);
    hide SplitHostPort;
  }

  /** Where the two sides part: with tunnels for the hosts a and 80, a request for a:80 is the
      server's a and the client's 80. */
  lemma PortPrecedence(m: map<string, Local>, urls: map<string, string>)
    requires m == map["one" := HERE, "two" := THERE] && Files(m, m.Keys, HttpKey, urls)
    ensures GoodHosts(m) && TrimPort("a:80") == HERE.host
    ensures ClientTarget(urls, ControlMessage(PROXY, "a:80", HTTP)) == Some(THERE.addr)
  {
    hide SplitHostPort, TrimPort, PortOf, HostOf, Files, LocalURLFor;
    PartsOfPlain("a", "80");
    assert "a" + ":" + "80" == "a:80";
    assert IsHttp(m, "one") && IsHttp(m, "two") && GoodHosts(m);
    hide GoodHosts, IsHttp, Plain;
    UrlOf(m, urls, "two");
    ClientResolves(m, urls, "a:80", "one");
  }

  /** A host indexed for a client that asked for its configuration's tunnels is one of them. */
  lemma IndexedTunnel(m: map<string, Local>, ts: seq<Tunnel>, id: Id, k: string) returns (n: string)
    requires Asked(m, ts) && GoodHosts(m) && k in Index(HttpHosts(ts), id)
    ensures IsHttp(m, n) && m[n].host == k
    ensures Index(HttpHosts(ts), id)[k] == HostInfo(id, NewAuth(m[n].auth))
  {
    hide NewAuth, TrimPort;
    var hs := HttpHosts(ts);
    var i := IndexFrom(hs, id, k);
    HttpHostsFrom(ts, hs[i]);
    var t :| t in ts && t.protocol == HTTP && hs[i] == HostAuth(t.host, NewAuth(t.auth));
    n :| n in m && t == ToServer(m[n]);
    assert IsHttp(m, n);
    TrimPortOfPlain(m[n].host);
  }

  /** The credentials that a configured auth lets through, if it restricts them. */
  predicate Passes(auth: string, credentials: Option<string>) {
    auth == "" || credentials == Some(if ':' in auth then auth else auth + ":")
  }

  /** Over every run with clean removals, however often the client has reconnected and with whatever
      tunnels: when the client a request's host resolves to is served, and has never been while an
      unsubscription of it completed, the request is resolved to one of the tunnels that the session
      now serving the client asked for; it is forwarded exactly when it carries the credentials
      configured for that tunnel; and the client then picks that tunnel's own URL, exactly unless the
      request's port is the host of a tunnel that leads elsewhere. */
  lemma EndToEnd(cfg: Config, ss: seq<St>, acts: seq<Action>, i: nat,
                 m: map<string, Local>, urls: map<string, string>, q: Request) returns (n: string)
    requires Run(cfg, ss, acts) && i < |ss|
    requires forall j :: 0 <= j < i && acts[j].UnsubscribeItem? ==> Clean(ss[j].w.reg, acts[j].id)
    requires Subscriber(ss[i].w.reg, q.host).Some?
    requires var id := Subscriber(ss[i].w.reg, q.host).value.id;
             Served(cfg, ss[i], id) && Asked(m, ss[i].handlers[Holding(cfg, ss[i], id)].asked) &&
             forall j :: 0 <= j < i ==> !(acts[j] == UnsubscribeItem(id) && Served(cfg, ss[j], id))
    requires Files(m, m.Keys, HttpKey, urls) && GoodHosts(m)
    requires q.scheme in {"", HTTP, HTTPS}
    ensures IsHttp(m, n) && m[n].host == TrimPort(q.host)
    ensures var id := Subscriber(ss[i].w.reg, q.host).value.id;
            var msg := ControlMessage(PROXY, q.host, SchemeOf(q));
            RoundTrip(ss[i].w.reg, q) ==
              (if Passes(m[n].auth, q.credentials) then Forwarded(id, msg) else Unauthorised) &&
            (ClientTarget(urls, msg) == Some(m[n].addr) <==>
             (PortOf(q.host) in urls ==> urls[PortOf(q.host)] == m[n].addr))
  {
    var id := Subscriber(ss[i].w.reg, q.host).value.id;
    RunAgrees(cfg, ss, acts, i);
    RunGuarded(cfg, ss, acts, i);
    RunOwnedIff(cfg, ss, acts, i, id);
    assert Owned(cfg, ss[i], id);
    n := Resolved(ss[i], m, q.host, Holding(cfg, ss[i], id));
    ClientResolves(m, urls, q.host, n);
    Authorises(m[n].auth, q.credentials);
    TargetOf(m, urls, q, n);
    hide Files, GoodHosts, TrimPort, PortOf, Authorised, NewAuth, Passes, LocalURLFor, ClientTarget, Run, Agrees,
      Guarded, Served, MadeBy, Owned;
  }

  /** Over every run with clean removals in which, besides, no handler without the client's pool entry
      registered for it, a client that a request resolves to is always served. */
  lemma ResolvedServed(cfg: Config, ss: seq<St>, acts: seq<Action>, i: nat, host: string)
    requires Run(cfg, ss, acts) && i < |ss|
    requires forall j :: 0 <= j < i && acts[j].UnsubscribeItem? ==> Clean(ss[j].w.reg, acts[j].id)
    requires Subscriber(ss[i].w.reg, host).Some?
    requires var id := Subscriber(ss[i].w.reg, host).value.id;
             forall j :: 0 <= j < i ==>
               !(acts[j] == UnsubscribeItem(id) && Served(cfg, ss[j], id)) &&
               !(acts[j].SetItem? && Usurper(cfg, ss[j], id, acts[j].conn))
    ensures Served(cfg, ss[i], Subscriber(ss[i].w.reg, host).value.id)
  {
    var info := Subscriber(ss[i].w.reg, host).value;
    RunAgrees(cfg, ss, acts, i);
    RunFitIff(cfg, ss, acts, i, info.id);
    assert Fit(cfg, ss[i], info.id);
    ResolvedIff(ss[i].w.reg, host, info);
    hide Run, Agrees, Served, Owned, Usurper, TrimPort, IsLive;
  }

  /** What the server answers, over every run with clean removals, in terms of the items alone: that
      the client is not subscribed exactly if no live item lists the request's host; and otherwise, by
      the last entry listing it in the one item that does, forwarding to that item's client, with the
      request's own host, when there are no credentials or the request carries them, and a refusal
      when it does not.  Without a scheme of its own the request goes as https exactly if it came
      over TLS. */
  lemma Answered(cfg: Config, ss: seq<St>, acts: seq<Action>, i: nat, q: Request)
    requires Run(cfg, ss, acts) && i < |ss|
    requires forall j :: 0 <= j < i && acts[j].UnsubscribeItem? ==> Clean(ss[j].w.reg, acts[j].id)
    ensures var r := ss[i].w.reg;
            RoundTrip(r, q) == ClientNotSubscribed <==>
            forall id :: IsLive(r, id) ==>
              forall h :: h in r.items[id].item.hosts ==> TrimPort(h.host) != TrimPort(q.host)
    ensures var r := ss[i].w.reg;
            forall id, k: nat :: IsLive(r, id) && LastListed(r.items[id].item.hosts, TrimPort(q.host), k) ==>
              RoundTrip(r, q) ==
              (if Admits(r.items[id].item.hosts[k].auth, q.credentials) then
                 Forwarded(id, ControlMessage(
                                 "proxy", q.host,
                                 if q.scheme != "" then q.scheme else if q.tls then "https" else "http"))
               else Unauthorised)
  {
    RunAgrees(cfg, ss, acts, i);
    RunGuarded(cfg, ss, acts, i);
    var r := ss[i].w.reg;
    hide Run, Clean, TrimPort, Agrees, Guarded;
    NotListed(r, q);
    forall id, k: nat | IsLive(r, id) && LastListed(r.items[id].item.hosts, TrimPort(q.host), k)
      ensures RoundTrip(r, q) ==
              (if Admits(r.items[id].item.hosts[k].auth, q.credentials) then
                 Forwarded(id, ControlMessage(
                                 "proxy", q.host,
                                 if q.scheme != "" then q.scheme else if q.tls then "https" else "http"))
               else Unauthorised)
    {
      ListedAnswer(r, q, id, k);
    }
  }

  /** No credentials are asked for, or these very ones come. */
  predicate Admits(auth: Option<Auth>, credentials: Option<string>) {
    auth == None || credentials == Some(auth.value.user + ":" + auth.value.password)
  }

  lemma ListedAnswer(r: Reg, q: Request, id: Id, k: nat)
    requires Agrees(r) && Guarded(r) && IsLive(r, id) && LastListed(r.items[id].item.hosts, TrimPort(q.host), k)
    ensures RoundTrip(r, q) ==
            if Admits(r.items[id].item.hosts[k].auth, q.credentials) then
              Forwarded(id, ControlMessage("proxy", q.host,
                                           if q.scheme != "" then q.scheme else if q.tls then "https" else "http"))
            else Unauthorised
  {
    var auth := r.items[id].item.hosts[k].auth;
    ResolvedIff(r, q.host, HostInfo(id, auth));
    hide TrimPort, Agrees, LastListed;
    assert Subscriber(r, q.host) == Some(HostInfo(id, auth));
    if auth.Some? {
      assert Presentable(auth);
      AuthorisedIff(auth.value, q.credentials);
    }
    hide Presentable, Guarded, BasicAuth, IsLive;
  }

  lemma NotListed(r: Reg, q: Request)
    requires Agrees(r)
    ensures RoundTrip(r, q) == ClientNotSubscribed <==>
            forall id :: IsLive(r, id) ==>
              forall h :: h in r.items[id].item.hosts ==> TrimPort(h.host) != TrimPort(q.host)
  {
    hide TrimPort, Index, Authorised;
    var k := TrimPort(q.host);
    assert RoundTrip(r, q) == ClientNotSubscribed <==> k !in r.hosts;
    forall id
      ensures k in Listed(r, id) <==>
              IsLive(r, id) && exists h :: h in r.items[id].item.hosts && TrimPort(h.host) == k
    {
      if IsLive(r, id) {
        IndexKeys(r.items[id].item.hosts, id);
        assert k in Keys(r.items[id].item.hosts) <==>
               exists h :: h in r.items[id].item.hosts && TrimPort(h.host) == k;
      }
    }
    hide RoundTrip, Listed, IsLive;
    assert k in r.hosts ==> k in Listed(r, r.hosts[k].id);
    assert forall id :: k in Listed(r, id) ==> k in r.hosts;
  }

  /** Without the message's plumbing: it reaches the lookup. */
  lemma TargetOf(m: map<string, Local>, urls: map<string, string>, q: Request, n: string)
    requires GoodHosts(m) && IsHttp(m, n) && m[n].host == TrimPort(q.host)
    requires q.scheme in {"", HTTP, HTTPS}
    ensures ClientTarget(urls, ControlMessage(PROXY, q.host, SchemeOf(q))) == LocalURLFor(None, urls, q.host)
  {
  }

  lemma Authorises(auth: string, credentials: Option<string>)
    requires Presentable(NewAuth(auth))
    ensures Authorised(NewAuth(auth), credentials) <==> Passes(auth, credentials)
  {
    if auth != "" {
      ConfiguredIff(auth, credentials);
    }
  }

  lemma Resolved(s: St, m: map<string, Local>, host: string, c: Conn) returns (n: string)
    requires Agrees(s.w.reg) && Guarded(s.w.reg) && GoodHosts(m)
    requires Subscriber(s.w.reg, host).Some? && MadeBy(s, Subscriber(s.w.reg, host).value.id, c)
    requires Asked(m, s.handlers[c].asked)
    ensures IsHttp(m, n) && m[n].host == TrimPort(host) && Presentable(NewAuth(m[n].auth))
    ensures Subscriber(s.w.reg, host).value.auth == NewAuth(m[n].auth)
  {
    var r := s.w.reg;
    var info := Subscriber(r, host).value;
    assert Listed(r, info.id)[TrimPort(host)] == info;
    hide TrimPort, NewAuth, GoodHosts, Index, HttpHosts, Presentable;
    assert Presentable(info.auth);
    n := IndexedTunnel(m, s.handlers[c].asked, info.id, TrimPort(host));
  }

  /** Over every run, clean or not: a protected host is proxied for exactly one text of
      credentials, and never for a request without any. */
  lemma ProtectedIff(cfg: Config, ss: seq<St>, acts: seq<Action>, i: nat, q: Request)
    requires Run(cfg, ss, acts) && i < |ss|
    requires Subscriber(ss[i].w.reg, q.host).Some? && Subscriber(ss[i].w.reg, q.host).value.auth.Some?
    ensures var a := Subscriber(ss[i].w.reg, q.host).value.auth.value;
            RoundTrip(ss[i].w.reg, q).Forwarded? <==> q.credentials == Some(a.user + ":" + a.password)
  {
    RunGuarded(cfg, ss, acts, i);
    hide TrimPort;
    var a := Subscriber(ss[i].w.reg, q.host).value.auth.value;
    assert Presentable(Some(a));
    hide Presentable;
    AuthorisedIff(a, q.credentials);
  }
}
