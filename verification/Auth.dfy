/** Basic authentication: the configured credentials, the presented ones, and when they match. */
module Auth {
  import opened Prelude
  import opened HostPort

  datatype Auth = Auth(user: string, password: string)

  /** Splits "user:password" at the first colon; no text means no protection. */
  function NewAuth(auth: string): Option<Auth> {
    if auth == "" then None
    else
      var i := IndexOf(auth, ':');
      Some(Auth(auth[..i], if i < |auth| then auth[i + 1..] else ""))
  }

  /** The user and password of a request, from its decoded credentials if it carries any
      (section 2 of RFC 7617).  Without a colon there are none. */
  function BasicAuth(credentials: Option<string>): (string, string) {
    match credentials
    case None => ("", "")
    case Some(c) =>
      var i := IndexOf(c, ':');
      if i < |c| then (c[..i], c[i + 1..]) else ("", "")
  }

  /** The test a proxied request must pass. */
  predicate Authorised(auth: Option<Auth>, credentials: Option<string>) {
    match auth
    case None => true
    case Some(a) => BasicAuth(credentials) == (a.user, a.password)
  }

  /** A user that a request can present: not empty, and free of the separator. */
  predicate Presentable(auth: Option<Auth>) {
    auth.Some? ==> auth.value.user != "" && ':' !in auth.value.user
  }

  lemma NewAuthParts(conf: string)
    ensures NewAuth(conf) == None <==> conf == ""
    ensures match NewAuth(conf)
            case None => true
            case Some(a) =>
              ':' !in a.user &&
              (if ':' in conf then conf == a.user + ":" + a.password else conf == a.user && a.password == "")
  {
  }

  lemma FirstColon(u: string, p: string)
    requires ':' !in u
    ensures IndexOf(u + ":" + p, ':') == |u|
  {
    assert (u + ":" + p)[..|u|] == u;
    IndexUnique(u + ":" + p, ':', |u|);
  }

  /** A presentable user is matched by exactly one text of credentials. */
  lemma AuthorisedIff(a: Auth, credentials: Option<string>)
    requires Presentable(Some(a))
    ensures Authorised(Some(a), credentials) <==> credentials == Some(a.user + ":" + a.password)
  {
    FirstColon(a.user, a.password);
    var full := a.user + ":" + a.password;
    assert full[..|a.user|] == a.user && full[|a.user| + 1..] == a.password;
    if credentials.Some? {
      var c := credentials.value;
      var i := IndexOf(c, ':');
      if i < |c| {
        assert c == c[..i] + ":" + c[i + 1..];
      }
    }
  }

  /** From the configured text to the request: with a user, the only credentials let through are
      the configured text itself, completed with a colon when it has none. */
  lemma ConfiguredIff(conf: string, credentials: Option<string>)
    requires NewAuth(conf).Some? && NewAuth(conf).value.user != ""
    ensures Authorised(NewAuth(conf), credentials) <==>
            credentials == Some(if ':' in conf then conf else conf + ":")
  {
    NewAuthParts(conf);
    var a := NewAuth(conf).value;
    AuthorisedIff(a, credentials);
    assert a.user + ":" + "" == a.user + ":";
  }

  /** Why an empty user must be refused: a request without credentials passes exactly when both
      halves of the configured pair are empty. */
  lemma AbsentCredentials(a: Auth, credentials: Option<string>)
    requires credentials == None || ':' !in credentials.value
    ensures Authorised(Some(a), credentials) <==> a == Auth("", "")
  {
  }
}
