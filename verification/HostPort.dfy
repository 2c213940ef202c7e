/** Host and port text: net.SplitHostPort as the Go library computes it, and the registry's
    trimPort on top of it. */
module HostPort {
  import opened Prelude

  datatype HostPort = HostPort(host: string, port: string)

  datatype AddrError = MissingPort | TooManyColons | MissingBracket | UnexpectedOpen | UnexpectedClose

  // ---- Searching text ----

  /** The first index of a character, or the length of the text. */
  function IndexOf(s: string, c: char): (i: nat)
    ensures i <= |s| && c !in s[..i]
    ensures i < |s| ==> s[i] == c
    ensures i < |s| <==> c in s
  {
    if s == [] || s[0] == c then 0 else 1 + IndexOf(s[1..], c)
  }

  /** One more than the last index of a character, or zero. */
  function LastIndexAfter(s: string, c: char): (i: nat)
    ensures i <= |s| && c !in s[i..]
    ensures i > 0 ==> s[i - 1] == c
    ensures i > 0 <==> c in s
  {
    if s == [] || s[|s| - 1] == c then |s| else LastIndexAfter(s[..|s| - 1], c)
  }

  // ---- Splitting ----

  function SplitHostPort(hostport: string): Result<HostPort, AddrError> {
    var i := LastIndexAfter(hostport, ':') - 1;
    if i < 0 then Err(MissingPort)
    else if hostport[0] == '[' then
      var end := IndexOf(hostport, ']');
      if end == |hostport| then Err(MissingBracket)
      else if end + 1 == |hostport| then Err(MissingPort)
      else if end + 1 != i then
        if hostport[end + 1] == ':' then Err(TooManyColons) else Err(MissingPort)
      else Finish(hostport, hostport[1..end], 1, end + 1, i)
    else if ':' in hostport[..i] then Err(TooManyColons)
    else Finish(hostport, hostport[..i], 0, 0, i)
  }

  /** The checks that close SplitHostPort: no further brackets. */
  function Finish(hostport: string, host: string, j: nat, k: nat, i: nat): Result<HostPort, AddrError>
    requires j <= |hostport| && k <= |hostport| && i < |hostport|
  {
    if '[' in hostport[j..] then Err(UnexpectedOpen)
    else if ']' in hostport[k..] then Err(UnexpectedClose)
    else Ok(HostPort(host, hostport[i + 1..]))
  }

  predicate Plain(s: string) {
    ':' !in s && '[' !in s && ']' !in s
  }

  /** The texts that split: host:port, or [host]:port where the host may hold colons. */
  predicate Splits(s: string, h: string, p: string) {
    Plain(p) &&
    ((s == h + ":" + p && Plain(h)) ||
     (s == "[" + h + "]:" + p && '[' !in h && ']' !in h))
  }

  lemma LastIndexUnique(s: string, c: char, i: nat)
    requires i < |s| && s[i] == c && c !in s[i + 1..]
    ensures LastIndexAfter(s, c) == i + 1
  {
  }

  lemma IndexUnique(s: string, c: char, i: nat)
    requires i < |s| && s[i] == c && c !in s[..i]
    ensures IndexOf(s, c) == i
  {
  }

  lemma SplitPlain(h: string, p: string)
    requires Plain(h) && Plain(p)
    ensures SplitHostPort(h + ":" + p) == Ok(HostPort(h, p))
  {
    var s := h + ":" + p;
    assert s[|h| + 1..] == p && s[..|h|] == h;
    LastIndexUnique(s, ':', |h|);
    assert s[0..] == s;
  }

  lemma BracketedIndices(h: string, p: string)
    requires Plain(p) && '[' !in h && ']' !in h
    ensures var s := "[" + h + "]:" + p;
            LastIndexAfter(s, ':') == |h| + 3 && IndexOf(s, ']') == |h| + 1
  {
    var s := "[" + h + "]:" + p;
    assert s[|h| + 1] == ']' && s[|h| + 2] == ':';
    assert s[|h| + 3..] == p;
    LastIndexUnique(s, ':', |h| + 2);
    assert s[..|h| + 1] == "[" + h;
    IndexUnique(s, ']', |h| + 1);
  }

  lemma SplitBracketed(h: string, p: string)
    requires Plain(p) && '[' !in h && ']' !in h
    ensures SplitHostPort("[" + h + "]:" + p) == Ok(HostPort(h, p))
  {
    var s := "[" + h + "]:" + p;
    BracketedIndices(h, p);
    BracketedSlices(s, h, p);
    assert '[' !in h + "]:" + p && ']' !in ":" + p;
    assert s[0] == '[';
    hide IndexOf, LastIndexAfter;
  }

  lemma BracketedSlices(s: string, h: string, p: string)
    requires s == "[" + h + "]:" + p
    ensures s[1..|h| + 1] == h && s[1..] == h + "]:" + p
    ensures s[|h| + 2..] == ":" + p && s[|h| + 3..] == p
  {
  }

  lemma SliceWithin(s: string, i: nat, j: nat, k: nat, l: nat, c: char)
    requires k <= i <= j <= l <= |s|
    ensures c in s[i..j] ==> c in s[k..l]
  {
  }

  lemma SplitSound(s: string)
    requires SplitHostPort(s).Ok?
    ensures Splits(s, SplitHostPort(s).value.host, SplitHostPort(s).value.port)
  {
    if s[0] == '[' {
      SplitSoundBracketed(s);
    } else {
      SplitSoundPlain(s);
    }
  }

  lemma SplitSoundBracketed(s: string)
    requires SplitHostPort(s).Ok? && s[0] == '['
    ensures Splits(s, SplitHostPort(s).value.host, SplitHostPort(s).value.port)
  {
    var i, end, n := LastIndexAfter(s, ':') - 1, IndexOf(s, ']'), |s|;
    var h, p := s[1..end], s[i + 1..];
    assert p == s[i + 1..n];
    assert s == "[" + h + "]:" + p;
    SliceWithin(s, 1, end, 1, n, '[');
    SliceWithin(s, 1, end, 0, end, ']');
    SliceWithin(s, i + 1, n, 1, n, '[');
    SliceWithin(s, i + 1, n, end + 1, n, ']');
    assert SplitHostPort(s).value == HostPort(h, p);
    hide SplitHostPort;
  }

  lemma SplitSoundPlain(s: string)
    requires SplitHostPort(s).Ok? && s[0] != '['
    ensures Splits(s, SplitHostPort(s).value.host, SplitHostPort(s).value.port)
  {
    var i, n := LastIndexAfter(s, ':') - 1, |s|;
    var h, p := s[..i], s[i + 1..];
    assert p == s[i + 1..n];
    assert s == h + ":" + p;
    SliceWithin(s, 0, i, 0, n, '[');
    SliceWithin(s, 0, i, 0, n, ']');
    SliceWithin(s, i + 1, n, 0, n, '[');
    SliceWithin(s, i + 1, n, 0, n, ']');
    assert SplitHostPort(s).value == HostPort(h, p);
    hide SplitHostPort;
  }

  /** SplitHostPort accepts exactly the two shapes, and returns their parts. */
  lemma SplitIff(s: string, h: string, p: string)
    ensures SplitHostPort(s) == Ok(HostPort(h, p)) <==> Splits(s, h, p)
  {
    if SplitHostPort(s) == Ok(HostPort(h, p)) {
      SplitSound(s);
    }
    if Splits(s, h, p) {
      if s == h + ":" + p && Plain(h) {
        SplitPlain(h, p);
      } else {
        SplitBracketed(h, p);
      }
    }
  }

  // ---- trimPort ----

  function TrimPort(hostPort: string): string {
    match SplitHostPort(hostPort)
    case Ok(hp) => if hp.host == "" then hostPort else hp.host
    case Err(_) => hostPort
  }

  lemma TrimPortOfPlain(h: string)
    requires Plain(h)
    ensures TrimPort(h) == h
  {
  }

  lemma TrimPortDrops(s: string, h: string, p: string)
    requires Splits(s, h, p) && h != ""
    ensures TrimPort(s) == h && |h| < |s|
  {
    SplitIff(s, h, p);
  }

  /** Trimming shortens a text exactly when it splits with a host, and otherwise keeps it. */
  lemma TrimPortFixed(s: string)
    ensures TrimPort(s) != s ==> SplitHostPort(s).Ok? && Splits(s, TrimPort(s), SplitHostPort(s).value.port)
                                 && TrimPort(s) != "" && |TrimPort(s)| < |s|
  {
    if TrimPort(s) != s {
      SplitSound(s);
    }
  }

  /** [host:port]:port, whose trimmed form still has a port to lose. */
  predicate Nested(s: string, a: string, b: string, p: string) {
    a != "" && Plain(a) && Plain(b) && Plain(p) && s == "[" + a + ":" + b + "]:" + p
  }

  lemma NestedShrinks(s: string, a: string, b: string, p: string)
    requires Nested(s, a, b, p)
    ensures TrimPort(s) == a + ":" + b && TrimPort(TrimPort(s)) == a
  {
    TrimPortDrops(s, a + ":" + b, p);
    TrimPortDrops(a + ":" + b, a, b);
  }

  lemma NestedParts(s: string, t: string, a: string, b: string, p: string)
    requires Splits(s, t, p) && Splits(t, a, b) && a != ""
    ensures Nested(s, a, b, p)
  {
  }

  lemma TwiceTrimmed(s: string)
    requires TrimPort(TrimPort(s)) != TrimPort(s)
    ensures Nested(s, TrimPort(TrimPort(s)), SplitHostPort(TrimPort(s)).value.port, SplitHostPort(s).value.port)
  {
    var t := TrimPort(s);
    TrimPortFixed(t);
    TrimPortFixed(s);
    NestedParts(s, t, TrimPort(t), SplitHostPort(t).value.port, SplitHostPort(s).value.port);
  }

  /** Trimming twice differs from trimming once for the nested texts and for no others. */
  lemma TrimPortIdempotentIff(s: string)
    ensures TrimPort(TrimPort(s)) != TrimPort(s) <==> exists a, b, p :: Nested(s, a, b, p)
  {
    if TrimPort(TrimPort(s)) != TrimPort(s) {
      TwiceTrimmed(s);
    }
    if a, b, p :| Nested(s, a, b, p) {
      NestedShrinks(s, a, b, p);
    }
  }

  /** The shortest kind of text that trimming twice changes again. */
  lemma TrimPortNotIdempotent()
    ensures TrimPort("[a:80]:90") == "a:80" && TrimPort("a:80") == "a"
  {
    assert Splits("[a:80]:90", "a:80", "90") by {
      assert "[a:80]:90" == "[" + "a:80" + "]:" + "90";
    }
    assert Splits("a:80", "a", "80") by {
      assert "a:80" == "a" + ":" + "80";
    }
    TrimPortDrops("[a:80]:90", "a:80", "90");
    TrimPortDrops("a:80", "a", "80");
  }
}
