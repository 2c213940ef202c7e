/** ASCII text and the few operations of Go's strings package the program uses. */
module Text {

  type Ascii = c: char | c < 128 as char

  type Text = seq<Ascii>

  /** strings.Trim with a cutset of one character: the left end. */
  function TrimLeft(s: Text, c: Ascii): (r: Text)
    ensures |r| <= |s|
    ensures r == [] || r[0] != c
  {
    if s != [] && s[0] == c then TrimLeft(s[1..], c) else s
  }

  /** strings.Trim with a cutset of one character: the right end. */
  function TrimRight(s: Text, c: Ascii): (r: Text)
    ensures |r| <= |s|
    ensures r == [] || r[|r| - 1] != c
  {
    if s != [] && s[|s| - 1] == c then TrimRight(s[..|s| - 1], c) else s
  }

  function Trim(s: Text, c: Ascii): Text {
    TrimRight(TrimLeft(s, c), c)
  }

  /** strings.Replace(s, c, "", -1). */
  function Remove(s: Text, c: Ascii): (r: Text)
    ensures c !in r
    ensures forall x :: x in r ==> x in s
  {
    if s == [] then []
    else if s[0] == c then Remove(s[1..], c)
    else [s[0]] + Remove(s[1..], c)
  }

  lemma {:induction false} TrimNoop(s: Text, c: Ascii)
    requires s == [] || (s[0] != c && s[|s| - 1] != c)
    ensures Trim(s, c) == s
  {
  }

  lemma {:induction false} RemoveConcat(a: Text, b: Text, c: Ascii)
    ensures Remove(a + b, c) == Remove(a, c) + Remove(b, c)
  {
    if a == [] {
      assert a + b == b;
    } else {
      assert (a + b)[0] == a[0] && (a + b)[1..] == a[1..] + b;
      RemoveConcat(a[1..], b, c);
    }
  }

  lemma {:induction false} RemoveNoop(s: Text, c: Ascii)
    requires c !in s
    ensures Remove(s, c) == s
  {
    if s != [] {
      RemoveNoop(s[1..], c);
    }
  }

  lemma {:induction false} RemoveTrimLeft(s: Text, c: Ascii)
    ensures Remove(TrimLeft(s, c), c) == Remove(s, c)
  {
    if s != [] && s[0] == c {
      RemoveTrimLeft(s[1..], c);
    }
  }

  lemma {:induction false} RemoveTrimRight(s: Text, c: Ascii)
    ensures Remove(TrimRight(s, c), c) == Remove(s, c)
  {
    if s != [] && s[|s| - 1] == c {
      var t := s[..|s| - 1];
      assert s == t + [c];
      RemoveConcat(t, [c], c);
      RemoveTrimRight(t, c);
    }
  }

  /** Trimming a character and then deleting it everywhere is deleting it everywhere. */
  lemma RemoveTrim(s: Text, c: Ascii)
    ensures Remove(Trim(s, c), c) == Remove(s, c)
  {
    RemoveTrimLeft(s, c);
    RemoveTrimRight(TrimLeft(s, c), c);
  }

  lemma TrimRightDrop(s: Text, c: Ascii)
    ensures TrimRight(s + [c], c) == TrimRight(s, c)
  {
    assert (s + [c])[..|s|] == s;
  }

  /** A run of one character. */
  predicate AllOf(t: Text, c: Ascii) {
    forall i :: 0 <= i < |t| ==> t[i] == c
  }

  lemma {:induction false} TrimRightAll(m: Text, q: Text, c: Ascii)
    requires AllOf(q, c)
    ensures TrimRight(m + q, c) == TrimRight(m, c)
    decreases |q|
  {
    if q == [] {
      assert m + q == m;
    } else {
      var n := |q| - 1;
      assert m + q == m + q[..n] + [c];
      TrimRightDrop(m + q[..n], c);
      TrimRightAll(m, q[..n], c);
    }
  }

  lemma {:induction false} TrimLeftAll(p: Text, m: Text, c: Ascii)
    requires AllOf(p, c)
    ensures TrimLeft(p + m, c) == TrimLeft(m, c)
  {
    if p == [] {
      assert p + m == m;
    } else {
      assert (p + m)[1..] == p[1..] + m;
      TrimLeftAll(p[1..], m, c);
    }
  }

  lemma {:induction false} TrimLeftAppend(m: Text, q: Text, c: Ascii)
    requires !AllOf(m, c)
    ensures TrimLeft(m + q, c) == TrimLeft(m, c) + q
  {
    if m[0] == c {
      assert (m + q)[1..] == m[1..] + q;
      TrimLeftAppend(m[1..], q, c);
    }
  }

  /** What trimming takes away on either side. */
  lemma {:induction false} TrimLeftCut(s: Text, c: Ascii) returns (p: Text)
    ensures s == p + TrimLeft(s, c) && AllOf(p, c)
  {
    if s != [] && s[0] == c {
      var r := TrimLeftCut(s[1..], c);
      p := [c] + r;
      assert s == [c] + s[1..];
      assert s == [c] + (r + TrimLeft(s, c));
    } else {
      p := [];
    }
  }

  lemma {:induction false} TrimRightCut(s: Text, c: Ascii) returns (q: Text)
    ensures s == TrimRight(s, c) + q && AllOf(q, c)
  {
    if s != [] && s[|s| - 1] == c {
      var r := TrimRightCut(s[..|s| - 1], c);
      q := r + [c];
      assert s == s[..|s| - 1] + [c];
      assert s == (TrimRight(s, c) + r) + [c];
    } else {
      q := [];
    }
  }

  /** A text is its trimmed core between two runs of the character. */
  lemma TrimCut(t: Text, c: Ascii) returns (p: Text, q: Text)
    ensures t == p + Trim(t, c) + q && AllOf(p, c) && AllOf(q, c)
  {
    p := TrimLeftCut(t, c);
    q := TrimRightCut(TrimLeft(t, c), c);
  }

  lemma TrimBetween(p: Text, m: Text, q: Text, c: Ascii)
    requires AllOf(p, c) && AllOf(q, c) && !AllOf(m, c)
    ensures Trim(p + m + q, c) == Trim(m, c)
  {
    assert p + m + q == p + (m + q);
    TrimLeftAll(p, m + q, c);
    TrimLeftAppend(m, q, c);
    TrimRightAll(TrimLeft(m, c), q, c);
  }
}
