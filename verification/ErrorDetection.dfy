/** Any single wrong character makes a device ID unreadable, provided the check function notices
    substitutions, as Luhn mod 32 does. */
module ErrorDetection {
  import opened Prelude
  import opened Text
  import opened Base32
  import opened Luhn
  import opened DeviceId

  // ---- Inside a normal form ----

  lemma SubstitutedGroup(check: Check, n: Text, k: nat, c: Ascii)
    requires DetectsSubstitution(check)
    requires WellChecked(check, n) && k < CHECKED && k % 14 < 13
    requires InAlphabet(c) && c != n[k]
    ensures !WellChecked(check, n[k := c])
  {
    var i, m := k / 14, n[k := c];
    var g, h := DataGroup(n, i), DataGroup(m, i);
    assert h == g[k % 14 := c];
    assert AllInAlphabet(g) && AllInAlphabet(h);
    assert Symbols(h) == Symbols(g)[k % 14 := CharSymbol(c)];
    assert CharSymbol(c) != CharSymbol(n[k]);
    assert Notices(check, Symbols(g), k % 14, CharSymbol(c));
    assert m[i * 14 + 13] == n[i * 14 + 13];
  }

  lemma Substituted(check: Check, n: Text, k: nat, c: Ascii)
    requires DetectsSubstitution(check)
    requires WellChecked(check, n) && k < CHECKED && c != n[k]
    ensures !WellChecked(check, n[k := c])
  {
    var m := n[k := c];
    if !InAlphabet(c) {
      assert !InAlphabet(m[k]);
    } else if k % 14 < 13 {
      SubstitutedGroup(check, n, k, c);
    } else {
      assert DataGroup(m, k / 14) == DataGroup(n, k / 14);
      assert k == k / 14 * 14 + 13;
    }
  }

  // ---- Inside a text ----

  /** What normalisation makes of one character. */
  function Fold(c: Ascii): Ascii {
    var u := Upper(c);
    if u == '0' then 'O' else if u == '1' then 'I' else if u == '8' then 'B' else u
  }

  predicate Separator(c: Ascii) {
    c == '-' || c == ' '
  }

  /** Normalisation without the trimming. */
  function Strip(t: Text): Text {
    Unchunkify(Untypeoify(ToUpper(t)))
  }

  lemma StripConcat(a: Text, b: Text)
    ensures Strip(a + b) == Strip(a) + Strip(b)
  {
    var x, y := Untypeoify(ToUpper(a)), Untypeoify(ToUpper(b));
    assert Untypeoify(ToUpper(a + b)) == x + y;
    RemoveConcat(x, y, '-');
    RemoveConcat(Remove(x, '-'), Remove(y, '-'), ' ');
  }

  lemma StripOne(c: Ascii)
    ensures Strip([c]) == if Separator(c) then [] else [Fold(c)]
  {
    assert Untypeoify(ToUpper([c])) == [Fold(c)];
    assert Remove([Fold(c)], '-') == if c == '-' then [] else [Fold(c)];
    assert Remove([Fold(c)], ' ') == if c == ' ' then [] else [Fold(c)];
  }

  lemma StripAround(a: Text, c: Ascii, b: Text)
    ensures Strip(a + [c] + b) == Strip(a) + (if Separator(c) then [] else [Fold(c)]) + Strip(b)
  {
    StripConcat(a + [c], b);
    StripConcat(a, [c]);
    StripOne(c);
  }

  /** Trimming a text with a single padding character in it removes that character or nothing. */
  lemma {:induction false} TrimSubstituted(a: Text, x: Ascii, b: Text)
    requires '=' !in a && '=' !in b
    ensures Trim(a + [x] + b, '=') == a + [x] + b || Trim(a + [x] + b, '=') == a + b
  {
    var t := a + [x] + b;
    if x != '=' || (a != [] && b != []) {
      TrimNoop(t, '=');
    } else if a == [] {
      assert t[1..] == b;
      assert TrimLeft(t, '=') == b == a + b by { TrimNoop(b, '='); }
      TrimNoop(b, '=');
    } else {
      assert t[..|t| - 1] == a == a + b;
      assert TrimLeft(t, '=') == t;
      TrimNoop(a, '=');
      assert TrimRight(a, '=') == a;
    }
  }

  lemma NormalizeTrimless(t: Text)
    requires '=' !in t
    ensures Normalize(t) == Strip(t)
  {
  }

  lemma NormalizeOneOf(a: Text, x: Ascii, b: Text)
    requires '=' !in a && '=' !in b
    ensures Normalize(a + [x] + b) == Strip(a) + [Fold(x)] + Strip(b) ||
            Normalize(a + [x] + b) == Strip(a) + Strip(b)
  {
    TrimSubstituted(a, x, b);
    StripAround(a, x, b);
    StripConcat(a, b);
    assert Strip(a) + [] + Strip(b) == Strip(a) + Strip(b);
  }

  /** What a one-character replacement does to the normal form: one symbol changes, or it goes. */
  lemma NormalizeSubstituted(t: Text, p: nat, x: Ascii)
    requires '=' !in t && p < |t| && !Separator(t[p])
    ensures var k := |Strip(t[..p])|;
            k < |Normalize(t)| && Normalize(t)[k] == Fold(t[p]) &&
            (Normalize(t[p := x]) == Normalize(t)[k := Fold(x)] ||
             |Normalize(t[p := x])| < |Normalize(t)|)
  {
    var a, b := t[..p], t[p + 1..];
    assert t == a + [t[p]] + b;
    assert t[p := x] == a + [x] + b;
    NormalizeTrimless(t);
    StripAround(a, t[p], b);
    NormalizeOneOf(a, x, b);
    assert (Strip(a) + [Fold(t[p])] + Strip(b))[|Strip(a)| := Fold(x)] == Strip(a) + [Fold(x)] + Strip(b);
  }

  // ---- Outer padding ----

  /** Padding inside shows in the normal form. */
  lemma PaddingKept(t: Text)
    requires '=' in t
    ensures '=' in Strip(t)
  {
    var i :| 0 <= i < |t| && t[i] == '=';
    assert t == t[..i] + ['='] + t[i + 1..];
    StripAround(t[..i], '=', t[i + 1..]);
  }

  /** An accepted text has padding on the outside only, around at least 56 other characters. */
  lemma AcceptedCore(check: Check, t: Text)
    requires Parse(check, t).Ok?
    ensures '=' !in Trim(t, '=') && |Trim(t, '=')| >= CHECKED
  {
    var core := Trim(t, '=');
    Acceptance(check, t);
    assert Normalize(t) == Strip(core);
    StripShrinks(core);
    if '=' in core {
      PaddingKept(core);
    }
  }

  lemma SameNormalForm(check: Check, t: Text, u: Text)
    requires Normalize(t) == Normalize(u)
    ensures Parse(check, t) == Parse(check, u)
  {
  }

  // ---- Substitutions ----

  lemma CoreSubstitutionDetected(check: Check, t: Text, p: nat, x: Ascii)
    requires DetectsSubstitution(check)
    requires '=' !in t && Parse(check, t).Ok?
    requires p < |t| && !Separator(t[p]) && Fold(x) != Fold(t[p])
    ensures Parse(check, t[p := x]).Err?
  {
    NormalizeSubstituted(t, p, x);
    Acceptance(check, t);
    Acceptance(check, t[p := x]);
    var n, k := Normalize(t), |Strip(t[..p])|;
    Substituted(check, n, k, Fold(x));
  }

  /** Replacing one symbol of an accepted text, padded or not, by a character that reads differently
      makes it unreadable. */
  lemma SubstitutionDetected(check: Check, t: Text, p: nat, x: Ascii)
    requires DetectsSubstitution(check) && Parse(check, t).Ok?
    requires p < |t| && !Separator(t[p]) && t[p] != '=' && Fold(x) != Fold(t[p])
    ensures Parse(check, t[p := x]).Err?
  {
    AcceptedCore(check, t);
    var core := Trim(t, '=');
    var l, r := TrimCut(t, '=');
    var k, m := p - |l|, core[p - |l| := x];
    assert core[k] == t[p];
    assert t[p := x] == l + m + r;
    assert m[if k == 0 then 1 else 0] != '=';
    TrimBetween(l, m, r, '=');
    TrimNoop(core, '=');
    SameNormalForm(check, t, core);
    SameNormalForm(check, t[p := x], m);
    CoreSubstitutionDetected(check, core, k, x);
  }

  lemma ProtectedBy(check: Check, id: Id, p: nat, x: Ascii)
    requires DetectsSubstitution(check)
    requires p < |Spell(check, id)| && Spell(check, id)[p] != '-'
    requires Fold(x) != Spell(check, id)[p]
    ensures Parse(check, Spell(check, id)[p := x]).Err?
  {
    SpellCharacters(check, id);
    RoundTrip(check, id);
    hide Spell, Parse, DetectsSubstitution;
    var t := Spell(check, id);
    assert InAlphabet(t[p]);
    assert Fold(t[p]) == t[p];
    SubstitutionDetected(check, t, p, x);
  }

  /** In a canonical spelling every character but the hyphens is a symbol, and each of the 56 is
      protected by Luhn mod 32. */
  lemma CanonicalProtected(id: Id, p: nat, x: Ascii)
    requires p < |Spell(Luhn32, id)| && Spell(Luhn32, id)[p] != '-'
    requires Fold(x) != Spell(Luhn32, id)[p]
    ensures Parse(Luhn32, Spell(Luhn32, id)[p := x]).Err?
  {
    Luhn32DetectsSubstitution();
    ProtectedBy(Luhn32, id, p, x);
  }

  // ---- The shape of a spelling ----

  lemma SpellCharacters(check: Check, id: Id)
    ensures var t := Spell(check, id);
            forall i :: 0 <= i < |t| ==> InAlphabet(t[i]) || t[i] == '-'
  {
    SpellingData(id);
    LuhnifiedPasses(check, Chars(Encode(id)));
    var s := Luhnified(check, Chars(Encode(id)));
    DashedCharacters(s);
    TrimCharacters(Dashed(s), '-');
    TrimCharacters(TrimLeft(Dashed(s), '-'), '-');
    forall i | 0 <= i < |Chunkify(s)|
      ensures InAlphabet(Chunkify(s)[i]) || Chunkify(s)[i] == '-'
    {
      assert Chunkify(s)[i] in Dashed(s);
    }
  }

  lemma {:induction false} DashedShape(s: Text, k: nat)
    requires |s| == 7 * k
    ensures |Dashed(s)| == 8 * k
    ensures forall j :: 0 <= j < 8 * k ==>
              Dashed(s)[j] == if j % 8 == 7 then '-' else s[j / 8 * 7 + j % 8]
    decreases k
  {
    if k > 0 {
      DashedShape(s[7..], k - 1);
      var d := Dashed(s);
      assert d == s[..7] + "-" + Dashed(s[7..]);
      forall j | 8 <= j < 8 * k
        ensures d[j] == if j % 8 == 7 then '-' else s[j / 8 * 7 + j % 8]
      {
        var i := j - 8;
        assert d[j] == Dashed(s[7..])[i];
        assert i % 8 == j % 8 && i / 8 == j / 8 - 1;
      }
    }
  }

  lemma DropLastDash(d: Text)
    requires |d| > 1 && d[0] != '-' && d[|d| - 2] != '-' && d[|d| - 1] == '-'
    ensures Trim(d, '-') == d[..|d| - 1]
  {
    var n := |d| - 1;
    assert TrimLeft(d, '-') == d;
    assert d == d[..n] + ['-'];
    TrimRightDrop(d[..n], '-');
    assert TrimRight(d[..n], '-') == d[..n];
  }

  /** A spelling is 63 characters: eight chunks of seven symbols with hyphens between. */
  lemma SpellShape(check: Check, id: Id)
    ensures AllInAlphabet(Chars(Encode(id)))
    ensures var t, s := Spell(check, id), Luhnified(check, Chars(Encode(id)));
            |t| == 63 &&
            forall j :: 0 <= j < 63 ==> t[j] == if j % 8 == 7 then '-' else s[j / 8 * 7 + j % 8]
  {
    SpellingData(id);
    LuhnifiedPasses(check, Chars(Encode(id)));
    var s := Luhnified(check, Chars(Encode(id)));
    assert Spell(check, id) == Chunkify(s);
    hide Spell, Luhnified, Encode, Chars;
    ChunkedShape(s);
  }

  lemma ChunkedShape(s: Text)
    requires |s| == CHECKED && AllInAlphabet(s)
    ensures |Chunkify(s)| == 63
    ensures forall j :: 0 <= j < 63 ==> Chunkify(s)[j] == if j % 8 == 7 then '-' else s[j / 8 * 7 + j % 8]
  {
    DashedShape(s, 8);
    hide Dashed, TrimLeft, TrimRight;
    var d := Dashed(s);
    assert d[0] == s[0] && d[62] == s[55] && d[63] == '-';
    DropLastDash(d);
  }

  // ---- Tolerance ----

  /** The same but for case and look-alike digits, with padding in the same places. */
  predicate Alike(t: Text, u: Text) {
    |t| == |u| && forall i :: 0 <= i < |t| ==> Fold(t[i]) == Fold(u[i]) && (t[i] == '=' <==> u[i] == '=')
  }

  lemma {:induction false} TrimLeftAlike(t: Text, u: Text)
    requires Alike(t, u)
    ensures Alike(TrimLeft(t, '='), TrimLeft(u, '='))
  {
    hide Fold;
    if t != [] && t[0] == '=' {
      assert forall i :: 0 <= i < |t| - 1 ==> t[1..][i] == t[i + 1] && u[1..][i] == u[i + 1];
      TrimLeftAlike(t[1..], u[1..]);
    }
  }

  lemma {:induction false} TrimRightAlike(t: Text, u: Text)
    requires Alike(t, u)
    ensures Alike(TrimRight(t, '='), TrimRight(u, '='))
  {
    hide Fold;
    if t != [] && t[|t| - 1] == '=' {
      TrimRightAlike(t[..|t| - 1], u[..|u| - 1]);
    }
  }

  lemma FoldedAlike(t: Text, u: Text)
    requires Alike(t, u)
    ensures Untypeoify(ToUpper(t)) == Untypeoify(ToUpper(u))
  {
    forall i | 0 <= i < |t|
      ensures Untypeoify(ToUpper(t))[i] == Fold(t[i]) && Untypeoify(ToUpper(u))[i] == Fold(u[i])
    {
    }
    assert |Untypeoify(ToUpper(t))| == |t| && |Untypeoify(ToUpper(u))| == |u|;
    hide *;
  }

  lemma ReadsAlike(check: Check, t: Text, u: Text)
    requires Alike(t, u)
    ensures Parse(check, t) == Parse(check, u)
  {
    TrimLeftAlike(t, u);
    TrimRightAlike(TrimLeft(t, '='), TrimLeft(u, '='));
    FoldedAlike(Trim(t, '='), Trim(u, '='));
    assert Normalize(t) == Normalize(u);
    hide Normalize;
    SameNormalForm(check, t, u);
  }

  /** A capital letter as a small one. */
  function Small(c: Ascii): Ascii {
    if 'A' <= c <= 'Z' then (c as int + 32) as char else c
  }

  /** The letters O, I and B as the digits that look like them. */
  function Digit(c: Ascii): Ascii {
    if c == 'O' then '0' else if c == 'I' then '1' else if c == 'B' then '8' else c
  }

  function Each(t: Text, f: Ascii -> Ascii): (u: Text)
    ensures |u| == |t| && forall i :: 0 <= i < |t| ==> u[i] == f(t[i])
  {
    seq(|t|, i requires 0 <= i < |t| => f(t[i]))
  }

  /** A text reads the same in small letters, and with digits for the letters they look like. */
  lemma CaseAndLooks(check: Check, t: Text)
    ensures Parse(check, Each(t, Small)) == Parse(check, t)
    ensures Parse(check, Each(t, Digit)) == Parse(check, t)
  {
    assert forall c: Ascii :: Fold(Small(c)) == Fold(c) && (Small(c) == '=' <==> c == '=');
    assert forall c: Ascii :: Fold(Digit(c)) == Fold(c) && (Digit(c) == '=' <==> c == '=');
    hide Fold, Small, Digit, Parse;
    ReadsAlike(check, Each(t, Small), t);
    ReadsAlike(check, Each(t, Digit), t);
  }

  /** Hyphens and spaces inside a text make no difference. */
  lemma SeparatorsIgnored(check: Check, a: Text, c: Ascii, b: Text)
    requires (c == '-' || c == ' ') && '=' !in a && '=' !in b
    ensures Parse(check, a + [c] + b) == Parse(check, a + b)
  {
    NormalizeTrimless(a + [c] + b);
    NormalizeTrimless(a + b);
    StripAround(a, c, b);
    StripConcat(a, b);
    assert Strip(a) + [] + Strip(b) == Strip(a) + Strip(b);
    hide Normalize, Strip, Parse;
    SameNormalForm(check, a + [c] + b, a + b);
  }

  /** An ID is read back from its spelling however the letters are written: in small letters, with
      look-alike digits, or both. */
  lemma SpellingTolerated(check: Check, id: Id)
    ensures Parse(check, Each(Spell(check, id), Small)) == Ok(id)
    ensures Parse(check, Each(Spell(check, id), Digit)) == Ok(id)
    ensures Parse(check, Each(Each(Spell(check, id), Digit), Small)) == Ok(id)
  {
    RoundTrip(check, id);
    CaseAndLooks(check, Spell(check, id));
    CaseAndLooks(check, Each(Spell(check, id), Digit));
    hide *;
  }

  // ---- Normalising twice ----

  /** The first character of a text that is not a separator. */
  function FirstKept(t: Text): Option<Ascii> {
    if t == [] then None else if Separator(t[0]) then FirstKept(t[1..]) else Some(t[0])
  }

  /** The last character of a text that is not a separator. */
  function LastKept(t: Text): Option<Ascii> {
    if t == [] then None
    else if Separator(t[|t| - 1]) then LastKept(t[..|t| - 1])
    else Some(t[|t| - 1])
  }

  lemma {:induction false} StripFirst(t: Text)
    ensures match FirstKept(t)
            case None => Strip(t) == []
            case Some(c) => Strip(t) != [] && Strip(t)[0] == Fold(c)
  {
    if t == [] {
      assert Strip(t) == [];
    } else {
      assert t == [] + [t[0]] + t[1..];
      StripAround([], t[0], t[1..]);
      StripFirst(t[1..]);
    }
  }

  lemma {:induction false} StripLast(t: Text)
    ensures match LastKept(t)
            case None => Strip(t) == []
            case Some(c) => Strip(t) != [] && Strip(t)[|Strip(t)| - 1] == Fold(c)
  {
    if t == [] {
      assert Strip(t) == [];
    } else {
      var n := |t| - 1;
      assert t == t[..n] + [t[n]] + [];
      StripAround(t[..n], t[n], []);
      StripLast(t[..n]);
    }
  }

  /** Normalising twice equals normalising once exactly when the text, trimmed of its outer padding,
      neither begins nor ends with padding once separators are left out. */
  lemma NormalizeAgain(t: Text)
    ensures Normalize(Normalize(t)) == Normalize(t) <==>
            FirstKept(Trim(t, '=')) != Some('=') && LastKept(Trim(t, '=')) != Some('=')
  {
    var n := Normalize(t);
    StripFirst(Trim(t, '='));
    StripLast(Trim(t, '='));
    assert n == Strip(Trim(t, '='));
    NormalFormAgain(t);
    hide Normalize, Strip, FirstKept, LastKept, Trim;
  }

  /** In terms of the normal form: it begins or ends with padding. */
  lemma NormalFormAgain(t: Text)
    ensures Normalize(Normalize(t)) == Normalize(t) <==>
            (Normalize(t) == [] || (Normalize(t)[0] != '=' && Normalize(t)[|Normalize(t)| - 1] != '='))
  {
    var n := Normalize(t);
    StripFixed(n, t);
    if n == [] || (n[0] != '=' && n[|n| - 1] != '=') {
      TrimNoop(n, '=');
    } else {
      TrimShortens(n, '=');
      StripShrinks(Trim(n, '='));
    }
  }

  lemma TrimShortens(n: Text, c: Ascii)
    requires n != [] && (n[0] == c || n[|n| - 1] == c)
    ensures |Trim(n, c)| < |n|
  {
  }

  lemma {:induction false} RemoveShrinks(s: Text, c: Ascii)
    ensures |Remove(s, c)| <= |s|
  {
    if s != [] {
      RemoveShrinks(s[1..], c);
    }
  }

  lemma StripShrinks(t: Text)
    ensures |Strip(t)| <= |t|
  {
    var u := Untypeoify(ToUpper(t));
    RemoveShrinks(u, '-');
    RemoveShrinks(Remove(u, '-'), ' ');
  }

  lemma StripFixed(n: Text, t: Text)
    requires n == Normalize(t)
    ensures Strip(n) == n
  {
    var u := Untypeoify(ToUpper(Trim(t, '=')));
    forall i | 0 <= i < |n|
      ensures Fold(n[i]) == n[i]
    {
      assert n[i] in Remove(u, '-');
      assert n[i] in u;
      var j :| 0 <= j < |u| && u[j] == n[i];
      assert u[j] == Fold(Trim(t, '=')[j]);
    }
    assert Untypeoify(ToUpper(n)) == n;
    assert '-' !in n;
    RemoveNoop(n, '-');
    RemoveNoop(n, ' ');
  }

  /** A text whose normal form is not stable: the hyphens shield the padding from the trimming. */
  lemma NormalizeUnstable()
    ensures Normalize("-=-") == "="
    ensures Normalize(Normalize("-=-")) == ""
  {
    assert Normalize("-=-") == "=" by {
      TrimNoop("-=-", '=');
      assert "-=-" == "-" + ['='] + "-";
      StripAround("-", '=', "-");
      StripOne('-');
      assert Fold('=') == '=';
    }
    assert TrimLeft("=", '=') == "";
    assert Normalize("=") == "";
  }
}
