/** The text form of a device ID: 32 bytes as base32, a check symbol after every thirteen symbols,
    and hyphens after every seven; and the tolerant parser back.

    Everything is parametric in the check function.  Functions give the meaning of the codec; the
    methods of module IdText carry out its loops and the update of the receiver. */
module DeviceId {
  import opened Prelude
  import opened Text
  import opened Base32
  import opened Luhn

  type Id = bs: seq<Byte> | |bs| == 32 witness seq(32, i => 0)

  /** The zero value, which a receiver keeps when its text does not parse. */
  const ZERO: Id := [0, 0, 0, 0, 0, 0, 0, 0, 0, 0, 0, 0, 0, 0, 0, 0,
                   0, 0, 0, 0, 0, 0, 0, 0, 0, 0, 0, 0, 0, 0, 0, 0]

  datatype Error = IncorrectLength | InvalidDigit | CheckDigitIncorrect | CorruptBase32

  // ---- Check digits ----

  const DATA: nat := 52
  const CHECKED: nat := 56

  /** Group i of a 52-symbol string, followed by its check symbol. */
  function CheckedGroup(check: Check, s: Text, i: nat): (r: Text)
    requires |s| == DATA && AllInAlphabet(s) && i < 4
    ensures |r| == 14
  {
    var chunk := s[i * 13..(i + 1) * 13];
    chunk + [Generate(check, chunk).value]
  }

  function Luhnified(check: Check, s: Text): (r: Text)
    requires |s| == DATA && AllInAlphabet(s)
    ensures |r| == CHECKED
  {
    CheckedGroup(check, s, 0) + CheckedGroup(check, s, 1) +
    CheckedGroup(check, s, 2) + CheckedGroup(check, s, 3)
  }

  function DataGroup(s: Text, i: nat): (r: Text)
    requires |s| == CHECKED && i < 4
    ensures |r| == 13
  {
    s[i * 14..i * 14 + 13]
  }

  /** The 52 data characters of a checked string. */
  function DataOf(s: Text): (r: Text)
    requires |s| == CHECKED
    ensures |r| == DATA
  {
    DataGroup(s, 0) + DataGroup(s, 1) + DataGroup(s, 2) + DataGroup(s, 3)
  }

  /** What is wrong with group i of a checked string, if anything. */
  function GroupFault(check: Check, s: Text, i: nat): Option<Error>
    requires |s| == CHECKED && i < 4
  {
    match Generate(check, DataGroup(s, i))
    case None => Some(InvalidDigit)
    case Some(l) => if l == s[i * 14 + 13] then None else Some(CheckDigitIncorrect)
  }

  function FirstFault(check: Check, s: Text, i: nat): (r: Option<Error>)
    requires |s| == CHECKED && i <= 4
    ensures r == None <==> forall j :: i <= j < 4 ==> GroupFault(check, s, j) == None
    decreases 4 - i
  {
    if i == 4 then None
    else if GroupFault(check, s, i) != None then GroupFault(check, s, i)
    else FirstFault(check, s, i + 1)
  }

  function Unluhnified(check: Check, s: Text): Result<Text, Error>
    requires |s| == CHECKED
  {
    match FirstFault(check, s, 0)
    case Some(e) => Err(e)
    case None => Ok(DataOf(s))
  }

  // ---- Hyphens ----

  /** A hyphen after every seven characters, the last seven included. */
  function Dashed(s: Text): Text {
    if |s| < 7 then s else s[..7] + "-" + Dashed(s[7..])
  }

  function Chunkify(s: Text): Text {
    Trim(Dashed(s), '-')
  }

  function Unchunkify(s: Text): Text {
    Remove(Remove(s, '-'), ' ')
  }

  // ---- Spelling ----

  function Upper(c: Ascii): Ascii {
    if 'a' <= c <= 'z' then (c as int - 'a' as int + 'A' as int) as char else c
  }

  function ToUpper(s: Text): Text {
    seq(|s|, i requires 0 <= i < |s| => Upper(s[i]))
  }

  function Replace(s: Text, a: Ascii, b: Ascii): Text {
    seq(|s|, i requires 0 <= i < |s| => if s[i] == a then b else s[i])
  }

  function Untypeoify(s: Text): Text {
    Replace(Replace(Replace(s, '0', 'O'), '1', 'I'), '8', 'B')
  }

  // ---- The codec ----

  function Spell(check: Check, id: Id): Text {
    var ss := Trim(EncodeToString(id), '=');
    SpellingData(id);
    Chunkify(Luhnified(check, ss))
  }

  function Normalize(t: Text): Text {
    Unchunkify(Untypeoify(ToUpper(Trim(t, '='))))
  }

  function Parse(check: Check, t: Text): Result<Id, Error> {
    var n := Normalize(t);
    if |n| != CHECKED then Err(IncorrectLength)
    else
      match Unluhnified(check, n)
      case Err(e) => Err(e)
      case Ok(s) =>
        match DecodeString(s + PADDING)
        case None => Err(CorruptBase32)
        case Some(dec) => Ok(dec)
  }

  /** Trimming the padding leaves the 52 symbols. */
  lemma SpellingData(id: Id)
    ensures AllInAlphabet(Chars(Encode(id)))
    ensures Trim(EncodeToString(id), '=') == Chars(Encode(id))
  {
    var s := Chars(Encode(id));
    AlphabetBijection(Encode(id), s);
    assert s[0] != '=' && s[|s| - 1] != '=';
    assert TrimLeft(s + PADDING, '=') == s + PADDING;
    TrimRightAll(s, PADDING, '=');
  }

  // ---- Round trip ----

  lemma {:induction false} RemoveDashes(s: Text)
    requires '-' !in s
    ensures Remove(Dashed(s), '-') == s
    decreases |s|
  {
    if |s| < 7 {
      RemoveNoop(s, '-');
    } else {
      var h, rest := s[..7], s[7..];
      assert s == h + rest && Dashed(s) == (h + "-") + Dashed(rest);
      assert Remove("-", '-') == "";
      hide Remove, Dashed;
      RemoveConcat(h + "-", Dashed(rest), '-');
      RemoveConcat(h, "-", '-');
      RemoveNoop(h, '-');
      RemoveDashes(rest);
    }
  }

  lemma UnchunkifyChunkify(s: Text)
    requires '-' !in s && ' ' !in s
    ensures Unchunkify(Chunkify(s)) == s
  {
    RemoveTrim(Dashed(s), '-');
    RemoveDashes(s);
    RemoveNoop(s, ' ');
  }

  /** A checked string carries its data unchanged and every group passes. */
  lemma LuhnifiedPasses(check: Check, s: Text)
    requires |s| == DATA && AllInAlphabet(s)
    ensures AllInAlphabet(Luhnified(check, s))
    ensures Unluhnified(check, Luhnified(check, s)) == Ok(s)
  {
    var r := Luhnified(check, s);
    forall i: nat | i < 4
      ensures DataGroup(r, i) == s[i * 13..(i + 1) * 13]
      ensures GroupFault(check, r, i) == None
      ensures InAlphabet(r[i * 14 + 13])
    {
      LuhnifiedGroup(check, s, i);
    }
    hide Luhnified, GroupFault, InAlphabet;
    GroupsData(r, s);
    forall j | 0 <= j < CHECKED
      ensures InAlphabet(r[j])
    {
      if j % 14 < 13 {
        assert r[j] == DataGroup(r, j / 14)[j % 14] == s[j / 14 * 13 + j % 14];
      } else {
        assert j == j / 14 * 14 + 13;
      }
    }
  }

  lemma GroupsData(r: Text, s: Text)
    requires |r| == CHECKED && |s| == DATA
    requires forall i :: 0 <= i < 4 ==> DataGroup(r, i) == s[i * 13..(i + 1) * 13]
    ensures DataOf(r) == s
  {
    assert DataGroup(r, 0) == s[..13] && DataGroup(r, 1) == s[13..26];
    assert DataGroup(r, 2) == s[26..39] && DataGroup(r, 3) == s[39..];
    hide DataGroup;
    assert s == s[..13] + s[13..26] + s[26..39] + s[39..];
  }

  lemma LuhnifiedGroup(check: Check, s: Text, i: nat)
    requires |s| == DATA && AllInAlphabet(s) && i < 4
    ensures var r := Luhnified(check, s);
            r[i * 14..i * 14 + 14] == CheckedGroup(check, s, i) &&
            DataGroup(r, i) == s[i * 13..(i + 1) * 13] &&
            GroupFault(check, r, i) == None && InAlphabet(r[i * 14 + 13])
  {
    var r := Luhnified(check, s);
    var g := CheckedGroup(check, s, i);
    assert r[i * 14..i * 14 + 14] == g;
    assert DataGroup(r, i) == g[..13];
    assert r[i * 14 + 13] == g[13];
  }

  /** Folding case and look-alike digits leaves canonical characters alone. */
  lemma FoldNoop(t: Text)
    requires forall i :: 0 <= i < |t| ==> InAlphabet(t[i]) || t[i] == '-'
    ensures Untypeoify(ToUpper(t)) == t
  {
  }

  lemma {:induction false} DashedCharacters(s: Text)
    requires AllInAlphabet(s)
    ensures forall i :: 0 <= i < |Dashed(s)| ==> InAlphabet(Dashed(s)[i]) || Dashed(s)[i] == '-'
    decreases |s|
  {
    if |s| >= 7 {
      DashedCharacters(s[7..]);
    }
  }

  lemma {:induction false} TrimCharacters(s: Text, c: Ascii)
    ensures forall x :: x in TrimLeft(s, c) ==> x in s
    ensures forall x :: x in TrimRight(s, c) ==> x in s
    decreases |s|
  {
    if s != [] && s[0] == c {
      TrimCharacters(s[1..], c);
    }
    if s != [] && s[|s| - 1] == c {
      TrimCharacters(s[..|s| - 1], c);
    }
  }

  /** The normal form of a hyphenated string of alphabet characters is the string. */
  lemma NormalizeChunkify(s: Text)
    requires AllInAlphabet(s)
    ensures Normalize(Chunkify(s)) == s
  {
    var t := Chunkify(s);
    DashedCharacters(s);
    TrimCharacters(Dashed(s), '-');
    TrimCharacters(TrimLeft(Dashed(s), '-'), '-');
    forall i | 0 <= i < |t|
      ensures InAlphabet(t[i]) || t[i] == '-'
    {
      assert t[i] in Dashed(s);
    }
    TrimNoop(t, '=');
    FoldNoop(t);
    UnchunkifyChunkify(s);
  }

  /** The normal form of a spelling: the checked string itself. */
  lemma NormalizeSpell(check: Check, id: Id)
    ensures AllInAlphabet(Chars(Encode(id)))
    ensures Normalize(Spell(check, id)) == Luhnified(check, Chars(Encode(id)))
  {
    SpellingData(id);
    LuhnifiedPasses(check, Chars(Encode(id)));
    NormalizeChunkify(Luhnified(check, Chars(Encode(id))));
  }

  /** Every ID survives being written and read back, whatever the check function. */
  lemma RoundTrip(check: Check, id: Id)
    ensures Parse(check, Spell(check, id)) == Ok(id)
  {
    var s := Chars(Encode(id));
    NormalizeSpell(check, id);
    LuhnifiedPasses(check, s);
    assert (s + PADDING)[..|s + PADDING| - 4] == s;
    AlphabetBijection(Encode(id), s);
    DecodeEncode(id);
  }

  lemma SpellInjective(check: Check, a: Id, b: Id)
    ensures Spell(check, a) == Spell(check, b) <==> a == b
  {
    RoundTrip(check, a);
    RoundTrip(check, b);
  }

  // ---- What the parser accepts, and as what ----

  /** A normal form that parses: 56 alphabet characters whose check symbols are right. */
  predicate WellChecked(check: Check, n: Text) {
    |n| == CHECKED && AllInAlphabet(n) &&
    forall i :: 0 <= i < 4 ==> n[i * 14 + 13] == SymbolChar(check(Symbols(DataGroup(n, i))))
  }

  lemma GroupFaultFree(check: Check, n: Text, i: nat)
    requires |n| == CHECKED && i < 4
    ensures GroupFault(check, n, i) == None <==>
            AllInAlphabet(DataGroup(n, i)) &&
            n[i * 14 + 13] == SymbolChar(check(Symbols(DataGroup(n, i))))
  {
  }

  lemma FaultFree(check: Check, n: Text)
    requires |n| == CHECKED
    ensures FirstFault(check, n, 0) == None <==> WellChecked(check, n)
    ensures WellChecked(check, n) ==> AllInAlphabet(DataOf(n))
  {
    forall i: nat | i < 4
      ensures GroupFault(check, n, i) == None <==>
              AllInAlphabet(DataGroup(n, i)) &&
              n[i * 14 + 13] == SymbolChar(check(Symbols(DataGroup(n, i))))
    {
      GroupFaultFree(check, n, i);
    }
    if FirstFault(check, n, 0) == None {
      forall j | 0 <= j < CHECKED
        ensures InAlphabet(n[j])
      {
        assert GroupFault(check, n, j / 14) == None;
        if j % 14 < 13 {
          assert n[j] == DataGroup(n, j / 14)[j % 14];
        } else {
          assert j == j / 14 * 14 + 13;
        }
      }
    }
  }

  /** Exactly which texts are accepted, and the ID each stands for.  In particular the base32
      decoder never sees a corrupt character. */
  lemma Acceptance(check: Check, t: Text)
    ensures Parse(check, t).Ok? <==> WellChecked(check, Normalize(t))
    ensures Parse(check, t).Ok? ==>
            AllInAlphabet(DataOf(Normalize(t))) &&
            Parse(check, t).value == Decode(Symbols(DataOf(Normalize(t))))
    ensures Parse(check, t) != Err(CorruptBase32)
  {
    var n := Normalize(t);
    if |n| == CHECKED {
      FaultFree(check, n);
      var s := DataOf(n);
      assert (s + PADDING)[..|s + PADDING| - 4] == s;
    }
  }

  /** Group i is the first, from group k on, that does not pass. */
  predicate FirstBad(check: Check, n: Text, k: nat, i: nat)
    requires |n| == CHECKED
  {
    k <= i < 4 && GroupFault(check, n, i) != None && forall j :: k <= j < i ==> GroupFault(check, n, j) == None
  }

  lemma {:induction false} FirstFaultAt(check: Check, n: Text, k: nat, e: Error)
    requires |n| == CHECKED && k <= 4
    ensures FirstFault(check, n, k) == Some(e) <==>
            exists i: nat :: FirstBad(check, n, k, i) && GroupFault(check, n, i) == Some(e)
    decreases 4 - k
  {
    hide GroupFault;
    if k < 4 {
      FirstFaultAt(check, n, k + 1, e);
      if GroupFault(check, n, k) != None {
        assert FirstBad(check, n, k, k);
        assert forall i: nat :: FirstBad(check, n, k, i) ==> i == k;
      } else {
        assert forall i: nat :: FirstBad(check, n, k, i) <==> FirstBad(check, n, k + 1, i);
      }
    }
  }

  /** Why a text is rejected: its normal form has not 56 characters, or the first of its groups that
      does not pass has a character outside the alphabet among its thirteen, or the wrong check
      symbol. */
  lemma RejectedIff(check: Check, t: Text, e: Error)
    ensures Parse(check, t) == Err(e) <==>
            if |Normalize(t)| != CHECKED then e == IncorrectLength
            else exists i: nat :: FirstBad(check, Normalize(t), 0, i) &&
                                  e == if AllInAlphabet(DataGroup(Normalize(t), i)) then CheckDigitIncorrect
                                       else InvalidDigit
  {
    Acceptance(check, t);
    var n := Normalize(t);
    hide Normalize;
    if |n| == CHECKED {
      FirstFaultAt(check, n, 0, e);
      forall i: nat | i < 4 && GroupFault(check, n, i) != None
        ensures GroupFault(check, n, i) ==
                Some(if AllInAlphabet(DataGroup(n, i)) then CheckDigitIncorrect else InvalidDigit)
      {
      }
      hide GroupFault, AllInAlphabet, DataGroup, WellChecked;
    }
  }

  /** Two accepted texts name the same ID exactly when their data agree on the first 51 symbols
      and the 52nd symbols share their top bit. */
  lemma SameIdIff(check: Check, t: Text, u: Text)
    requires Parse(check, t).Ok? && Parse(check, u).Ok?
    ensures AllInAlphabet(DataOf(Normalize(t))) && AllInAlphabet(DataOf(Normalize(u)))
    ensures var a, b := DataOf(Normalize(t)), DataOf(Normalize(u));
            Parse(check, t) == Parse(check, u) <==>
            a[..51] == b[..51] && CharSymbol(a[51]) / 16 == CharSymbol(b[51]) / 16
  {
    Acceptance(check, t);
    Acceptance(check, u);
    var a, b := DataOf(Normalize(t)), DataOf(Normalize(u));
    DecodeKernel(Symbols(a), Symbols(b));
    AlphabetBijection([], a[..51]);
    AlphabetBijection([], b[..51]);
    assert Symbols(a)[..51] == Symbols(a[..51]);
    assert Symbols(b)[..51] == Symbols(b[..51]);
  }

  lemma GroupByData(check: Check, n: Text, i: nat)
    requires WellChecked(check, n) && i < 4 && AllInAlphabet(DataOf(n))
    ensures CheckedGroup(check, DataOf(n), i) == n[i * 14..i * 14 + 14]
  {
    var g := DataGroup(n, i);
    assert DataOf(n)[i * 13..(i + 1) * 13] == g;
    hide DataOf;
    assert AllInAlphabet(g) && Generate(check, g) == Some(n[i * 14 + 13]);
    hide WellChecked, Generate, AllInAlphabet;
    assert n[i * 14..i * 14 + 14] == g + [n[i * 14 + 13]];
  }

  lemma FourGroups(check: Check, s: Text, n: Text)
    requires |s| == DATA && AllInAlphabet(s) && |n| == CHECKED
    requires forall i :: 0 <= i < 4 ==> CheckedGroup(check, s, i) == n[i * 14..i * 14 + 14]
    ensures Luhnified(check, s) == n
  {
    assert CheckedGroup(check, s, 0) == n[..14];
    assert CheckedGroup(check, s, 1) == n[14..28];
    assert CheckedGroup(check, s, 2) == n[28..42];
    assert CheckedGroup(check, s, 3) == n[42..];
    hide CheckedGroup, AllInAlphabet;
    assert n == n[..14] + n[14..28] + n[28..42] + n[42..];
  }

  /** A checked string is determined by its data. */
  lemma CheckedByData(check: Check, n: Text)
    requires WellChecked(check, n)
    ensures AllInAlphabet(DataOf(n)) && Luhnified(check, DataOf(n)) == n
  {
    FaultFree(check, n);
    assert |n| == CHECKED;
    forall i: nat | i < 4
      ensures CheckedGroup(check, DataOf(n), i) == n[i * 14..i * 14 + 14]
    {
      GroupByData(check, n, i);
    }
    hide *;
    FourGroups(check, DataOf(n), n);
  }

  /** Writing out an accepted text's ID gives that ID's one canonical spelling. */
  lemma Reencoding(check: Check, t: Text, x: Id)
    requires Parse(check, t).Ok?
    ensures var c := Spell(check, Parse(check, t).value);
            Parse(check, c) == Parse(check, t) &&
            (Parse(check, Spell(check, x)) == Parse(check, t) <==> Spell(check, x) == c)
  {
    RoundTrip(check, Parse(check, t).value);
    RoundTrip(check, x);
  }

  /** An accepted text already is the canonical spelling, up to normalisation, exactly when its
      last data symbol leaves the four spare bits clear. */
  lemma CanonicalIff(check: Check, t: Text)
    requires Parse(check, t).Ok?
    ensures AllInAlphabet(DataOf(Normalize(t)))
    ensures Normalize(Spell(check, Parse(check, t).value)) == Normalize(t) <==>
            CharSymbol(DataOf(Normalize(t))[51]) % 16 == 0
  {
    Acceptance(check, t);
    var id, n := Parse(check, t).value, Normalize(t);
    var s := DataOf(n);
    var c := Chars(Encode(id));
    NormalizeSpell(check, id);
    LuhnifiedPasses(check, c);
    CheckedByData(check, n);
    assert DataOf(Luhnified(check, c)) == c;
    assert Luhnified(check, c) == n <==> c == s;
    AlphabetBijection(Encode(id), s);
    EncodeDecode(Symbols(s));
    CanonicalFixed(Symbols(s));
    assert c == s <==> Encode(id) == Symbols(s);
  }

  lemma CanonicalFixed(ss: seq<Symbol>)
    requires |ss| > 0
    ensures Canonical(ss) == ss <==> ss[|ss| - 1] % 16 == 0
  {
  }
}
