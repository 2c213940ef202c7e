/** The base32 encoding of section 6 of RFC 4648, in five-byte blocks of eight symbols.

    A device ID is 32 bytes: six whole blocks and a tail of two bytes, which the encoding writes
    as four symbols and four padding characters.  The functions below cover every length of that
    shape. */
module Base32 {
  import opened Prelude
  import opened Text

  type Symbol = x: int | 0 <= x < 32

  // ---- The alphabet ----

  function SymbolChar(s: Symbol): Ascii {
    if s < 26 then ('A' as int + s) as char else ('2' as int + s - 26) as char
  }

  predicate InAlphabet(c: Ascii) {
    'A' <= c <= 'Z' || '2' <= c <= '7'
  }

  function CharSymbol(c: Ascii): Symbol
    requires InAlphabet(c)
  {
    if 'A' <= c <= 'Z' then c as int - 'A' as int else c as int - '2' as int + 26
  }

  predicate AllInAlphabet(t: Text) {
    forall i :: 0 <= i < |t| ==> InAlphabet(t[i])
  }

  function Chars(ss: seq<Symbol>): (t: Text)
    ensures |t| == |ss|
    ensures forall i :: 0 <= i < |ss| ==> t[i] == SymbolChar(ss[i])
  {
    seq(|ss|, i requires 0 <= i < |ss| => SymbolChar(ss[i]))
  }

  function Symbols(t: Text): (ss: seq<Symbol>)
    requires AllInAlphabet(t)
    ensures |ss| == |t|
    ensures forall i :: 0 <= i < |t| ==> ss[i] == CharSymbol(t[i])
  {
    seq(|t|, i requires 0 <= i < |t| => CharSymbol(t[i]))
  }

  const ALPHABET: Text := "ABCDEFGHIJKLMNOPQRSTUVWXYZ234567"

  /** The characters are those of table 3 in section 6 of RFC 4648, in its order. */
  lemma Alphabet(s: Symbol)
    ensures |ALPHABET| == 32 && ALPHABET[s] == SymbolChar(s)
  {
  }

  /** The 32 symbols and the 32 alphabet characters correspond one to one. */
  lemma AlphabetBijection(ss: seq<Symbol>, t: Text)
    ensures AllInAlphabet(Chars(ss)) && Symbols(Chars(ss)) == ss
    ensures AllInAlphabet(t) ==> Chars(Symbols(t)) == t
  {
  }

  // ---- Blocks ----

  function EncodeBlock(b: seq<Byte>): (s: seq<Symbol>)
    requires |b| == 5
    ensures |s| == 8
  {
    [b[0] / 8,
     b[0] % 8 * 4 + b[1] / 64,
     b[1] / 2 % 32,
     b[1] % 2 * 16 + b[2] / 16,
     b[2] % 16 * 2 + b[3] / 128,
     b[3] / 4 % 32,
     b[3] % 4 * 8 + b[4] / 32,
     b[4] % 32]
  }

  function DecodeBlock(s: seq<Symbol>): (b: seq<Byte>)
    requires |s| == 8
    ensures |b| == 5
  {
    var s0: int, s1: int, s2: int, s3: int := s[0], s[1], s[2], s[3];
    var s4: int, s5: int, s6: int, s7: int := s[4], s[5], s[6], s[7];
    [s0 * 8 + s1 / 4,
     s1 % 4 * 64 + s2 * 2 + s3 / 16,
     s3 % 16 * 16 + s4 / 2,
     s4 % 2 * 128 + s5 * 4 + s6 / 8,
     s6 % 8 * 32 + s7]
  }

  /** A symbol assembled from a high and a low part comes apart into the same parts. */
  lemma Split(hi: nat, lo: nat, k: nat)
    requires k in {2, 4, 8, 16, 32, 64, 128} && lo < k
    ensures (hi * k + lo) / k == hi && (hi * k + lo) % k == lo
  {
  }

  lemma MiddleByte(b: nat, k: nat)
    requires k == 2 || k == 4
    ensures b == b / (32 * k) * (32 * k) + b / k % 32 * k + b % k
  {
    if k == 2 {
      assert b / 64 == b / 2 / 32;
    } else {
      assert b / 128 == b / 4 / 32;
    }
  }

  lemma BlockDecodeEncode(b: seq<Byte>)
    requires |b| == 5
    ensures DecodeBlock(EncodeBlock(b)) == b
  {
    BlockDecodeEncodeFront(b);
    BlockDecodeEncodeBack(b);
  }

  lemma BlockDecodeEncodeFront(b: seq<Byte>)
    requires |b| == 5
    ensures DecodeBlock(EncodeBlock(b))[..2] == b[..2]
  {
    Split(b[0] % 8, b[1] / 64, 4);
    Split(b[1] % 2, b[2] / 16, 16);
    MiddleByte(b[1], 2);
    var d := DecodeBlock(EncodeBlock(b));
    assert d[0] == b[0];
    assert d[1] == b[1];
  }

  lemma BlockDecodeEncodeBack(b: seq<Byte>)
    requires |b| == 5
    ensures DecodeBlock(EncodeBlock(b))[2..] == b[2..]
  {
    Split(b[1] % 2, b[2] / 16, 16);
    Split(b[2] % 16, b[3] / 128, 2);
    Split(b[3] % 4, b[4] / 32, 8);
    MiddleByte(b[3], 4);
    var d := DecodeBlock(EncodeBlock(b));
    assert d[2] == b[2];
    assert d[3] == b[3];
    assert d[4] == b[4];
  }

  lemma BlockEncodeDecode(s: seq<Symbol>)
    requires |s| == 8
    ensures EncodeBlock(DecodeBlock(s)) == s
  {
    BlockEncodeDecodeFront(s);
    BlockEncodeDecodeBack(s);
  }

  /** A byte that spans three symbols comes apart into its three pieces. */
  lemma Cut(x: nat, y: nat, z: nat, k: nat)
    requires (k == 2 || k == 4) && y < 32 && z < k
    ensures var b := x * (32 * k) + y * k + z;
            b / (32 * k) == x && b / k % 32 == y && b % k == z
  {
    var b := x * (32 * k) + y * k + z;
    if k == 2 {
      assert b / 2 == x * 32 + y;
      Split(x, y, 32);
    } else {
      assert b / 4 == x * 32 + y;
      Split(x, y, 32);
    }
  }

  lemma BlockEncodeDecodeFront(s: seq<Symbol>)
    requires |s| == 8
    ensures EncodeBlock(DecodeBlock(s))[..4] == s[..4]
  {
    var s2: int := s[2];
    var b, e := DecodeBlock(s), EncodeBlock(DecodeBlock(s));
    Split(s[0], s[1] / 4, 8);
    Cut(s[1] % 4, s2, s[3] / 16, 2);
    Split(s[3] % 16, s[4] / 2, 16);
    assert b[0] / 8 == s[0] && b[0] % 8 == s[1] / 4;
    assert b[1] / 64 == s[1] % 4 && b[1] / 2 % 32 == s2 && b[1] % 2 == s[3] / 16;
    assert b[2] / 16 == s[3] % 16;
    assert e[0] == s[0] && e[1] == s[1] && e[2] == s[2] && e[3] == s[3];
  }

  lemma BlockEncodeDecodeBack(s: seq<Symbol>)
    requires |s| == 8
    ensures EncodeBlock(DecodeBlock(s))[4..] == s[4..]
  {
    var s5: int := s[5];
    var b, e := DecodeBlock(s), EncodeBlock(DecodeBlock(s));
    Split(s[3] % 16, s[4] / 2, 16);
    Cut(s[4] % 2, s5, s[6] / 8, 4);
    Split(s[6] % 8, s[7], 32);
    assert b[2] % 16 == s[4] / 2;
    assert b[3] / 128 == s[4] % 2 && b[3] / 4 % 32 == s5 && b[3] % 4 == s[6] / 8;
    assert b[4] / 32 == s[6] % 8 && b[4] % 32 == s[7];
    assert e[4] == s[4] && e[5] == s[5] && e[6] == s[6] && e[7] == s[7];
  }

  /** Two bytes fill three symbols and one bit of a fourth. */
  function EncodeTail(b: seq<Byte>): (s: seq<Symbol>)
    requires |b| == 2
    ensures |s| == 4
  {
    [b[0] / 8, b[0] % 8 * 4 + b[1] / 64, b[1] / 2 % 32, b[1] % 2 * 16]
  }

  /** The four low bits of the last symbol are dropped, as a decoder that is not strict does
      (section 3.5 of RFC 4648). */
  function DecodeTail(s: seq<Symbol>): (b: seq<Byte>)
    requires |s| == 4
    ensures |b| == 2
  {
    var s0: int, s1: int, s2: int, s3: int := s[0], s[1], s[2], s[3];
    [s0 * 8 + s1 / 4, s1 % 4 * 64 + s2 * 2 + s3 / 16]
  }

  lemma OneBlockLess(n: nat, k: nat)
    requires (k == 5 || k == 8) && n >= k
    ensures (n - k) / k == n / k - 1 && (n - k) % k == n % k
  {
  }

  function Encode(bs: seq<Byte>): (ss: seq<Symbol>)
    requires |bs| % 5 == 2
    ensures |ss| == |bs| / 5 * 8 + 4
  {
    if |bs| == 2 then EncodeTail(bs)
    else
      OneBlockLess(|bs|, 5);
      EncodeBlock(bs[..5]) + Encode(bs[5..])
  }

  function Decode(ss: seq<Symbol>): (bs: seq<Byte>)
    requires |ss| % 8 == 4
    ensures |bs| == |ss| / 8 * 5 + 2
  {
    if |ss| == 4 then DecodeTail(ss)
    else
      OneBlockLess(|ss|, 8);
      DecodeBlock(ss[..8]) + Decode(ss[8..])
  }

  lemma TailDecodeEncode(b: seq<Byte>)
    requires |b| == 2
    ensures DecodeTail(EncodeTail(b)) == b
  {
    Split(b[0] % 8, b[1] / 64, 4);
    var d := DecodeTail(EncodeTail(b));
    assert d[0] == b[0];
    assert d[1] == b[1];
  }

  /** The symbols with the bits the decoder ignores cleared. */
  function Canonical(ss: seq<Symbol>): (r: seq<Symbol>)
    requires |ss| > 0
    ensures |r| == |ss|
  {
    ss[..|ss| - 1] + [ss[|ss| - 1] / 16 * 16]
  }

  lemma TailEncodeDecode(s: seq<Symbol>)
    requires |s| == 4
    ensures EncodeTail(DecodeTail(s)) == Canonical(s)
  {
    var s2: int := s[2];
    var b, e := DecodeTail(s), EncodeTail(DecodeTail(s));
    Split(s[0], s[1] / 4, 8);
    Cut(s[1] % 4, s2, s[3] / 16, 2);
    assert b[0] / 8 == s[0] && b[0] % 8 == s[1] / 4;
    assert b[1] / 64 == s[1] % 4 && b[1] / 2 % 32 == s2 && b[1] % 2 == s[3] / 16;
    assert e[0] == s[0] && e[1] == s[1] && e[2] == s[2] && e[3] == s[3] / 16 * 16;
  }

  lemma {:induction false} DecodeEncode(bs: seq<Byte>)
    requires |bs| % 5 == 2
    ensures Decode(Encode(bs)) == bs
  {
    if |bs| == 2 {
      TailDecodeEncode(bs);
    } else {
      DecodeEncode(bs[5..]);
      BlockDecodeEncode(bs[..5]);
      var ss := Encode(bs);
      assert ss[..8] == EncodeBlock(bs[..5]) && ss[8..] == Encode(bs[5..]);
    }
  }

  lemma {:induction false} EncodeDecode(ss: seq<Symbol>)
    requires |ss| % 8 == 4
    ensures Encode(Decode(ss)) == Canonical(ss)
  {
    if |ss| == 4 {
      TailEncodeDecode(ss);
    } else {
      EncodeDecode(ss[8..]);
      BlockEncodeDecode(ss[..8]);
      var bs := Decode(ss);
      assert bs[..5] == DecodeBlock(ss[..8]) && bs[5..] == Decode(ss[8..]);
      assert ss[8..][..|ss| - 9] == ss[8..|ss| - 1];
      assert ss[..|ss| - 1] == ss[..8] + ss[8..|ss| - 1];
    }
  }

  /** Exactly which symbol strings decode alike: those that differ at most in the ignored bits. */
  lemma DecodeKernel(s: seq<Symbol>, t: seq<Symbol>)
    requires |s| % 8 == 4 && |t| == |s|
    ensures Decode(s) == Decode(t) <==>
            s[..|s| - 1] == t[..|s| - 1] && s[|s| - 1] / 16 == t[|s| - 1] / 16
  {
    var n := |s| - 1;
    EncodeDecode(s);
    EncodeDecode(t);
    DecodeEncode(Decode(s));
    DecodeEncode(Decode(t));
    assert Canonical(s)[..n] == s[..n] && Canonical(s)[n] == s[n] / 16 * 16;
    assert Canonical(t)[..n] == t[..n] && Canonical(t)[n] == t[n] / 16 * 16;
  }

  // ---- The encoding as a change of base ----

  function ByteValue(acc: nat, bs: seq<Byte>): nat
    decreases |bs|
  {
    if bs == [] then acc else ByteValue(acc * 256 + bs[0], bs[1..])
  }

  function SymbolValue(acc: nat, ss: seq<Symbol>): nat
    decreases |ss|
  {
    if ss == [] then acc else SymbolValue(acc * 32 + ss[0], ss[1..])
  }

  lemma {:induction false} ByteValueConcat(acc: nat, a: seq<Byte>, b: seq<Byte>)
    ensures ByteValue(acc, a + b) == ByteValue(ByteValue(acc, a), b)
    decreases |a|
  {
    if a == [] {
      assert a + b == b;
    } else {
      assert (a + b)[1..] == a[1..] + b;
      ByteValueConcat(acc * 256 + a[0], a[1..], b);
    }
  }

  lemma {:induction false} SymbolValueConcat(acc: nat, a: seq<Symbol>, b: seq<Symbol>)
    ensures SymbolValue(acc, a + b) == SymbolValue(SymbolValue(acc, a), b)
    decreases |a|
  {
    if a == [] {
      assert a + b == b;
    } else {
      assert (a + b)[1..] == a[1..] + b;
      SymbolValueConcat(acc * 32 + a[0], a[1..], b);
    }
  }

  lemma ByteValue5(acc: nat, b: seq<Byte>)
    requires |b| == 5
    ensures ByteValue(acc, b) ==
            ((((acc * 256 + b[0]) * 256 + b[1]) * 256 + b[2]) * 256 + b[3]) * 256 + b[4]
  {
    var a1 := acc * 256 + b[0];
    var a2 := a1 * 256 + b[1];
    var a3 := a2 * 256 + b[2];
    var a4 := a3 * 256 + b[3];
    assert ByteValue(acc, b) == ByteValue(a1, b[1..]);
    assert ByteValue(a1, b[1..]) == ByteValue(a2, b[2..]) by { assert b[1..][1..] == b[2..]; }
    assert ByteValue(a2, b[2..]) == ByteValue(a3, b[3..]) by { assert b[2..][1..] == b[3..]; }
    assert ByteValue(a3, b[3..]) == ByteValue(a4, b[4..]) by { assert b[3..][1..] == b[4..]; }
    assert ByteValue(a4, b[4..]) == a4 * 256 + b[4] by { assert b[4..][1..] == []; }
  }

  lemma SymbolValue4(acc: nat, s: seq<Symbol>)
    requires |s| == 4
    ensures SymbolValue(acc, s) == (((acc * 32 + s[0]) * 32 + s[1]) * 32 + s[2]) * 32 + s[3]
  {
    var a1 := acc * 32 + s[0];
    var a2 := a1 * 32 + s[1];
    var a3 := a2 * 32 + s[2];
    assert SymbolValue(acc, s) == SymbolValue(a1, s[1..]);
    assert SymbolValue(a1, s[1..]) == SymbolValue(a2, s[2..]) by { assert s[1..][1..] == s[2..]; }
    assert SymbolValue(a2, s[2..]) == SymbolValue(a3, s[3..]) by { assert s[2..][1..] == s[3..]; }
    assert SymbolValue(a3, s[3..]) == a3 * 32 + s[3] by { assert s[3..][1..] == []; }
  }

  /** Five bytes cut at the symbol boundaries: pure linear arithmetic on the pieces. */
  lemma PiecesValue(acc: nat, b: seq<nat>, h0: nat, l0: nat, h1: nat, m1: nat, l1: nat,
                    h2: nat, l2: nat, h3: nat, m3: nat, l3: nat, h4: nat, l4: nat)
    requires |b| == 5
    requires b[0] == h0 * 8 + l0
    requires b[1] == h1 * 64 + m1 * 2 + l1
    requires b[2] == h2 * 16 + l2
    requires b[3] == h3 * 128 + m3 * 4 + l3
    requires b[4] == h4 * 32 + l4
    ensures ((((acc * 256 + b[0]) * 256 + b[1]) * 256 + b[2]) * 256 + b[3]) * 256 + b[4] ==
            (((((((acc * 32 + h0) * 32 + (l0 * 4 + h1)) * 32 + m1) * 32 + (l1 * 16 + h2)) * 32
              + (l2 * 2 + h3)) * 32 + m3) * 32 + (l3 * 8 + h4)) * 32 + l4
  {
  }

  lemma SymbolValue8(acc: nat, s: seq<Symbol>)
    requires |s| == 8
    ensures SymbolValue(acc, s) ==
            (((((((acc * 32 + s[0]) * 32 + s[1]) * 32 + s[2]) * 32 + s[3]) * 32
              + s[4]) * 32 + s[5]) * 32 + s[6]) * 32 + s[7]
  {
    assert s == s[..4] + s[4..];
    SymbolValueConcat(acc, s[..4], s[4..]);
    SymbolValue4(acc, s[..4]);
    SymbolValue4(SymbolValue(acc, s[..4]), s[4..]);
  }

  lemma BlockValue(acc: nat, b: seq<Byte>)
    requires |b| == 5
    ensures SymbolValue(acc, EncodeBlock(b)) == ByteValue(acc, b)
  {
    ByteValue5(acc, b);
    SymbolValue8(acc, EncodeBlock(b));
    MiddleByte(b[1], 2);
    MiddleByte(b[3], 4);
    PiecesValue(acc, b, b[0] / 8, b[0] % 8, b[1] / 64, b[1] / 2 % 32, b[1] % 2,
                b[2] / 16, b[2] % 16, b[3] / 128, b[3] / 4 % 32, b[3] % 4, b[4] / 32, b[4] % 32);
  }

  lemma TailValue(acc: nat, b: seq<Byte>)
    requires |b| == 2
    ensures SymbolValue(acc, EncodeTail(b)) == ByteValue(acc, b) * 16
  {
    SymbolValue4(acc, EncodeTail(b));
    var b0: int, b1: int := b[0], b[1];
    assert b0 == b0 / 8 * 8 + b0 % 8;
    MiddleByte(b1, 2);
    var a1 := acc * 256 + b0;
    assert ByteValue(acc, b) == ByteValue(a1, b[1..]);
    assert ByteValue(a1, b[1..]) == a1 * 256 + b1 by { assert b[1..][1..] == []; }
  }

  /** The encoding reads the bytes as one big-endian number, shifts it left by the four spare
      bits, and writes it in base 32. */
  lemma {:induction false} EncodeValue(acc: nat, bs: seq<Byte>)
    requires |bs| % 5 == 2
    ensures SymbolValue(acc, Encode(bs)) == ByteValue(acc, bs) * 16
    decreases |bs|
  {
    if |bs| == 2 {
      TailValue(acc, bs);
    } else {
      BlockValue(acc, bs[..5]);
      EncodeValue(ByteValue(acc, bs[..5]), bs[5..]);
      SymbolValueConcat(acc, EncodeBlock(bs[..5]), Encode(bs[5..]));
      ByteValueConcat(acc, bs[..5], bs[5..]);
      assert bs[..5] + bs[5..] == bs;
    }
  }

  // ---- Text ----

  const PADDING: Text := "===="

  function EncodeToString(bs: seq<Byte>): Text
    requires |bs| % 5 == 2
  {
    Chars(Encode(bs)) + PADDING
  }

  /** Decoding of text that ends in the padding; anything outside the alphabet before the padding
      is corrupt input. */
  function DecodeString(t: Text): Option<seq<Byte>>
    requires |t| % 8 == 0 && |t| >= 8 && t[|t| - 4..] == PADDING
  {
    var data := t[..|t| - 4];
    if AllInAlphabet(data) then Some(Decode(Symbols(data))) else None
  }
}
