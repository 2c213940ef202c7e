/** Check digits over base32 groups.

    The device-ID codec asks a library for one check symbol per group of thirteen symbols.  The
    codec's laws hold for any deterministic check function; Luhn mod 32, which the library computes,
    is the instance that the error-detection results need. */
module Luhn {
  import opened Prelude
  import opened Text
  import opened Base32

  /** A check function: total and deterministic, from a group of symbols to one symbol. */
  type Check = seq<Symbol> -> Symbol

  const GROUP: nat := 13

  /** The library call: it fails on a character outside the alphabet. */
  function Generate(check: Check, chunk: Text): Option<Ascii> {
    if AllInAlphabet(chunk) then Some(SymbolChar(check(Symbols(chunk)))) else None
  }

  /** Changing any single symbol of a group changes its check symbol. */
  ghost predicate DetectsSubstitution(check: Check) {
    forall g: seq<Symbol>, i: nat, x: Symbol ::
      |g| == GROUP && i < GROUP && x != g[i] ==> Notices(check, g, i, x)
  }

  predicate Notices(check: Check, g: seq<Symbol>, i: nat, x: Symbol)
    requires i < |g|
  {
    check(g[i := x]) != check(g)
  }

  // ---- Luhn mod 32 ----

  /** Symbols at odd places, counted from the right end of the group, are doubled. */
  predicate Doubled(n: nat) {
    n % 2 == 1
  }

  lemma EveryOther(n: nat)
    ensures Doubled(n + 1) <==> !Doubled(n)
  {
  }

  /** What a symbol adds n places from the right end: the sum of the two base-32 digits of the symbol
      or its double. */
  function Addend(n: nat, x: Symbol): Symbol {
    var v: int := if Doubled(n) then 2 * x as int else x;
    v / 32 + v % 32
  }

  function Sum(g: seq<Symbol>): nat {
    if g == [] then 0 else Addend(|g|, g[0]) + Sum(g[1..])
  }

  function CheckSymbol(sum: nat): Symbol {
    (32 - sum % 32) % 32
  }

  function Luhn32(g: seq<Symbol>): Symbol {
    CheckSymbol(Sum(g))
  }

  /** The library's loop, from the left with a factor that starts so as to end at the double. */
  method GenerateBase32(s: Text) returns (r: Option<Ascii>)
    ensures r == Generate(Luhn32, s)
  {
    var factor: int := if |s| % 2 == 1 then 2 else 1;
    assert Doubled(|s|) <==> factor == 2;
    hide Doubled;
    var sum: int := 0;
    for i := 0 to |s|
      invariant AllInAlphabet(s[..i])
      invariant factor == if Doubled(|s| - i) then 2 else 1
      invariant AllInAlphabet(s) ==> sum + Sum(Symbols(s)[i..]) == Sum(Symbols(s))
    {
      if !InAlphabet(s[i]) {
        return None;
      }
      var codepoint: int := CharSymbol(s[i]);
      var addend: int := factor * codepoint;
      factor := if factor == 2 then 1 else 2;
      addend := addend / 32 + addend % 32;
      EveryOther(|s| - i - 1);
      if AllInAlphabet(s) {
        assert Symbols(s)[i..][1..] == Symbols(s)[i + 1..];
      }
      sum := sum + addend;
    }
    assert s[..|s|] == s;
    var remainder := sum % 32;
    r := Some(SymbolChar((32 - remainder) % 32));
  }

  /** What doubling makes of a symbol, beyond the symbol itself. */
  function Excess(x: Symbol): int {
    if x < 16 then x else x as int - 31
  }

  lemma AddendValue(n: nat, x: Symbol)
    ensures Addend(n, x) == x as int + if Doubled(n) then Excess(x) else 0
  {
  }

  lemma AddendInjective(n: nat, x: Symbol, y: Symbol)
    requires x != y
    ensures Addend(n, x) != Addend(n, y)
  {
    AddendValue(n, x);
    AddendValue(n, y);
    hide Addend;
  }

  lemma {:induction false} SumUpdate(g: seq<Symbol>, i: nat, x: Symbol, n: nat)
    requires i < |g| && n == |g| - i
    ensures Sum(g[i := x]) + Addend(n, g[i]) == Sum(g) + Addend(n, x)
  {
    hide Addend;
    if i == 0 {
      assert g[i := x][1..] == g[1..];
    } else {
      assert g[i := x][1..] == g[1..][i - 1 := x];
      SumUpdate(g[1..], i - 1, x, n);
    }
  }

  /** The check symbol is the sum's remainder in disguise, and sums less than 32 apart have the
      same remainder only when they are equal. */
  lemma CheckOfSum(s: nat, t: nat)
    requires -32 < s - t < 32
    ensures CheckSymbol(s) == CheckSymbol(t) <==> s == t
  {
    CheckResidue(s);
    CheckResidue(t);
    hide CheckSymbol;
    var p, q, r, u := s / 32, t / 32, s % 32, t % 32;
    assert s == 32 * p + r && t == 32 * q + u;
    assert r == u ==> p == q;
  }

  lemma CheckResidue(s: nat)
    ensures CheckSymbol(s) == if s % 32 == 0 then 0 else 32 - s % 32
  {
  }

  lemma Luhn32Detects(g: seq<Symbol>, i: nat, x: Symbol)
    requires i < |g| && x != g[i]
    ensures Luhn32(g[i := x]) != Luhn32(g)
  {
    SumUpdate(g, i, x, |g| - i);
    AddendInjective(|g| - i, x, g[i]);
    hide Addend, Sum, CheckSymbol;
    CheckOfSum(Sum(g[i := x]), Sum(g));
  }

  /** Luhn mod 32 notices every single-symbol substitution in a group. */
  lemma Luhn32DetectsSubstitution()
    ensures DetectsSubstitution(Luhn32)
  {
    hide Luhn32;
    forall g: seq<Symbol>, i: nat, x: Symbol | |g| == GROUP && i < GROUP && x != g[i]
      ensures Notices(Luhn32, g, i, x)
    {
      Luhn32Detects(g, i, x);
    }
  }

  /** Symbols that can change places without changing the check symbol. */
  predicate Swappable(x: Symbol, y: Symbol) {
    x == y || (x == 0 && y == 31) || (x == 31 && y == 0)
  }

  /** Two symbols have the same excess only if they are equal or the pair 0, 31, and excesses are
      less than 32 apart. */
  lemma ExcessDiffers(x: Symbol, y: Symbol)
    ensures -32 < Excess(x) - Excess(y) < 32 && (Excess(x) == Excess(y) <==> Swappable(x, y))
  {
  }

  /** Of two neighbours exactly one is doubled, and a swap makes it the other one. */
  lemma SumSwap(g: seq<Symbol>, h: seq<Symbol>, i: nat)
    requires i + 1 < |g| && h == g[i := g[i + 1]][i + 1 := g[i]]
    ensures Sum(h) - Sum(g) ==
            if Doubled(|g| - i) then Excess(g[i + 1]) - Excess(g[i]) else Excess(g[i]) - Excess(g[i + 1])
  {
    hide Addend, Sum, Excess, Doubled;
    var n, f := |g| - i - 1, g[i := g[i + 1]];
    SumUpdate(g, i, g[i + 1], n + 1);
    assert |f| == |g| && f[i + 1] == g[i + 1];
    SumUpdate(f, i + 1, g[i], n);
    Exchange(n, g[i], g[i + 1]);
  }

  lemma Exchange(n: nat, x: Symbol, y: Symbol)
    ensures Addend(n + 1, y) + Addend(n, x) - Addend(n + 1, x) - Addend(n, y) ==
            if Doubled(n + 1) then Excess(y) - Excess(x) else Excess(x) - Excess(y)
  {
    EveryOther(n);
    AddendValue(n, x);
    AddendValue(n, y);
    AddendValue(n + 1, x);
    AddendValue(n + 1, y);
    hide Addend, Excess, Doubled;
  }

  /** Swapping two neighbours goes unnoticed exactly when they are equal or are the first and the
      last symbol of the alphabet. */
  lemma Luhn32Transposition(g: seq<Symbol>, i: nat)
    requires i + 1 < |g|
    ensures Luhn32(g[i := g[i + 1]][i + 1 := g[i]]) == Luhn32(g) <==>
            Swappable(g[i], g[i + 1])
  {
    var h := g[i := g[i + 1]][i + 1 := g[i]];
    SumSwap(g, h, i);
    ExcessDiffers(g[i], g[i + 1]);
    hide CheckSymbol, Sum, Excess, Swappable, Doubled;
    CheckOfSum(Sum(h), Sum(g));
  }

  // ---- Against the textbook rule ----

  function DigitSum(v: nat): nat {
    v / 32 + v % 32
  }

  /** The Luhn total of a string with its check symbol: from the right, the last symbol counts as it
      is, the one before it as the digit sum of its double, and so on in turn. */
  function Total(w: seq<Symbol>): nat {
    if w == [] then 0
    else
      var n := |w| - 1;
      if n == 0 then w[0] else Total(w[..n - 1]) + DigitSum(2 * w[n - 1] as int) + w[n]
  }

  /** Two more symbols on the right leave every other symbol's turn as it was. */
  lemma {:induction false} SumAppend(h: seq<Symbol>, a: Symbol, b: Symbol)
    ensures Sum(h + [a, b]) == Sum(h) + a + DigitSum(2 * b as int)
  {
    if h == [] {
      assert [a, b][1..] == [b] && [b][1..] == [];
      assert h + [a, b] == [a, b];
    } else {
      assert (h + [a, b])[1..] == h[1..] + [a, b];
      SumAppend(h[1..], a, b);
      SameTurn(|h|, h[0]);
      hide Addend, DigitSum;
    }
  }

  lemma SameTurn(n: nat, x: Symbol)
    ensures Addend(n + 2, x) == Addend(n, x)
  {
    EveryOther(n);
    EveryOther(n + 1);
    hide Doubled;
  }

  lemma {:induction false} TotalSum(g: seq<Symbol>, x: Symbol)
    ensures Total(g + [x]) == Sum(g) + x
    decreases |g|
  {
    var w, n := g + [x], |g|;
    if n == 0 {
      assert w == [x];
    } else if n == 1 {
      assert w[..0] == [] && g == [] + [g[0]];
      assert g[1..] == [];
    } else {
      var h, a, b := g[..n - 2], g[n - 2], g[n - 1];
      assert g == h + [a, b] && w[..n - 1] == h + [a];
      SumAppend(h, a, b);
      TotalSum(h, a);
      hide Sum, DigitSum;
    }
  }

  lemma CheckCompletes(sum: nat, x: Symbol)
    ensures (sum + x) % 32 == 0 <==> x == CheckSymbol(sum)
  {
    CheckResidue(sum);
    hide CheckSymbol;
    var q, r := sum / 32, sum % 32;
    assert sum + x == 32 * q + (r + x);
    assert (sum + x) % 32 == (r + x) % 32;
  }

  /** The check symbol is the one symbol that completes its group to a total divisible by 32. */
  lemma CheckedTotal(g: seq<Symbol>, x: Symbol)
    ensures Total(g + [x]) % 32 == 0 <==> x == Luhn32(g)
  {
    TotalSum(g, x);
    hide Total, Sum, CheckSymbol;
    CheckCompletes(Sum(g), x);
  }

  /** The same of texts: what the library generates for a group. */
  lemma GeneratedTotal(s: Text, c: Ascii)
    ensures Generate(Luhn32, s) == Some(c) <==>
            AllInAlphabet(s) && InAlphabet(c) && Total(Symbols(s) + [CharSymbol(c)]) % 32 == 0
  {
    if AllInAlphabet(s) && InAlphabet(c) {
      CheckedTotal(Symbols(s), CharSymbol(c));
    }
    hide Luhn32, Total;
    if AllInAlphabet(s) {
      AlphabetBijection([Luhn32(Symbols(s))], [SymbolChar(Luhn32(Symbols(s)))]);
    }
  }
}
