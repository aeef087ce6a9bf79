/** Printing and reading numbers, and the search for the first unused numbered name. */
module Naming {
  import opened Collections

  function Digit(d: nat): char
    requires d < 16
  {
    if d < 10 then '0' + d as char else 'a' + (d - 10) as char
  }

  function DigitValue(c: char): Option<nat> {
    if '0' <= c <= '9' then Some((c - '0') as int)
    else if 'a' <= c <= 'f' then Some((c - 'a') as int + 10)
    else if 'A' <= c <= 'F' then Some((c - 'A') as int + 10)
    else None
  }

  /** The shortest numeral for n, most significant digit first. */
  function Numeral(n: nat, base: nat): (s: string)
    requires 2 <= base <= 16
    ensures |s| > 0
  {
    if n < base then [Digit(n)] else Numeral(n / base, base) + [Digit(n % base)]
  }

  /** The number a digit string denotes; the empty string counts as zero. */
  function Value(s: string, base: nat): Option<nat>
    requires 2 <= base <= 16
  {
    if s == "" then Some(0) else
      match (Value(s[..|s| - 1], base), DigitValue(s[|s| - 1]))
      case (Some(high), Some(low)) => if low < base then Some(high * base + low) else None
      case _ => None
  }

  lemma DivMod(n: nat, base: nat)
    requires 2 <= base
    ensures 0 <= n / base && 0 <= n % base < base && n == (n / base) * base + n % base
    ensures base <= n ==> n / base < n
  {
  }

  lemma {:induction false} ValueOfNumeral(n: nat, base: nat)
    requires 2 <= base <= 16
    ensures Value(Numeral(n, base), base) == Some(n)
  {
    if n < base {
      ValueOfDigit(n, base);
    } else {
      DivMod(n, base);
      ValueOfNumeral(n / base, base);
      ValueOfAppended(Numeral(n / base, base), n / base, n % base, base);
    }
  }

  lemma ValueOfDigit(n: nat, base: nat)
    requires n < base && 2 <= base <= 16
    ensures Value([Digit(n)], base) == Some(n)
  {
    assert [Digit(n)][..0] == "";
    assert Value("", base) == Some(0);
  }

  lemma ValueOfAppended(s: string, high: nat, low: nat, base: nat)
    requires 2 <= base <= 16 && low < base
    requires Value(s, base) == Some(high)
    ensures Value(s + [Digit(low)], base) == Some(high * base + low)
  {
    assert (s + [Digit(low)])[..|s + [Digit(low)]| - 1] == s;
  }

  lemma NumeralInjective(a: nat, b: nat, base: nat)
    requires 2 <= base <= 16 && Numeral(a, base) == Numeral(b, base)
    ensures a == b
  {
    ValueOfNumeral(a, base);
    ValueOfNumeral(b, base);
  }

  function Numbered(prefix: string, n: nat): string {
    prefix + Numeral(n, 10)
  }

  lemma NumberedInjective(prefix: string, a: nat, b: nat)
    requires Numbered(prefix, a) == Numbered(prefix, b)
    ensures a == b
  {
    assert Numbered(prefix, a)[|prefix|..] == Numeral(a, 10);
    assert Numbered(prefix, b)[|prefix|..] == Numeral(b, 10);
    NumeralInjective(a, b, 10);
  }

  /** The taken names still ahead of a search that has reached `from`. */
  ghost function Ahead(prefix: string, taken: set<string>, from: nat): set<string> {
    set name | name in taken && exists k: nat :: from <= k && name == Numbered(prefix, k)
  }

  lemma AheadShrinks(prefix: string, taken: set<string>, from: nat)
    requires Numbered(prefix, from) in taken
    ensures Ahead(prefix, taken, from + 1) < Ahead(prefix, taken, from)
  {
    assert Numbered(prefix, from) in Ahead(prefix, taken, from);
    if Numbered(prefix, from) in Ahead(prefix, taken, from + 1) {
      var k: nat :| from + 1 <= k && Numbered(prefix, from) == Numbered(prefix, k);
      NumberedInjective(prefix, from, k);
    }
  }

  /** The least suffix, counting up from `from`, whose name is not taken. */
  ghost function FirstFree(prefix: string, taken: set<string>, from: nat): (n: nat)
    ensures from <= n && Numbered(prefix, n) !in taken
    ensures forall k: nat :: from <= k < n ==> Numbered(prefix, k) in taken
    decreases Ahead(prefix, taken, from)
  {
    if Numbered(prefix, from) in taken then
      AheadShrinks(prefix, taken, from);
      FirstFree(prefix, taken, from + 1)
    else from
  }

  /** Counts up until the name is free; it always stops because only finitely many are taken. */
  method NextFreeName(prefix: string, taken: set<string>) returns (name: string)
    ensures name !in taken
    ensures name == Numbered(prefix, FirstFree(prefix, taken, 1))
  {
    var suffix := 1;
    while Numbered(prefix, suffix) in taken
      invariant FirstFree(prefix, taken, suffix) == FirstFree(prefix, taken, 1)
      decreases Ahead(prefix, taken, suffix)
    {
      AheadShrinks(prefix, taken, suffix);
      suffix := suffix + 1;
    }
    name := Numbered(prefix, suffix);
  }
}
