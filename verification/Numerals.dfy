/** Numbers as text: what std::stoll and std::to_string do
    (src/IRBuilder/IRGen_call.cpp). */
module Numerals {
  import opened Wrappers

  const MIN64 := -0x8000_0000_0000_0000
  const MAX64 := 0x7fff_ffff_ffff_ffff

  predicate Fits(n: int) { MIN64 <= n <= MAX64 }

  // ---------------------------------------------------------------- std::stoll

  function DigitOf(c: char): int {
    if '0' <= c <= '9' then c as int - '0' as int
    else if 'a' <= c <= 'z' then c as int - 'a' as int + 10
    else if 'A' <= c <= 'Z' then c as int - 'A' as int + 10
    else 99
  }

  predicate IsSpace(c: char) { c == ' ' || '\t' <= c <= '\r' }

  function SkipSpace(s: string, i: nat): (r: nat)
    requires i <= |s|
    ensures i <= r <= |s|
    decreases |s| - i
  {
    if i < |s| && IsSpace(s[i]) then SkipSpace(s, i + 1) else i
  }

  function SkipDigits(s: string, i: nat, base: int): (r: nat)
    requires i <= |s|
    ensures i <= r <= |s|
    ensures forall j | i <= j < r :: DigitOf(s[j]) < base
    decreases |s| - i
  {
    if i < |s| && DigitOf(s[i]) < base then SkipDigits(s, i + 1, base) else i
  }

  function ValueOf(s: string, base: int): int
    decreases |s|
  {
    if s == [] then 0 else ValueOf(s[..|s| - 1], base) * base + DigitOf(s[|s| - 1])
  }

  /** The number read and how many characters it took, or None where std::stoll
      throws: nothing to read, or out of the range of int64. */
  function Stoll(s: string, base: int): Option<(int, nat)> {
    var i := SkipSpace(s, 0);
    var neg := i < |s| && s[i] == '-';
    var j := if i < |s| && (s[i] == '-' || s[i] == '+') then i + 1 else i;
    var k := if base == 16 && j + 2 < |s| && s[j] == '0' && (s[j + 1] == 'x' || s[j + 1] == 'X')
                && DigitOf(s[j + 2]) < 16 then j + 2 else j;
    var end := SkipDigits(s, k, base);
    var v := ValueOf(s[k..end], base);
    var n := if neg then -v else v;
    if end == k || !Fits(n) then None else Some((n, end))
  }

  /** A number token: the base is chosen by its prefix, and all of it must be read. */
  function ReadNumber(tok: string): Option<int> {
    var base := if |tok| > 2 && tok[0] == '0' && (tok[1] == 'x' || tok[1] == 'X') then 16
                else if |tok| > 1 && tok[0] == '0' then 8
                else 10;
    match Stoll(tok, base)
    case None => None
    case Some((v, n)) => if n == |tok| then Some(v) else None
  }

  // ---------------------------------------------------------------- std::to_string

  function Decimal(n: nat): (s: string)
    ensures |s| >= 1 && forall i | 0 <= i < |s| :: '0' <= s[i] <= '9'
    ensures n > 0 ==> s[0] != '0'
  {
    if n < 10 then [('0' as int + n) as char]
    else Decimal(n / 10) + [('0' as int + n % 10) as char]
  }

  function ToString(n: int): string {
    if n < 0 then "-" + Decimal(-n) else Decimal(n)
  }

  lemma {:induction false} DecimalValue(n: nat)
    ensures ValueOf(Decimal(n), 10) == n
  {
    var d := Decimal(n);
    if n < 10 {
      assert d[..0] == [];
    } else {
      DecimalValue(n / 10);
      assert d[..|d| - 1] == Decimal(n / 10);
    }
  }

  lemma {:induction false} AllDigits(s: string, i: nat)
    requires i <= |s| && forall j | i <= j < |s| :: '0' <= s[j] <= '9'
    ensures SkipDigits(s, i, 10) == |s|
    decreases |s| - i
  {
    if i < |s| { AllDigits(s, i + 1); }
  }

  lemma StollDecimal(n: int)
    requires Fits(n)
    ensures Stoll(ToString(n), 10) == Some((n, |ToString(n)|))
  {
    hide Fits, Decimal, ValueOf;
    var t := ToString(n);
    var d := Decimal(if n < 0 then -n else n);
    DecimalValue(if n < 0 then -n else n);
    var k := if n < 0 then 1 else 0;
    assert t[k..] == d;
    assert SkipSpace(t, 0) == 0;
    AllDigits(t, k);
    assert t[k..|t|] == d;
  }

  /** Every int64 printed in decimal is read back as itself. */
  lemma ReadBack(n: int)
    requires Fits(n)
    ensures ReadNumber(ToString(n)) == Some(n)
  {
    hide Fits, Stoll, ValueOf;
    StollDecimal(n);
    var t := ToString(n);
    if n == 0 { assert t == "0"; }
  }

  /** Exactly the int64 are read. */
  lemma ReadBackIff(n: int)
    ensures ReadNumber(ToString(n)) == if -0x8000_0000_0000_0000 <= n <= 0x7fff_ffff_ffff_ffff then Some(n) else None
  {
    if Fits(n) { ReadBack(n); } else { TooLarge(n); }
  }

  lemma TooLarge(n: int)
    requires !Fits(n)
    ensures ReadNumber(ToString(n)) == None
  {
    hide Fits, Decimal, ValueOf;
    var t := ToString(n);
    var d := Decimal(if n < 0 then -n else n);
    DecimalValue(if n < 0 then -n else n);
    var k := if n < 0 then 1 else 0;
    assert n != 0 by { ZeroFits(); }
    assert t[k..] == d;
    assert SkipSpace(t, 0) == 0;
    AllDigits(t, k);
    assert t[k..|t|] == d;
    assert Stoll(t, 10) == None;
  }

  lemma ZeroFits()
    ensures Fits(0)
  {
  }

  /** Blanks before a number are skipped, and it ends at the first other character. */
  lemma BlanksAndEnds(n: int, c: char, rest: string)
    requires Fits(n) && !('0' <= c <= '9') && !('a' <= c <= 'z') && !('A' <= c <= 'Z')
    ensures Stoll(" " + ToString(n) + [c] + rest, 10) == Some((n, 1 + |ToString(n)|))
  {
    hide Fits, Decimal, ValueOf, SkipDigits, DigitOf, SkipSpace;
    var m := if n < 0 then -n else n;
    var d := Decimal(m);
    DecimalValue(m);
    var t := " " + ToString(n) + [c] + rest;
    var k := if n < 0 then 2 else 1;
    assert t[k..k + |d|] == d;
    assert t[1] == ToString(n)[0] && t[0] == ' ' && t[k + |d|] == c;
    OneBlank(t);
    NotDigit(c);
    DigitsUpTo(t, k, k + |d|);
  }

  lemma OneBlank(t: string)
    requires |t| > 1 && t[0] == ' ' && !IsSpace(t[1])
    ensures SkipSpace(t, 0) == 1
  {
    assert SkipSpace(t, 1) == 1;
  }

  lemma NotDigit(c: char)
    requires !('0' <= c <= '9') && !('a' <= c <= 'z') && !('A' <= c <= 'Z')
    ensures DigitOf(c) >= 10
  {
  }

  lemma {:induction false} DigitsUpTo(s: string, i: nat, j: nat)
    requires i <= j < |s| && (forall l | i <= l < j :: '0' <= s[l] <= '9') && DigitOf(s[j]) >= 10
    ensures SkipDigits(s, i, 10) == j
    decreases j - i
  {
    if i < j { DigitsUpTo(s, i + 1, j); }
  }

  // ---------------------------------------------------------------- hexadecimal and octal

  /** The digit for `d` in either case. */
  function DigitChar(d: nat, upper: bool): char
    requires d < 16
  {
    (if upper then "0123456789ABCDEF" else "0123456789abcdef")[d]
  }

  function Digits(n: nat, base: nat, upper: bool): (s: string)
    requires 2 <= base <= 16
    ensures |s| >= 1 && forall i | 0 <= i < |s| :: exists d: nat :: d < base && s[i] == DigitChar(d, upper)
    decreases n
  {
    if n < base then [DigitChar(n, upper)]
    else Digits(n / base, base, upper) + [DigitChar(n % base, upper)]
  }

  lemma DigitIs(d: nat, upper: bool)
    requires d < 16
    ensures DigitOf(DigitChar(d, upper)) == d && !IsSpace(DigitChar(d, upper))
    ensures DigitChar(d, upper) != '-' && DigitChar(d, upper) != '+'
    ensures DigitChar(d, upper) != 'x' && DigitChar(d, upper) != 'X'
  {
  }

  lemma {:induction false} DigitsValue(n: nat, base: nat, upper: bool)
    requires 2 <= base <= 16
    ensures ValueOf(Digits(n, base, upper), base) == n
    decreases n
  {
    hide DigitOf, DigitChar, ValueOf;
    Divided(n, base);
    DigitIs(n % base, upper);
    if n < base {
      OneDigit(DigitChar(n, upper), base);
    } else {
      DigitsValue(n / base, base, upper);
      LastDigit(Digits(n / base, base, upper), DigitChar(n % base, upper), base);
    }
  }

  lemma Divided(n: nat, base: nat)
    requires 2 <= base
    ensures n / base * base + n % base == n && n % base < base
    ensures (n < base ==> n % base == n) && (n >= base ==> n / base < n)
  {
  }

  lemma OneDigit(c: char, base: nat)
    ensures ValueOf([c], base) == DigitOf(c)
  {
    assert [c][..0] == [];
  }

  lemma LastDigit(s: string, c: char, base: nat)
    ensures ValueOf(s + [c], base) == ValueOf(s, base) * base + DigitOf(c)
  {
    assert (s + [c])[..|s|] == s;
  }

  lemma {:induction false} SkipAll(s: string, i: nat, base: nat)
    requires i <= |s| && forall j | i <= j < |s| :: DigitOf(s[j]) < base
    ensures SkipDigits(s, i, base) == |s|
    decreases |s| - i
  {
    if i < |s| { SkipAll(s, i + 1, base); }
  }

  lemma DigitsSkipped(pre: string, n: nat, base: nat, upper: bool)
    requires 2 <= base <= 16
    ensures SkipDigits(pre + Digits(n, base, upper), |pre|, base) == |pre| + |Digits(n, base, upper)|
  {
    hide DigitOf, Digits;
    var d, s := Digits(n, base, upper), pre + Digits(n, base, upper);
    forall j | |pre| <= j < |s| ensures DigitOf(s[j]) < base {
      assert s[j] == d[j - |pre|];
      var k: nat :| k < base && d[j - |pre|] == DigitChar(k, upper);
      DigitIs(k, upper);
    }
    SkipAll(s, |pre|, base);
  }

  /** Every number that fits, in hexadecimal with `0x`, or in octal with `0`, is read as
      itself, in upper or lower case. */
  lemma PrefixedReadBack(n: nat, upper: bool)
    requires Fits(n)
    ensures ReadNumber("0x" + Digits(n, 16, upper)) == Some(n)
    ensures ReadNumber("0X" + Digits(n, 16, upper)) == Some(n)
    ensures ReadNumber("0" + Digits(n, 8, upper)) == Some(n)
  {
    hide ReadNumber;
    HexRead(n, upper, 'x');
    HexRead(n, upper, 'X');
    OctalRead(n, upper);
  }

  lemma HexRead(n: nat, upper: bool, x: char)
    requires Fits(n) && (x == 'x' || x == 'X')
    ensures ReadNumber(['0', x] + Digits(n, 16, upper)) == Some(n)
  {
    hide Fits, Digits, DigitOf, SkipDigits, ValueOf;
    var d := Digits(n, 16, upper);
    var t := ['0', x] + d;
    DigitsValue(n, 16, upper);
    DigitsSkipped(['0', x], n, 16, upper);
    var k: nat :| k < 16 && d[0] == DigitChar(k, upper);
    DigitIs(k, upper);
    assert t[2..|t|] == d;
    assert SkipSpace(t, 0) == 0;
    assert Stoll(t, 16) == Some((n, |t|));
  }

  lemma OctalRead(n: nat, upper: bool)
    requires Fits(n)
    ensures ReadNumber("0" + Digits(n, 8, upper)) == Some(n)
  {
    hide Fits, Digits, DigitOf, SkipDigits, ValueOf;
    var d := Digits(n, 8, upper);
    var t := "0" + d;
    DigitsValue(n, 8, upper);
    DigitsSkipped("0", n, 8, upper);
    ZeroFirst(d);
    var k: nat :| k < 8 && d[0] == DigitChar(k, upper);
    DigitIs(k, upper);
    ZeroSkipped(t);
    assert t[0..|t|] == t;
    assert SkipSpace(t, 0) == 0;
    assert Stoll(t, 8) == Some((n, |t|));
  }

  lemma {:induction false} ZeroFirst(d: string)
    ensures ValueOf("0" + d, 8) == ValueOf(d, 8)
    decreases |d|
  {
    if d != [] {
      var t := "0" + d;
      assert t[..|t| - 1] == "0" + d[..|d| - 1];
      ZeroFirst(d[..|d| - 1]);
    } else {
      assert "0" + d == "0" && "0"[..0] == [];
    }
  }

  lemma ZeroSkipped(t: string)
    requires |t| > 0 && t[0] == '0'
    ensures SkipDigits(t, 0, 8) == SkipDigits(t, 1, 8)
  {
  }
}
