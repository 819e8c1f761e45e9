/** The 64-bit FNV-1a hash that stands for a type's name at run time
    (src/IRBuilder/IRGen_flow.cpp, visitThrowStmt). */
module Hashes {

  const WORD64 := 0x1_0000_0000_0000_0000
  const PRIME := 1099511628211

  /** A character as the byte it is cast to. */
  function Byte(c: char): (b: nat)
    ensures b < 256
  {
    c as int % 256
  }

  function Pow2(w: nat): (r: nat)
    ensures r > 0
  {
    if w == 0 then 1 else 2 * Pow2(w - 1)
  }

  /** Exclusive or of `w` bits. */
  function Xor(a: nat, b: nat, w: nat): (r: nat)
    ensures r < Pow2(w)
    decreases w
  {
    if w == 0 then 0 else (if a % 2 == b % 2 then 0 else 1) + 2 * Xor(a / 2, b / 2, w - 1)
  }

  function XorByte(a: nat, b: nat): (r: nat)
    ensures r < 256
  {
    Pow2Of8();
    Xor(a, b, 8)
  }

  /** A word xor a byte: only the low byte changes. */
  function Mix(h: nat, b: nat): (r: nat)
    requires h < WORD64 && b < 256
    ensures r < WORD64
  {
    LowByteOnly(h / 256, XorByte(h % 256, b));
    h / 256 * 256 + XorByte(h % 256, b)
  }

  lemma LowByteOnly(q: nat, x: nat)
    requires x < 256
    ensures q < 0x100_0000_0000_0000 ==> q * 256 + x < WORD64
  {
  }

  function Times(h: nat): (r: nat)
    ensures r < WORD64
  {
    h * PRIME % WORD64
  }

  lemma Pow2Of8()
    ensures Pow2(8) == 256
  {
    assert Pow2(4) == 16;
  }

  function FnvFrom(h: nat, s: string): (r: nat)
    requires h < WORD64
    ensures r < WORD64
    decreases |s|
  {
    if s == [] then h else FnvFrom(Times(Mix(h, Byte(s[0]))), s[1..])
  }

  function Fnv(s: string): int { FnvFrom(14695981039346656037, s) }

  // ---------------------------------------------------------------- what a hash tells

  /** The prime has an inverse. */
  lemma TimesTells(a: nat, b: nat)
    requires a < WORD64 && b < WORD64 && Times(a) == Times(b)
    ensures a == b
  {
    var q := a * PRIME / WORD64 - b * PRIME / WORD64;
    assert (a - b) * PRIME == q * WORD64;
    var d := q * 14886173955864302971 - (a - b) * 887285111055;
    assert a - b == d * WORD64;
  }

  lemma {:induction false} XorTells(a: nat, b: nat, c: nat, w: nat)
    requires a < Pow2(w) && b < Pow2(w)
    requires Xor(a, c, w) == Xor(b, c, w)
    ensures a == b
    decreases w
  {
    if w > 0 { XorTells(a / 2, b / 2, c / 2, w - 1); }
  }

  lemma {:induction false} XorCommutes(a: nat, b: nat, w: nat)
    ensures Xor(a, b, w) == Xor(b, a, w)
    decreases w
  {
    if w > 0 { XorCommutes(a / 2, b / 2, w - 1); }
  }

  lemma MixTells(g: nat, h: nat, b: nat, c: nat)
    requires g < WORD64 && h < WORD64 && b < 256 && c < 256 && Mix(g, b) == Mix(h, c)
    ensures b == c ==> g == h
    ensures g == h ==> b == c
  {
    hide Xor, Pow2;
    Pow2Of8();
    var x, y := g % 256, h % 256;
    assert g / 256 == h / 256 && Xor(x, b, 8) == Xor(y, c, 8);
    if b == c { XorTells(x, y, b, 8); }
    if g == h {
      XorCommutes(x, b, 8);
      XorCommutes(x, c, 8);
      XorTells(b, c, x, 8);
    }
  }

  lemma {:induction false} StartTells(g: nat, h: nat, s: string)
    requires g < WORD64 && h < WORD64 && FnvFrom(g, s) == FnvFrom(h, s)
    ensures g == h
    decreases |s|
  {
    hide Mix, Times, Byte;
    if s != [] {
      var b := Byte(s[0]);
      StartTells(Times(Mix(g, b)), Times(Mix(h, b)), s[1..]);
      TimesTells(Mix(g, b), Mix(h, b));
      MixTells(g, h, b, b);
    }
  }

  lemma {:induction false} OneByteTells(h: nat, pre: string, c: char, d: char, rest: string)
    requires h < WORD64 && FnvFrom(h, pre + [c] + rest) == FnvFrom(h, pre + [d] + rest)
    ensures Byte(c) == Byte(d)
    decreases |pre|
  {
    hide Mix, Times, Byte;
    var s, t := pre + [c] + rest, pre + [d] + rest;
    if pre == [] {
      assert s[1..] == rest && t[1..] == rest;
      StartTells(Times(Mix(h, Byte(c))), Times(Mix(h, Byte(d))), rest);
      TimesTells(Mix(h, Byte(c)), Mix(h, Byte(d)));
      MixTells(h, h, Byte(c), Byte(d));
    } else {
      assert s[1..] == pre[1..] + [c] + rest && t[1..] == pre[1..] + [d] + rest;
      OneByteTells(Times(Mix(h, Byte(pre[0]))), pre[1..], c, d, rest);
    }
  }

  /** Names that differ in one byte have different hashes. */
  lemma OneByteApart(pre: string, c: char, d: char, rest: string)
    requires c as int % 256 != d as int % 256
    ensures Fnv(pre + [c] + rest) != Fnv(pre + [d] + rest)
  {
    hide FnvFrom;
    if Fnv(pre + [c] + rest) == Fnv(pre + [d] + rest) { OneByteTells(14695981039346656037, pre, c, d, rest); }
  }

  /** The published hashes of "" and "a". */
  lemma PublishedHashes()
    ensures Fnv("") == 0xcbf29ce484222325 && Fnv("a") == 0xaf63dc4c8601ec8c
  {
    hide Mix, Times, Byte;
    assert "a"[1..] == "";
    LetterA();
    assert Fnv("a") == FnvFrom(Times(Mix(14695981039346656037, 97)), "");
  }

  lemma LetterA()
    ensures Byte('a') == 97 && Times(Mix(14695981039346656037, 97)) == 0xaf63dc4c8601ec8c
  {
    assert 14695981039346656037 % 256 == 0x25;
    LowByte();
  }

  lemma LowByte()
    ensures Xor(0x25, 97, 8) == 0x44
  {
    assert Xor(0, 0, 1) == 0;
    assert Xor(0, 1, 2) == 1;
    assert Xor(1, 3, 3) == 2;
    assert Xor(2, 6, 4) == 4;
    assert Xor(4, 12, 5) == 8;
    assert Xor(9, 24, 6) == 17;
    assert Xor(18, 48, 7) == 34;
  }
}
