/** coerceValueToType (src/IRBuilder/IRGen_driver.cpp): conversions between scalars
    and, element by element, between structs. Integers are bit patterns; a
    floating-point value is a real number, and rounding is not modelled. */
module Coerce {

  datatype Type = IntTy(bits: nat) | FloatTy(bits: nat) | PtrTy | StructTy(elements: seq<Type>)

  datatype Value =
    | IntVal(bits: nat, n: nat)
    | FloatVal(bits: nat, x: real)
    | PtrVal(address: nat)
    | StructVal(values: seq<Value>)

  function Pow2(n: nat): (r: nat)
    ensures r > 0
  {
    if n == 0 then 1 else 2 * Pow2(n - 1)
  }

  function TypeOf(v: Value): Type {
    match v
    case IntVal(bits, _) => IntTy(bits)
    case FloatVal(bits, _) => FloatTy(bits)
    case PtrVal(_) => PtrTy
    case StructVal(values) => StructTy(TypesOf(values))
  }

  function TypesOf(vs: seq<Value>): (r: seq<Type>)
    ensures |r| == |vs|
  {
    if vs == [] then [] else [TypeOf(vs[0])] + TypesOf(vs[1..])
  }

  /** Integer values fit their width. */
  predicate Valid(v: Value) {
    match v
    case IntVal(bits, n) => n < Pow2(bits)
    case StructVal(values) => forall i | 0 <= i < |values| :: Valid(values[i])
    case _ => true
  }

  // ---------------------------------------------------------------- scalars

  function Signed(n: nat, bits: nat): int { if bits > 0 && n >= Pow2(bits - 1) then n - Pow2(bits) else n }

  /** CreateIntCast: extend by sign or by zeros, or truncate. */
  function IntCast(n: nat, from: nat, to: nat, isSigned: bool): (r: nat)
    ensures r < Pow2(to)
  {
    (if isSigned && to > from then Signed(n, from) else n) % Pow2(to)
  }

  /** FPToSI: towards zero. */
  function Toward0(x: real): int { if x >= 0.0 then x.Floor else -((-x).Floor) }

  // ---------------------------------------------------------------- conversion

  function Converted(v: Value, t: Type, isSigned: bool): Value
    decreases v, 1
  {
    if TypeOf(v) == t then v
    else
      match v
      case IntVal(bits, n) =>
        if t.IntTy? then IntVal(t.bits, IntCast(n, bits, t.bits, isSigned))
        else if t.FloatTy? then FloatVal(t.bits, Signed(n, bits) as real)
        else v
      case FloatVal(_, x) =>
        if t.FloatTy? then FloatVal(t.bits, x)
        else if t.IntTy? then IntVal(t.bits, Toward0(x) % Pow2(t.bits))
        else v
      case PtrVal(_) => v
      case StructVal(values) =>
        if !t.StructTy? || |t.elements| != |values| then v
        else
          var cs := ConvertedAll(values, t.elements, isSigned);
          if TypesOf(cs) == t.elements then StructVal(cs) else v
  }

  function ConvertedAll(vs: seq<Value>, ts: seq<Type>, isSigned: bool): (r: seq<Value>)
    requires |vs| == |ts|
    ensures |r| == |vs|
    decreases vs, 0
  {
    if vs == [] then [] else [Converted(vs[0], ts[0], isSigned)] + ConvertedAll(vs[1..], ts[1..], isSigned)
  }

  lemma {:induction false} ConvertedAt(vs: seq<Value>, ts: seq<Type>, isSigned: bool, i: nat)
    requires |vs| == |ts| && i < |vs|
    ensures ConvertedAll(vs, ts, isSigned)[i] == Converted(vs[i], ts[i], isSigned)
  {
    if i > 0 { ConvertedAt(vs[1..], ts[1..], isSigned, i - 1); }
  }

  lemma {:induction false} TypesAt(vs: seq<Value>, i: nat)
    requires i < |vs|
    ensures TypesOf(vs)[i] == TypeOf(vs[i])
  {
    if i > 0 { TypesAt(vs[1..], i - 1); }
  }

  lemma SameTypes(vs: seq<Value>, ts: seq<Type>)
    requires |vs| == |ts|
    ensures TypesOf(vs) == ts <==> forall i | 0 <= i < |vs| :: TypeOf(vs[i]) == ts[i]
  {
    forall i | 0 <= i < |vs| ensures TypesOf(vs)[i] == TypeOf(vs[i]) { TypesAt(vs, i); }
  }

  method CoerceValueToType(v: Value, t: Type, isSigned: bool) returns (r: Value)
    ensures r == Converted(v, t, isSigned)
    ensures Valid(v) ==> Keeps(v, t, isSigned, r)
    decreases v, 1
  {
    hide IntCast, Signed, Toward0, Pow2, Valid, Keeps;
    if Valid(v) { ConvertedKeeps(v, t, isSigned); }
    if TypeOf(v) == t { return v; }
    match v
    case IntVal(bits, n) =>
      if t.IntTy? { return IntVal(t.bits, IntCast(n, bits, t.bits, isSigned)); }
      if t.FloatTy? { return FloatVal(t.bits, Signed(n, bits) as real); }
      return v;
    case FloatVal(_, x) =>
      if t.FloatTy? { return FloatVal(t.bits, x); }
      if t.IntTy? { return IntVal(t.bits, Toward0(x) % Pow2(t.bits)); }
      return v;
    case PtrVal(_) => return v;
    case StructVal(values) =>
      if !t.StructTy? || |t.elements| != |values| { return v; }
      var agg := CoerceElements(v, t, isSigned);
      return if |agg| == |values| then StructVal(agg) else v;
  }

  /** The aggregate is built element by element, and given up on the first element
      that cannot be converted. */
  method CoerceElements(v: Value, t: Type, isSigned: bool) returns (agg: seq<Value>)
    requires v.StructVal? && t.StructTy? && |t.elements| == |v.values|
    ensures var cs := ConvertedAll(v.values, t.elements, isSigned);
      if TypesOf(cs) == t.elements then agg == cs else |agg| < |cs|
    decreases v, 0
  {
    hide Converted, TypeOf, ConvertedAll, TypesOf;
    ghost var cs := ConvertedAll(v.values, t.elements, isSigned);
    SameTypes(cs, t.elements);
    agg := [];
    for i := 0 to |v.values|
      invariant |agg| == i && agg == cs[..i]
      invariant forall j | 0 <= j < i :: TypeOf(cs[j]) == t.elements[j]
    {
      var e := CoerceValueToType(v.values[i], t.elements[i], isSigned);
      ConvertedAt(v.values, t.elements, isSigned, i);
      if TypeOf(e) != t.elements[i] { return; }
      agg := agg + [e];
    }
  }

  // ---------------------------------------------------------------- all or nothing

  predicate Scalar(t: Type) { t.IntTy? || t.FloatTy? }

  /** The shapes can be converted: scalars to scalars, structs element by element. */
  predicate Compatible(s: Type, t: Type) {
    s == t || (Scalar(s) && Scalar(t)) ||
    (s.StructTy? && t.StructTy? && |s.elements| == |t.elements| &&
     forall i | 0 <= i < |s.elements| :: Compatible(s.elements[i], t.elements[i]))
  }

  /** The result has the target type exactly when the shapes are compatible at every
      depth, and is the value itself otherwise. */
  lemma {:induction false} AllOrNothing(v: Value, t: Type, isSigned: bool)
    ensures TypeOf(Converted(v, t, isSigned)) == t <==> Compatible(TypeOf(v), t)
    ensures !Compatible(TypeOf(v), t) ==> Converted(v, t, isSigned) == v
    decreases v
  {
    if TypeOf(v) != t && v.StructVal? && t.StructTy? && |t.elements| == |v.values| {
      var cs := ConvertedAll(v.values, t.elements, isSigned);
      SameTypes(cs, t.elements);
      forall i | 0 <= i < |cs|
        ensures TypeOf(cs[i]) == t.elements[i] <==> Compatible(TypeOf(v).elements[i], t.elements[i])
      {
        ConvertedAt(v.values, t.elements, isSigned, i);
        TypesAt(v.values, i);
        AllOrNothing(v.values[i], t.elements[i], isSigned);
      }
    }
  }

  // ---------------------------------------------------------------- what a conversion keeps

  /** `z` is the bits `n` read as a two's complement number of that width. */
  predicate ReadsAs(n: nat, bits: nat, z: int) {
    if bits == 0 then z == n
    else 0 <= z + Pow2(bits - 1) < Pow2(bits) && (z == n || z == n - Pow2(bits))
  }

  /** `z` is the integer part of `x`, towards zero. */
  predicate IntegerPart(x: real, z: int) {
    if x >= 0.0 then z as real <= x < (z + 1) as real else (z - 1) as real < x <= z as real
  }

  /** What the result keeps of the operand: a wider integer its number, signed or not;
      a narrower one its low bits; a float the signed number; an integer the integer
      part; a struct whose elements all convert each element; anything else is left
      alone. */
  ghost predicate Keeps(v: Value, t: Type, isSigned: bool, r: Value)
    decreases v
  {
    if TypeOf(v) == t then r == v
    else
      match v
      case IntVal(bits, n) =>
        if t.IntTy? then
          && r.IntVal? && r.bits == t.bits && r.n < Pow2(t.bits)
          && (t.bits > bits && isSigned ==> exists z :: ReadsAs(n, bits, z) && ReadsAs(r.n, r.bits, z))
          && (t.bits > bits && !isSigned ==> r.n == n)
          && (t.bits < bits ==> (n - r.n) % Pow2(t.bits) == 0)
        else if t.FloatTy? then exists z :: ReadsAs(n, bits, z) && r == FloatVal(t.bits, z as real)
        else r == v
      case FloatVal(_, x) =>
        if t.FloatTy? then r == FloatVal(t.bits, x)
        else if t.IntTy? then
          && r.IntVal? && r.bits == t.bits && r.n < Pow2(t.bits)
          && exists z :: IntegerPart(x, z) && (r.n - z) % Pow2(t.bits) == 0
        else r == v
      case PtrVal(_) => r == v
      case StructVal(values) =>
        if t.StructTy? && Compatible(TypeOf(v), t) then
          && r.StructVal? && |r.values| == |values| == |t.elements|
          && forall i | 0 <= i < |values| :: Keeps(values[i], t.elements[i], isSigned, r.values[i])
        else r == v
  }

  lemma {:induction false} ConvertedKeeps(v: Value, t: Type, isSigned: bool)
    requires Valid(v)
    ensures Keeps(v, t, isSigned, Converted(v, t, isSigned))
    decreases v
  {
    hide Pow2, IntCast, Signed, Toward0;
    if TypeOf(v) != t {
      match v
      case IntVal(bits, n) =>
        SignedIs(n, bits);
        if t.IntTy? { CastKeeps(n, bits, t.bits, isSigned); }
      case FloatVal(_, x) =>
        if t.IntTy? { TowardIs(x, t.bits); }
      case PtrVal(_) =>
      case StructVal(values) =>
        if t.StructTy? && Compatible(TypeOf(v), t) {
          StructKeeps(v, t, isSigned);
        } else {
          AllOrNothing(v, t, isSigned);
        }
    }
  }

  lemma {:induction false} StructKeeps(v: Value, t: Type, isSigned: bool)
    requires Valid(v) && v.StructVal? && t.StructTy? && TypeOf(v) != t && Compatible(TypeOf(v), t)
    ensures Keeps(v, t, isSigned, Converted(v, t, isSigned))
    decreases v, 0
  {
    AllOrNothing(v, t, isSigned);
    forall i | 0 <= i < |v.values|
      ensures Keeps(v.values[i], t.elements[i], isSigned, ConvertedAll(v.values, t.elements, isSigned)[i])
    {
      ConvertedAt(v.values, t.elements, isSigned, i);
      ConvertedKeeps(v.values[i], t.elements[i], isSigned);
    }
  }

  lemma SignedIs(n: nat, bits: nat)
    requires n < Pow2(bits)
    ensures ReadsAs(n, bits, Signed(n, bits))
  {
  }

  lemma CastKeeps(n: nat, from: nat, to: nat, isSigned: bool)
    requires n < Pow2(from) && from != to
    ensures var r := IntCast(n, from, to, isSigned);
      && (to > from && isSigned ==> ReadsAs(r, to, Signed(n, from)))
      && (to > from && !isSigned ==> r == n)
      && (to < from ==> (n - r) % Pow2(to) == 0)
  {
    hide ReadsAs, Pow2, Signed;
    if to > from {
      Larger(from, to);
      if isSigned { Extended(n, from, to); } else { Small(n, Pow2(to)); }
    } else {
      RemainderGone(n, Pow2(to));
    }
  }

  lemma RemainderGone(n: int, p: nat)
    requires p > 0
    ensures (n - n % p) % p == 0 && (n % p - n) % p == 0
  {
    var q := n / p;
    ModIs(n - n % p, p, q, 0);
    ModIs(n % p - n, p, -q, 0);
  }

  lemma {:induction false} Larger(a: nat, b: nat)
    requires a < b
    ensures 2 * Pow2(a) <= Pow2(b)
    decreases b
  {
    if a + 1 < b { Larger(a, b - 1); }
  }

  lemma Extended(n: nat, from: nat, to: nat)
    requires n < Pow2(from) && from < to
    ensures ReadsAs(Signed(n, from) % Pow2(to), to, Signed(n, from))
  {
    Larger(from, to);
    var z, p := Signed(n, from), Pow2(to);
    if z >= 0 { Small(z, p); } else { ModIs(z, p, -1, z + p); }
  }

  lemma TowardIs(x: real, bits: nat)
    ensures IntegerPart(x, Toward0(x)) && (Toward0(x) % Pow2(bits) - Toward0(x)) % Pow2(bits) == 0
  {
    hide Pow2;
    RemainderGone(Toward0(x), Pow2(bits));
  }

  /** A byte with all bits set is -1 in 32 bits when signed, and 255 when not. */
  lemma ByteExtends()
    ensures Converted(IntVal(8, 255), IntTy(32), true) == IntVal(32, 0xffff_ffff)
    ensures Converted(IntVal(8, 255), IntTy(32), false) == IntVal(32, 255)
  {
    assert Pow2(7) == 128 && Pow2(8) == 256;
    Pow2Is32();
    Small(255, Pow2(32));
    ModIs(-1, Pow2(32), -1, 0xffff_ffff);
  }

  lemma Pow2Is32()
    ensures Pow2(32) == 0x1_0000_0000
  {
    Pow2Split(8, 16);
    Pow2Split(16, 32);
    assert Pow2(8) == 256;
  }

  // ---------------------------------------------------------------- there and back

  /** Integers only, each at least as wide in `t`. */
  predicate Wider(s: Type, t: Type) {
    (s.IntTy? && t.IntTy? && s.bits <= t.bits) ||
    (s.StructTy? && t.StructTy? && |s.elements| == |t.elements| &&
     forall i | 0 <= i < |s.elements| :: Wider(s.elements[i], t.elements[i]))
  }

  lemma {:induction false} WiderCompatible(s: Type, t: Type)
    requires Wider(s, t)
    ensures Compatible(s, t) && Compatible(t, s)
    decreases s
  {
    if s.StructTy? {
      forall i | 0 <= i < |s.elements|
        ensures Compatible(s.elements[i], t.elements[i]) && Compatible(t.elements[i], s.elements[i])
      {
        WiderCompatible(s.elements[i], t.elements[i]);
      }
    }
  }

  lemma {:induction false} Pow2Split(a: nat, b: nat)
    requires a <= b
    ensures Pow2(b) == Pow2(a) * Pow2(b - a)
    decreases b - a
  {
    if a < b {
      Pow2Split(a, b - 1);
      MulSwap(Pow2(a), Pow2(b - 1 - a));
    }
  }

  lemma MulSwap(a: nat, b: nat)
    ensures 2 * (a * b) == a * (2 * b)
  {
  }

  /** Truncating what was extended gives the original bits. */
  lemma IntBack(n: nat, from: nat, to: nat, isSigned: bool)
    requires n < Pow2(from) && from <= to
    ensures IntCast(IntCast(n, from, to, isSigned), to, from, isSigned) == n
  {
    Pow2Split(from, to);
    var a, k := Pow2(from), Pow2(to - from);
    if isSigned && to > from && Signed(n, from) < 0 {
      Negative(n, a, k);
    } else {
      Grow(a, k);
      Small(n, a * k);
      Small(n, a);
    }
  }

  lemma Grow(a: nat, k: nat)
    requires k > 0
    ensures a <= a * k
  {
  }

  lemma Small(n: nat, a: nat)
    requires n < a
    ensures n % a == n
  {
  }

  lemma Negative(n: nat, a: nat, k: nat)
    requires n < a && k > 0
    ensures (n - a) % (a * k) % a == n
  {
    var m := n - a + a * k;
    assert m == a * (k - 1) + n;
    Grow(a, k);
    ModIs(n - a, a * k, -1, m);
    ModIs(m, a, k - 1, n);
  }

  lemma ModIs(x: int, d: nat, q: int, r: nat)
    requires d > 0 && x == d * q + r && r < d
    ensures x % d == r
  {
    var q2, r2 := x / d, x % d;
    assert x == d * q2 + r2;
    assert d * (q - q2) == r2 - r;
    if q > q2 { Grow(d, q - q2); }
    if q2 > q { Grow(d, q2 - q); }
  }

  /** Coercing integer aggregates to wider fields and back is the identity. */
  lemma {:induction false} ThereAndBack(v: Value, t: Type, isSigned: bool)
    requires Valid(v) && Wider(TypeOf(v), t)
    ensures Converted(Converted(v, t, isSigned), TypeOf(v), isSigned) == v
    decreases v
  {
    var s := TypeOf(v);
    if s == t {
    } else if v.IntVal? {
      IntBack(v.n, v.bits, t.bits, isSigned);
    } else {
      WiderCompatible(s, t);
      AllOrNothing(v, t, isSigned);
      var w := Converted(v, t, isSigned);
      AllOrNothing(w, s, isSigned);
      var back := ConvertedAll(w.values, s.elements, isSigned);
      forall i | 0 <= i < |back| ensures back[i] == v.values[i] {
        ConvertedAt(v.values, t.elements, isSigned, i);
        ConvertedAt(w.values, s.elements, isSigned, i);
        TypesAt(v.values, i);
        ThereAndBack(v.values[i], t.elements[i], isSigned);
      }
      assert back == v.values;
    }
  }
}
