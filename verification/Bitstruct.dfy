/** Bitstructs: layout (src/IRBuilder/IRGen_decl.cpp), reads
    (src/IRBuilder/IRGen_access.cpp) and writes (src/IRBuilder/IRGen_stmt.cpp).
    A register is the sequence of its bits, least significant first. */
module Bitstruct {
  import opened Wrappers

  type Bits = seq<bool>

  // ---------------------------------------------------------------- instructions

  function And(x: Bits, y: Bits): (r: Bits)
    requires |x| == |y|
  {
    seq(|x|, i requires 0 <= i < |x| => x[i] && y[i])
  }

  function Or(x: Bits, y: Bits): (r: Bits)
    requires |x| == |y|
  {
    seq(|x|, i requires 0 <= i < |x| => x[i] || y[i])
  }

  function Not(x: Bits): (r: Bits) { seq(|x|, i requires 0 <= i < |x| => !x[i]) }

  function Shr(x: Bits, k: nat): (r: Bits) { seq(|x|, i requires 0 <= i < |x| => i + k < |x| && x[i + k]) }

  function Shl(x: Bits, k: nat): (r: Bits) { seq(|x|, i requires 0 <= i < |x| => i >= k && x[i - k]) }

  /** Truncation or zero extension: CreateIntCast, and what ConstantInt::get does
      with a 64-bit constant. */
  function Cast(x: Bits, n: nat): (r: Bits) { seq(n, i requires 0 <= i < n => i < |x| && x[i]) }

  /** `(1ULL << width) - 1`. */
  function Mask(width: nat): Bits { seq(64, i => i < width) }

  function ToNat(x: Bits): nat { if x == [] then 0 else (if x[0] then 1 else 0) + 2 * ToNat(x[1..]) }

  function Pow2(n: nat): nat { if n == 0 then 1 else 2 * Pow2(n - 1) }

  // ---------------------------------------------------------------- layout

  /** `name` is absent for padding. */
  datatype FieldDecl = FieldDecl(name: Option<string>, width: nat)

  datatype BitField = BitField(name: Option<string>, offset: nat, width: nat)

  function Total(ds: seq<FieldDecl>): nat { if ds == [] then 0 else ds[0].width + Total(ds[1..]) }

  function Layout(ds: seq<FieldDecl>, at: nat): (r: seq<BitField>)
    ensures |r| == |ds|
  {
    if ds == [] then [] else [BitField(ds[0].name, at, ds[0].width)] + Layout(ds[1..], at + ds[0].width)
  }

  predicate Backing(n: nat) { n == 8 || n == 16 || n == 32 || n == 64 || n == 128 }

  /** The least backing width that holds all fields. */
  predicate IsLeast(n: Option<nat>, total: nat) {
    match n
    case None => total > 128
    case Some(b) => Backing(b) && total <= b && forall c: nat | Backing(c) && total <= c :: b <= c
  }

  lemma LeastIs(total: nat, n: Option<nat>)
    requires n == if total <= 8 then Some(8) else if total <= 16 then Some(16) else if total <= 32 then Some(32)
                  else if total <= 64 then Some(64) else if total <= 128 then Some(128) else None
    ensures IsLeast(n, total)
  {
  }

  /** `backing` is absent for `auto`; None is returned when nothing fits. */
  method VisitBitstructDecl(ds: seq<FieldDecl>, backing: Option<nat>) returns (width: Option<nat>, fields: seq<BitField>)
    ensures backing.Some? ==> width == backing
    ensures backing.None? ==> IsLeast(width, Total(ds))
    ensures fields == if width.Some? then Layout(ds, 0) else []
  {
    hide IsLeast;
    width := backing;
    if backing.None? {
      var totalBits: nat := 0;
      for i := 0 to |ds|
        invariant totalBits + Total(ds[i..]) == Total(ds)
      {
        totalBits := totalBits + ds[i].width;
        assert ds[i..][1..] == ds[i + 1..];
      }
      if totalBits <= 8 { width := Some(8); }
      else if totalBits <= 16 { width := Some(16); }
      else if totalBits <= 32 { width := Some(32); }
      else if totalBits <= 64 { width := Some(64); }
      else if totalBits <= 128 { width := Some(128); }
      LeastIs(totalBits, width);
      if totalBits > 128 { return None, []; }
    }
    fields := [];
    var runningOffset: nat := 0;
    for i := 0 to |ds|
      invariant fields + Layout(ds[i..], runningOffset) == Layout(ds, 0)
    {
      assert ds[i..][0] == ds[i] && ds[i..][1..] == ds[i + 1..];
      fields := fields + [BitField(ds[i].name, runningOffset, ds[i].width)];
      runningOffset := runningOffset + ds[i].width;
    }
  }

  /** Each field has its declaration's name and width and starts where the widths before
      it end. */
  lemma {:induction false} LayoutIs(ds: seq<FieldDecl>, at: nat, i: nat)
    requires i < |ds|
    ensures var f := Layout(ds, at)[i]; f.name == ds[i].name && f.width == ds[i].width && f.offset == at + Total(ds[..i])
    decreases |ds|
  {
    if i > 0 {
      LayoutIs(ds[1..], at + ds[0].width, i - 1);
      assert ds[..i][1..] == ds[1..][..i - 1];
    }
  }

  predicate Within(f: BitField, b: nat) { f.offset <= b < f.offset + f.width }

  predicate InSome(fs: seq<BitField>, b: nat) { exists i :: 0 <= i < |fs| && Within(fs[i], b) }

  lemma InSomeSplit(f: BitField, fs: seq<BitField>, b: nat)
    ensures InSome([f] + fs, b) <==> Within(f, b) || InSome(fs, b)
  {
    var all := [f] + fs;
    if Within(f, b) { assert Within(all[0], b); }
    if i :| 0 <= i < |fs| && Within(fs[i], b) { assert Within(all[i + 1], b); }
  }

  /** Padding included, the fields tile the low bits: every bit below the total is
      in exactly one field, and no other bit is in any. */
  lemma {:induction false} Tiling(ds: seq<FieldDecl>, at: nat, b: nat)
    ensures var fs := Layout(ds, at);
      && (at <= b < at + Total(ds) <==> InSome(fs, b))
      && (forall i, j | 0 <= i < j < |fs| :: !(Within(fs[i], b) && Within(fs[j], b)))
  {
    hide InSome;
    if ds == [] {
      assert !InSome([], b) by { NoFields(b); }
    } else {
      var f := BitField(ds[0].name, at, ds[0].width);
      var rest := Layout(ds[1..], at + ds[0].width);
      Tiling(ds[1..], at + ds[0].width, b);
      InSomeSplit(f, rest, b);
      forall j | 0 <= j < |rest| && Within(rest[j], b) ensures InSome(rest, b) { SomeField(rest, j, b); }
    }
  }

  lemma NoFields(b: nat)
    ensures !InSome([], b)
  {
  }

  lemma SomeField(fs: seq<BitField>, j: nat, b: nat)
    requires j < |fs| && Within(fs[j], b)
    ensures InSome(fs, b)
  {
  }

  // ---------------------------------------------------------------- reads

  /** The width of the integer a field is read as. */
  function ResultWidth(width: nat): nat {
    if width <= 8 then 8 else if width <= 16 then 16 else if width <= 32 then 32 else 64
  }

  function ReadField(raw: Bits, f: BitField): Bits {
    var shifted := if f.offset > 0 then Shr(raw, f.offset) else raw;
    Cast(And(shifted, Cast(Mask(f.width), |raw|)), ResultWidth(f.width))
  }

  /** A field is read as the least integer of 8, 16, 32 or 64 bits that holds it. */
  lemma ReadWidth(raw: Bits, f: BitField)
    requires f.width <= 64
    ensures var n := |ReadField(raw, f)|;
      Whole(n) && f.width <= n && forall k | Whole(k) && f.width <= k :: n <= k
  {
  }

  predicate Whole(n: nat) { n == 8 || n == 16 || n == 32 || n == 64 }

  lemma {:induction false} Zeros(x: Bits)
    requires forall i | 0 <= i < |x| :: !x[i]
    ensures ToNat(x) == 0
  {
    if x != [] { Zeros(x[1..]); }
  }

  lemma {:induction false} ToNatJoin(x: Bits, y: Bits)
    ensures ToNat(x + y) == ToNat(x) + Pow2(|x|) * ToNat(y)
  {
    if x == [] {
      assert x + y == y;
    } else {
      assert (x + y)[1..] == x[1..] + y;
      ToNatJoin(x[1..], y);
      assert Pow2(|x|) == 2 * Pow2(|x[1..]|);
      MulAssoc(Pow2(|x[1..]|), ToNat(y));
    }
  }

  lemma MulAssoc(a: nat, b: nat)
    ensures 2 * (a * b) == (2 * a) * b
  {
  }

  /** A read gives the field's own bits, whichever of the two paths emitted it. */
  lemma ReadIs(raw: Bits, f: BitField)
    requires f.width < 64 && f.offset + f.width <= |raw|
    ensures ToNat(ReadField(raw, f)) == ToNat(raw[f.offset..f.offset + f.width])
  {
    var r := ReadField(raw, f);
    var bits := raw[f.offset..f.offset + f.width];
    assert r == bits + r[f.width..];
    Zeros(r[f.width..]);
    ToNatJoin(bits, r[f.width..]);
  }

  /** Each read scaled to its place. */
  function Recombined(raw: Bits, fs: seq<BitField>): nat {
    if fs == [] then 0 else Pow2(fs[0].offset) * ToNat(ReadField(raw, fs[0])) + Recombined(raw, fs[1..])
  }

  lemma {:induction false} Pow2Add(a: nat, b: nat)
    ensures Pow2(a + b) == Pow2(a) * Pow2(b)
  {
    if a > 0 {
      Pow2Add(a - 1, b);
      MulAssoc(Pow2(a - 1), Pow2(b));
    }
  }

  lemma {:induction false} RecombineFrom(raw: Bits, ds: seq<FieldDecl>, at: nat)
    requires at + Total(ds) <= |raw| && forall i | 0 <= i < |ds| :: ds[i].width < 64
    ensures Pow2(at) * ToNat(raw[at..]) ==
      Recombined(raw, Layout(ds, at)) + Pow2(at + Total(ds)) * ToNat(raw[at + Total(ds)..])
  {
    hide ReadField, Pow2, ToNat;
    if ds != [] {
      var w := ds[0].width;
      var f := BitField(ds[0].name, at, w);
      var low, high, next := raw[at..at + w], raw[at + w..], at + w;
      ReadIs(raw, f);
      RecombineFrom(raw, ds[1..], next);
      assert raw[at..] == low + high;
      ToNatJoin(low, high);
      Pow2Add(at, w);
      Scale(Pow2(at), ToNat(low), Pow2(w), ToNat(high));
      assert next + Total(ds[1..]) == at + Total(ds);
      assert Layout(ds, at) == [f] + Layout(ds[1..], next);
      assert Recombined(raw, Layout(ds, at)) == Pow2(at) * ToNat(low) + Recombined(raw, Layout(ds[1..], next));
    }
  }

  lemma Scale(a: nat, b: nat, c: nat, d: nat)
    ensures a * (b + c * d) == a * b + (a * c) * d
  {
    assert a * (c * d) == (a * c) * d;
    assert a * (b + c * d) == a * b + a * (c * d);
  }

  /** Every backing value is the sum of its fields, each at its place, and of the
      bits above the last one. */
  lemma Recombine(raw: Bits, ds: seq<FieldDecl>)
    requires Total(ds) <= |raw| && forall i | 0 <= i < |ds| :: ds[i].width < 64
    ensures ToNat(raw) == Recombined(raw, Layout(ds, 0)) + Pow2(Total(ds)) * ToNat(raw[Total(ds)..])
  {
    hide Recombined, Layout, ToNat, Total;
    RecombineFrom(raw, ds, 0);
    assert raw[0..] == raw;
    assert Pow2(0) == 1;
  }

  // ---------------------------------------------------------------- writes

  /** Clear with a 64-bit mask, then or in the shifted value, which is not masked. */
  function WriteField(raw: Bits, f: BitField, v: Bits): (r: Bits)
    requires |v| == |raw|
    ensures |r| == |raw|
  {
    var cleared := And(raw, Cast(Not(Shl(Mask(f.width), f.offset)), |raw|));
    Or(cleared, if f.offset > 0 then Shl(v, f.offset) else v)
  }

  predicate Valid(f: BitField, n: nat) { 0 < f.width < 64 && f.offset + f.width <= n && f.offset < 64 }

  /** Every bit of the backing value after a write. */
  lemma WriteIs(raw: Bits, f: BitField, v: Bits, k: nat)
    requires |v| == |raw| && Valid(f, |raw|) && k < |raw|
    ensures WriteField(raw, f, v)[k] ==
      if k < f.offset then raw[k]
      else if k < f.offset + f.width && k < 64 then v[k - f.offset]
      else (k < 64 && raw[k]) || v[k - f.offset]
  {
  }

  /** What was written is read back, cut to the field's width. */
  lemma ReadBack(raw: Bits, f: BitField, v: Bits)
    requires |v| == |raw| && Valid(f, |raw|)
    ensures ToNat(ReadField(WriteField(raw, f, v), f)) == ToNat(v[..f.width])
  {
    hide WriteField, ReadField;
    var r := WriteField(raw, f, v);
    ReadIs(r, f);
    forall k | f.offset <= k < f.offset + f.width ensures r[k] == v[k - f.offset] { WriteIs(raw, f, v, k); }
    assert r[f.offset..f.offset + f.width] == v[..f.width];
  }

  ghost predicate OthersKept(raw: Bits, f: BitField, v: Bits)
    requires |v| == |raw|
  {
    forall k | 0 <= k < |raw| && !Within(f, k) :: WriteField(raw, f, v)[k] == raw[k]
  }

  /** The value has no bits beyond the field, as far as the backing type goes. */
  predicate FitsField(f: BitField, v: Bits) {
    forall k | f.width <= k < |v| - f.offset :: !v[k]
  }

  /** A write leaves all other bits alone, whatever they are, exactly when the value
      fits the field and the backing type has at most 64 bits: the mask is computed
      in 64 bits, and is zero above them. */
  lemma WriteKeepsIff(f: BitField, v: Bits)
    requires Backing(|v|) && Valid(f, |v|)
    ensures (forall raw: Bits | |raw| == |v| :: OthersKept(raw, f, v)) <==> FitsField(f, v) && |v| <= 64
  {
    hide WriteField;
    if FitsField(f, v) && |v| <= 64 {
      forall raw: Bits | |raw| == |v| ensures OthersKept(raw, f, v) {
        forall k | 0 <= k < |raw| && !Within(f, k) ensures WriteField(raw, f, v)[k] == raw[k] {
          WriteIs(raw, f, v, k);
        }
      }
    } else if !FitsField(f, v) {
      var k :| f.width <= k < |v| - f.offset && v[k];
      var raw := seq(|v|, _ => false);
      WriteIs(raw, f, v, k + f.offset);
      assert !OthersKept(raw, f, v) by { assert !Within(f, k + f.offset); }
    } else {
      HighBitsCleared(f, v);
    }
  }

  /** With a wider backing type a write to a field below bit 64 clears the rest. */
  lemma HighBitsCleared(f: BitField, v: Bits)
    requires Backing(|v|) && Valid(f, |v|) && |v| > 64 && FitsField(f, v)
    ensures exists raw: Bits :: |raw| == |v| && !OthersKept(raw, f, v)
  {
    hide WriteField;
    var raw := seq(|v|, _ => true);
    var k := if f.offset + f.width <= 64 then 64 else f.offset + f.width;
    WriteIs(raw, f, v, k);
    assert !v[k - f.offset];
    assert !OthersKept(raw, f, v) by { assert !Within(f, k); }
  }
}
