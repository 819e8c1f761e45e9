/** Building an enum value and taking its payload out again
    (src/IRBuilder/IRGen_access.cpp, buildEnumVariantValue; src/types/TypeInfo.cpp).
    The value is { tag, storage } where storage has the type of the largest payload,
    so on its way through a register it keeps the bytes of that type's fields and
    nothing of its padding. */
module EnumValues {
  import opened Wrappers

  /** A payload: the widths of its integer fields, in bytes. */
  type Fields = seq<nat>

  predicate Width(w: nat) { w == 1 || w == 2 || w == 4 || w == 8 || w == 16 }

  /** The next multiple of an integer's width. */
  function Align(at: nat, w: nat): (r: nat)
    requires Width(w)
    ensures at <= r < at + w
  {
    if w == 1 then at else if w == 2 then (at + 1) / 2 * 2 else if w == 4 then (at + 3) / 4 * 4
    else if w == 8 then (at + 7) / 8 * 8 else (at + 15) / 16 * 16
  }

  predicate Sized(fs: Fields) { forall i | 0 <= i < |fs| :: Width(fs[i]) }

  /** Natural alignment: each field at the next multiple of its width. */
  function Offsets(fs: Fields, at: nat): (r: seq<nat>)
    requires Sized(fs)
    ensures |r| == |fs|
    decreases |fs|
  {
    if fs == [] then []
    else
      var o := Align(at, fs[0]);
      [o] + Offsets(fs[1..], o + fs[0])
  }

  function End(fs: Fields, at: nat): nat
    requires Sized(fs)
    decreases |fs|
  {
    if fs == [] then at else End(fs[1..], Align(at, fs[0]) + fs[0])
  }

  function Widest(fs: Fields): (r: nat)
    requires Sized(fs)
    ensures Width(r)
  {
    if fs == [] then 1 else if fs[0] > Widest(fs[1..]) then fs[0] else Widest(fs[1..])
  }

  /** The allocation size, tail padding included. */
  function Size(fs: Fields): (r: nat)
    requires Sized(fs)
    ensures End(fs, 0) <= r
  {
    Align(End(fs, 0), Widest(fs))
  }

  /** A byte that some field occupies, rather than padding. */
  predicate Covered(fs: Fields, at: nat, b: nat)
    requires Sized(fs)
    decreases |fs|
  {
    fs != [] &&
    (var o := Align(at, fs[0]);
     o <= b < o + fs[0] || Covered(fs[1..], o + fs[0], b))
  }

  /** An offset is a multiple of the width, the least from `at` on. */
  lemma AlignIs(at: nat, w: nat)
    requires Width(w)
    ensures Align(at, w) % w == 0 && at <= Align(at, w) < at + w
  {
  }

  /** A byte and a word take sixteen bytes in either order, three half words twelve. */
  lemma SizesAre()
    ensures Sized([1, 8]) && Offsets([1, 8], 0) == [0, 8] && Size([1, 8]) == 16
    ensures Sized([8, 1]) && Offsets([8, 1], 0) == [0, 8] && Size([8, 1]) == 16
    ensures Sized([4, 4, 4]) && Offsets([4, 4, 4], 0) == [0, 4, 8] && Size([4, 4, 4]) == 12
    ensures Sized([2]) && Size([2]) == 2 && Sized([16]) && Size([16]) == 16 && !Sized([3])
  {
    hide Offsets, End, Widest;
    assert [1] + [8] == [1, 8] && [8] + [1] == [8, 1] && [4] + [4] == [4, 4] && [4] + [4, 4] == [4, 4, 4];
    assert !Width([3][0]);
    One(8, 1); One(1, 8); One(4, 8); One(2, 0); One(16, 0);
    More(1, [8], 0); More(8, [1], 0);
    More(4, [4], 4); More(4, [4, 4], 0);
  }

  lemma One(w: nat, at: nat)
    requires Width(w)
    ensures Sized([w]) && Offsets([w], at) == [Align(at, w)] && End([w], at) == Align(at, w) + w && Widest([w]) == w
  {
    assert [w][1..] == [];
  }

  lemma More(w: nat, fs: Fields, at: nat)
    requires Width(w) && Sized(fs)
    ensures Sized([w] + fs) && Offsets([w] + fs, at) == [Align(at, w)] + Offsets(fs, Align(at, w) + w)
    ensures End([w] + fs, at) == End(fs, Align(at, w) + w)
    ensures Widest([w] + fs) == if w > Widest(fs) then w else Widest(fs)
  {
    assert ([w] + fs)[1..] == fs;
  }

  // ---------------------------------------------------------------- integers in memory

  /** Little-endian bytes of a `w`-byte integer. */
  function Bytes(n: nat, w: nat): (r: seq<nat>)
    ensures |r| == w && forall i | 0 <= i < w :: r[i] < 256
  {
    if w == 0 then [] else [n % 256] + Bytes(n / 256, w - 1)
  }

  function FromBytes(bs: seq<nat>): nat { if bs == [] then 0 else bs[0] + 256 * FromBytes(bs[1..]) }

  function Pow256(w: nat): nat { if w == 0 then 1 else 256 * Pow256(w - 1) }

  lemma {:induction false} BytesBack(n: nat, w: nat)
    requires n < Pow256(w)
    ensures FromBytes(Bytes(n, w)) == n
  {
    if w > 0 {
      BytesBack(n / 256, w - 1);
      assert Bytes(n, w)[1..] == Bytes(n / 256, w - 1);
    }
  }

  /** Memory bytes; None is undefined. */
  type Memory = seq<Option<nat>>

  /** Store the fields one after another. */
  function StoreFields(m: Memory, fs: Fields, vals: seq<nat>, at: nat): (r: Memory)
    requires Sized(fs) && |vals| == |fs| && End(fs, at) <= |m|
    ensures |r| == |m|
    decreases |fs|
  {
    if fs == [] then m
    else
      var o := Align(at, fs[0]);
      EndGrows(fs[1..], o + fs[0]);
      StoreFields(Write(m, o, Bytes(vals[0], fs[0])), fs[1..], vals[1..], o + fs[0])
  }

  lemma {:induction false} EndGrows(fs: Fields, at: nat)
    requires Sized(fs)
    ensures at <= End(fs, at)
    decreases |fs|
  {
    if fs != [] { EndGrows(fs[1..], Align(at, fs[0]) + fs[0]); }
  }

  function Write(m: Memory, o: nat, bs: seq<nat>): (r: Memory)
    requires o + |bs| <= |m|
    ensures |r| == |m|
  {
    seq(|m|, i requires 0 <= i < |m| => if o <= i < o + |bs| then Some(bs[i - o]) else m[i])
  }

  /** Bytes `o` to `o + w`, unless one of them is undefined. */
  function Read(m: Memory, o: nat, w: nat): Option<seq<nat>>
    requires o + w <= |m|
  {
    if exists i :: o <= i < o + w && m[i].None? then None
    else Some(seq(w, i requires 0 <= i < w && m[o + i].Some? => m[o + i].value))
  }

  /** The payload's fields, unless one of them has an undefined byte. */
  function LoadFields(m: Memory, fs: Fields, at: nat): Option<seq<nat>>
    requires Sized(fs) && End(fs, at) <= |m|
    decreases |fs|
  {
    if fs == [] then Some([])
    else
      var o := Align(at, fs[0]);
      EndGrows(fs[1..], o + fs[0]);
      var b := Read(m, o, fs[0]);
      var rest := LoadFields(m, fs[1..], o + fs[0]);
      if b.None? || rest.None? then None else Some([FromBytes(b.value)] + rest.value)
  }

  /** Loading the enum value and storing it again: padding is lost. */
  function Passed(m: Memory, storage: Fields): (r: Memory)
    requires Sized(storage)
    ensures |r| == |m|
  {
    seq(|m|, i requires 0 <= i < |m| => if Covered(storage, 0, i) then m[i] else None)
  }

  function Undefined(n: nat): Memory { seq(n, _ => None) }

  /** buildEnumVariantValue followed by the extraction of the payload. */
  function RoundTrip(storage: Fields, fs: Fields, vals: seq<nat>): Option<seq<nat>>
    requires Sized(storage) && Sized(fs) && |vals| == |fs| && Size(fs) <= Size(storage)
  {
    LoadFields(Passed(StoreFields(Undefined(Size(storage)), fs, vals, 0), storage), fs, 0)
  }

  // ---------------------------------------------------------------- the round trip

  /** The types of an enum's storage and of one variant's payload. */
  datatype Layout = Layout(storage: Fields, payload: Fields) {
    predicate Valid() { Sized(storage) && Sized(payload) && Size(payload) <= Size(storage) }

    /** Each byte of the payload is a byte of some field of the storage. */
    predicate Survives() {
      Valid() && forall b | 0 <= b < End(payload, 0) :: Covered(payload, 0, b) ==> Covered(storage, 0, b)
    }
  }

  predicate Fit(fs: Fields, vals: seq<nat>) {
    |vals| == |fs| && forall i | 0 <= i < |fs| :: vals[i] < Pow256(fs[i])
  }

  /** Stores from `at` on leave what is below alone. */
  lemma {:induction false} StoreBelow(m: Memory, fs: Fields, vals: seq<nat>, at: nat, b: nat)
    requires Sized(fs) && |vals| == |fs| && End(fs, at) <= |m| && b < at
    ensures b < |m| ==> StoreFields(m, fs, vals, at)[b] == m[b]
    decreases |fs|
  {
    if fs != [] {
      var o := Align(at, fs[0]);
      EndGrows(fs[1..], o + fs[0]);
      StoreBelow(Write(m, o, Bytes(vals[0], fs[0])), fs[1..], vals[1..], o + fs[0], b);
    }
  }

  lemma {:induction false} CoveredAbove(fs: Fields, at: nat, b: nat)
    requires Sized(fs) && Covered(fs, at, b)
    ensures at <= b < End(fs, at)
    decreases |fs|
  {
    var o := Align(at, fs[0]);
    EndGrows(fs[1..], o + fs[0]);
    if !(o <= b < o + fs[0]) { CoveredAbove(fs[1..], o + fs[0], b); }
  }

  /** Keeps the bytes `keep` says, and loses the others. */
  ghost predicate Retains(m: Memory, n: Memory, keep: nat -> bool) {
    |n| == |m| && forall i: nat | i < |m| :: n[i] == if keep(i) then m[i] else None
  }

  lemma ReadKept(m: Memory, n: Memory, keep: nat -> bool, o: nat, v: nat, w: nat)
    requires Retains(m, n, keep) && o + w <= |m| && v < Pow256(w)
    requires forall b | o <= b < o + w :: m[b] == Some(Bytes(v, w)[b - o])
    ensures Read(n, o, w).Some? <==> forall b: nat | o <= b < o + w :: keep(b)
    ensures Read(n, o, w).Some? ==> FromBytes(Read(n, o, w).value) == v
  {
    if forall b: nat | o <= b < o + w :: keep(b) {
      assert forall b: nat | o <= b < o + w :: n[b] == m[b];
      assert Read(n, o, w).Some?;
      var r := Read(n, o, w).value;
      forall i: nat | i < w ensures r[i] == Bytes(v, w)[i] { assert n[o + i] == m[o + i]; }
      assert r == Bytes(v, w);
      BytesBack(v, w);
    } else {
      var b: nat :| o <= b < o + w && !keep(b);
      assert n[b].None?;
    }
  }

  lemma NoneCovered(at: nat)
    ensures forall b: nat :: !Covered([], at, b)
  {
  }

  lemma CoveredSplit(fs: Fields, at: nat, keep: nat -> bool)
    requires Sized(fs) && fs != []
    ensures var o := Align(at, fs[0]);
      (forall b: nat | Covered(fs, at, b) :: keep(b)) <==>
        (forall b: nat | o <= b < o + fs[0] :: keep(b)) && (forall b: nat | Covered(fs[1..], o + fs[0], b) :: keep(b))
  {
    hide Align;
  }

  lemma {:induction false} LoadKept(m: Memory, fs: Fields, vals: seq<nat>, at: nat, n: Memory, keep: nat -> bool)
    requires Sized(fs) && Fit(fs, vals) && End(fs, at) <= |m|
    requires Retains(StoreFields(m, fs, vals, at), n, keep)
    ensures LoadFields(n, fs, at).Some? <==> forall b: nat | Covered(fs, at, b) :: keep(b)
    ensures LoadFields(n, fs, at).Some? ==> LoadFields(n, fs, at).value == vals
    decreases |fs|
  {
    hide Align, FromBytes, Bytes, Read, Retains, Covered;
    if fs == [] {
      NoneCovered(at);
    } else {
      var w := fs[0];
      var o := Align(at, w);
      EndGrows(fs[1..], o + w);
      var m1 := Write(m, o, Bytes(vals[0], w));
      var stored := StoreFields(m, fs, vals, at);
      forall b | o <= b < o + w ensures stored[b] == Some(Bytes(vals[0], w)[b - o]) {
        StoreBelow(m1, fs[1..], vals[1..], o + w, b);
      }
      ReadKept(stored, n, keep, o, vals[0], w);
      LoadKept(m1, fs[1..], vals[1..], o + w, n, keep);
      CoveredSplit(fs, at, keep);
      assert vals == [vals[0]] + vals[1..];
    }
  }

  /** A payload comes back unchanged exactly when each of its bytes is a byte of some
      field of the largest payload; otherwise part of it is undefined, whatever its
      values. */
  lemma RoundTripIff(storage: Fields, fs: Fields, vals: seq<nat>)
    requires Sized(storage) && Sized(fs) && Fit(fs, vals) && Size(fs) <= Size(storage)
    ensures (forall b: nat | Covered(fs, 0, b) :: Covered(storage, 0, b)) ==> RoundTrip(storage, fs, vals) == Some(vals)
    ensures !(forall b: nat | Covered(fs, 0, b) :: Covered(storage, 0, b)) ==> RoundTrip(storage, fs, vals) == None
  {
    hide LoadFields, StoreFields, Covered, Size;
    var m := StoreFields(Undefined(Size(storage)), fs, vals, 0);
    var keep := (b: nat) => Covered(storage, 0, b);
    assert Retains(m, Passed(m, storage), keep);
    LoadKept(Undefined(Size(storage)), fs, vals, 0, Passed(m, storage), keep);
    if b: nat :| Covered(fs, 0, b) && !Covered(storage, 0, b) {
      assert !keep(b);
    } else {
      assert forall b: nat | Covered(fs, 0, b) :: keep(b);
    }
  }

  lemma SurvivesIff(l: Layout, vals: seq<nat>)
    requires l.Valid() && Fit(l.payload, vals)
    ensures RoundTrip(l.storage, l.payload, vals) == if l.Survives() then Some(vals) else None
  {
    hide RoundTrip;
    RoundTripIff(l.storage, l.payload, vals);
    forall b: nat | Covered(l.payload, 0, b) ensures b < End(l.payload, 0) { CoveredAbove(l.payload, 0, b); }
  }

  /** So it does when the largest payload is a single integer, whatever the others
      are, and the largest payload itself always does. */
  lemma ScalarStorage(w: nat, fs: Fields, vals: seq<nat>)
    requires Width(w) && Sized(fs) && Fit(fs, vals) && Size(fs) <= Size([w])
    ensures RoundTrip([w], fs, vals) == Some(vals)
  {
    hide RoundTrip;
    assert [w][1..] == [];
    assert Align(0, w) == 0 && Align(w, w) == w;
    assert End([w], 0) == End([], w) == w;
    assert Widest([]) == 1 && Widest([w]) == w;
    forall b: nat | Covered(fs, 0, b) ensures Covered([w], 0, b) { CoveredAbove(fs, 0, b); }
    RoundTripIff([w], fs, vals);
  }

  lemma LargestSurvives(fs: Fields, vals: seq<nat>)
    requires Sized(fs) && Fit(fs, vals)
    ensures RoundTrip(fs, fs, vals) == Some(vals)
  {
    RoundTripIff(fs, fs, vals);
  }

  /** Not in general: next to a payload of a byte and a 64-bit integer, one of three
      32-bit integers loses its bytes 1 to 7. */
  lemma PaddingLosesPayload(a: nat, b: nat, c: nat)
    requires a < Pow256(4) && b < Pow256(4) && c < Pow256(4)
    ensures Size([4, 4, 4]) <= Size([1, 8]) && RoundTrip([1, 8], [4, 4, 4], [a, b, c]) == None
  {
    var fs, storage: Fields := [4, 4, 4], [1, 8];
    assert fs[1..] == [4, 4] && fs[1..][1..] == [4] && fs[1..][1..][1..] == [];
    assert storage[1..] == [8] && storage[1..][1..] == [];
    hide RoundTrip;
    assert End(fs[1..], 4) == 12 by { assert End(fs[1..][1..], 8) == 12; }
    assert Widest(fs[1..]) == 4 by { assert Widest(fs[1..][1..]) == 4; }
    assert End(storage[1..], 1) == 16 && Widest(storage[1..]) == 8;
    assert Size(fs) == 12 && Size(storage) == 16;
    assert Covered(fs, 0, 1) && !Covered(storage, 0, 1);
    RoundTripIff(storage, fs, [a, b, c]);
  }
}
