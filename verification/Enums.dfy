/** Enums: how variants are numbered (src/IRBuilder/IRGen_decl.cpp), which of two is
    the error (src/IRBuilder/IRGen_helpers.h), and whether a payload survives being
    part of an enum value (src/IRBuilder/IRGen_access.cpp, src/types/TypeInfo.cpp). */
module Enums {
  import opened Wrappers

  // ---------------------------------------------------------------- numbering

  /** `unsigned` arithmetic. */
  const WORD := 0x1_0000_0000

  function Wrap(n: int): (r: nat)
    ensures r < WORD
  {
    n % WORD
  }

  lemma WrapAgain(a: int, b: int)
    ensures Wrap(Wrap(a) + b) == Wrap(a + b)
  {
  }

  /** An explicit value restarts the count. */
  function Numbers(ds: seq<Option<nat>>, next: nat): (r: seq<nat>)
    ensures |r| == |ds|
  {
    if ds == [] then []
    else
      var d := if ds[0].Some? then Wrap(ds[0].value) else next;
      [d] + Numbers(ds[1..], Wrap(d + 1))
  }

  method NumberVariants(ds: seq<Option<nat>>) returns (discs: seq<nat>)
    ensures discs == Numbers(ds, 0)
  {
    hide Wrap;
    discs := [];
    var nextDiscriminant: nat := 0;
    for i := 0 to |ds|
      invariant Numbers(ds, 0) == discs + Numbers(ds[i..], nextDiscriminant)
    {
      assert ds[i..][0] == ds[i] && ds[i..][1..] == ds[i + 1..];
      var d: nat := nextDiscriminant;
      if ds[i].Some? { d := Wrap(ds[i].value); }
      nextDiscriminant := Wrap(d + 1);
      discs := discs + [d];
    }
  }

  /** An explicit value cut to 32 bits, else one more than the variant before, where zero
      follows the largest; the first is zero. */
  lemma NumbersAre(ds: seq<Option<nat>>, i: nat)
    requires i < |ds|
    ensures ds[i].Some? ==> Numbers(ds, 0)[i] == ds[i].value % 0x1_0000_0000
    ensures ds[i].None? && i == 0 ==> Numbers(ds, 0)[i] == 0
    ensures ds[i].None? && i > 0 ==>
      var before := Numbers(ds, 0)[i - 1];
      before <= 0xffff_ffff && Numbers(ds, 0)[i] == if before == 0xffff_ffff then 0 else before + 1
  {
    hide Wrap;
    if i == 0 { WrapIs(if ds[0].Some? then ds[0].value else 0); } else { NumberAt(ds, 0, i); }
  }

  lemma WrapIs(n: nat)
    ensures Wrap(n) == n % 0x1_0000_0000 && Wrap(n) <= 0xffff_ffff
    ensures n <= 0xffff_ffff ==> Wrap(n + 1) == if n == 0xffff_ffff then 0 else n + 1
  {
  }

  lemma {:induction false} NumberAt(ds: seq<Option<nat>>, next: nat, i: nat)
    requires 0 < i < |ds| && next <= 0xffff_ffff
    ensures var before := Numbers(ds, next)[i - 1];
      && before <= 0xffff_ffff
      && Numbers(ds, next)[i] ==
          if ds[i].Some? then ds[i].value % 0x1_0000_0000 else if before == 0xffff_ffff then 0 else before + 1
    decreases i
  {
    hide Wrap;
    var d := if ds[0].Some? then Wrap(ds[0].value) else next;
    if ds[0].Some? { WrapIs(ds[0].value); }
    WrapIs(d);
    if i == 1 {
      if ds[1].Some? { WrapIs(ds[1].value); }
    } else {
      WrapIs(d + 1);
      NumberAt(ds[1..], Wrap(d + 1), i - 1);
    }
  }

  ghost predicate Distinct(xs: seq<nat>) {
    forall i, j | 0 <= i < j < |xs| :: xs[i] != xs[j]
  }

  ghost predicate Common(xs: seq<nat>, ys: seq<nat>) {
    exists x :: x in xs && x in ys
  }

  lemma DistinctJoin(xs: seq<nat>, ys: seq<nat>)
    ensures Distinct(xs + ys) <==> Distinct(xs) && Distinct(ys) && !Common(xs, ys)
  {
    var zs := xs + ys;
    if Distinct(zs) {
      forall i, j | 0 <= i < j < |xs| ensures xs[i] != xs[j] { assert zs[i] == xs[i] && zs[j] == xs[j]; }
      forall i, j | 0 <= i < j < |ys| ensures ys[i] != ys[j] {
        assert zs[|xs| + i] == ys[i] && zs[|xs| + j] == ys[j];
      }
      forall i, j | 0 <= i < |xs| && 0 <= j < |ys| ensures xs[i] != ys[j] {
        assert zs[i] == xs[i] && zs[|xs| + j] == ys[j];
      }
    }
    if Distinct(xs) && Distinct(ys) && !Common(xs, ys) {
      forall i, j | 0 <= i < j < |zs| ensures zs[i] != zs[j] {
        if i < |xs| <= j { assert zs[i] in xs && zs[j] in ys; }
      }
    }
  }

  /** An explicit value and the implicit ones that follow it. */
  datatype Run = Run(base: nat, len: nat)

  /** How many implicit variants come first. */
  function Implicit(ds: seq<Option<nat>>): (n: nat)
    ensures n <= |ds| && (n < |ds| ==> ds[n].Some?)
    ensures forall i | 0 <= i < n :: ds[i].None?
  {
    if ds == [] || ds[0].Some? then 0 else 1 + Implicit(ds[1..])
  }

  function First(ds: seq<Option<nat>>, next: nat): nat
    requires ds != []
  {
    if ds[0].Some? then Wrap(ds[0].value) else next
  }

  function Runs(ds: seq<Option<nat>>, next: nat): seq<Run>
    decreases |ds|
  {
    if ds == [] then []
    else
      var n := Implicit(ds[1..]);
      [Run(First(ds, next), n + 1)] + Runs(ds[1 + n..], 0)
  }

  function Expand(r: Run): (xs: seq<nat>)
    ensures |xs| == r.len && forall i | 0 <= i < r.len :: xs[i] == Wrap(r.base + i)
  {
    seq<nat>(r.len, i requires 0 <= i < r.len => Wrap(r.base + i))
  }

  function Flatten(rs: seq<Run>): seq<nat> { if rs == [] then [] else Expand(rs[0]) + Flatten(rs[1..]) }

  lemma ExpandStep(base: nat, n: nat)
    requires base < WORD
    ensures Expand(Run(base, n + 1)) == [base] + Expand(Run(Wrap(base + 1), n))
  {
    var xs, ys := Expand(Run(base, n + 1)), Expand(Run(Wrap(base + 1), n));
    forall i | 0 <= i < n ensures xs[i + 1] == ys[i] {
      WrapAgain(base + 1, i);
    }
    assert xs[0] == base;
  }

  lemma {:induction false} CountUp(ds: seq<Option<nat>>, n: nat, next: nat)
    requires n <= |ds| && (forall i | 0 <= i < n :: ds[i].None?) && next < WORD
    ensures Numbers(ds, next) == Expand(Run(next, n)) + Numbers(ds[n..], Wrap(next + n))
    decreases n
  {
    hide Wrap, Expand;
    if n > 0 {
      CountUp(ds[1..], n - 1, Wrap(next + 1));
      assert ds[1..][n - 1..] == ds[n..];
      WrapAgain(next + 1, n - 1);
      ExpandStep(next, n - 1);
    } else {
      assert ds[0..] == ds;
      WrapSmall(next);
    }
  }

  lemma WrapSmall(n: nat)
    requires n < WORD
    ensures Wrap(n) == n
  {
  }

  lemma WrapEqual(a: int, b: int)
    requires Wrap(a) == Wrap(b)
    ensures Wrap(a - b) == 0
  {
  }

  lemma NumbersStep(ds: seq<Option<nat>>, next: nat)
    requires ds != []
    ensures Numbers(ds, next) == [First(ds, next)] + Numbers(ds[1..], Wrap(First(ds, next) + 1))
  {
    hide Wrap;
  }

  lemma OneRun(ds: seq<Option<nat>>, next: nat)
    requires next < WORD && ds != []
    ensures var n := Implicit(ds[1..]);
      Numbers(ds, next) == Expand(Run(First(ds, next), n + 1)) + Numbers(ds[1 + n..], 0)
  {
    hide Wrap, Expand, Implicit, Numbers;
    NumbersStep(ds, next);
    FirstSmall(ds, next);
    var n := Implicit(ds[1..]);
    var d := First(ds, next);
    CountUp(ds[1..], n, Wrap(d + 1));
    assert ds[1..][n..] == ds[1 + n..];
    NextUnused(ds[1 + n..], Wrap(Wrap(d + 1) + n));
    ExpandStep(d, n);
    var head, tail := Expand(Run(Wrap(d + 1), n)), Numbers(ds[1 + n..], 0);
    assert [d] + (head + tail) == ([d] + head) + tail;
  }

  lemma FirstSmall(ds: seq<Option<nat>>, next: nat)
    requires ds != [] && next < WORD
    ensures First(ds, next) < WORD
  {
  }

  lemma {:induction false} NumbersAreRuns(ds: seq<Option<nat>>, next: nat)
    requires next < WORD
    ensures Numbers(ds, next) == Flatten(Runs(ds, next))
    decreases |ds|
  {
    hide Wrap, Expand, Implicit, Numbers, Runs, Flatten, First;
    if ds == [] {
      NoNumbers(next);
    } else {
      var n := Implicit(ds[1..]);
      OneRun(ds, next);
      NumbersAreRuns(ds[1 + n..], 0);
      RunsStep(ds, next);
    }
  }

  lemma NoNumbers(next: nat)
    ensures Numbers([], next) == Flatten(Runs([], next))
  {
  }

  lemma RunsStep(ds: seq<Option<nat>>, next: nat)
    requires ds != []
    ensures var n := Implicit(ds[1..]);
      Flatten(Runs(ds, next)) == Expand(Run(First(ds, next), n + 1)) + Flatten(Runs(ds[1 + n..], 0))
  {
    hide Wrap, Expand, Implicit, First;
    var n := Implicit(ds[1..]);
    var r, rs := Run(First(ds, next), n + 1), Runs(ds[1 + n..], 0);
    assert Runs(ds, next) == [r] + rs;
    assert ([r] + rs)[1..] == rs;
  }

  lemma NextUnused(ds: seq<Option<nat>>, next: nat)
    requires ds == [] || ds[0].Some?
    ensures Numbers(ds, next) == Numbers(ds, 0)
  {
  }

  /** Neither run's first value lies in the other. */
  predicate Apart(r: Run, s: Run) { Wrap(s.base - r.base) >= r.len && Wrap(r.base - s.base) >= s.len }

  lemma ApartIff(r: Run, s: Run)
    requires r.base < WORD && s.base < WORD && 0 < r.len <= WORD && 0 < s.len <= WORD
    ensures Apart(r, s) <==> !Common(Expand(r), Expand(s))
  {
    hide Expand, Apart, Wrap;
    if !Apart(r, s) {
      StartsInside(r, s);
    } else {
      forall x | x in Expand(r) ensures x !in Expand(s) {
        var i :| 0 <= i < r.len && Expand(r)[i] == x;
        if x in Expand(s) {
          var j :| 0 <= j < s.len && Expand(s)[j] == x;
          MeetInside(r, s, i, j);
        }
      }
    }
  }

  lemma InRun(r: Run, x: nat)
    requires r.base < WORD && x < WORD && Wrap(x - r.base) < r.len
    ensures x in Expand(r)
  {
    hide Expand;
    assert Expand(r)[Wrap(x - r.base)] == x;
  }

  lemma StartsInside(r: Run, s: Run)
    requires r.base < WORD && s.base < WORD && 0 < r.len <= WORD && 0 < s.len <= WORD && !Apart(r, s)
    ensures Common(Expand(r), Expand(s))
  {
    hide Expand, Wrap;
    WrapSmall(0);
    InRun(r, r.base);
    InRun(s, s.base);
    if Wrap(s.base - r.base) < r.len { InRun(r, s.base); } else { InRun(s, r.base); }
  }

  lemma MeetInside(r: Run, s: Run, i: nat, j: nat)
    requires r.base < WORD && s.base < WORD && i < r.len <= WORD && j < s.len <= WORD
    requires Wrap(r.base + i) == Wrap(s.base + j)
    ensures !Apart(r, s)
  {
    hide Wrap;
    WrapEqual(r.base + i, s.base + j);
    if i >= j {
      WrapDifference(s.base - r.base, i - j);
    } else {
      WrapEqual(s.base + j, r.base + i);
      WrapDifference(r.base - s.base, j - i);
    }
  }

  lemma WrapDifference(a: int, d: nat)
    requires d < WORD && Wrap(d - a) == 0
    ensures Wrap(a) == d
  {
  }

  lemma ExpandDistinct(r: Run)
    requires r.base < WORD
    ensures Distinct(Expand(r)) <==> r.len <= WORD
  {
    if r.len > WORD { assert Wrap(r.base + WORD) == Wrap(r.base + 0) && Expand(r)[0] == Expand(r)[WORD]; }
  }

  ghost predicate RunsApart(rs: seq<Run>) {
    && (forall i | 0 <= i < |rs| :: rs[i].len <= WORD)
    && (forall i, j | 0 <= i < j < |rs| :: Apart(rs[i], rs[j]))
  }

  ghost predicate GoodRuns(rs: seq<Run>) { forall i | 0 <= i < |rs| :: rs[i].base < WORD && rs[i].len > 0 }

  lemma {:induction false} RunsGood(ds: seq<Option<nat>>, next: nat)
    requires next < WORD
    ensures GoodRuns(Runs(ds, next))
    decreases |ds|
  {
    if ds != [] { RunsGood(ds[1 + Implicit(ds[1..])..], 0); }
  }

  lemma {:induction false} InSomeRun(rs: seq<Run>, x: nat)
    ensures x in Flatten(rs) <==> exists i :: 0 <= i < |rs| && x in Expand(rs[i])
  {
    if rs != [] {
      InSomeRun(rs[1..], x);
      assert forall i | 0 < i < |rs| :: rs[1..][i - 1] == rs[i];
    }
  }

  lemma {:induction false} FlattenDistinct(rs: seq<Run>)
    requires GoodRuns(rs)
    ensures Distinct(Flatten(rs)) <==> RunsApart(rs)
  {
    hide Apart, Expand;
    if rs != [] {
      var rest := rs[1..];
      assert forall i | 0 < i < |rs| :: rest[i - 1] == rs[i];
      FlattenDistinct(rest);
      DistinctJoin(Expand(rs[0]), Flatten(rest));
      ExpandDistinct(rs[0]);
      HeadApart(rs);
      assert RunsApart(rs) <==> RunsApart(rest) && rs[0].len <= WORD && forall j | 0 < j < |rs| :: Apart(rs[0], rs[j]);
    }
  }

  lemma HeadApart(rs: seq<Run>)
    requires GoodRuns(rs) && rs != []
    ensures rs[0].len <= WORD && (forall i | 0 < i < |rs| :: rs[i].len <= WORD) ==>
      (!Common(Expand(rs[0]), Flatten(rs[1..])) <==> forall j | 0 < j < |rs| :: Apart(rs[0], rs[j]))
  {
    hide Apart, Expand;
    if rs[0].len <= WORD && (forall i | 0 < i < |rs| :: rs[i].len <= WORD) {
      forall j | 0 < j < |rs| ensures Apart(rs[0], rs[j]) <==> !Common(Expand(rs[0]), Expand(rs[j])) {
        ApartIff(rs[0], rs[j]);
      }
      forall x ensures x in Flatten(rs[1..]) <==> exists j :: 0 < j < |rs| && x in Expand(rs[j]) {
        InSomeRun(rs[1..], x);
        assert forall i | 0 < i < |rs| :: rs[1..][i - 1] == rs[i];
      }
      if x :| x in Expand(rs[0]) && x in Flatten(rs[1..]) {
        var j :| 0 < j < |rs| && x in Expand(rs[j]);
        assert Common(Expand(rs[0]), Expand(rs[j]));
      }
      forall j | 0 < j < |rs| && Common(Expand(rs[0]), Expand(rs[j])) ensures Common(Expand(rs[0]), Flatten(rs[1..])) {
        var x :| x in Expand(rs[0]) && x in Expand(rs[j]);
        assert x in Flatten(rs[1..]);
      }
    }
  }

  /** The discriminants are pairwise distinct exactly when no run of values starts
      inside another one, 32-bit wrap-around included. */
  lemma DistinctIff(ds: seq<Option<nat>>)
    ensures Distinct(Numbers(ds, 0)) <==> RunsApart(Runs(ds, 0))
  {
    NumbersAreRuns(ds, 0);
    RunsGood(ds, 0);
    FlattenDistinct(Runs(ds, 0));
  }

  /** Every explicit value at least the running one, and below the word. */
  predicate Ascending(ds: seq<Option<nat>>, next: nat) {
    ds == [] ||
    (var d := if ds[0].Some? then ds[0].value else next;
     next <= d < WORD && Ascending(ds[1..], d + 1))
  }

  lemma {:induction false} AscendingDistinct(ds: seq<Option<nat>>, next: nat)
    requires Ascending(ds, next)
    ensures Distinct(Numbers(ds, next)) && forall x | x in Numbers(ds, next) :: next <= x
  {
    hide Wrap, Distinct;
    if ds == [] {
      assert Distinct([]) by { SingleDistinct(0); }
    } else {
      var d := if ds[0].Some? then ds[0].value else next;
      WrapSmall(d);
      SingleDistinct(d);
      if ds[1..] == [] {
        assert Numbers(ds, next) == [d];
      } else {
        WrapSmall(d + 1);
        AscendingDistinct(ds[1..], d + 1);
        DistinctJoin([d], Numbers(ds[1..], d + 1));
        assert Numbers(ds, next) == [d] + Numbers(ds[1..], d + 1);
      }
    }
  }

  lemma SingleDistinct(d: nat)
    ensures Distinct([]) && Distinct([d])
  {
  }

  /** The checker compares an explicit value with the variants before it; an
      implicit one is not compared (src/checkers/Checker_decl.cpp). */
  predicate Accepted(ds: seq<Option<nat>>, next: nat, seen: set<nat>) {
    ds == [] ||
    (var d := if ds[0].Some? then ds[0].value else next;
     (ds[0].Some? ==> d < WORD && d !in seen) && Accepted(ds[1..], Wrap(d + 1), seen + {d}))
  }

  /** A declaration passes exactly when each explicit value is below 2^32 and no variant
      before it, explicit or not, has that number. */
  lemma AcceptedIff(ds: seq<Option<nat>>)
    ensures Accepted(ds, 0, {}) <==> forall i | 0 <= i < |ds| && ds[i].Some? :: New(ds, 0, {}, i)
  {
    hide New, Accepted;
    AcceptedFrom(ds, 0, {});
  }

  ghost predicate New(ds: seq<Option<nat>>, next: nat, seen: set<nat>, i: nat)
    requires i < |ds| && ds[i].Some?
  {
    var d := ds[i].value;
    d < 0x1_0000_0000 && d !in seen && forall j | 0 <= j < i :: Numbers(ds, next)[j] != d
  }

  ghost predicate AllNew(ds: seq<Option<nat>>, next: nat, seen: set<nat>) {
    forall i | 0 <= i < |ds| && ds[i].Some? :: New(ds, next, seen, i)
  }

  lemma {:induction false} AcceptedFrom(ds: seq<Option<nat>>, next: nat, seen: set<nat>)
    requires next < 0x1_0000_0000
    ensures Accepted(ds, next, seen) <==> AllNew(ds, next, seen)
    decreases |ds|
  {
    hide AllNew, New, Wrap;
    if ds == [] {
      NoneNew(next, seen);
    } else {
      var d := if ds[0].Some? then ds[0].value else next;
      FirstNew(ds, next, seen);
      if d < 0x1_0000_0000 && (ds[0].Some? ==> d !in seen) {
        AcceptedFrom(ds[1..], Wrap(d + 1), seen + {d});
        RestNew(ds, next, seen, d);
      }
    }
  }

  lemma NoneNew(next: nat, seen: set<nat>)
    ensures AllNew([], next, seen)
  {
  }

  lemma FirstNew(ds: seq<Option<nat>>, next: nat, seen: set<nat>)
    requires ds != []
    ensures AllNew(ds, next, seen) && ds[0].Some? ==> ds[0].value < 0x1_0000_0000 && ds[0].value !in seen
  {
    hide Numbers;
    if AllNew(ds, next, seen) && ds[0].Some? { assert New(ds, next, seen, 0); }
  }

  lemma RestNew(ds: seq<Option<nat>>, next: nat, seen: set<nat>, d: nat)
    requires ds != [] && d == (if ds[0].Some? then ds[0].value else next)
    requires d < 0x1_0000_0000 && (ds[0].Some? ==> d !in seen)
    ensures AllNew(ds, next, seen) <==> AllNew(ds[1..], Wrap(d + 1), seen + {d})
  {
    var rest, n, more := ds[1..], Wrap(d + 1), seen + {d};
    FirstNumber(ds, next, d);
    forall i | 0 < i < |ds| && ds[i].Some? ensures New(ds, next, seen, i) <==> New(rest, n, more, i - 1) {
      NewShifts(ds, next, seen, d, i);
    }
    assert forall i | 0 <= i < |rest| :: rest[i] == ds[i + 1];
    if AllNew(rest, n, more) {
      forall i | 0 <= i < |ds| && ds[i].Some? ensures New(ds, next, seen, i) {
        if i > 0 { assert New(rest, n, more, i - 1); } else { FirstIsNew(ds, next, seen); }
      }
    }
    if AllNew(ds, next, seen) {
      forall i | 0 <= i < |rest| && rest[i].Some? ensures New(rest, n, more, i) { assert New(ds, next, seen, i + 1); }
    }
  }

  lemma FirstIsNew(ds: seq<Option<nat>>, next: nat, seen: set<nat>)
    requires ds != [] && ds[0].Some? && ds[0].value < 0x1_0000_0000 && ds[0].value !in seen
    ensures New(ds, next, seen, 0)
  {
  }

  lemma FirstNumber(ds: seq<Option<nat>>, next: nat, d: nat)
    requires ds != [] && d == (if ds[0].Some? then ds[0].value else next) && d < 0x1_0000_0000
    ensures Numbers(ds, next) == [d] + Numbers(ds[1..], Wrap(d + 1))
  {
  }

  lemma NewShifts(ds: seq<Option<nat>>, next: nat, seen: set<nat>, d: nat, i: nat)
    requires 0 < i < |ds| && ds[i].Some? && Numbers(ds, next) == [d] + Numbers(ds[1..], Wrap(d + 1))
    ensures New(ds, next, seen, i) <==> New(ds[1..], Wrap(d + 1), seen + {d}, i - 1)
  {
    var xs, ys := Numbers(ds, next), Numbers(ds[1..], Wrap(d + 1));
    assert xs[0] == d && forall j | 0 < j < i :: xs[j] == ys[j - 1];
    assert forall j | 0 <= j < i - 1 :: ys[j] == xs[j + 1];
  }

  /** So it lets `A = 5, B = 4, C` through, with two variants numbered 5. */
  lemma AcceptedMayCollide()
    ensures var ds := [Some(5), Some(4), None];
      Accepted(ds, 0, {}) && Numbers(ds, 0) == [5, 4, 5] && !RunsApart(Runs(ds, 0))
  {
    var ds: seq<Option<nat>> := [Some(5), Some(4), None];
    assert ds[1..] == [Some(4), None] && ds[1..][1..] == [None] && ds[1..][1..][1..] == [];
    assert Numbers(ds[1..], 6) == [4] + Numbers(ds[1..][1..], 5);
    assert Numbers(ds, 0) == [5, 4, 5];
    assert Numbers(ds, 0)[0] == Numbers(ds, 0)[2];
    assert Accepted(ds[1..][1..], 5, {5, 4});
    assert Accepted(ds[1..], 6, {} + {5});
    DistinctIff(ds);
  }

  // ---------------------------------------------------------------- success and error

  /** `payload`: for each field the names of its type and the types it inherits
      from. `marked`: the variant carries the error attribute. */
  datatype EnumVariant = EnumVariant(name: string, payload: seq<seq<string>>, marked: bool)

  method IsOrInheritsFrom(chain: seq<string>, name: string) returns (r: bool)
    ensures r == (name in chain)
  {
    for i := 0 to |chain|
      invariant name !in chain[..i]
    {
      if chain[i] == name { return true; }
    }
    return false;
  }

  /** `marks`: whether the attribute was recorded. */
  predicate LooksLikeErr(v: EnumVariant, marks: bool) {
    v.payload == [] || (marks && v.marked) || v.name == "Err" || (|v.payload| == 1 && "Error" in v.payload[0])
  }

  datatype Pair = Pair(ok: nat, err: nat)

  function Classified(vs: seq<EnumVariant>, marks: bool): Option<Pair> {
    if |vs| != 2 || LooksLikeErr(vs[0], marks) == LooksLikeErr(vs[1], marks) then None
    else
      var p := if LooksLikeErr(vs[0], marks) then Pair(1, 0) else Pair(0, 1);
      if |vs[p.ok].payload| == 1 then Some(p) else None
  }

  method ClassifyUnwrapCatchEnum(vs: seq<EnumVariant>, marks: bool) returns (r: Option<Pair>)
    ensures r == Classified(vs, marks)
  {
    if |vs| != 2 { return None; }
    var errVariant: Option<nat>, okVariant: Option<nat> := None, None;
    for i := 0 to |vs|
      invariant errVariant.Some? ==> errVariant.value < i <= |vs| && LooksLikeErr(vs[errVariant.value], marks)
      invariant okVariant.Some? ==>
        okVariant.value < i <= |vs| && !LooksLikeErr(vs[okVariant.value], marks) && |vs[okVariant.value].payload| == 1
      invariant forall j | 0 <= j < i :: if LooksLikeErr(vs[j], marks) then errVariant == Some(j) else okVariant == Some(j)
    {
      var inherits := false;
      if |vs[i].payload| == 1 { inherits := IsOrInheritsFrom(vs[i].payload[0], "Error"); }
      if vs[i].payload == [] || (marks && vs[i].marked) || vs[i].name == "Err" || inherits {
        if errVariant.Some? {
          assert i == 1 && errVariant == Some(0);
          return None;
        }
        errVariant := Some(i);
      } else {
        if |vs[i].payload| != 1 { return None; }
        if okVariant.Some? { return None; }
        okVariant := Some(i);
      }
    }
    if errVariant.None? || okVariant.None? { return None; }
    return Some(Pair(okVariant.value, errVariant.value));
  }

  /** A variant is the error one if it carries nothing, is marked and the mark was
      recorded, is called Err, or carries one value whose type is Error or inherits it. */
  ghost predicate IsError(v: EnumVariant, marks: bool) {
    || |v.payload| == 0
    || (marks && v.marked)
    || v.name == "Err"
    || exists chain :: v.payload == [chain] && "Error" in chain
  }

  lemma ClassifiedIff(a: EnumVariant, b: EnumVariant, marks: bool)
    ensures Classified([a, b], marks) == Some(Pair(1, 0)) <==> IsError(a, marks) && !IsError(b, marks) && |b.payload| == 1
    ensures Classified([a, b], marks) == Some(Pair(0, 1)) <==> IsError(b, marks) && !IsError(a, marks) && |a.payload| == 1
    ensures Classified([a, b], marks) in {None, Some(Pair(1, 0)), Some(Pair(0, 1))}
  {
    assert [a, b][0] == a && [a, b][1] == b;
    SameError(a, marks);
    SameError(b, marks);
  }

  lemma SameError(v: EnumVariant, marks: bool)
    ensures LooksLikeErr(v, marks) <==> IsError(v, marks)
  {
    if |v.payload| == 1 { assert v.payload == [v.payload[0]]; }
  }

  /** The order of the two variants does not matter. */
  lemma OrderIrrelevant(a: EnumVariant, b: EnumVariant, marks: bool)
    ensures var x, y := Classified([a, b], marks), Classified([b, a], marks);
      (x.Some? <==> y.Some?) && (x.Some? ==> y.value == Pair(x.value.err, x.value.ok) && x.value.ok != x.value.err)
  {
    assert [a, b][0] == a && [a, b][1] == b;
  }

  /** visitEnumDecl does not record the error attribute, which the checker does: the
      generator agrees with a classification the checker made exactly when the
      error variant is one even without its attribute. */
  lemma GeneratorAgreesIff(vs: seq<EnumVariant>)
    requires Classified(vs, true).Some?
    ensures Classified(vs, false) == Classified(vs, true) <==>
      LooksLikeErr(vs[Classified(vs, true).value.err], false)
  {
    hide LooksLikeErr;
    MarkOnlyAdds(vs[0]);
    MarkOnlyAdds(vs[1]);
  }

  /** `enum E { #[error] Bad(int32), Good(int32) }` passes the checker, and the generator
      finds no error variant in it. */
  lemma AttributeIsLost()
    ensures var vs := [EnumVariant("Bad", [["int32"]], true), EnumVariant("Good", [["int32"]], false)];
      Classified(vs, true) == Some(Pair(1, 0)) && Classified(vs, false) == None
  {
    var vs := [EnumVariant("Bad", [["int32"]], true), EnumVariant("Good", [["int32"]], false)];
    assert vs[0].name[0] != "Err"[0] && vs[1].name[0] != "Err"[0];
    assert "int32"[0] != "Error"[0];
    assert vs[0].payload[0] == ["int32"] && vs[1].payload[0] == ["int32"];
  }

  lemma MarkOnlyAdds(v: EnumVariant)
    ensures LooksLikeErr(v, false) ==> LooksLikeErr(v, true)
  {
  }
}
