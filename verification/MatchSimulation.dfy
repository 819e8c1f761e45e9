/** What the tests, the branches and the phi of a `match` do
    (src/IRBuilder/IRGen_flow.cpp, visitMatchExpr). The temporary the operand is
    spilled to is written once, so its loads are the operand. */
module MatchSimulation {
  import opened Ir
  import opened Source
  import opened Wrappers
  import opened Lowering
  import opened Simulation

  // ---------------------------------------------------------------- simulation

  /** Straight-line code has run, and left memory and output alone. */
  ghost predicate Passed(p: Program, c: Code, d: Code, m: Machine, n: nat, w: Machine) {
    Reaches(p, m, n, w) && Ready(d, w) && Kept(c.next, m, w, 0) && w.mem == m.mem && w.out == m.out
  }

  lemma PassedTrans(p: Program, c: Code, d: Code, e: Code, m: Machine, n: nat, w: Machine, j: nat, x: Machine)
    requires Passed(p, c, d, m, n, w) && Passed(p, d, e, w, j, x) && c.next <= d.next
    ensures Passed(p, c, e, m, n + j, x)
  {
    hide Ready;
    ReachTrans(p, m, n, w, j, x);
    KeptTrans(c.next, m, w, 0, d.next, x, 0);
  }

  lemma PatternRuns(p: Program, k: Kind, pt: Pattern, c: Code, v: Operand, m: Machine)
    returns (n: nat, w: Machine)
    requires !Wild(pt) && Ready(c, m) && Inv(m) && Known(v, c) && Within(EmitTest(k, pt, c, v).c, p)
    ensures var r := EmitTest(k, pt, c, v);
      Passed(p, c, r.c, m, n, w) && w.Val(r.v) == Bool(Passes(k, pt, m.Val(v)))
  {
    hide Operation, Within, Inv, Kept, Grows;
    match pt
    case Literal(x) =>
      w := OperationRuns(p, c, IsEqual, v, Const(x), m);
      n := 1;
    case Variant(name, _) =>
      if k.unit {
        w := OperationRuns(p, c, IsEqual, v, Const(Int(Disc(k, name))), m);
        n := 1;
      } else {
        var d := Operation(c, GetTag, v, NONE);
        var e := Operation(d, IsEqual, Reg(c.next), Const(Int(Disc(k, name))));
        GrowsWithin(d, e, p);
        var y := OperationRuns(p, c, GetTag, v, NONE, m);
        KeptFacts(c.next, m, y, 0);
        w := OperationRuns(p, d, IsEqual, Reg(c.next), Const(Int(Disc(k, name))), y);
        assert Passed(p, d, e, y, 1, w);
        PassedTrans(p, c, d, e, m, 1, y, 1, w);
        n := 2;
      }
  }

  lemma OrElseRuns(p: Program, c: Code, acc: Option<Operand>, v: Operand, m: Machine, b0: bool, b: bool)
    returns (n: nat, w: Machine)
    requires Ready(c, m) && Inv(m) && Known(v, c) && Within(OrElse(c, acc, v).c, p)
    requires acc.Some? ==> m.Val(acc.value) == Bool(b0)
    requires m.Val(v) == Bool(b) && (acc.None? ==> !b0)
    ensures Passed(p, c, OrElse(c, acc, v).c, m, n, w) && w.Val(OrElse(c, acc, v).v) == Bool(b0 || b)
  {
    hide Operation, Within;
    if acc.None? {
      n, w := 0, m;
    } else {
      w := OperationRuns(p, c, Or, acc.value, v, m);
      n := 1;
    }
  }

  /** One more pattern of an or-pattern. */
  lemma PatternJoins(p: Program, k: Kind, pt: Pattern, c: Code, v: Operand, acc: Option<Operand>, m: Machine, b0: bool)
    returns (n: nat, w: Machine)
    requires !Wild(pt) && Ready(c, m) && Inv(m) && Known(v, c)
    requires if acc.Some? then Known(acc.value, c) && m.Val(acc.value) == Bool(b0) else !b0
    requires var t := EmitTest(k, pt, c, v); Within(t.c, p) && Within(OrElse(t.c, acc, t.v).c, p)
    ensures var t := EmitTest(k, pt, c, v);
      var o := OrElse(t.c, acc, t.v);
      && Passed(p, c, o.c, m, n, w) && Inv(w) && Known(v, o.c) && w.Val(v) == m.Val(v) && c.next <= o.c.next
      && w.Val(o.v) == Bool(b0 || Passes(k, pt, m.Val(v)))
  {
    hide EmitTest, OrElse, Passes, Within, Inv, Kept, Grows;
    var t := EmitTest(k, pt, c, v);
    var o := OrElse(t.c, acc, t.v);
    GrowsFacts(c, t.c);
    GrowsFacts(t.c, o.c);
    var n1, w1 := PatternRuns(p, k, pt, c, v, m);
    KeptFacts(c.next, m, w1, 0);
    ValKept(v, c, m, w1, 0);
    if acc.Some? { ValKept(acc.value, c, m, w1, 0); }
    n, w := OrElseRuns(p, t.c, acc, t.v, w1, b0, Passes(k, pt, m.Val(v)));
    KeptFacts(t.c.next, w1, w, 0);
    ValKept(v, t.c, w1, w, 0);
    PassedTrans(p, c, t.c, o.c, m, n1, w1, n, w);
    n := n1 + n;
  }

  /** What the joined tests compute; after a wildcard nobody asks. */
  ghost predicate Answers(k: Kind, ps: seq<Pattern>, acc: Option<Operand>, x: Value, b0: bool, w: Machine) {
    HasWildcard(ps) ||
    if acc.None? then !b0 && ps == [] else w.Val(acc.value) == Bool(b0 || AnyPasses(k, ps, x))
  }

  lemma {:induction false} PatternsRun(p: Program, k: Kind, ps: seq<Pattern>, c: Code, v: Operand,
                                       acc: Option<Operand>, m: Machine, b0: bool)
    returns (n: nat, w: Machine)
    requires Ready(c, m) && Inv(m) && Known(v, c)
    requires if acc.Some? then Known(acc.value, c) && m.Val(acc.value) == Bool(b0) else !b0
    requires Within(EmitTests(k, ps, c, v, acc).c, p)
    ensures var r := EmitTests(k, ps, c, v, acc);
      Passed(p, c, r.c, m, n, w) && Answers(k, ps, r.acc, m.Val(v), b0, w)
    decreases |ps|
  {
    hide EmitTest, OrElse, Passes, Within, Inv, Kept, Grows, Passed;
    if ps == [] || Wild(ps[0]) {
      n, w := 0, m;
      PassedSelf(p, c, m);
    } else {
      var x := m.Val(v);
      var t := EmitTest(k, ps[0], c, v);
      var o := OrElse(t.c, acc, t.v);
      var r := EmitTests(k, ps[1..], o.c, v, Some(o.v));
      GrowsWithin(o.c, r.c, p);
      GrowsWithin(t.c, o.c, p);
      var n1, w1 := PatternJoins(p, k, ps[0], c, v, acc, m, b0);
      PassedReady(p, c, o.c, m, n1, w1);
      n, w := PatternsRun(p, k, ps[1..], o.c, v, Some(o.v), w1, b0 || Passes(k, ps[0], x));
      PassedTrans(p, c, o.c, r.c, m, n1, w1, n, w);
      n := n1 + n;
      SplitPatterns(k, ps, x);
    }
  }

  lemma PassedSelf(p: Program, c: Code, m: Machine)
    requires Ready(c, m) && Inv(m)
    ensures Passed(p, c, c, m, 0, m)
  {
  }

  lemma PassedReady(p: Program, c: Code, d: Code, m: Machine, n: nat, w: Machine)
    requires Passed(p, c, d, m, n, w)
    ensures Reaches(p, m, n, w) && Ready(d, w) && Inv(w) && Kept(c.next, m, w, 0) && w.mem == m.mem && w.out == m.out
  {
  }

  lemma SplitPatterns(k: Kind, ps: seq<Pattern>, x: Value)
    requires ps != []
    ensures HasWildcard(ps) <==> (Wild(ps[0]) || HasWildcard(ps[1..]))
    ensures AnyPasses(k, ps, x) <==> (Passes(k, ps[0], x) || AnyPasses(k, ps[1..], x))
  {
    hide Passes;
    assert forall i | 0 < i < |ps| :: ps[1..][i - 1] == ps[i];
  }

  /** At the head of block `to`, nothing but control moved. */
  ghost predicate JumpedTo(p: Program, c: Code, m: Machine, n: nat, w: Machine, to: nat) {
    && Reaches(p, m, n, w) && Kept(c.next, m, w, 0) && w.mem == m.mem && w.out == m.out
    && w.block == to && w.pc == 0 && w.prev == c.cur
  }

  lemma JumpStep(p: Program, c: Code, acc: Option<Operand>, wild: bool, yes: nat, no: nat, m: Machine, b: bool)
    returns (w: Machine)
    requires Ready(c, m) && Inv(m) && Within(Emit(c, Jump(acc, wild, yes, no)), p)
    requires if wild || acc.None? then b else m.Val(acc.value) == Bool(b)
    ensures JumpedTo(p, c, m, 1, w, if b then yes else no)
  {
    StepIs(p, c, Jump(acc, wild, yes, no), m);
    w := m.Goto(if b then yes else no);
  }

  /** The tests of an arm, and the branch on them. */
  lemma TestJumps(p: Program, k: Kind, a: Arm, last: bool, c: Code, v: Operand, merge: nat, m: Machine)
    returns (n: nat, w: Machine)
    requires Ready(c, m) && Inv(m) && Known(v, c)
    requires merge < |c.blocks| && merge != c.cur && Within(LowerTest(k, a, last, c, v, merge), p)
    ensures JumpedTo(p, c, m, n, w,
      if !ArmMatches(k, a, m.Val(v)) then (if last then merge else |c.blocks| + 1)
      else if a.guard.None? then |c.blocks| else |LowerTest(k, a, last, c, v, merge).blocks| - 1)
  {
    hide EmitTests, Within, Inv, Kept, Grows, Run, Step;
    var t := EmitTests(k, a.patterns, c, v, None);
    var g := if a.guard.None? then |c.blocks| else |c.blocks| + NewIn(a, last) - 1;
    var d := t.c.NewBlocks(NewIn(a, last));
    assert Grows(t.c, d) by { NewBlocksGrow(t.c, NewIn(a, last)); }
    var no := if last then merge else |c.blocks| + 1;
    var i := Jump(t.acc, HasWildcard(a.patterns), g, no);
    assert LowerTest(k, a, last, c, v, merge) == Emit(d, i);
    GrowsWithin(d, Emit(d, i), p);
    GrowsWithin(t.c, d, p);
    var y;
    n, y := PatternsRun(p, k, a.patterns, c, v, None, m, false);
    var b := ArmMatches(k, a, m.Val(v));
    if HasWildcard(a.patterns) { WildcardMatches(k, a.patterns, m.Val(v)); }
    if a.patterns == [] { NoTests(k, c, v); }
    KeptFacts(c.next, m, y, 0);
    assert Ready(d, y);
    w := JumpStep(p, d, t.acc, HasWildcard(a.patterns), g, no, y, b);
    ReachTrans(p, m, n, y, 1, w);
    GrowsFacts(c, t.c);
    KeptTrans(c.next, m, y, 0, d.next, w, 0);
    n := n + 1;
  }

  lemma NoTests(k: Kind, c: Code, v: Operand)
    requires c.Valid()
    ensures EmitTests(k, [], c, v, None) == Tests(c, None)
  {
  }

  lemma WildcardMatches(k: Kind, ps: seq<Pattern>, x: Value)
    requires HasWildcard(ps)
    ensures AnyPasses(k, ps, x)
  {
    var i :| 0 <= i < |ps| && Wild(ps[i]);
    assert Passes(k, ps[i], x);
  }

  lemma Elsewhere(p: Program, k: nat, m: Machine, r: Res, c: Code, v: Operand, n: nat, w: Machine, d: Code, u: Operand)
    requires Sim(p, k, m, r, c, v, n, w) && !r.o.Normal?
    ensures Sim(p, k, m, r, d, u, n, w)
  {
  }

  function ValueOf(v: Option<Operand>): Operand { if v.Some? then v.value else NONE }

  lemma SimNormal(p: Program, k: nat, m: Machine, r: Res, c: Code, v: Operand, n: nat, w: Machine)
    requires Sim(p, k, m, r, c, v, n, w) && r.o.Normal?
    ensures Reaches(p, m, n, w) && Ready(c, w) && w.Val(v) == r.o.v && Kept(k, m, w, r.leaked) && Same(w, r.s) && Inv(w)
  {
  }

  // ---------------------------------------------------------------- arms

  /** The phi knows where control came from. */
  ghost predicate Arrives(xs: seq<(Operand, nat)>, w: Machine, v: Value) {
    exists i :: 0 <= i < |xs| && xs[i].1 == w.prev && w.Val(xs[i].0) == v
  }

  /** Like Sim, but continuing at the head of the merge block. */
  ghost predicate AtMerge(p: Program, k: nat, m: Machine, r: Res, merge: nat, xs: seq<(Operand, nat)>,
                          n: nat, w: Machine) {
    if r.o.Normal? then
      && Reaches(p, m, n, w) && w.block == merge && w.pc == 0 && Arrives(xs, w, r.o.v)
      && Kept(k, m, w, r.leaked) && Same(w, r.s)
    else Sim(p, k, m, r, EMPTY, NONE, n, w)
  }

  lemma MergeChain(p: Program, k: nat, m: Machine, n0: nat, m1: Machine, l: nat, k1: nat, r: Res,
                   merge: nat, xs: seq<(Operand, nat)>, ys: seq<(Operand, nat)>, n: nat, w: Machine)
    requires Reaches(p, m, n0, m1) && Kept(k, m, m1, l) && k <= k1
    requires AtMerge(p, k1, m1, r, merge, xs, n, w) && (forall i | 0 <= i < |xs| :: xs[i] in ys)
    ensures AtMerge(p, k, m, r.(leaked := l + r.leaked), merge, ys, n0 + n, w)
  {
    hide Kept, Run, Step;
    if r.o.Normal? {
      ReachTrans(p, m, n0, m1, n, w);
      KeptTrans(k, m, m1, l, k1, w, r.leaked);
      var i :| 0 <= i < |xs| && xs[i].1 == w.prev && w.Val(xs[i].0) == r.o.v;
      assert xs[i] in ys;
      var j :| 0 <= j < |ys| && ys[j] == xs[i];
    } else {
      Chain(p, k, m, n0, m1, l, k1, r, EMPTY, NONE, n, w);
    }
  }

  lemma ArmPlaced(p: Program, k: Kind, a: Arm, last: bool, c: Code, v: Operand, merge: nat)
    requires c.Valid() && merge < |c.blocks| && merge != c.cur && Within(LowerArm(k, a, last, c, v, merge).c, p)
    ensures var n := |c.blocks|;
      var t := LowerTest(k, a, last, c, v, merge);
      var g := LowerEntry(k, a, last, c, v, merge);
      && LowerArm(k, a, last, c, v, merge).c == LowerArmBody(k, a, g, n, v, merge).c
      && Within(t, p) && Within(g, p) && c.next <= t.next <= g.next && n < |g.blocks| && g.blocks[n] == []
      && (a.guard.Some? ==>
            g == LowerGuard(k, a, t.SetInsert(|t.blocks| - 1), v, n, if last then merge else n + 1))
  {
    hide LowerTest, LowerGuard, LowerArmBody, Grows, Within;
    var n := |c.blocks|;
    var t := LowerTest(k, a, last, c, v, merge);
    var g := LowerEntry(k, a, last, c, v, merge);
    var b := LowerArmBody(k, a, g, n, v, merge);
    GrowsWithin(g.SetInsert(n), b.c, p);
    WithinMoved(g, n, p);
    GrowsFacts(c, t);
    if a.guard.Some? {
      GrowsWithin(t.SetInsert(|t.blocks| - 1), g, p);
      GrowsFacts(t.SetInsert(|t.blocks| - 1), g);
      WithinMoved(t, |t.blocks| - 1, p);
    }
  }

  ghost predicate MovesOn(p: Program, k: nat, m: Machine, g: Res, to: nat, n: nat, w: Machine) {
    Reaches(p, m, n, w) && Kept(k, m, w, g.leaked) && Same(w, g.s) && w.block == to && w.pc == 0 && Inv(w)
  }

  lemma NothingClaimed(p: Program, k: nat, m: Machine, r: Res, merge: nat, xs: seq<(Operand, nat)>, n: nat, w: Machine)
    requires r.o.Broken?
    ensures AtMerge(p, k, m, r, merge, xs, n, w)
  {
  }

  lemma RestPlaced(p: Program, k: Kind, arms: seq<Arm>, c: Code, v: Operand, merge: nat)
    requires |arms| > 1 && c.Valid() && merge < |c.blocks| && merge != c.cur
    requires Within(LowerArms(k, arms, c, v, merge).c, p)
    ensures var a := LowerArm(k, arms[0], false, c, v, merge);
      var r := LowerArms(k, arms[1..], a.c.SetInsert(|c.blocks| + 1), v, merge);
      && Within(a.c, p) && Within(r.c, p) && |c.blocks| + 1 < |a.c.blocks| && a.c.blocks[|c.blocks| + 1] == []
      && LowerArms(k, arms, c, v, merge).incoming == a.incoming + r.incoming
  {
    hide LowerArm, Grows, Within;
    var a := LowerArm(k, arms[0], false, c, v, merge);
    var r := LowerArms(k, arms[1..], a.c.SetInsert(|c.blocks| + 1), v, merge);
    GrowsWithin(a.c.SetInsert(|c.blocks| + 1), r.c, p);
    WithinMoved(a.c, |c.blocks| + 1, p);
  }

  lemma TakenWider(p: Program, k: nat, m: Machine, r: Res, merge: nat, xs: seq<(Operand, nat)>, ys: seq<(Operand, nat)>,
                   n: nat, w: Machine)
    requires AtMerge(p, k, m, r, merge, xs, n, w) && xs <= ys
    ensures AtMerge(p, k, m, r, merge, ys, n, w)
  {
    hide Kept, Run, Step, Sim;
    if r.o.Normal? {
      var i :| 0 <= i < |xs| && xs[i].1 == w.prev && w.Val(xs[i].0) == r.o.v;
      assert ys[i] == xs[i];
    }
  }

  /** No arm was taken: the undefined value arrives from the last test. */
  lemma LastMissed(p: Program, k: Kind, a: Arm, c: Code, v: Operand, merge: nat, m: Machine, g: Res, n: nat, w: Machine,
                   r: Res, s: State)
    requires c.Valid() && merge < |c.blocks| && merge != c.cur
    requires MovesOn(p, c.next, m, g, merge, n, w)
    requires TryArm(k, a, m.Val(v), s) == Missed(g)
    requires !ArmMatches(k, a, m.Val(v)) ==> w.prev == c.cur
    requires r == if ArmMatches(k, a, m.Val(v)) then g.(o := Broken) else g
    ensures AtMerge(p, c.next, m, r, merge, LowerArm(k, a, true, c, v, merge).incoming, n, w)
  {
    hide LowerArmBody, LowerEntry, EvalBody, BindOf, Bound, Kept, Inv, Grows, Run, Step;
    if !ArmMatches(k, a, m.Val(v)) {
      if HasWildcard(a.patterns) { WildcardMatches(k, a.patterns, m.Val(v)); }
      var xs := LowerArm(k, a, true, c, v, merge).incoming;
      assert xs[|xs| - 1] == (NONE, c.cur);
    }
  }

  // ---------------------------------------------------------------- the phi

  ghost predicate FromDistinct(xs: seq<(Operand, nat)>) {
    forall i, j | 0 <= i < j < |xs| :: xs[i].1 != xs[j].1
  }

  /** Every pair comes from the insert block or from a block created since. */
  ghost predicate FromNew(c: Code, d: Code, xs: seq<(Operand, nat)>) {
    forall i | 0 <= i < |xs| :: xs[i].1 == c.cur || |c.blocks| <= xs[i].1 < |d.blocks|
  }

  lemma ArmFrom(k: Kind, a: Arm, last: bool, c: Code, v: Operand, merge: nat)
    requires c.Valid() && merge < |c.blocks| && merge != c.cur
    ensures var r := LowerArm(k, a, last, c, v, merge);
      && FromDistinct(r.incoming) && FromNew(c, r.c, r.incoming)
      && (!last ==> forall i | 0 <= i < |r.incoming| ::
            r.incoming[i].1 != c.cur && r.incoming[i].1 != |c.blocks| + 1)
  {
    hide LowerEntry, Grows, LowerArmBody, HasWildcard;
    var n := |c.blocks|;
    var g := LowerEntry(k, a, last, c, v, merge);
    GrowsFacts(c, g);
    var r := LowerArmBody(k, a, g, n, v, merge);
    ArmBodyFrom(k, a, g, n, v, merge);
    assert LowerArm(k, a, last, c, v, merge) ==
      ArmsCode(r.c, r.incoming + (if last && !HasWildcard(a.patterns) then [(NONE, c.cur)] else []));
  }

  /** A body's value comes from its own block or a new one. */
  lemma ArmBodyFrom(k: Kind, a: Arm, c: Code, n: nat, v: Operand, merge: nat)
    requires n < |c.blocks|
    ensures var r := LowerArmBody(k, a, c, n, v, merge);
      && |c.blocks| <= |r.c.blocks| && |r.incoming| <= 1
      && forall i | 0 <= i < |r.incoming| :: r.incoming[i].1 == n || |c.blocks| <= r.incoming[i].1 < |r.c.blocks|
  {
    hide Grows, Straight, LowerBody, BindPayload, BindOf, EmitUnlessClosed;
    var b := BindPayload(c.SetInsert(n), BindOf(k, a.patterns), v);
    StraightFacts(c.SetInsert(n), b, if BindOf(k, a.patterns).Some? then 1 else 0, 0);
    var e := LowerBody(a.body, b);
    GrowsFacts(b, e.c);
    var f := EmitUnlessClosed(e.c, Br(merge));
    StraightFacts(e.c, f, 0, 0);
  }

  lemma {:induction false} ArmsFrom(k: Kind, arms: seq<Arm>, c: Code, v: Operand, merge: nat)
    requires c.Valid() && merge < |c.blocks| && merge != c.cur
    ensures var r := LowerArms(k, arms, c, v, merge);
      FromDistinct(r.incoming) && FromNew(c, r.c, r.incoming)
    decreases |arms|
  {
    hide LowerArm, Grows, FromNew, FromDistinct;
    if arms == [] {
      assert FromNew(c, c, []) && FromDistinct([]) by { NoPairs(c); }
    } else {
      ArmFrom(k, arms[0], |arms| == 1, c, v, merge);
      if |arms| > 1 {
        var a := LowerArm(k, arms[0], false, c, v, merge);
        var d := a.c.SetInsert(|c.blocks| + 1);
        var r := LowerArms(k, arms[1..], d, v, merge);
        ArmsFrom(k, arms[1..], d, v, merge);
        GrowsFacts(c, a.c);
        GrowsFacts(d, r.c);
        FromJoin(c, a.c, d, r.c, a.incoming, r.incoming);
      }
    }
  }

  lemma NoPairs(c: Code)
    ensures FromDistinct([]) && FromNew(c, c, [])
  {
  }

  lemma FromJoin(c: Code, a: Code, d: Code, r: Code, xs: seq<(Operand, nat)>, ys: seq<(Operand, nat)>)
    requires FromDistinct(xs) && FromDistinct(ys) && FromNew(c, a, xs) && FromNew(d, r, ys)
    requires |c.blocks| + 1 < |a.blocks| == |d.blocks| <= |r.blocks| && d.cur == |c.blocks| + 1
    requires forall i | 0 <= i < |xs| :: xs[i].1 != c.cur && xs[i].1 != |c.blocks| + 1
    ensures FromDistinct(xs + ys) && FromNew(c, r, xs + ys)
  {
  }

  lemma {:induction false} IncomingOnce(xs: seq<(Operand, nat)>, i: nat)
    requires FromDistinct(xs) && i < |xs|
    ensures Incoming(xs, xs[i].1) == [xs[i].0]
  {
    if i == 0 {
      IncomingNone(xs[1..], xs[0].1);
    } else {
      assert xs[i] == xs[1..][i - 1];
      IncomingOnce(xs[1..], i - 1);
    }
  }

  lemma {:induction false} IncomingNone(xs: seq<(Operand, nat)>, b: nat)
    requires forall i | 0 <= i < |xs| :: xs[i].1 != b
    ensures Incoming(xs, b) == []
  {
    if xs != [] { IncomingNone(xs[1..], b); }
  }

  lemma PhiRuns(p: Program, d: Code, at: nat, xs: seq<(Operand, nat)>, m: Machine, o: Operand) returns (w: Machine)
    requires at < |d.blocks| && d.blocks[at] == [] && Within(Merge(d, at, xs), p)
    requires m.block == at && m.pc == 0 && Inv(m) && Incoming(xs, m.prev) == [o]
    ensures Reaches(p, m, 1, w) && Ready(Merge(d, at, xs), w) && Kept(d.next, m, w, 0)
    ensures w.Val(Reg(d.next)) == m.Val(o) && w.mem == m.mem && w.out == m.out
  {
    var i := Phi(d.next, xs);
    StepIs(p, d.SetInsert(at), i, m);
    w := m.Set(d.next, m.Val(o));
    NextReady(d.SetInsert(at), i, m, w);
  }

  lemma MatchPlaced(p: Program, c: Code, a: Code, d: Code, b: Code, l: nat, xs: seq<(Operand, nat)>)
    requires Grows(c, a) && d == a.NewBlocks(1) && l == |a.blocks| && Grows(d, b) && b.blocks[l] == d.blocks[l]
    requires Within(if xs == [] then b.SetInsert(l) else Merge(b, l, xs), p)
    ensures Within(b, p) && Within(d, p) && Within(a, p) && b.blocks[l] == []
  {
    hide Within;
    WithinMoved(b, l, p);
    if xs != [] {
      assert Grows(b.SetInsert(l), Merge(b, l, xs));
      GrowsWithin(b.SetInsert(l), Merge(b, l, xs), p);
    }
    GrowsWithin(d, b, p);
    NewBlocksGrow(a, 1);
    GrowsWithin(a, d, p);
  }

  lemma PhiJoins(p: Program, d: Code, b: ArmsCode, l: nat, y: Machine, t: Res, f: Lowered, n0: nat, x: Machine)
    returns (n: nat, w: Machine)
    requires AtMerge(p, d.next, y, t, l, b.incoming, n0, x) && FromDistinct(b.incoming)
    requires l < |b.c.blocks| && b.c.blocks[l] == [] && d.next <= b.c.next
    requires f == if b.incoming == [] then Lowered(b.c.SetInsert(l), NONE)
                  else Lowered(Merge(b.c, l, b.incoming), Reg(b.c.next))
    requires Within(f.c, p)
    ensures Sim(p, d.next, y, t, f.c, f.v, n, w)
  {
    hide Kept, Grows, Within, Run, Step, Merge;
    n, w := n0, x;
    if t.o.Normal? {
      var i :| 0 <= i < |b.incoming| && b.incoming[i].1 == x.prev && x.Val(b.incoming[i].0) == t.o.v;
      IncomingOnce(b.incoming, i);
      KeptFacts(d.next, y, x, t.leaked);
      w := PhiRuns(p, b.c, l, b.incoming, x, b.incoming[i].0);
      ReachTrans(p, y, n, x, 1, w);
      KeptTrans(d.next, y, x, t.leaked, b.c.next, w, 0);
      n := n + 1;
    } else {
      Elsewhere(p, d.next, y, t, EMPTY, NONE, n, w, f.c, f.v);
    }
  }
}
