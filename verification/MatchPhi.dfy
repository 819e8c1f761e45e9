/** The phi of a `match` and the predecessors of its merge block
    (src/IRBuilder/IRGen_flow.cpp, visitMatchExpr). */
module MatchPhi {
  import opened Ir
  import opened Source
  import opened Wrappers
  import opened Lowering
  import opened Edges
  import opened MatchSimulation

  predicate FromBlock(xs: seq<(Operand, nat)>, b: nat) {
    exists i :: 0 <= i < |xs| && xs[i].1 == b
  }

  /** `d` extends `c` by code whose jumps to `merge` are the ones `xs` records. */
  ghost predicate Exact(c: Code, d: Code, xs: seq<(Operand, nat)>, merge: nat) {
    forall b: nat :: Edge(d, b, merge) <==> Edge(c, b, merge) || FromBlock(xs, b)
  }

  /** The body ends in a terminator of its own, yet has a value. */
  predicate Clash(e: BodyCode)
    requires e.c.Valid()
  {
    e.v.Some? && e.c.Closed()
  }

  /** The tests acquire an edge to the merge block only in a last arm without
      wildcard. */
  lemma TestEdges(k: Kind, a: Arm, last: bool, c: Code, v: Operand, merge: nat, b: nat)
    requires c.Valid() && merge < |c.blocks| && merge != c.cur
    ensures var t := LowerTest(k, a, last, c, v, merge);
      Edge(t, b, merge) <==> Edge(c, b, merge) || (b == c.cur && last && a.patterns != [] && !HasWildcard(a.patterns))
  {
    hide EmitTests, Grows, Adds, Edge;
    var n := |c.blocks|;
    var t := EmitTests(k, a.patterns, c, v, None);
    TestsSome(k, a.patterns, c, v, None);
    if a.patterns == [] { NoTests(k, c, v); }
    var g := if a.guard.None? then n else n + NewIn(a, last) - 1;
    var d := t.c.NewBlocks(NewIn(a, last));
    TestsAdd(n, k, a.patterns, c, v, None);
    PieceAdds(n, t.c, d, []);
    AddsTrans(n, c, t.c, d);
    SameEdges(n, c, d, merge, b);
    EmittedEdges(d, Jump(t.acc, HasWildcard(a.patterns), g, if last then merge else n + 1), merge, b);
  }

  lemma NoTests(k: Kind, c: Code, v: Operand)
    requires c.Valid()
    ensures EmitTests(k, [], c, v, None).acc.None? && !HasWildcard([])
  {
  }

  lemma {:induction false} TestsSome(k: Kind, ps: seq<Pattern>, c: Code, v: Operand, acc: Option<Operand>)
    requires c.Valid() && (acc.Some? ==> Known(acc.value, c))
    ensures (ps != [] && !HasWildcard(ps)) || acc.Some? ==> EmitTests(k, ps, c, v, acc).acc.Some?
    decreases |ps|
  {
    hide EmitTest, OrElse, Grows;
    if ps != [] && !Wild(ps[0]) {
      var t := EmitTest(k, ps[0], c, v);
      var o := OrElse(t.c, acc, t.v);
      TestsSome(k, ps[1..], o.c, v, Some(o.v));
    }
  }

  /** Where the guard ended. */
  function GuardEnd(k: Kind, a: Arm, c: Code, v: Operand): nat
    requires c.Valid() && a.guard.Some?
  {
    LowerExpr(a.guard.value, BindPayload(c, BindOf(k, a.patterns), v)).c.cur
  }

  lemma GuardEdges(k: Kind, a: Arm, c: Code, v: Operand, yes: nat, no: nat, merge: nat, b: nat)
    requires c.Valid() && a.guard.Some? && yes < |c.blocks| && no < |c.blocks| && merge < |c.blocks| && yes != merge
    ensures Edge(LowerGuard(k, a, c, v, yes, no), b, merge) <==>
      Edge(c, b, merge) || (b == GuardEnd(k, a, c, v) && no == merge)
  {
    hide BindPayload, BindOf, LowerExpr, Grows, Straight, Adds, Edge;
    var n := |c.blocks|;
    var p := BindPayload(c, BindOf(k, a.patterns), v);
    StraightFacts(c, p, if BindOf(k, a.patterns).Some? then 1 else 0, 0);
    var g := LowerExpr(a.guard.value, p);
    GrowsFacts(p, g.c);
    BindAdds(n, c, BindOf(k, a.patterns), v);
    ExprAdds(n, a.guard.value, p);
    AddsTrans(n, c, p, g.c);
    SameEdges(n, c, g.c, merge, b);
    var d := Operation(g.c, IsNonZero, g.v, NONE);
    OperationAdds(n, g.c, IsNonZero, g.v, NONE);
    SameEdges(n, g.c, d, merge, b);
    EmittedEdges(d, CondBr(Reg(g.c.next), yes, no), merge, b);
    assert LowerGuard(k, a, c, v, yes, no) == Emit(d, CondBr(Reg(g.c.next), yes, no));
  }

  lemma BodyEdges(k: Kind, a: Arm, c: Code, n: nat, v: Operand, merge: nat, b: nat)
    requires n < |c.blocks| && merge < |c.blocks|
    ensures var e := LowerBody(a.body, BindPayload(c.SetInsert(n), BindOf(k, a.patterns), v));
      Edge(LowerArmBody(k, a, c, n, v, merge).c, b, merge) <==>
        Edge(c, b, merge) || (b == e.c.cur && !e.c.Closed())
  {
    hide BindPayload, BindOf, LowerBody, Grows, Straight, Adds, Edge;
    var m := |c.blocks|;
    var p := BindPayload(c.SetInsert(n), BindOf(k, a.patterns), v);
    StraightFacts(c.SetInsert(n), p, if BindOf(k, a.patterns).Some? then 1 else 0, 0);
    var e := LowerBody(a.body, p);
    GrowsFacts(p, e.c);
    BindAdds(m, c.SetInsert(n), BindOf(k, a.patterns), v);
    AddsMoved(m, c, n, p);
    BodyAdded(m, a.body, p);
    AddsTrans(m, c, p, e.c);
    SameEdges(m, c, e.c, merge, b);
    EmittedEdges(e.c, Br(merge), merge, b);
  }

  lemma EdgeMoved(c: Code, at: nat, b: nat, t: nat)
    ensures Edge(c.SetInsert(at), b, t) <==> Edge(c, b, t)
  {
  }

  /** The code at the end of an arm's body. */
  function ArmEnd(k: Kind, a: Arm, last: bool, c: Code, v: Operand, merge: nat): (r: BodyCode)
    requires c.Valid() && merge < |c.blocks| && merge != c.cur
    ensures r.c.Valid()
  {
    var g := LowerEntry(k, a, last, c, v, merge);
    var r := LowerBody(a.body, BindPayload(g.SetInsert(|c.blocks|), BindOf(k, a.patterns), v));
    GrowsFacts(BindPayload(g.SetInsert(|c.blocks|), BindOf(k, a.patterns), v), r.c);
    r
  }

  /** Where an arm's guard ended, if it has one. */
  function ArmGuardEnd(k: Kind, a: Arm, last: bool, c: Code, v: Operand, merge: nat): nat
    requires c.Valid() && merge < |c.blocks| && merge != c.cur && a.guard.Some?
  {
    var t := LowerTest(k, a, last, c, v, merge);
    GuardEnd(k, a, t.SetInsert(|t.blocks| - 1), v)
  }

  /** The edges an arm makes to the merge block. */
  lemma ArmEdges(k: Kind, a: Arm, last: bool, c: Code, v: Operand, merge: nat, b: nat)
    requires c.Valid() && merge < |c.blocks| && merge != c.cur
    ensures var e := ArmEnd(k, a, last, c, v, merge);
      Edge(LowerArm(k, a, last, c, v, merge).c, b, merge) <==>
        || Edge(c, b, merge)
        || (b == c.cur && last && a.patterns != [] && !HasWildcard(a.patterns))
        || (last && a.guard.Some? && b == ArmGuardEnd(k, a, last, c, v, merge))
        || (b == e.c.cur && !e.c.Closed())
  {
    hide LowerTest, LowerGuard, LowerArmBody, LowerBody, BindPayload, BindOf, Grows, Straight, Adds, Edge, GuardEnd;
    var n := |c.blocks|;
    var t := LowerTest(k, a, last, c, v, merge);
    var g := LowerEntry(k, a, last, c, v, merge);
    TestEdges(k, a, last, c, v, merge, b);
    if a.guard.Some? {
      var at := t.SetInsert(|t.blocks| - 1);
      GuardEdges(k, a, at, v, n, if last then merge else n + 1, merge, b);
      EdgeMoved(t, |t.blocks| - 1, b, merge);
    }
    BodyEdges(k, a, g, n, v, merge, b);
  }

  /** The guard and the body of an arm end in different new blocks. */
  lemma ArmEnds(k: Kind, a: Arm, last: bool, c: Code, v: Operand, merge: nat)
    requires c.Valid() && merge < |c.blocks| && merge != c.cur
    ensures |c.blocks| <= ArmEnd(k, a, last, c, v, merge).c.cur
    ensures a.guard.Some? ==>
      var g := ArmGuardEnd(k, a, last, c, v, merge);
      |c.blocks| <= g && g != ArmEnd(k, a, last, c, v, merge).c.cur
  {
    hide LowerTest, LowerBody, BindPayload, BindOf, LowerExpr, BranchIf, Grows, Straight;
    var n := |c.blocks|;
    var t := LowerTest(k, a, last, c, v, merge);
    var g := LowerEntry(k, a, last, c, v, merge);
    var bits := if BindOf(k, a.patterns).Some? then 1 else 0;
    var p := BindPayload(g.SetInsert(n), BindOf(k, a.patterns), v);
    StraightFacts(g.SetInsert(n), p, bits, 0);
    GrowsFacts(p, LowerBody(a.body, p).c);
    if a.guard.Some? {
      var at := t.SetInsert(|t.blocks| - 1);
      var q := BindPayload(at, BindOf(k, a.patterns), v);
      StraightFacts(at, q, bits, 0);
      var x := LowerExpr(a.guard.value, q);
      GrowsFacts(q, x.c);
      var h := BranchIf(x.c, x.v, n, if last then merge else n + 1);
      StraightFacts(x.c, h, 1, 0);
      var no := if last then merge else n + 1;
      assert LowerGuard(k, a, at, v, n, no) == h;
      assert g == LowerGuard(k, a, at, v, n, no);
    }
  }

  lemma ArmFromBlocks(k: Kind, a: Arm, last: bool, c: Code, v: Operand, merge: nat, b: nat)
    requires c.Valid() && merge < |c.blocks| && merge != c.cur
    ensures var e := ArmEnd(k, a, last, c, v, merge);
      FromBlock(LowerArm(k, a, last, c, v, merge).incoming, b) <==>
        || (b == e.c.cur && (e.v.Some? || !e.c.Closed()))
        || (b == c.cur && last && !HasWildcard(a.patterns))
  {
    hide LowerEntry, LowerBody, BindPayload, BindOf, EmitUnlessClosed, Grows, Straight;
    var e := ArmEnd(k, a, last, c, v, merge);
    var g := LowerEntry(k, a, last, c, v, merge);
    var xs := LowerArmBody(k, a, g, |c.blocks|, v, merge).incoming;
    var ys := LowerArm(k, a, last, c, v, merge).incoming;
    assert xs == if e.v.Some? then [(e.v.value, e.c.cur)] else if e.c.Closed() then [] else [(NONE, e.c.cur)];
    assert ys == xs + if last && !HasWildcard(a.patterns) then [(NONE, c.cur)] else [];
    if b == c.cur && last && !HasWildcard(a.patterns) { assert ys[|xs|].1 == b; }
    if b == e.c.cur && |xs| > 0 { assert ys[0].1 == b; }
  }

  /** An arm without guard; every arm the grammar derives has a pattern. */
  predicate Unguarded(a: Arm) { a.guard.None? && a.patterns != [] }

  ghost predicate ArmSound(k: Kind, a: Arm, last: bool, c: Code, v: Operand, merge: nat)
    requires c.Valid() && merge < |c.blocks| && merge != c.cur
  {
    (last ==> Unguarded(a)) && !Clash(ArmEnd(k, a, last, c, v, merge))
  }

  lemma ArmExactIff(k: Kind, a: Arm, last: bool, c: Code, v: Operand, merge: nat)
    requires c.Valid() && merge < |c.blocks| && merge != c.cur
    requires a.patterns == [] ==> !Edge(c, c.cur, merge)
    ensures var r := LowerArm(k, a, last, c, v, merge);
      Exact(c, r.c, r.incoming, merge) <==> ArmSound(k, a, last, c, v, merge)
  {
    hide LowerArm, ArmEnd, ArmGuardEnd, FromBlock;
    var r := LowerArm(k, a, last, c, v, merge);
    var e := ArmEnd(k, a, last, c, v, merge);
    ArmEnds(k, a, last, c, v, merge);
    forall b: nat
      ensures (Edge(r.c, b, merge) <==> Edge(c, b, merge) || FromBlock(r.incoming, b)) || !ArmSound(k, a, last, c, v, merge)
    {
      ArmEdges(k, a, last, c, v, merge, b);
      ArmFromBlocks(k, a, last, c, v, merge, b);
    }
    if last && a.guard.Some? {
      var b := ArmGuardEnd(k, a, last, c, v, merge);
      ArmEdges(k, a, last, c, v, merge, b);
      ArmFromBlocks(k, a, last, c, v, merge, b);
      assert !Edge(c, b, merge);
    } else if last && a.patterns == [] {
      ArmEdges(k, a, last, c, v, merge, c.cur);
      ArmFromBlocks(k, a, last, c, v, merge, c.cur);
    } else if Clash(e) {
      ArmEdges(k, a, last, c, v, merge, e.c.cur);
      ArmFromBlocks(k, a, last, c, v, merge, e.c.cur);
      assert !Edge(c, e.c.cur, merge);
    }
  }

  /** The last arm has no guard, and no body that ends by itself has a value. */
  ghost predicate Sound(k: Kind, arms: seq<Arm>, c: Code, v: Operand, merge: nat)
    requires c.Valid() && merge < |c.blocks| && merge != c.cur
    decreases |arms|
  {
    arms == [] ||
    (ArmSound(k, arms[0], |arms| == 1, c, v, merge) &&
     (|arms| > 1 ==>
        Sound(k, arms[1..], LowerArm(k, arms[0], false, c, v, merge).c.SetInsert(|c.blocks| + 1), v, merge)))
  }

  lemma {:induction false} ArmsExactIff(k: Kind, arms: seq<Arm>, c: Code, v: Operand, merge: nat)
    requires c.Valid() && merge < |c.blocks| && merge != c.cur && !Edge(c, c.cur, merge)
    ensures var r := LowerArms(k, arms, c, v, merge);
      Exact(c, r.c, r.incoming, merge) <==> Sound(k, arms, c, v, merge)
    decreases |arms|
  {
    hide LowerArm, ArmSound, Exact, Grows, FromNew, FromDistinct, Edge;
    if arms == [] {
      NothingAdded(c, merge);
    } else {
      ArmExactIff(k, arms[0], |arms| == 1, c, v, merge);
      if |arms| > 1 {
        var a := LowerArm(k, arms[0], false, c, v, merge);
        var d := a.c.SetInsert(|c.blocks| + 1);
        var r := LowerArms(k, arms[1..], d, v, merge);
        NoEdgeYet(d, merge);
        ArmsExactIff(k, arms[1..], d, v, merge);
        ArmFrom(k, arms[0], false, c, v, merge);
        ArmsFrom(k, arms[1..], d, v, merge);
        ExactJoin(c, a.c, d, r.c, a.incoming, r.incoming, merge);
      }
    }
  }

  lemma NoEdgeYet(c: Code, t: nat)
    requires c.Valid() && c.blocks[c.cur] == []
    ensures !Edge(c, c.cur, t)
  {
  }

  lemma NothingAdded(c: Code, merge: nat)
    ensures Exact(c, c, [], merge)
  {
  }

  lemma FromBlockJoin(xs: seq<(Operand, nat)>, ys: seq<(Operand, nat)>, b: nat)
    ensures FromBlock(xs + ys, b) <==> FromBlock(xs, b) || FromBlock(ys, b)
  {
    if FromBlock(xs, b) {
      var i :| 0 <= i < |xs| && xs[i].1 == b;
      assert (xs + ys)[i].1 == b;
    }
    if FromBlock(ys, b) {
      var i :| 0 <= i < |ys| && ys[i].1 == b;
      assert (xs + ys)[|xs| + i].1 == b;
    }
  }

  /** An arm and the arms after it are exact together when each is: they touch
      different blocks. */
  lemma ExactJoin(c: Code, a: Code, d: Code, r: Code, xs: seq<(Operand, nat)>, ys: seq<(Operand, nat)>, merge: nat)
    requires Grows(c, a) && d == a.SetInsert(|c.blocks| + 1) && Grows(d, r) && |c.blocks| + 1 < |a.blocks|
    requires a.blocks[|c.blocks| + 1] == []
    requires FromNew(c, a, xs) && FromNew(d, r, ys)
    requires forall i | 0 <= i < |xs| :: xs[i].1 != c.cur && xs[i].1 != |c.blocks| + 1
    ensures Exact(c, r, xs + ys, merge) <==> Exact(c, a, xs, merge) && Exact(d, r, ys, merge)
  {
    var next := |c.blocks| + 1;
    forall b: nat
      ensures FromBlock(xs + ys, b) <==> FromBlock(xs, b) || FromBlock(ys, b)
      ensures Edge(d, b, merge) <==> Edge(a, b, merge)
      ensures b < |a.blocks| && b != next ==> !FromBlock(ys, b) && (Edge(r, b, merge) <==> Edge(a, b, merge))
      ensures b == next || b >= |a.blocks| ==>
        !FromBlock(xs, b) && !Edge(a, b, merge) && !Edge(c, b, merge)
    {
      FromBlockJoin(xs, ys, b);
      EdgeMoved(a, next, b, merge);
      if b < |a.blocks| && b != next { assert r.blocks[b] == a.blocks[b]; }
    }
  }

  /** The phi lists each predecessor of its block exactly once and nothing else,
      exactly when the last arm has no guard and no arm's body both has a value and
      ends in a terminator of its own. */
  lemma PhiExactIff(e: Expr, c: Code)
    requires e.MatchOn? && c.Valid() && Lands(c)
    ensures var a := LowerExpr(e.e, c);
      var d := a.c.NewBlocks(1);
      var r := LowerArms(e.on, e.arms, d, a.v, |a.c.blocks|);
      && FromDistinct(r.incoming)
      && ((forall b: nat :: Edge(r.c, b, |a.c.blocks|) <==> FromBlock(r.incoming, b)) <==>
          (e.arms != [] ==> Unguarded(e.arms[|e.arms| - 1])) && forall i | 0 <= i < |e.arms| :: !BodyClashes(e.arms[i].body))
  {
    hide BodyClashes, LowerArms, Sound, Grows, FromDistinct, FromBlock;
    var k, arms := e.on, e.arms;
    var a := LowerExpr(e.e, c);
    GrowsFacts(c, a.c);
    var n := |a.c.blocks|;
    var d := a.c.NewBlocks(1);
    ExprAdds(|c.blocks|, e.e, c);
    StillLands(|c.blocks|, c, a.c);
    forall b: nat ensures !Edge(d, b, n) {
      PieceAdds(n + 1, a.c, d, []);
      SameEdges(n + 1, a.c, d, n, b);
    }
    ArmsFrom(k, arms, d, a.v, n);
    ArmsExactIff(k, arms, d, a.v, n);
    SoundIs(k, arms, d, a.v, n);
  }

  // ---------------------------------------------------------------- which arms clash

  /** Expressions that emit nothing. */
  predicate IsLit(e: Expr) {
    e.Lit? || (e.TryUntyped? && IsLit(e.e) && (e.fallback.Some? ==> IsLit(e.fallback.value)))
  }

  /** Whether the insert block ends in a terminator after a statement, given
      whether it did before. */
  predicate ClosedAfter(s: Stmt, closed: bool) {
    match s
    case Skip => closed
    case Seq(a, b) => ClosedAfter(b, ClosedAfter(a, closed))
    case Do(e) => IsLit(e) && closed
    case Return(_) => true
    case _ => false
  }

  /** A body with a value whose code ends in a terminator, such as `{ ret e; }`. */
  predicate BodyClashes(b: Body) {
    b.value.Some? && ClosedAfter(b.post, IsLit(b.value.value) && ClosedAfter(b.pre, false))
  }

  lemma EmitClosed(c: Code, i: Instr)
    requires c.Valid()
    ensures Emit(c, i).Closed() <==> IsTerminator(i)
  {
    assert Emit(c, i).blocks[c.cur][|c.blocks[c.cur]|] == i;
  }

  lemma MergeOpen(c: Code, at: nat, xs: seq<(Operand, nat)>)
    requires at < |c.blocks|
    ensures !Merge(c, at, xs).Closed()
  {
    EmitClosed(c.SetInsert(at), Phi(c.next, xs));
  }

  lemma {:induction false} ExprClosed(e: Expr, c: Code)
    requires c.Valid()
    ensures LowerExpr(e, c).c.Closed() <==> IsLit(e) && c.Closed()
  {
    hide Emit, Merge, Grows, Straight, TryCaught, TryOk, PopFree, LowerFallback;
    match e
    case Lit(_) =>
    case Var(x) => LoadOpen(c, x);
    case Add(l, r) => AddOpen(e, c);
    case Try(_, kind, _) => TryOpen(e, c);
    case TryUntyped(e1, fb) =>
      GrowsFacts(c, LowerExpr(e1, c).c);
      ExprClosed(e1, c);
      if fb.Some? { ExprClosed(fb.value, LowerExpr(e1, c).c); }
    case CatchUnwrap(_, _, _, _) => CatchUnwrapOpen(e, c);
    case Propagate(_, _, _, _, _) => PropagateOpen(e, c);
    case PropagateVoid(_, _, _) => PropagateVoidOpen(e, c);
    case Build(_, _, _) => BuildOpen(e, c);
    case MatchOn(_, _, _) => MatchOpen(e, c);
  }

  lemma LoadOpen(c: Code, x: nat)
    requires c.Valid()
    ensures !LowerExpr(Var(x), c).c.Closed()
  {
    var d := LowerExpr(Var(x), c).c;
    assert d.blocks[c.cur][|c.blocks[c.cur]|] == Load(c.next, x);
  }

  lemma AddOpen(e: Expr, c: Code)
    requires e.Add? && c.Valid()
    ensures !LowerExpr(e, c).c.Closed()
  {
    hide Grows;
    var a := LowerExpr(e.l, c);
    GrowsFacts(c, a.c);
    var b := LowerExpr(e.r, a.c);
    GrowsFacts(a.c, b.c);
    var i := Pure(b.c.next, Add32, a.v, b.v);
    assert LowerExpr(e, c).c.blocks[b.c.cur] == b.c.blocks[b.c.cur] + [i];
  }

  lemma PlainEndOpen(c: Code, h: Lowered, b: Lowered)
    requires Grows(c, h.c) && Grows(c, b.c) && |c.blocks| + 2 < |b.c.blocks|
    ensures !TryPlain(c, h, b).c.Closed()
  {
    hide Emit, Merge, Grows, Straight, PopFree;
    GrowsFacts(c, b.c);
    var p := PopFree(b.c, c.next);
    StraightFacts(b.c, p, 0, 0);
    var d := Emit(p, Br(|c.blocks| + 2));
    StraightFacts(p, d, 0, 0);
    MergeOpen(d, |c.blocks| + 2, [(b.v, b.c.cur), (h.v, h.c.cur)]);
  }

  lemma UnwrapEndOpen(c: Code, h: Lowered, b: Lowered, g: Lowered)
    requires Grows(c, g.c) && |c.blocks| + 2 < |g.c.blocks|
    ensures !TryUnwrap(c, h, b, g).c.Closed()
  {
    hide Emit, Merge, Grows, Straight;
    GrowsFacts(c, g.c);
    var d := Emit(g.c, Br(|c.blocks| + 2));
    StraightFacts(g.c, d, 0, 0);
    MergeOpen(d, |c.blocks| + 2, [(Reg(b.c.next + 2), |b.c.blocks|), (g.v, g.c.cur), (h.v, h.c.cur)]);
  }

  lemma TryOpen(e: Expr, c: Code)
    requires e.Try? && c.Valid()
    ensures !LowerExpr(e, c).c.Closed()
  {
    hide TryPlain, TryUnwrap, Grows, Straight, TryCaught, TryOk, PopFree, LowerFallback;
    var n := |c.blocks|;
    var h := TryCaught(e, c);
    var b := LowerExpr(e.e, h.c.SetInsert(n));
    GrowsFacts(h.c.SetInsert(n), b.c);
    GrowsIn(c, h.c, n, b.c);
    if e.kind.Plain? {
      PlainUnfold(e, c, h, b);
      PlainEndOpen(c, h, b);
    } else {
      var o := TryOk(c, b, e.kind.errTag);
      GrowsFacts(b.c, o);
      GrowsTrans(c, b.c, o);
      var at := o.SetInsert(|b.c.blocks| + 1);
      var d := PopFree(at, c.next);
      StraightFacts(at, d, 0, 0);
      var g := LowerFallback(e.fallback, d);
      GrowsTrans(at, d, g.c);
      GrowsFacts(at, g.c);
      GrowsIn(c, o, |b.c.blocks| + 1, g.c);
      UnwrapUnfold(e, c, h, b, o, d, g);
      UnwrapEndOpen(c, h, b, g);
    }
  }

  lemma CatchUnwrapOpen(e: Expr, c: Code)
    requires e.CatchUnwrap? && c.Valid()
    ensures !LowerCatchUnwrap(e, c).c.Closed()
  {
    hide Emit, Merge, Grows, Straight, UnwrapOk, BindPayload, LowerStmt;
    var a := LowerExpr(e.e, c);
    GrowsFacts(c, a.c);
    var n := |a.c.blocks|;
    var c3 := UnwrapOk(a.c, a.v, e.errTag, n + 2);
    var c4 := BindPayload(c3.SetInsert(n + 1), e.it, a.v);
    StraightFacts(c3.SetInsert(n + 1), c4, if e.it.Some? then 1 else 0, 0);
    var c5 := LowerStmt(e.block, c4);
    GrowsTrans(c3.SetInsert(n + 1), c4, c5);
    GrowsBlock(c3.SetInsert(n + 1), c5, n + 2);
    GrowsFacts(c3.SetInsert(n + 1), c5);
    if !c5.Closed() {
      var d := Emit(c5, Br(n + 2));
      StraightFacts(c5, d, 0, 0);
      MergeOpen(d, n + 2, [(Reg(a.c.next + 2), n), (Const(NULL), c5.cur)]);
    }
  }

  lemma PropagateOpen(e: Expr, c: Code)
    requires e.Propagate? && c.Valid()
    ensures !LowerPropagate(e, c).c.Closed()
  {
    hide Emit, Merge, Grows, Straight, BranchOnTag, ReturnTagged, LowerStmt, Operation;
    var a := LowerExpr(e.e, c);
    GrowsFacts(c, a.c);
    var n := |a.c.blocks|;
    var c1 := BranchOnTag(a.c, a.v, e.errTag, 3);
    StraightFacts(a.c, c1, 2, 3);
    var c2 := LowerStmt(e.context, c1.SetInsert(n + 1));
    GrowsFacts(c1.SetInsert(n + 1), c2);
    var c3 := ReturnTagged(c2, a.v, e.carry, e.retTag);
    StraightFacts(c2, c3, 2, 0);
    var c4 := Operation(c3.SetInsert(n), GetPayload, a.v, NONE);
    StraightFacts(c3.SetInsert(n), c4, 1, 0);
    var c5 := Emit(c4, Br(n + 2));
    StraightFacts(c4, c5, 0, 0);
    MergeOpen(c5, n + 2, [(Reg(c3.next), n)]);
  }

  lemma PropagateVoidOpen(e: Expr, c: Code)
    requires e.PropagateVoid? && c.Valid()
    ensures !LowerPropagateVoid(e, c).c.Closed()
  {
    hide Emit, Grows, Straight, BranchOnTag, LowerStmt;
    var a := LowerExpr(e.e, c);
    GrowsFacts(c, a.c);
    var n := |a.c.blocks|;
    var c1 := BranchOnTag(a.c, a.v, e.errTag, 2);
    StraightFacts(a.c, c1, 2, 2);
    assert c1.blocks[n] == [] by { BranchBlocks(a.c, a.v, e.errTag); }
    var c2 := LowerStmt(e.context, c1.SetInsert(n + 1));
    GrowsFacts(c1.SetInsert(n + 1), c2);
    GrowsBlock(c1.SetInsert(n + 1), c2, n);
    StraightFacts(c2, Emit(c2, Ret(NONE)), 0, 0);
    GrowsBlock(c2, Emit(c2, Ret(NONE)), n);
  }

  lemma BranchBlocks(c: Code, a: Operand, tag: int)
    requires c.Valid()
    ensures |c.blocks| < |BranchOnTag(c, a, tag, 2).blocks| && BranchOnTag(c, a, tag, 2).blocks[|c.blocks|] == []
  {
    hide BranchOnTag;
    assert Straight(c, BranchOnTag(c, a, tag, 2), 2, 2);
  }

  lemma BuildOpen(e: Expr, c: Code)
    requires e.Build? && c.Valid()
    ensures !LowerExpr(e, c).c.Closed()
  {
    hide Grows;
    var a := if e.payload.None? then Lowered(c, NONE) else LowerExpr(e.payload.value, c);
    if e.payload.Some? { GrowsFacts(c, a.c); }
    var i := Pure(a.c.next, BuildTagged(e.carry), Const(Int(e.tag)), a.v);
    assert LowerExpr(e, c).c.blocks[a.c.cur] == a.c.blocks[a.c.cur] + [i];
  }

  lemma MatchOpen(e: Expr, c: Code)
    requires e.MatchOn? && c.Valid()
    ensures !LowerMatch(e, c).c.Closed()
  {
    hide Grows, LowerArms, Merge;
    var a := LowerExpr(e.e, c);
    GrowsFacts(c, a.c);
    var n := |a.c.blocks|;
    var b := LowerArms(e.on, e.arms, a.c.NewBlocks(1), a.v, n);
    GrowsFacts(a.c.NewBlocks(1), b.c);
    if b.incoming != [] { MergeOpen(b.c, n, b.incoming); }
  }

  lemma {:induction false} StmtClosed(s: Stmt, c: Code)
    requires c.Valid()
    ensures LowerStmt(s, c).Closed() <==> ClosedAfter(s, c.Closed())
  {
    hide Emit, Grows, Straight, LowerIf, LowerTryCatch, RaiseStamped, LowerExpr;
    match s
    case Skip =>
    case Seq(a, b) =>
      GrowsFacts(c, LowerStmt(a, c));
      StmtClosed(a, c);
      StmtClosed(b, LowerStmt(a, c));
    case Do(e) => ExprClosed(e, c);
    case Assign(x, e) =>
      GrowsFacts(c, LowerExpr(e, c).c);
      EmitClosed(LowerExpr(e, c).c, Store(x, LowerExpr(e, c).v));
    case Print(e) =>
      GrowsFacts(c, LowerExpr(e, c).c);
      EmitClosed(LowerExpr(e, c).c, Out(LowerExpr(e, c).v));
    case If(_, _, _) => IfOpen(s, c);
    case ThrowStmt(e, _, _, _, _, _) =>
      GrowsFacts(c, LowerExpr(e, c).c);
      ThrowOpen(LowerExpr(e, c).c, LowerExpr(e, c).v, ThrowSite(s));
    case TryCatch(_, _, _) => TryCatchOpen(s, c);
    case Return(e) =>
      GrowsFacts(c, LowerExpr(e, c).c);
      EmitClosed(LowerExpr(e, c).c, Ret(LowerExpr(e, c).v));
  }

  lemma ThrowOpen(c: Code, v: Operand, site: Site)
    requires c.Valid()
    ensures RaiseStamped(c, v, site).blocks[|c.blocks|] == []
  {
    hide RaiseStamped;
    StraightFacts(c, RaiseStamped(c, v, site), 1, 1);
  }

  lemma IfOpen(s: Stmt, c: Code)
    requires s.If? && c.Valid()
    ensures !LowerIf(s, c).Closed()
  {
    hide Grows, Straight, BranchIf, EmitUnlessClosed, LowerExpr, LowerStmt;
    var n := |c.blocks|;
    var c0 := c.NewBlocks(3);
    var a := LowerExpr(s.cond, c0);
    NewBlocksGrow(c, 3);
    GrowsFacts(c0, a.c);
    GrowsBlock(c0, a.c, n);
    var c1 := BranchIf(a.c, a.v, n + 1, n + 2);
    StraightFacts(a.c, c1, 1, 0);
    GrowsBlock(a.c, c1, n);
    var c2 := LowerStmt(s.thn, c1.SetInsert(n + 1));
    GrowsFacts(c1.SetInsert(n + 1), c2);
    GrowsBlock(c1.SetInsert(n + 1), c2, n);
    var c3 := EmitUnlessClosed(c2, Br(n));
    StraightFacts(c2, c3, 0, 0);
    GrowsBlock(c2, c3, n);
    var c4 := LowerStmt(s.els, c3.SetInsert(n + 2));
    GrowsFacts(c3.SetInsert(n + 2), c4);
    GrowsBlock(c3.SetInsert(n + 2), c4, n);
    var c5 := EmitUnlessClosed(c4, Br(n));
    StraightFacts(c4, c5, 0, 0);
    GrowsBlock(c4, c5, n);
  }

  lemma TryCatchOpen(s: Stmt, c: Code)
    requires s.TryCatch? && c.Valid()
    ensures !LowerTryCatch(s, c).Closed()
  {
    hide Grows, Straight, LowerTryBody, LowerHandlers, LowerStmt, LeaveFinal;
    var n := |c.blocks|;
    var c2 := LowerTryBody(s, c);
    var c4 := LowerHandlers(s, c, c2);
    GrowsFacts(c2.SetInsert(n + 1), c4);
    GrowsBlock(c2.SetInsert(n + 1), c4, n + 3);
    var c5 := LowerStmt(s.final, c4.SetInsert(n + 2));
    GrowsFacts(c4.SetInsert(n + 2), c5);
    GrowsBlock(c4.SetInsert(n + 2), c5, n + 3);
    var c6 := LeaveFinal(c5, c.next, n + 3);
    StraightFacts(c5, c6, 0, 0);
    GrowsBlock(c5, c6, n + 3);
  }

  lemma BodyClosed(b: Body, c: Code)
    requires c.Valid() && !c.Closed()
    ensures Clash(LowerBody(b, c)) <==> BodyClashes(b)
  {
    hide Grows, LowerStmt, LowerExpr;
    var c1 := LowerStmt(b.pre, c);
    GrowsFacts(c, c1);
    StmtClosed(b.pre, c);
    if b.value.Some? {
      var a := LowerExpr(b.value.value, c1);
      GrowsFacts(c1, a.c);
      ExprClosed(b.value.value, c1);
      StmtClosed(b.post, a.c);
      GrowsFacts(a.c, LowerStmt(b.post, a.c));
    }
  }

  lemma BindOpen(c: Code, it: Option<nat>, a: Operand)
    requires c.Valid() && !c.Closed()
    ensures !BindPayload(c, it, a).Closed()
  {
    if it.Some? {
      var i := Pure(c.next, GetPayload, a, NONE);
      assert BindPayload(c, it, a).blocks[c.cur] == c.blocks[c.cur] + [i, Store(it.value, Reg(c.next))];
    }
  }

  lemma ArmSoundIs(k: Kind, a: Arm, last: bool, c: Code, v: Operand, merge: nat)
    requires c.Valid() && merge < |c.blocks| && merge != c.cur
    ensures ArmSound(k, a, last, c, v, merge) <==> (last ==> Unguarded(a)) && !BodyClashes(a.body)
  {
    hide LowerEntry, LowerBody, BindPayload, BindOf, BodyClashes, Clash, Grows, Straight;
    var g := LowerEntry(k, a, last, c, v, merge).SetInsert(|c.blocks|);
    var p := BindPayload(g, BindOf(k, a.patterns), v);
    StraightFacts(g, p, if BindOf(k, a.patterns).Some? then 1 else 0, 0);
    BindOpen(g, BindOf(k, a.patterns), v);
    BodyClosed(a.body, p);
  }

  lemma {:induction false} SoundIs(k: Kind, arms: seq<Arm>, c: Code, v: Operand, merge: nat)
    requires c.Valid() && merge < |c.blocks| && merge != c.cur
    ensures Sound(k, arms, c, v, merge) <==>
      (arms != [] ==> Unguarded(arms[|arms| - 1])) && forall i | 0 <= i < |arms| :: !BodyClashes(arms[i].body)
    decreases |arms|
  {
    hide ArmSound, LowerArm, BodyClashes;
    if arms != [] {
      ArmSoundIs(k, arms[0], |arms| == 1, c, v, merge);
      if |arms| > 1 {
        var d := LowerArm(k, arms[0], false, c, v, merge).c.SetInsert(|c.blocks| + 1);
        SoundIs(k, arms[1..], d, v, merge);
        assert arms == [arms[0]] + arms[1..];
      }
    }
  }

  /** An arm that is an expression never clashes; one that ends in `ret e` always does. */
  lemma ArmForms(init: Stmt, e: Expr)
    ensures !BodyClashes(Yields(Skip, e)) && BodyClashes(Returns(init, e))
  {
  }
}
