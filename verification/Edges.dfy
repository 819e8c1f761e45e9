/** Lowered code only jumps to blocks it created itself, so a construct's merge
    block has no predecessors but those the construct makes. */
module Edges {
  import opened Hashes
  import opened Ir
  import opened Source
  import opened Wrappers
  import opened Lowering

  predicate JumpsTo(i: Instr, b: nat) {
    (i.Br? && i.target == b) || (i.CondBr? && (i.yes == b || i.no == b))
  }

  /** Instruction `j` of block `i` of `b` was added since `a`. */
  ghost predicate Added(a: Code, b: Code, i: nat, j: nat) {
    i < |b.blocks| && j < |b.blocks[i]| && (i < |a.blocks| ==> |a.blocks[i]| <= j)
  }

  /** `b` extends `a`, and every added jump goes to an existing block from `lo` on. */
  ghost predicate Adds(lo: nat, a: Code, b: Code) {
    && |a.blocks| <= |b.blocks|
    && (forall i | 0 <= i < |a.blocks| :: a.blocks[i] <= b.blocks[i])
    && (forall i: nat, j: nat, t: nat | Added(a, b, i, j) && JumpsTo(b.blocks[i][j], t) :: lo <= t < |b.blocks|)
  }

  lemma AddsTrans(lo: nat, a: Code, b: Code, c: Code)
    requires Adds(lo, a, b) && Adds(lo, b, c)
    ensures Adds(lo, a, c)
  {
    forall i: nat, j: nat, t: nat | Added(a, c, i, j) && JumpsTo(c.blocks[i][j], t) ensures lo <= t < |c.blocks| {
      if Added(b, c, i, j) {
      } else {
        assert c.blocks[i][j] == b.blocks[i][j] && Added(a, b, i, j);
      }
    }
  }

  /** Where the builder stands does not matter. */
  lemma AddsMoved(lo: nat, a: Code, at: nat, b: Code)
    requires Adds(lo, a.SetInsert(at), b)
    ensures Adds(lo, a, b)
  {
    forall i: nat, j: nat, t: nat | Added(a, b, i, j) && JumpsTo(b.blocks[i][j], t) ensures lo <= t < |b.blocks| {
      assert Added(a.SetInsert(at), b, i, j);
    }
  }

  lemma AddsLanded(lo: nat, a: Code, b: Code, at: nat)
    requires Adds(lo, a, b)
    ensures Adds(lo, a, b.SetInsert(at))
  {
    forall i: nat, j: nat, t: nat | Added(a, b.SetInsert(at), i, j) && JumpsTo(b.blocks[i][j], t)
      ensures lo <= t < |b.blocks|
    {
      assert Added(a, b, i, j);
    }
  }

  /** `b` adds `xs` to the insert block and some empty blocks. */
  lemma PieceAdds(lo: nat, a: Code, b: Code, xs: seq<Instr>)
    requires a.Valid() && |a.blocks| <= |b.blocks|
    requires b.blocks[a.cur] == a.blocks[a.cur] + xs
    requires forall i | 0 <= i < |a.blocks| && i != a.cur :: b.blocks[i] == a.blocks[i]
    requires forall i | |a.blocks| <= i < |b.blocks| :: b.blocks[i] == []
    requires forall j, t: nat | 0 <= j < |xs| && JumpsTo(xs[j], t) :: lo <= t < |b.blocks|
    ensures Adds(lo, a, b)
  {
    forall i: nat, j: nat, t: nat | Added(a, b, i, j) && JumpsTo(b.blocks[i][j], t) ensures lo <= t < |b.blocks| {
      assert i == a.cur && b.blocks[i][j] == xs[j - |a.blocks[a.cur]|];
    }
  }

  lemma EmitAdds(lo: nat, c: Code, i: Instr)
    requires c.Valid() && forall t: nat | JumpsTo(i, t) :: lo <= t < |c.blocks|
    ensures Adds(lo, c, Emit(c, i)) && Adds(lo, c, EmitUnlessClosed(c, i))
  {
    PieceAdds(lo, c, Emit(c, i), [i]);
    PieceAdds(lo, c, c, []);
  }

  lemma OperationAdds(lo: nat, c: Code, op: PureOp, a: Operand, b: Operand)
    requires c.Valid()
    ensures Adds(lo, c, Operation(c, op, a, b))
  {
    PieceAdds(lo, c, Operation(c, op, a, b), [Pure(c.next, op, a, b)]);
  }

  lemma EnterAdds(lo: nat, c: Code, k: nat, caught: nat, normal: nat)
    requires c.Valid() && lo <= caught < |c.blocks| + k && lo <= normal < |c.blocks| + k
    ensures Adds(lo, c, Enter(c, k, caught, normal))
  {
    var f := Reg(c.next);
    PieceAdds(lo, c, Enter(c, k, caught, normal),
      [EhAlloc(c.next), EhPush(f), SetJmp(c.next + 1, f), Pure(c.next + 2, IsNonZero, Reg(c.next + 1), NONE),
       CondBr(Reg(c.next + 2), caught, normal)]);
  }

  lemma PopFreeAdds(lo: nat, c: Code, f: nat)
    requires c.Valid()
    ensures Adds(lo, c, PopFree(c, f))
  {
    PieceAdds(lo, c, PopFree(c, f), [EhPop, EhFree(Reg(f))]);
  }

  lemma BranchOnTagAdds(lo: nat, c: Code, a: Operand, tag: int, k: nat)
    requires c.Valid() && lo <= |c.blocks| && 2 <= k
    ensures Adds(lo, c, BranchOnTag(c, a, tag, k))
  {
    PieceAdds(lo, c, BranchOnTag(c, a, tag, k),
      [Pure(c.next, GetTag, a, NONE), Pure(c.next + 1, IsEqual, Reg(c.next), Const(Int(tag))),
       CondBr(Reg(c.next + 1), |c.blocks| + 1, |c.blocks|)]);
  }

  lemma MergeAdds(lo: nat, c: Code, at: nat, xs: seq<(Operand, nat)>)
    requires at < |c.blocks|
    ensures Adds(lo, c, Merge(c, at, xs))
  {
    PieceAdds(lo, c.SetInsert(at), Merge(c, at, xs), [Phi(c.next, xs)]);
    AddsMoved(lo, c, at, Merge(c, at, xs));
  }

  lemma BindAdds(lo: nat, c: Code, it: Option<nat>, a: Operand)
    requires c.Valid()
    ensures Adds(lo, c, BindPayload(c, it, a))
  {
    PieceAdds(lo, c, BindPayload(c, it, a),
      if it.None? then [] else [Pure(c.next, GetPayload, a, NONE), Store(it.value, Reg(c.next))]);
  }

  lemma BranchIfAdds(lo: nat, c: Code, v: Operand, yes: nat, no: nat)
    requires c.Valid() && lo <= yes < |c.blocks| && lo <= no < |c.blocks|
    ensures Adds(lo, c, BranchIf(c, v, yes, no))
  {
    PieceAdds(lo, c, BranchIf(c, v, yes, no), [Pure(c.next, IsNonZero, v, NONE), CondBr(Reg(c.next), yes, no)]);
  }

  lemma ReturnAdds(lo: nat, c: Code, a: Operand, carry: Carry, tag: int)
    requires c.Valid()
    ensures Adds(lo, c, ReturnTagged(c, a, carry, tag))
  {
    PieceAdds(lo, c, ReturnTagged(c, a, carry, tag),
      [Pure(c.next, GetPayload, a, NONE),
       Pure(c.next + 1, BuildTagged(carry), Const(Int(tag)), Reg(c.next)),
       Ret(Reg(c.next + 1))]);
  }

  lemma RaiseAdds(lo: nat, c: Code, a: Operand, site: Site)
    requires c.Valid()
    ensures Adds(lo, c, RaiseStamped(c, a, site))
  {
    PieceAdds(lo, c, RaiseStamped(c, a, site), [Pure(c.next, Stamp(site), a, NONE), EhThrow(Reg(c.next)), Unreachable]);
  }

  lemma LeaveAdds(lo: nat, c: Code, f: nat, to: nat)
    requires c.Valid() && lo <= to < |c.blocks|
    ensures Adds(lo, c, LeaveBody(c, to)) && Adds(lo, c, LeaveFinal(c, f, to))
  {
    PieceAdds(lo, c, LeaveBody(c, to), if c.Closed() then [] else [EhPop, Br(to)]);
    PieceAdds(lo, c, LeaveFinal(c, f, to), if c.Closed() then [] else [EhFree(Reg(f)), Br(to)]);
  }

  lemma DispatchAdds(lo: nat, c: Code, f: nat)
    requires c.Valid()
    ensures Adds(lo, c, Dispatch(c, f))
  {
    PieceAdds(lo, c, Dispatch(c, f), [EhPop, EhGetError(c.next, Reg(f)), Pure(c.next + 1, GetTypeId, Reg(c.next), NONE),
                                      Pure(c.next + 2, GetParentId, Reg(c.next), NONE)]);
  }

  lemma ClauseAdds(lo: nat, c: Code, e: nat, name: string)
    requires c.Valid() && lo <= |c.blocks|
    ensures Adds(lo, c, TestClause(c, e, name))
  {
    PieceAdds(lo, c, TestClause(c, e, name),
      [Pure(c.next, IsEqual, Reg(e + 1), Const(Int(Fnv(name)))),
       Pure(c.next + 1, IsEqual, Reg(e + 2), Const(Int(Fnv(name)))),
       Pure(c.next + 2, Or, Reg(c.next), Reg(c.next + 1)),
       CondBr(Reg(c.next + 2), |c.blocks|, |c.blocks| + 1)]);
  }

  lemma RethrowAdds(lo: nat, c: Code, f: nat, e: nat)
    requires c.Valid()
    ensures Adds(lo, c, Rethrow(c, f, e))
  {
    PieceAdds(lo, c, Rethrow(c, f, e), [EhPush(Reg(f)), EhSetError(Reg(f), Reg(e)), EhGetError(c.next, Reg(f)),
                                        EhThrow(Reg(c.next)), Unreachable]);
  }

  lemma TestsAdd(lo: nat, k: Kind, ps: seq<Pattern>, c: Code, v: Operand, acc: Option<Operand>)
    requires c.Valid() && (acc.Some? ==> Known(acc.value, c))
    ensures Adds(lo, c, EmitTests(k, ps, c, v, acc).c)
    decreases |ps|
  {
    hide Adds, EmitTest, OrElse;
    if ps == [] || Wild(ps[0]) {
      PieceAdds(lo, c, c, []);
    } else {
      var t := EmitTest(k, ps[0], c, v);
      TestAdded(lo, k, ps[0], c, v);
      var o := OrElse(t.c, acc, t.v);
      OrAdded(lo, t.c, acc, t.v);
      AddsTrans(lo, c, t.c, o.c);
      TestsAdd(lo, k, ps[1..], o.c, v, Some(o.v));
      AddsTrans(lo, c, o.c, EmitTests(k, ps[1..], o.c, v, Some(o.v)).c);
    }
  }

  lemma TestAdded(lo: nat, k: Kind, p: Pattern, c: Code, v: Operand)
    requires c.Valid() && !Wild(p)
    ensures Adds(lo, c, EmitTest(k, p, c, v).c)
  {
    hide Adds, Operation;
    match p
    case Literal(x) => OperationAdds(lo, c, IsEqual, v, Const(x));
    case Variant(name, _) =>
      if k.unit {
        OperationAdds(lo, c, IsEqual, v, Const(Int(Disc(k, name))));
      } else {
        var d := Operation(c, GetTag, v, NONE);
        OperationAdds(lo, c, GetTag, v, NONE);
        OperationAdds(lo, d, IsEqual, Reg(c.next), Const(Int(Disc(k, name))));
        AddsTrans(lo, c, d, Operation(d, IsEqual, Reg(c.next), Const(Int(Disc(k, name)))));
      }
  }

  lemma OrAdded(lo: nat, c: Code, acc: Option<Operand>, v: Operand)
    requires c.Valid() && Known(v, c)
    ensures Adds(lo, c, OrElse(c, acc, v).c)
  {
    hide Adds, Operation;
    if acc.None? { PieceAdds(lo, c, c, []); } else { OperationAdds(lo, c, Or, acc.value, v); }
  }

  lemma TestAdds(lo: nat, k: Kind, a: Arm, last: bool, c: Code, v: Operand, merge: nat)
    requires c.Valid() && lo <= merge < |c.blocks| && merge != c.cur
    ensures Adds(lo, c, LowerTest(k, a, last, c, v, merge))
  {
    hide Adds, EmitTests, Grows, Straight, Emit, HasWildcard;
    var n := |c.blocks|;
    var t := EmitTests(k, a.patterns, c, v, None);
    var g := if a.guard.None? then n else n + NewIn(a, last) - 1;
    var d := t.c.NewBlocks(NewIn(a, last));
    var i := Jump(t.acc, HasWildcard(a.patterns), g, if last then merge else n + 1);
    TestsAdd(lo, k, a.patterns, c, v, None);
    PieceAdds(lo, t.c, d, []);
    AddsTrans(lo, c, t.c, d);
    EmitAdds(lo, d, i);
    AddsTrans(lo, c, d, Emit(d, i));
  }

  // ---------------------------------------------------------------- expressions

  lemma {:induction false} ExprAdds(lo: nat, e: Expr, c: Code)
    requires c.Valid() && lo <= |c.blocks|
    ensures Adds(lo, c, LowerExpr(e, c).c)
    decreases e, 3
  {
    hide Adds, Grows, Straight;
    match e
    case Lit(v) => PieceAdds(lo, c, c, []);
    case Var(x) => LoadAdds(lo, c, x);
    case Add(l, r) =>
      var a := LowerExpr(l, c);
      GrowsFacts(c, a.c);
      var b := LowerExpr(r, a.c);
      GrowsFacts(a.c, b.c);
      ExprAdds(lo, l, c);
      ExprAdds(lo, r, a.c);
      AddsTrans(lo, c, a.c, b.c);
      OperationAdds(lo, b.c, Add32, a.v, b.v);
      AddsTrans(lo, c, b.c, Operation(b.c, Add32, a.v, b.v));
    case Try(_, _, _) => TryAdds(lo, e, c);
    case TryUntyped(e1, fb) =>
      var a := LowerExpr(e1, c);
      GrowsFacts(c, a.c);
      ExprAdds(lo, e1, c);
      if fb.Some? {
        ExprAdds(lo, fb.value, a.c);
        AddsTrans(lo, c, a.c, LowerExpr(fb.value, a.c).c);
      }
    case CatchUnwrap(_, _, _, _) => CatchUnwrapAdds(lo, e, c);
    case Propagate(_, _, _, _, _) => PropagateAdds(lo, e, c);
    case PropagateVoid(_, _, _) => PropagateVoidAdds(lo, e, c);
    case Build(tag, payload, carry) =>
      var a := if payload.None? then Lowered(c, NONE) else LowerExpr(payload.value, c);
      if payload.None? { PieceAdds(lo, c, c, []); } else { GrowsFacts(c, a.c); ExprAdds(lo, payload.value, c); }
      OperationAdds(lo, a.c, BuildTagged(carry), Const(Int(tag)), a.v);
      AddsTrans(lo, c, a.c, Operation(a.c, BuildTagged(carry), Const(Int(tag)), a.v));
    case MatchOn(_, _, _) => MatchAdds(lo, e, c);
  }

  lemma LoadAdds(lo: nat, c: Code, x: nat)
    requires c.Valid()
    ensures Adds(lo, c, LowerExpr(Var(x), c).c)
  {
    PieceAdds(lo, c, LowerExpr(Var(x), c).c, [Load(c.next, x)]);
  }

  lemma {:induction false} FallbackAdds(lo: nat, fb: Option<Expr>, c: Code)
    requires c.Valid() && lo <= |c.blocks|
    ensures Adds(lo, c, LowerFallback(fb, c).c)
    decreases fb, 4
  {
    match fb
    case None => PieceAdds(lo, c, c, []);
    case Some(e) => ExprAdds(lo, e, c);
  }

  lemma {:induction false} CaughtAdds(lo: nat, e: Expr, c: Code)
    requires e.Try? && c.Valid() && lo <= |c.blocks|
    ensures Adds(lo, c, TryCaught(e, c).c)
    decreases e, 1
  {
    hide Adds, Grows, Straight, Enter, PopFree, Emit, LowerFallback;
    var n := |c.blocks|;
    var t := Enter(c, 3, n + 1, n);
    StraightFacts(c, t, 3, 3);
    var c1 := PopFree(t.SetInsert(n + 1), c.next);
    StraightFacts(t.SetInsert(n + 1), c1, 0, 0);
    var h := LowerFallback(e.fallback, c1);
    GrowsFacts(c1, h.c);
    EnterAdds(lo, c, 3, n + 1, n);
    PopFreeAdds(lo, t.SetInsert(n + 1), c.next);
    AddsMoved(lo, t, n + 1, c1);
    AddsTrans(lo, c, t, c1);
    FallbackAdds(lo, e.fallback, c1);
    AddsTrans(lo, c, c1, h.c);
    EmitAdds(lo, h.c, Br(n + 2));
    AddsTrans(lo, c, h.c, Emit(h.c, Br(n + 2)));
  }

  lemma {:induction false} TryAdds(lo: nat, e: Expr, c: Code)
    requires e.Try? && c.Valid() && lo <= |c.blocks|
    ensures Adds(lo, c, LowerExpr(e, c).c)
    decreases e, 2
  {
    hide Adds, Grows, Straight, TryCaught, TryPlain, TryUnwrap, TryOk, PopFree, LowerFallback;
    var n := |c.blocks|;
    var h := TryCaught(e, c);
    var b := LowerExpr(e.e, h.c.SetInsert(n));
    GrowsFacts(h.c.SetInsert(n), b.c);
    CaughtAdds(lo, e, c);
    ExprAdds(lo, e.e, h.c.SetInsert(n));
    AddsMoved(lo, h.c, n, b.c);
    AddsTrans(lo, c, h.c, b.c);
    if e.kind.Plain? {
      GrowsIn(c, h.c, n, b.c);
      TryPlainAdds(lo, c, h, b);
      AddsTrans(lo, c, b.c, TryPlain(c, h, b).c);
    } else {
      var o := TryOk(c, b, e.kind.errTag);
      TryOkAdds(lo, c, b, e.kind.errTag);
      GrowsFacts(b.c, o);
      AddsTrans(lo, c, b.c, o);
      var at := o.SetInsert(|b.c.blocks| + 1);
      var d := PopFree(at, c.next);
      StraightFacts(at, d, 0, 0);
      PopFreeAdds(lo, at, c.next);
      AddsMoved(lo, o, |b.c.blocks| + 1, d);
      AddsTrans(lo, c, o, d);
      var g := LowerFallback(e.fallback, d);
      GrowsFacts(d, g.c);
      FallbackAdds(lo, e.fallback, d);
      AddsTrans(lo, c, d, g.c);
      GrowsIn(c, h.c, n, b.c);
      GrowsTrans(c, b.c, o);
      GrowsTrans(at, d, g.c);
      GrowsIn(c, o, |b.c.blocks| + 1, g.c);
      TryUnwrapAdds(lo, c, h, b, g);
      AddsTrans(lo, c, g.c, TryUnwrap(c, h, b, g).c);
    }
  }

  lemma TryPlainAdds(lo: nat, c: Code, h: Lowered, b: Lowered)
    requires Grows(c, h.c) && Grows(c, b.c) && |c.blocks| + 2 < |b.c.blocks| && lo <= |c.blocks|
    ensures Adds(lo, b.c, TryPlain(c, h, b).c)
  {
    hide Adds, PopFree, Emit, Merge;
    var p := PopFree(b.c, c.next);
    var d := Emit(p, Br(|c.blocks| + 2));
    PopFreeAdds(lo, b.c, c.next);
    EmitAdds(lo, p, Br(|c.blocks| + 2));
    AddsTrans(lo, b.c, p, d);
    var xs := [(b.v, b.c.cur), (h.v, h.c.cur)];
    MergeAdds(lo, d, |c.blocks| + 2, xs);
    AddsTrans(lo, b.c, d, Merge(d, |c.blocks| + 2, xs));
  }

  lemma TryOkAdds(lo: nat, c: Code, b: Lowered, tag: int)
    requires b.c.Valid() && |c.blocks| + 2 < |b.c.blocks| && lo <= |c.blocks|
    ensures Adds(lo, b.c, TryOk(c, b, tag))
  {
    hide Adds, PopFree, Emit, BranchOnTag, Operation;
    var k := |b.c.blocks|;
    var d := BranchOnTag(b.c, b.v, tag, 2);
    var p := PopFree(d.SetInsert(k), c.next);
    var o := Operation(p, GetPayload, b.v, NONE);
    BranchOnTagAdds(lo, b.c, b.v, tag, 2);
    PopFreeAdds(lo, d.SetInsert(k), c.next);
    AddsMoved(lo, d, k, p);
    AddsTrans(lo, b.c, d, p);
    OperationAdds(lo, p, GetPayload, b.v, NONE);
    AddsTrans(lo, b.c, p, o);
    EmitAdds(lo, o, Br(|c.blocks| + 2));
    AddsTrans(lo, b.c, o, Emit(o, Br(|c.blocks| + 2)));
  }

  lemma TryUnwrapAdds(lo: nat, c: Code, h: Lowered, b: Lowered, g: Lowered)
    requires Grows(c, g.c) && |c.blocks| + 2 < |g.c.blocks| && lo <= |c.blocks|
    ensures Adds(lo, g.c, TryUnwrap(c, h, b, g).c)
  {
    hide Adds, Emit, Merge;
    var d := Emit(g.c, Br(|c.blocks| + 2));
    EmitAdds(lo, g.c, Br(|c.blocks| + 2));
    var xs := [(Reg(b.c.next + 2), |b.c.blocks|), (g.v, g.c.cur), (h.v, h.c.cur)];
    MergeAdds(lo, d, |c.blocks| + 2, xs);
    AddsTrans(lo, g.c, d, Merge(d, |c.blocks| + 2, xs));
  }

  lemma UnwrapOkAdds(lo: nat, c: Code, v: Operand, tag: int, to: nat)
    requires c.Valid() && lo <= |c.blocks| && lo <= to < |c.blocks| + 3
    ensures Adds(lo, c, UnwrapOk(c, v, tag, to))
  {
    hide Adds, Emit, BranchOnTag, Operation;
    var d := BranchOnTag(c, v, tag, 3);
    var o := Operation(d.SetInsert(|c.blocks|), GetPayload, v, NONE);
    BranchOnTagAdds(lo, c, v, tag, 3);
    OperationAdds(lo, d.SetInsert(|c.blocks|), GetPayload, v, NONE);
    AddsMoved(lo, d, |c.blocks|, o);
    AddsTrans(lo, c, d, o);
    EmitAdds(lo, o, Br(to));
    AddsTrans(lo, c, o, Emit(o, Br(to)));
  }

  lemma {:induction false} CatchUnwrapAdds(lo: nat, e: Expr, c: Code)
    requires e.CatchUnwrap? && c.Valid() && lo <= |c.blocks|
    ensures Adds(lo, c, LowerCatchUnwrap(e, c).c)
    decreases e, 1
  {
    hide Adds, Grows, Straight, UnwrapOk, BindPayload, LowerStmt, Emit, Merge;
    var a := LowerExpr(e.e, c);
    GrowsFacts(c, a.c);
    var n := |a.c.blocks|;
    var c3 := UnwrapOk(a.c, a.v, e.errTag, n + 2);
    var c4 := BindPayload(c3.SetInsert(n + 1), e.it, a.v);
    StraightFacts(c3.SetInsert(n + 1), c4, if e.it.Some? then 1 else 0, 0);
    var c5 := LowerStmt(e.block, c4);
    GrowsFacts(c4, c5);
    ExprAdds(lo, e.e, c);
    UnwrapOkAdds(lo, a.c, a.v, e.errTag, n + 2);
    AddsTrans(lo, c, a.c, c3);
    BindAdds(lo, c3.SetInsert(n + 1), e.it, a.v);
    AddsMoved(lo, c3, n + 1, c4);
    AddsTrans(lo, c, c3, c4);
    StmtAdds(lo, e.block, c4);
    AddsTrans(lo, c, c4, c5);
    if c5.Closed() {
      AddsLanded(lo, c, c5, n + 2);
    } else {
      var c6 := Emit(c5, Br(n + 2));
      EmitAdds(lo, c5, Br(n + 2));
      AddsTrans(lo, c, c5, c6);
      var xs := [(Reg(a.c.next + 2), n), (Const(NULL), c5.cur)];
      MergeAdds(lo, c6, n + 2, xs);
      AddsTrans(lo, c, c6, Merge(c6, n + 2, xs));
    }
  }

  lemma {:induction false} PropagateAdds(lo: nat, e: Expr, c: Code)
    requires e.Propagate? && c.Valid() && lo <= |c.blocks|
    ensures Adds(lo, c, LowerPropagate(e, c).c)
    decreases e, 1
  {
    hide Adds, Grows, Straight, BranchOnTag, ReturnTagged, PropagateOk, LowerStmt;
    var a := LowerExpr(e.e, c);
    GrowsFacts(c, a.c);
    var n := |a.c.blocks|;
    var c1 := BranchOnTag(a.c, a.v, e.errTag, 3);
    StraightFacts(a.c, c1, 2, 3);
    var c2 := LowerStmt(e.context, c1.SetInsert(n + 1));
    GrowsFacts(c1.SetInsert(n + 1), c2);
    var c3 := ReturnTagged(c2, a.v, e.carry, e.retTag);
    StraightFacts(c2, c3, 2, 0);
    ExprAdds(lo, e.e, c);
    BranchOnTagAdds(lo, a.c, a.v, e.errTag, 3);
    AddsTrans(lo, c, a.c, c1);
    StmtAdds(lo, e.context, c1.SetInsert(n + 1));
    AddsMoved(lo, c1, n + 1, c2);
    AddsTrans(lo, c, c1, c2);
    ReturnAdds(lo, c2, a.v, e.carry, e.retTag);
    AddsTrans(lo, c, c2, c3);
    GrowsTrans(c, a.c, c1);
    GrowsIn(c, c1, n + 1, c2);
    GrowsTrans(c, c2, c3);
    PropagateOkAdds(lo, c, c3, a.v, n);
    AddsTrans(lo, c, c3, PropagateOk(c, c3, a.v, n).c);
  }

  lemma PropagateOkAdds(lo: nat, c: Code, c3: Code, v: Operand, n: nat)
    requires Grows(c, c3) && |c.blocks| <= n && n + 2 < |c3.blocks| && lo <= |c.blocks|
    ensures Adds(lo, c3, PropagateOk(c, c3, v, n).c)
  {
    hide Adds, Emit, Merge, Operation;
    var c4 := Operation(c3.SetInsert(n), GetPayload, v, NONE);
    OperationAdds(lo, c3.SetInsert(n), GetPayload, v, NONE);
    AddsMoved(lo, c3, n, c4);
    var c5 := Emit(c4, Br(n + 2));
    EmitAdds(lo, c4, Br(n + 2));
    AddsTrans(lo, c3, c4, c5);
    MergeAdds(lo, c5, n + 2, [(Reg(c3.next), n)]);
    AddsTrans(lo, c3, c5, Merge(c5, n + 2, [(Reg(c3.next), n)]));
  }

  lemma {:induction false} PropagateVoidAdds(lo: nat, e: Expr, c: Code)
    requires e.PropagateVoid? && c.Valid() && lo <= |c.blocks|
    ensures Adds(lo, c, LowerPropagateVoid(e, c).c)
    decreases e, 1
  {
    hide Adds, Grows, Straight, BranchOnTag, Emit, LowerStmt;
    var a := LowerExpr(e.e, c);
    GrowsFacts(c, a.c);
    var n := |a.c.blocks|;
    var c1 := BranchOnTag(a.c, a.v, e.errTag, 2);
    StraightFacts(a.c, c1, 2, 2);
    var c2 := LowerStmt(e.context, c1.SetInsert(n + 1));
    GrowsFacts(c1.SetInsert(n + 1), c2);
    ExprAdds(lo, e.e, c);
    BranchOnTagAdds(lo, a.c, a.v, e.errTag, 2);
    AddsTrans(lo, c, a.c, c1);
    StmtAdds(lo, e.context, c1.SetInsert(n + 1));
    AddsMoved(lo, c1, n + 1, c2);
    AddsTrans(lo, c, c1, c2);
    EmitAdds(lo, c2, Ret(NONE));
    AddsTrans(lo, c, c2, Emit(c2, Ret(NONE)));
    AddsLanded(lo, c, Emit(c2, Ret(NONE)), n);
  }

  // ---------------------------------------------------------------- match

  lemma {:induction false} MatchAdds(lo: nat, e: Expr, c: Code)
    requires e.MatchOn? && c.Valid() && lo <= |c.blocks|
    ensures Adds(lo, c, LowerMatch(e, c).c)
    decreases e, 1
  {
    hide Adds, Grows, Straight, LowerArms, Merge;
    var a := LowerExpr(e.e, c);
    GrowsFacts(c, a.c);
    var n := |a.c.blocks|;
    var d := a.c.NewBlocks(1);
    ExprAdds(lo, e.e, c);
    PieceAdds(lo, a.c, d, []);
    AddsTrans(lo, c, a.c, d);
    var b := LowerArms(e.on, e.arms, d, a.v, n);
    GrowsFacts(d, b.c);
    ArmsAdds(lo, e.on, e.arms, d, a.v, n);
    AddsTrans(lo, c, d, b.c);
    if b.incoming == [] {
      AddsLanded(lo, c, b.c, n);
    } else {
      MergeAdds(lo, b.c, n, b.incoming);
      AddsTrans(lo, c, b.c, Merge(b.c, n, b.incoming));
    }
  }

  lemma {:induction false} ArmsAdds(lo: nat, k: Kind, arms: seq<Arm>, c: Code, v: Operand, merge: nat)
    requires c.Valid() && lo <= merge < |c.blocks| && merge != c.cur
    ensures Adds(lo, c, LowerArms(k, arms, c, v, merge).c)
    decreases arms
  {
    hide Adds, Grows, LowerArm;
    if arms == [] {
      PieceAdds(lo, c, c, []);
    } else {
      var a := LowerArm(k, arms[0], |arms| == 1, c, v, merge);
      ArmAdds(lo, k, arms[0], |arms| == 1, c, v, merge);
      if |arms| > 1 {
        GrowsFacts(c, a.c);
        var d := a.c.SetInsert(|c.blocks| + 1);
        var r := LowerArms(k, arms[1..], d, v, merge);
        ArmsAdds(lo, k, arms[1..], d, v, merge);
        AddsMoved(lo, a.c, |c.blocks| + 1, r.c);
        AddsTrans(lo, c, a.c, r.c);
      }
    }
  }

  lemma {:induction false} ArmAdds(lo: nat, k: Kind, a: Arm, last: bool, c: Code, v: Operand, merge: nat)
    requires c.Valid() && lo <= merge < |c.blocks| && merge != c.cur
    ensures Adds(lo, c, LowerArm(k, a, last, c, v, merge).c)
    decreases a, 2
  {
    hide Adds, Grows, LowerTest, LowerGuard, LowerArmBody;
    var n := |c.blocks|;
    var t := LowerTest(k, a, last, c, v, merge);
    GrowsFacts(c, t);
    TestAdds(lo, k, a, last, c, v, merge);
    var g := LowerEntry(k, a, last, c, v, merge);
    if a.guard.Some? {
      var at := t.SetInsert(|t.blocks| - 1);
      GrowsFacts(at, g);
      GuardAdds(lo, k, a, at, v, n, if last then merge else n + 1);
      AddsMoved(lo, t, |t.blocks| - 1, g);
      AddsTrans(lo, c, t, g);
    }
    var r := LowerArmBody(k, a, g, n, v, merge);
    ArmBodyAdds(lo, k, a, g, n, v, merge);
    AddsTrans(lo, c, g, r.c);
  }

  lemma {:induction false} GuardAdds(lo: nat, k: Kind, a: Arm, c: Code, v: Operand, yes: nat, no: nat)
    requires c.Valid() && lo <= yes < |c.blocks| && lo <= no < |c.blocks|
    ensures Adds(lo, c, LowerGuard(k, a, c, v, yes, no))
    decreases a, 1
  {
    hide Adds, Grows, Straight, BindPayload, BindOf, BranchIf;
    var b := BindPayload(c, BindOf(k, a.patterns), v);
    StraightFacts(c, b, if BindOf(k, a.patterns).Some? then 1 else 0, 0);
    BindAdds(lo, c, BindOf(k, a.patterns), v);
    if a.guard.Some? {
      var g := LowerExpr(a.guard.value, b);
      GrowsFacts(b, g.c);
      ExprAdds(lo, a.guard.value, b);
      AddsTrans(lo, c, b, g.c);
      BranchIfAdds(lo, g.c, g.v, yes, no);
      AddsTrans(lo, c, g.c, BranchIf(g.c, g.v, yes, no));
    }
  }

  lemma {:induction false} ArmBodyAdds(lo: nat, k: Kind, a: Arm, c: Code, n: nat, v: Operand, merge: nat)
    requires n < |c.blocks| && lo <= merge < |c.blocks|
    ensures Adds(lo, c, LowerArmBody(k, a, c, n, v, merge).c)
    decreases a, 1
  {
    hide Adds, Grows, Straight, BindPayload, BindOf, LowerBody, EmitUnlessClosed;
    var b := BindPayload(c.SetInsert(n), BindOf(k, a.patterns), v);
    StraightFacts(c.SetInsert(n), b, if BindOf(k, a.patterns).Some? then 1 else 0, 0);
    BindAdds(lo, c.SetInsert(n), BindOf(k, a.patterns), v);
    AddsMoved(lo, c, n, b);
    var e := LowerBody(a.body, b);
    GrowsFacts(b, e.c);
    BodyAdded(lo, a.body, b);
    AddsTrans(lo, c, b, e.c);
    EmitAdds(lo, e.c, Br(merge));
    AddsTrans(lo, c, e.c, EmitUnlessClosed(e.c, Br(merge)));
  }

  lemma {:induction false} BodyAdded(lo: nat, b: Body, c: Code)
    requires c.Valid() && lo <= |c.blocks|
    ensures Adds(lo, c, LowerBody(b, c).c)
    decreases b
  {
    hide Adds, LowerStmt, LowerExpr, Grows;
    var c1 := LowerStmt(b.pre, c);
    GrowsFacts(c, c1);
    StmtAdds(lo, b.pre, c);
    var d := if b.value.None? then c1 else LowerExpr(b.value.value, c1).c;
    if b.value.Some? {
      GrowsFacts(c1, d);
      ExprAdds(lo, b.value.value, c1);
      AddsTrans(lo, c, c1, d);
    }
    StmtAdds(lo, b.post, d);
    AddsTrans(lo, c, d, LowerStmt(b.post, d));
  }

  // ---------------------------------------------------------------- statements

  lemma {:induction false} StmtAdds(lo: nat, s: Stmt, c: Code)
    requires c.Valid() && lo <= |c.blocks|
    ensures Adds(lo, c, LowerStmt(s, c))
    decreases s, 3
  {
    hide Adds, Grows, Straight, Emit, RaiseStamped, LowerIf, LowerTryCatch;
    match s
    case Skip => PieceAdds(lo, c, c, []);
    case Seq(a, b) =>
      var c1 := LowerStmt(a, c);
      GrowsFacts(c, c1);
      StmtAdds(lo, a, c);
      StmtAdds(lo, b, c1);
      AddsTrans(lo, c, c1, LowerStmt(b, c1));
    case Do(e) => ExprAdds(lo, e, c);
    case Assign(x, e) =>
      var a := LowerExpr(e, c);
      GrowsFacts(c, a.c);
      ExprAdds(lo, e, c);
      EmitAdds(lo, a.c, Store(x, a.v));
      AddsTrans(lo, c, a.c, Emit(a.c, Store(x, a.v)));
    case Print(e) =>
      var a := LowerExpr(e, c);
      GrowsFacts(c, a.c);
      ExprAdds(lo, e, c);
      EmitAdds(lo, a.c, Out(a.v));
      AddsTrans(lo, c, a.c, Emit(a.c, Out(a.v)));
    case If(_, _, _) => IfAdds(lo, s, c);
    case ThrowStmt(e, _, _, _, _, _) =>
      var a := LowerExpr(e, c);
      GrowsFacts(c, a.c);
      ExprAdds(lo, e, c);
      var d := RaiseStamped(a.c, a.v, ThrowSite(s));
      RaiseAdds(lo, a.c, a.v, ThrowSite(s));
      AddsTrans(lo, c, a.c, d);
      AddsLanded(lo, c, d, |a.c.blocks|);
    case TryCatch(_, _, _) => TryCatchAdds(lo, s, c);
    case Return(e) =>
      var a := LowerExpr(e, c);
      GrowsFacts(c, a.c);
      ExprAdds(lo, e, c);
      EmitAdds(lo, a.c, Ret(a.v));
      AddsTrans(lo, c, a.c, Emit(a.c, Ret(a.v)));
  }

  lemma {:induction false} IfAdds(lo: nat, s: Stmt, c: Code)
    requires s.If? && c.Valid() && lo <= |c.blocks|
    ensures Adds(lo, c, LowerIf(s, c))
    decreases s, 1
  {
    hide Adds, Grows, Straight, BranchIf, EmitUnlessClosed, LowerExpr, LowerStmt;
    var n := |c.blocks|;
    var c0 := c.NewBlocks(3);
    PieceAdds(lo, c, c0, []);
    var a := LowerExpr(s.cond, c0);
    GrowsFacts(c0, a.c);
    ExprAdds(lo, s.cond, c0);
    AddsTrans(lo, c, c0, a.c);
    var c1 := BranchIf(a.c, a.v, n + 1, n + 2);
    StraightFacts(a.c, c1, 1, 0);
    BranchIfAdds(lo, a.c, a.v, n + 1, n + 2);
    AddsTrans(lo, c, a.c, c1);
    var c3 := BranchAdds(lo, s.thn, c, c1, n + 1, n);
    var c5 := BranchAdds(lo, s.els, c, c3, n + 2, n);
    AddsLanded(lo, c, c5, n);
  }

  /** One branch of an `if`. */
  lemma {:induction false} BranchAdds(lo: nat, s: Stmt, c: Code, d: Code, at: nat, to: nat) returns (r: Code)
    requires at < |d.blocks| && lo <= |c.blocks| <= |d.blocks| && lo <= to < |d.blocks| && Adds(lo, c, d)
    ensures r == EmitUnlessClosed(LowerStmt(s, d.SetInsert(at)), Br(to))
    ensures Adds(lo, c, r) && |d.blocks| <= |r.blocks|
    decreases s, 4
  {
    hide Adds, Grows, Straight, EmitUnlessClosed, LowerStmt;
    var e := LowerStmt(s, d.SetInsert(at));
    GrowsFacts(d.SetInsert(at), e);
    StmtAdds(lo, s, d.SetInsert(at));
    AddsMoved(lo, d, at, e);
    AddsTrans(lo, c, d, e);
    r := EmitUnlessClosed(e, Br(to));
    StraightFacts(e, r, 0, 0);
    EmitAdds(lo, e, Br(to));
    AddsTrans(lo, c, e, r);
  }

  lemma {:induction false} TryCatchAdds(lo: nat, s: Stmt, c: Code)
    requires s.TryCatch? && c.Valid() && lo <= |c.blocks|
    ensures Adds(lo, c, LowerTryCatch(s, c))
    decreases s, 2
  {
    hide Adds, Grows, Straight, LowerTryBody, LowerHandlers, LowerStmt, LeaveFinal;
    var n := |c.blocks|;
    var c2 := LowerTryBody(s, c);
    BodyAdds(lo, s, c);
    var c4 := LowerHandlers(s, c, c2);
    GrowsFacts(c2.SetInsert(n + 1), c4);
    HandlersAdds(lo, s, c, c2);
    AddsTrans(lo, c, c2, c4);
    var c5 := LowerStmt(s.final, c4.SetInsert(n + 2));
    GrowsFacts(c4.SetInsert(n + 2), c5);
    StmtAdds(lo, s.final, c4.SetInsert(n + 2));
    AddsMoved(lo, c4, n + 2, c5);
    AddsTrans(lo, c, c4, c5);
    var c6 := LeaveFinal(c5, c.next, n + 3);
    LeaveAdds(lo, c5, c.next, n + 3);
    AddsTrans(lo, c, c5, c6);
    AddsLanded(lo, c, c6, n + 3);
  }

  lemma {:induction false} BodyAdds(lo: nat, s: Stmt, c: Code)
    requires s.TryCatch? && c.Valid() && lo <= |c.blocks|
    ensures Adds(lo, c, LowerTryBody(s, c))
    decreases s, 1
  {
    hide Adds, Grows, Straight, Enter, LowerStmt, LeaveBody;
    var n := |c.blocks|;
    var t := Enter(c, 4, n + 1, n);
    StraightFacts(c, t, 3, 4);
    EnterAdds(lo, c, 4, n + 1, n);
    var c1 := LowerStmt(s.body, t.SetInsert(n));
    GrowsFacts(t.SetInsert(n), c1);
    StmtAdds(lo, s.body, t.SetInsert(n));
    AddsMoved(lo, t, n, c1);
    AddsTrans(lo, c, t, c1);
    LeaveAdds(lo, c1, c.next, n + 2);
    AddsTrans(lo, c, c1, LeaveBody(c1, n + 2));
  }

  lemma {:induction false} HandlersAdds(lo: nat, s: Stmt, c: Code, c2: Code)
    requires s.TryCatch? && |c.blocks| + 4 <= |c2.blocks| && lo <= |c.blocks|
    ensures Adds(lo, c2, LowerHandlers(s, c, c2))
    decreases s, 1
  {
    hide Adds, Grows, Straight, Dispatch, LowerCatches;
    var at := c2.SetInsert(|c.blocks| + 1);
    var c3 := Dispatch(at, c.next);
    StraightFacts(at, c3, 3, 0);
    DispatchAdds(lo, at, c.next);
    AddsMoved(lo, c2, |c.blocks| + 1, c3);
    CatchesAdds(lo, s.catches, c3, c.next, c2.next, |c.blocks| + 2, true);
    AddsTrans(lo, c2, c3, LowerCatches(s.catches, c3, c.next, c2.next, |c.blocks| + 2, true));
  }

  lemma {:induction false} CatchesAdds(lo: nat, cs: Catches, c: Code, f: nat, e: nat, final: nat, first: bool)
    requires c.Valid() && lo <= |c.blocks| && lo <= final < |c.blocks|
    ensures Adds(lo, c, LowerCatches(cs, c, f, e, final, first))
    decreases cs, 2
  {
    hide Adds, Grows, Straight, TestClause, Emit, EmitUnlessClosed, LowerStmt, Rethrow;
    match cs
    case NoMore => if first { PieceAdds(lo, c, c, []); } else { RethrowAdds(lo, c, f, e); }
    case Catch(name, x, body, rest) =>
      var n := |c.blocks|;
      var c1 := TestClause(c, e, name);
      StraightFacts(c, c1, 3, 2);
      ClauseAdds(lo, c, e, name);
      var c2 := Emit(c1.SetInsert(n), Store(x, Reg(e)));
      StraightFacts(c1.SetInsert(n), c2, 0, 0);
      EmitAdds(lo, c1.SetInsert(n), Store(x, Reg(e)));
      AddsMoved(lo, c1, n, c2);
      AddsTrans(lo, c, c1, c2);
      var c3 := LowerStmt(body, c2);
      GrowsFacts(c2, c3);
      StmtAdds(lo, body, c2);
      AddsTrans(lo, c, c2, c3);
      var c4 := EmitUnlessClosed(c3, Br(final));
      StraightFacts(c3, c4, 0, 0);
      EmitAdds(lo, c3, Br(final));
      AddsTrans(lo, c, c3, c4);
      var c5 := LowerCatches(rest, c4.SetInsert(n + 1), f, e, final, false);
      CatchesAdds(lo, rest, c4.SetInsert(n + 1), f, e, final, false);
      AddsMoved(lo, c4, n + 1, c5);
      AddsTrans(lo, c, c4, c5);
  }

  // ---------------------------------------------------------------- edges

  /** Some instruction of block `b` jumps to block `t`. */
  ghost predicate Edge(c: Code, b: nat, t: nat) {
    b < |c.blocks| && exists j :: 0 <= j < |c.blocks[b]| && JumpsTo(c.blocks[b][j], t)
  }

  /** Every jump lands on a block. */
  ghost predicate Lands(c: Code) {
    forall b: nat, t: nat | Edge(c, b, t) :: t < |c.blocks|
  }

  lemma SameEdges(lo: nat, a: Code, b: Code, t: nat, x: nat)
    requires Adds(lo, a, b) && t < lo
    ensures Edge(b, x, t) <==> Edge(a, x, t)
  {
    if Edge(a, x, t) {
      var j :| 0 <= j < |a.blocks[x]| && JumpsTo(a.blocks[x][j], t);
      assert b.blocks[x][j] == a.blocks[x][j];
    }
    if Edge(b, x, t) {
      var j: nat :| j < |b.blocks[x]| && JumpsTo(b.blocks[x][j], t);
      assert !Added(a, b, x, j);
      assert b.blocks[x][j] == a.blocks[x][j];
    }
  }

  lemma StillLands(lo: nat, a: Code, b: Code)
    requires Adds(lo, a, b) && Lands(a)
    ensures Lands(b)
  {
    forall x: nat, t: nat | Edge(b, x, t) ensures t < |b.blocks| {
      var j: nat :| j < |b.blocks[x]| && JumpsTo(b.blocks[x][j], t);
      if !Added(a, b, x, j) {
        assert b.blocks[x][j] == a.blocks[x][j];
        assert Edge(a, x, t);
      }
    }
  }

  lemma EmittedEdges(c: Code, i: Instr, t: nat, x: nat)
    requires c.Valid()
    ensures Edge(Emit(c, i), x, t) <==> Edge(c, x, t) || (x == c.cur && JumpsTo(i, t))
  {
    var d := Emit(c, i);
    if Edge(c, x, t) {
      var j :| 0 <= j < |c.blocks[x]| && JumpsTo(c.blocks[x][j], t);
      assert d.blocks[x][j] == c.blocks[x][j];
    }
    if x == c.cur && JumpsTo(i, t) {
      assert d.blocks[x][|c.blocks[x]|] == i;
    }
  }

  /** No jump of a lowered function leaves the function. */
  lemma FunctionLands(body: Stmt)
    ensures forall b: nat, j: nat, t: nat ::
      b < |LowerFunction(body)| && j < |LowerFunction(body)[b]| && JumpsTo(LowerFunction(body)[b][j], t) ==>
        t < |LowerFunction(body)|
  {
    hide LowerStmt, EmitUnlessClosed;
    var c := LowerStmt(body, EMPTY);
    var d := EmitUnlessClosed(c, Ret(NONE));
    StmtAdds(0, body, EMPTY);
    EmitAdds(0, c, Ret(NONE));
    AddsTrans(0, EMPTY, c, d);
    StillLands(0, EMPTY, d);
    forall b: nat, j: nat, t: nat | b < |d.blocks| && j < |d.blocks[b]| && JumpsTo(d.blocks[b][j], t)
      ensures t < |d.blocks|
    {
      assert Edge(d, b, t);
    }
  }
}
