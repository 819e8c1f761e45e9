/** The lowering is correct: the machine computes what the source means, and the
    handler stack and the frames are accounted for on every path. */
module Correct {
  import opened Hashes
  import opened Ir
  import opened Source
  import opened Wrappers
  import opened Lowering
  import opened Simulation
  import opened MatchSimulation

  // ---------------------------------------------------------------- expressions

  lemma ExprRuns(p: Program, e: Expr, c: Code, m: Machine, s: State)
    returns (n: nat, w: Machine)
    requires Ready(c, m) && Inv(m) && Same(m, s) && Within(LowerExpr(e, c).c, p)
    ensures Sim(p, c.next, m, EvalExpr(e, s), LowerExpr(e, c).c, LowerExpr(e, c).v, n, w)
    decreases e, 2
  {
    match e
    case Lit(v) => n, w := 0, m;
    case Var(x) => n := 1; w := LoadRuns(p, c, x, m);
    case Add(l, r) => n, w := AddRuns(p, e, c, m, s);
    case Try(_, _, _) => n, w := TryRuns(p, e, c, m, s);
    case TryUntyped(_, _) => n, w := UntypedRuns(p, e, c, m, s);
    case CatchUnwrap(_, _, _, _) => n, w := CatchUnwrapRuns(p, e, c, m, s);
    case Propagate(_, _, _, _, _) => n, w := PropagateRuns(p, e, c, m, s);
    case PropagateVoid(_, _, _) => n, w := PropagateVoidRuns(p, e, c, m, s);
    case Build(_, _, _) => n, w := BuildRuns(p, e, c, m, s);
    case MatchOn(_, _, _) => n, w := MatchRuns(p, e, c, m, s);
  }

  lemma AddRuns(p: Program, e: Expr, c: Code, m: Machine, s: State)
    returns (n: nat, w: Machine)
    requires e.Add?
    requires Ready(c, m) && Inv(m) && Same(m, s) && Within(LowerExpr(e, c).c, p)
    ensures Sim(p, c.next, m, EvalExpr(e, s), LowerExpr(e, c).c, LowerExpr(e, c).v, n, w)
    decreases e, 0
  {
    hide Operation, Within, Grows, Straight, Inv, Run, Step, Live;
    var a := LowerExpr(e.l, c);
    GrowsFacts(c, a.c);
    var b := LowerExpr(e.r, a.c);
    GrowsFacts(a.c, b.c);
    var d := Operation(b.c, Add32, a.v, b.v);
    StraightFacts(b.c, d, 1, 0);
    GrowsWithin(b.c, d, p);
    GrowsWithin(a.c, b.c, p);
    n, w := ExprRuns(p, e.l, c, m, s);
    var ra := EvalExpr(e.l, s);
    if ra.o.Normal? {
      var n1, w1 := n, w;
      n, w := ExprRuns(p, e.r, a.c, w1, ra.s);
      var rb := EvalExpr(e.r, ra.s);
      Chain(p, c.next, m, n1, w1, ra.leaked, a.c.next, rb, b.c, b.v, n, w);
      n := n1 + n;
      if rb.o.Normal? {
        ValKept(a.v, a.c, w1, w, rb.leaked);
        var x := OperationRuns(p, b.c, Add32, a.v, b.v, w);
        KeptTrans(c.next, m, w, ra.leaked + rb.leaked, b.c.next, x, 0);
        ReachTrans(p, m, n, w, 1, x);
        n, w := n + 1, x;
      }
    }
  }

  lemma UntypedRuns(p: Program, e: Expr, c: Code, m: Machine, s: State)
    returns (n: nat, w: Machine)
    requires e.TryUntyped?
    requires Ready(c, m) && Inv(m) && Same(m, s) && Within(LowerExpr(e, c).c, p)
    ensures Sim(p, c.next, m, EvalExpr(e, s), LowerExpr(e, c).c, LowerExpr(e, c).v, n, w)
    decreases e, 0
  {
    hide Within, Grows, Straight, Inv, Run, Step, Live;
    var a := LowerExpr(e.e, c);
    GrowsFacts(c, a.c);
    if e.fallback.None? {
      n, w := ExprRuns(p, e.e, c, m, s);
    } else {
      var b := LowerExpr(e.fallback.value, a.c);
      GrowsWithin(a.c, b.c, p);
      n, w := ExprRuns(p, e.e, c, m, s);
      var ra := EvalExpr(e.e, s);
      if ra.o.Normal? {
        var n1, w1 := n, w;
        n, w := ExprRuns(p, e.fallback.value, a.c, w1, ra.s);
        Chain(p, c.next, m, n1, w1, ra.leaked, a.c.next, EvalExpr(e.fallback.value, ra.s), b.c, b.v, n, w);
        n := n1 + n;
      }
    }
  }

  lemma BuildRuns(p: Program, e: Expr, c: Code, m: Machine, s: State)
    returns (n: nat, w: Machine)
    requires e.Build?
    requires Ready(c, m) && Inv(m) && Same(m, s) && Within(LowerExpr(e, c).c, p)
    ensures Sim(p, c.next, m, EvalExpr(e, s), LowerExpr(e, c).c, LowerExpr(e, c).v, n, w)
    decreases e, 0
  {
    hide Operation, Within, Grows, Straight, Inv, Run, Step, Live, Carried;
    var tag := Const(Int(e.tag));
    if e.payload.None? {
      w := OperationRuns(p, c, BuildTagged(e.carry), tag, NONE, m);
      n := 1;
    } else {
      var a := LowerExpr(e.payload.value, c);
      GrowsFacts(c, a.c);
      var d := Operation(a.c, BuildTagged(e.carry), tag, a.v);
      StraightFacts(a.c, d, 1, 0);
      GrowsWithin(a.c, d, p);
      n, w := ExprRuns(p, e.payload.value, c, m, s);
      var r := EvalExpr(e.payload.value, s);
      if r.o.Normal? {
        var x := OperationRuns(p, a.c, BuildTagged(e.carry), tag, a.v, w);
        KeptTrans(c.next, m, w, r.leaked, a.c.next, x, 0);
        ReachTrans(p, m, n, w, 1, x);
        n, w := n + 1, x;
      }
    }
  }

  /** A constant takes no step. */
  lemma StayRuns(p: Program, c: Code, m: Machine, s: State) returns (n: nat, w: Machine)
    requires Ready(c, m) && Inv(m) && Same(m, s)
    ensures Sim(p, c.next, m, EvalFallback(None, s), c, Const(NULL), n, w)
  {
    n, w := 0, m;
  }

  lemma FallbackJoins(p: Program, fb: Option<Expr>, c: Code, m: Machine, s: State,
                      d: Code, at: nat, xs: seq<(Operand, nat)>)
    returns (n: nat, w: Machine)
    requires Ready(c, m) && Inv(m) && Same(m, s)
    requires at < |d.blocks| && d.blocks[at] == [] && Within(Merge(d, at, xs), p)
    requires var h := LowerFallback(fb, c);
      Within(Emit(h.c, Br(at)), p) && Incoming(xs, h.c.cur) == [h.v] && h.c.next <= d.next
    ensures Sim(p, c.next, m, EvalFallback(fb, s), Merge(d, at, xs), Reg(d.next), n, w)
    decreases fb, 2
  {
    hide Run, Step, Inv, Within, Merge, Emit, Grows, Straight, Kept;
    var h := LowerFallback(fb, c);
    GrowsFacts(c, h.c);
    StraightFacts(h.c, Emit(h.c, Br(at)), 0, 0);
    GrowsWithin(h.c, Emit(h.c, Br(at)), p);
    match fb {
      case None => n, w := StayRuns(p, c, m, s);
      case Some(e) => n, w := ExprRuns(p, e, c, m, s);
    }
    var r := EvalFallback(fb, s);
    if r.o.Normal? {
      KeptFacts(c.next, m, w, r.leaked);
      var x := MergeRuns(p, h.c, d, at, xs, h.v, w);
      KeptTrans(c.next, m, w, r.leaked, h.c.next, x, 0);
      ReachTrans(p, m, n, w, 2, x);
      n, w := n + 2, x;
    }
  }

  /** The caught path: from the throw, through the fallback, to the merge. */
  lemma CaughtJoins(p: Program, e: Expr, c: Code, m: Machine, n0: nat, t: Machine, f: Frame,
                    err: Error, s: State, leak: nat, d: Code, xs: seq<(Operand, nat)>)
    returns (n: nat, w: Machine)
    requires e.Try? && c.Valid() && Inv(m) && Within(TryCaught(e, c).c, p)
    requires Reaches(p, m, n0, t) && Holding(c.next, m, t, f, true, leak) && Armed(c, t, f)
    requires Step(p, t) == Throw(t, err) && Same(t, s)
    requires |c.blocks| + 2 < |d.blocks| && d.blocks[|c.blocks| + 2] == []
    requires Within(Merge(d, |c.blocks| + 2, xs), p) && TryCaught(e, c).c.next <= d.next
    requires Incoming(xs, TryCaught(e, c).c.cur) == [TryCaught(e, c).v]
    ensures var r := EvalFallback(e.fallback, s);
      Sim(p, c.next, m, r.(leaked := leak + r.leaked), Merge(d, |c.blocks| + 2, xs), Reg(d.next), n, w)
    decreases e, 0
  {
    hide Enter, PopFree, Merge, Throw, Step, Holding, Armed, Kept, Inv, EvalFallback, Run, Incoming, Emit,
      Grows, Within, Sim;
    var k := |c.blocks|;
    var t0 := Enter(c, 3, k + 1, k);
    var c0 := t0.SetInsert(k + 1);
    var c1 := PopFree(c0, c.next);
    var h := LowerFallback(e.fallback, c1);
    TryCaughtPlaced(p, e, c);
    var y := LandRuns(p, c, 3, k + 1, k, m, t, f, err, leak);
    ReachTrans(p, m, n0, t, 3, y);
    StartReady(t0, k + 1, y);
    var x := PopFreeRuns(p, c0, m, y, f, c.next, leak);
    ReachTrans(p, m, n0 + 3, y, 2, x);
    n, w := FallbackJoins(p, e.fallback, c1, x, s, d, k + 2, xs);
    var r := EvalFallback(e.fallback, s);
    Chain(p, c.next, m, n0 + 5, x, leak, c1.next, r, Merge(d, k + 2, xs), Reg(d.next), n, w);
    n := n0 + 5 + n;
  }

  lemma TryCaughtPlaced(p: Program, e: Expr, c: Code)
    requires e.Try? && c.Valid() && Within(TryCaught(e, c).c, p)
    ensures Within(Enter(c, 3, |c.blocks| + 1, |c.blocks|), p)
    ensures Within(PopFree(Enter(c, 3, |c.blocks| + 1, |c.blocks|).SetInsert(|c.blocks| + 1), c.next), p)
  {
    hide Enter, PopFree, Emit, LowerFallback, Grows, Within, Straight;
    var k := |c.blocks|;
    var t0 := Enter(c, 3, k + 1, k);
    StraightFacts(c, t0, 3, 3);
    var c0 := t0.SetInsert(k + 1);
    var c1 := PopFree(c0, c.next);
    StraightFacts(c0, c1, 0, 0);
    var h := LowerFallback(e.fallback, c1);
    GrowsFacts(c1, h.c);
    var c2 := Emit(h.c, Br(k + 2));
    StraightFacts(h.c, c2, 0, 0);
    GrowsWithin(h.c, c2, p);
    GrowsWithin(c1, h.c, p);
    GrowsWithin(c0, c1, p);
    WithinMoved(t0, k + 1, p);
  }

  lemma TryRuns(p: Program, e: Expr, c: Code, m: Machine, s: State)
    returns (n: nat, w: Machine)
    requires e.Try?
    requires Ready(c, m) && Inv(m) && Same(m, s) && Within(LowerExpr(e, c).c, p)
    ensures Sim(p, c.next, m, EvalExpr(e, s), LowerExpr(e, c).c, LowerExpr(e, c).v, n, w)
    decreases e, 1
  {
    hide Enter, PopFree, Merge, Throw, Step, Incoming, Emit, TryCaught, TryOk, LowerFallback, Run, Live,
      Within, Operation, BranchOnTag, LowerExpr, Straight, EvalFallback, TryEnd;
    var k := |c.blocks|;
    var h := TryCaught(e, c);
    var b := LowerExpr(e.e, h.c.SetInsert(k));
    var (d, xs) := TryEnd(e, c, h, b);
    TryStart(e, c, h, b);
    EndPlaced(p, e, c, h, b, d, xs);
    TryCaughtPlaced(p, e, c);
    var m1, f := EnterRuns(p, c, 3, k + 1, k, m);
    StartReady(h.c, k, m1);
    WithinMoved(h.c, k, p);
    var n1, w1 := ExprRuns(p, e.e, h.c.SetInsert(k), m1, s);
    var r := EvalExpr(e.e, s);
    if r.o.Hung? { ForeverAfter(p, m, 5, m1); }
    if !r.o.Hung? && !r.o.Broken? { ReachTrans(p, m, 5, m1, n1, w1); }
    n, w := 5 + n1, w1;
    match r.o
    case Normal(v) =>
      HoldingKept(c.next, m, m1, f, true, 0, h.c.next, w1, r.leaked);
      if e.kind.Plain? {
        n, w := PlainJoins(p, e, c, m, n, w1, f, r, h, b, d, xs);
      } else {
        var y := BranchRuns(p, b.c, b.v, e.kind.errTag, 2, w1);
        ReachTrans(p, m, n, w1, 3, y);
        HoldingKept(c.next, m, w1, f, true, r.leaked, b.c.next, y, 0);
        ValKept(b.v, b.c, w1, y, 0);
        if TagOf(v) == e.kind.errTag {
          n, w := ErrJoins(p, e, c, m, n + 3, y, f, r, h, b, d, xs);
        } else {
          n, w := OkJoins(p, e, c, m, n + 3, y, f, r, h, b, d, xs);
          }
      }
    case Thrown(err) =>
      HoldingKept(c.next, m, m1, f, true, 0, h.c.next, w1, r.leaked);
      n, w := CaughtJoins(p, e, c, m, n, w1, f, err, r.s, r.leaked, d, xs);
    case Returned(_) =>
    case Hung =>
    case Broken =>
  }

  /** The code before the merge block of a `try`, and its phi's operands. */
  ghost function TryEnd(e: Expr, c: Code, h: Lowered, b: Lowered): (r: (Code, seq<(Operand, nat)>))
    requires e.Try? && c.Valid() && b.c.Valid() && Grows(c, b.c)
  {
    if e.kind.Plain? then
      (Emit(PopFree(b.c, c.next), Br(|c.blocks| + 2)), [(b.v, b.c.cur), (h.v, h.c.cur)])
    else
      var o := TryOk(c, b, e.kind.errTag);
      var g := LowerFallback(e.fallback, PopFree(o.SetInsert(|b.c.blocks| + 1), c.next));
      (Emit(g.c, Br(|c.blocks| + 2)),
       [(Reg(b.c.next + 2), |b.c.blocks|), (g.v, g.c.cur), (h.v, h.c.cur)])
  }
  /** What the rest of the proof needs to know about the code of a `try`. */
  ghost predicate Placed(p: Program, e: Expr, c: Code, h: Lowered, b: Lowered, d: Code, xs: seq<(Operand, nat)>)
    requires e.Try? && c.Valid()
  {
    && |c.blocks| + 2 < |d.blocks| && d.blocks[|c.blocks| + 2] == []
    && LowerExpr(e, c) == Lowered(Merge(d, |c.blocks| + 2, xs), Reg(d.next))
    && Within(h.c, p) && Within(b.c, p) && Within(d, p) && h.c.next <= b.c.next <= d.next
    && Incoming(xs, h.c.cur) == [h.v]
    && (e.kind.Plain? ==> Incoming(xs, b.c.cur) == [b.v])
  }

  lemma TryStart(e: Expr, c: Code, h: Lowered, b: Lowered)
    requires e.Try? && c.Valid()
    requires h == TryCaught(e, c) && b == LowerExpr(e.e, h.c.SetInsert(|c.blocks|))
    ensures Grows(h.c.SetInsert(|c.blocks|), b.c) && Grows(c, b.c)
    ensures b.c.cur != h.c.cur && |c.blocks| + 2 < |b.c.blocks| && |c.blocks| <= b.c.cur
    ensures h.c.cur < |b.c.blocks| && c.next + 3 <= h.c.next <= b.c.next
    ensures b.c.blocks[|c.blocks| + 2] == [] && b.c.cur != |c.blocks| + 2
  {
    hide TryCaught, LowerExpr;
    GrowsIn(c, h.c, |c.blocks|, b.c);
  }

  lemma PlainPlaced(p: Program, e: Expr, c: Code, h: Lowered, b: Lowered, d: Code, xs: seq<(Operand, nat)>)
    requires e.Try? && e.kind.Plain? && c.Valid() && Within(LowerExpr(e, c).c, p)
    requires h == TryCaught(e, c) && b == LowerExpr(e.e, h.c.SetInsert(|c.blocks|))
    requires Grows(c, b.c) && (d, xs) == TryEnd(e, c, h, b)
    ensures Placed(p, e, c, h, b, d, xs) && Within(PopFree(b.c, c.next), p)
  {
    hide PopFree, Operation, BranchOnTag, TryCaught, TryOk, LowerFallback, Merge, Incoming, Within, Emit,
      Grows, Straight, LowerExpr;
    var k := |c.blocks|;
    TryStart(e, c, h, b);
    GrowsFacts(c, b.c);
    var u := PopFree(b.c, c.next);
    StraightFacts(b.c, u, 0, 0);
    StraightFacts(u, d, 0, 0);
    GrowsBlock(b.c, u, k + 2);
    GrowsBlock(u, d, k + 2);
    Incoming2(xs[0], xs[1]);
    PlainUnfold(e, c, h, b);
    var at := Merge(d, k + 2, xs);
    StraightFacts(d.SetInsert(k + 2), at, 1, 0);
    GrowsWithin(d.SetInsert(k + 2), at, p);
    WithinMoved(d, k + 2, p);
    GrowsWithin(u, d, p);
    GrowsWithin(b.c, u, p);
    GrowsWithin(h.c.SetInsert(k), b.c, p);
    WithinMoved(h.c, k, p);
  }

  /** Growth along the unwrapping path. */
  lemma UnwrapShape(c: Code, l: nat, b: Code, o: Code, c6: Code, g: Code, d: Code)
    requires Grows(c, b) && |c.blocks| + 2 < |b.blocks| == l && b.cur != |c.blocks| + 2
    requires b.blocks[|c.blocks| + 2] == []
    requires Grows(b, o) && |o.blocks| == l + 2 && Straight(o.SetInsert(l + 1), c6, 0, 0)
    requires Grows(c6, g) && Straight(g, d, 0, 0)
    ensures Grows(c, g) && d.blocks[|c.blocks| + 2] == []
    ensures o.next <= c6.next <= g.next <= d.next
    ensures g.cur == l + 1 || l + 2 <= g.cur
    ensures |c.blocks| + 2 < |g.blocks| == |d.blocks|
  {
    hide Grows, Straight;
    var k := |c.blocks|;
    var c5 := o.SetInsert(l + 1);
    StraightFacts(c5, c6, 0, 0);
    StraightFacts(g, d, 0, 0);
    GrowsTrans(c5, c6, g);
    GrowsTrans(c, b, o);
    GrowsIn(c, o, l + 1, g);
    GrowsFacts(c5, g);
    GrowsBlock(b, o, k + 2);
    GrowsBlock(c5, g, k + 2);
    GrowsBlock(g, d, k + 2);
    GrowsFacts(c6, g);
  }

  lemma UnwrapWithin(p: Program, k: nat, h: Code, b: Code, o: Code, c6: Code, g: Code, d: Code, at: Code)
    requires Within(at, p) && Grows(d.SetInsert(k + 2), at)
    requires Grows(g, d) && Grows(c6, g) && Grows(o.SetInsert(|b.blocks| + 1), c6) && Grows(b, o)
    requires Grows(h.SetInsert(k), b)
    ensures Within(h, p) && Within(b, p) && Within(o, p) && Within(c6, p) && Within(g, p) && Within(d, p)
  {
    hide Grows, Within;
    GrowsWithin(d.SetInsert(k + 2), at, p);
    WithinMoved(d, k + 2, p);
    GrowsWithin(g, d, p);
    GrowsWithin(c6, g, p);
    GrowsWithin(o.SetInsert(|b.blocks| + 1), c6, p);
    WithinMoved(o, |b.blocks| + 1, p);
    GrowsWithin(b, o, p);
    GrowsWithin(h.SetInsert(k), b, p);
    WithinMoved(h, k, p);
  }

  lemma TryUnwrapIs(c: Code, h: Lowered, b: Lowered, g: Lowered)
    requires Grows(c, g.c) && |c.blocks| + 2 < |g.c.blocks|
    ensures var d := Emit(g.c, Br(|c.blocks| + 2));
      TryUnwrap(c, h, b, g) == Lowered(Merge(d, |c.blocks| + 2,
        [(Reg(b.c.next + 2), |b.c.blocks|), (g.v, g.c.cur), (h.v, h.c.cur)]), Reg(d.next))
  {
    hide Emit, Merge, Grows;
  }

  lemma UnwrapResult(e: Expr, c: Code, h: Lowered, b: Lowered, o: Code, c6: Code, g: Lowered, d: Code,
                     xs: seq<(Operand, nat)>, at: Code)
    requires e.Try? && e.kind.Unwrap? && c.Valid()
    requires h == TryCaught(e, c) && b == LowerExpr(e.e, h.c.SetInsert(|c.blocks|))
    requires Grows(c, b.c) && o == TryOk(c, b, e.kind.errTag)
    requires c6 == PopFree(o.SetInsert(|b.c.blocks| + 1), c.next) && g == LowerFallback(e.fallback, c6)
    requires Grows(c, g.c) && |c.blocks| + 2 < |g.c.blocks|
    requires d == Emit(g.c, Br(|c.blocks| + 2))
    requires xs == [(Reg(b.c.next + 2), |b.c.blocks|), (g.v, g.c.cur), (h.v, h.c.cur)]
    requires at == Merge(d, |c.blocks| + 2, xs)
    ensures LowerExpr(e, c) == Lowered(at, Reg(d.next))
  {
    hide TryCaught, TryOk, PopFree, LowerFallback, LowerExpr, Merge, Emit, TryUnwrap, Grows, Straight;
    UnwrapUnfold(e, c, h, b, o, c6, g);
    TryUnwrapIs(c, h, b, g);
  }

  /** The three ways into the merge block of an unwrapping `try` come from
      different blocks. */
  lemma UnwrapPlaced(p: Program, c: Code, h: Lowered, b: Lowered, o: Code, c6: Code, g: Lowered, d: Code,
                     xs: seq<(Operand, nat)>, at: Code)
    requires Grows(h.c.SetInsert(|c.blocks|), b.c) && Grows(c, b.c) && |c.blocks| + 2 < |b.c.blocks|
    requires b.c.cur != |c.blocks| + 2 && b.c.blocks[|c.blocks| + 2] == [] && h.c.cur < |b.c.blocks|
    requires Grows(b.c, o) && |o.blocks| == |b.c.blocks| + 2
    requires Straight(o.SetInsert(|b.c.blocks| + 1), c6, 0, 0) && Grows(c6, g.c) && Straight(g.c, d, 0, 0)
    requires xs == [(Reg(b.c.next + 2), |b.c.blocks|), (g.v, g.c.cur), (h.v, h.c.cur)]
    requires Grows(d.SetInsert(|c.blocks| + 2), at) && Within(at, p)
    ensures |c.blocks| + 2 < |d.blocks| && d.blocks[|c.blocks| + 2] == []
    ensures Within(h.c, p) && Within(b.c, p) && Within(d, p) && Within(o, p) && Within(c6, p) && Within(g.c, p)
    ensures h.c.next <= b.c.next <= o.next <= c6.next <= g.c.next <= d.next
    ensures Incoming(xs, |b.c.blocks|) == [Reg(b.c.next + 2)] && Incoming(xs, g.c.cur) == [g.v]
    ensures Incoming(xs, h.c.cur) == [h.v]
  {
    hide Incoming, Within, Grows, Straight;
    var k, l := |c.blocks|, |b.c.blocks|;
    UnwrapShape(c, l, b.c, o, c6, g.c, d);
    StraightFacts(o.SetInsert(l + 1), c6, 0, 0);
    StraightFacts(g.c, d, 0, 0);
    GrowsFacts(b.c, o);
    GrowsFacts(h.c.SetInsert(k), b.c);
    Incoming3((Reg(b.c.next + 2), l), (g.v, g.c.cur), (h.v, h.c.cur));
    UnwrapWithin(p, k, h.c, b.c, o, c6, g.c, d, at);
  }

  lemma EndPlaced(p: Program, e: Expr, c: Code, h: Lowered, b: Lowered, d: Code, xs: seq<(Operand, nat)>)
    requires e.Try? && c.Valid() && Within(LowerExpr(e, c).c, p)
    requires h == TryCaught(e, c) && b == LowerExpr(e.e, h.c.SetInsert(|c.blocks|))
    requires Grows(c, b.c) && (d, xs) == TryEnd(e, c, h, b)
    ensures Placed(p, e, c, h, b, d, xs)
    ensures e.kind.Unwrap? ==> Within(BranchOnTag(b.c, b.v, e.kind.errTag, 2), p)
  {
    hide PopFree, TryCaught, TryOk, LowerFallback, Merge, Incoming, Within, Emit, Straight, LowerExpr,
      BranchOnTag, Grows;
    TryStart(e, c, h, b);
    GrowsFacts(c, b.c);
    if e.kind.Plain? {
      PlainPlaced(p, e, c, h, b, d, xs);
    } else {
      ErrPlaced(p, e, c, h, b, d, xs);
      TryOkPlaced(p, c, b, e.kind.errTag);
    }
  }

  /** UnwrapPlaced for the code actually emitted. */
  lemma ErrPlaced(p: Program, e: Expr, c: Code, h: Lowered, b: Lowered, d: Code, xs: seq<(Operand, nat)>)
    requires e.Try? && e.kind.Unwrap? && c.Valid() && Within(LowerExpr(e, c).c, p)
    requires h == TryCaught(e, c) && b == LowerExpr(e.e, h.c.SetInsert(|c.blocks|))
    requires Grows(c, b.c) && (d, xs) == TryEnd(e, c, h, b)
    ensures Placed(p, e, c, h, b, d, xs)
    ensures var o := TryOk(c, b, e.kind.errTag);
      var c6 := PopFree(o.SetInsert(|b.c.blocks| + 1), c.next);
      var g := LowerFallback(e.fallback, c6);
      && Within(o, p) && Within(c6, p) && Within(g.c, p) && b.c.next <= o.next <= c6.next <= g.c.next <= d.next
      && d == Emit(g.c, Br(|c.blocks| + 2))
      && Incoming(xs, |b.c.blocks|) == [Reg(b.c.next + 2)] && Incoming(xs, g.c.cur) == [g.v]
  {
    hide PopFree, TryCaught, TryOk, LowerFallback, Merge, Incoming, Within, Emit, Straight, LowerExpr,
      BranchOnTag, Grows;
    var k, l := |c.blocks|, |b.c.blocks|;
    TryStart(e, c, h, b);
    GrowsFacts(c, b.c);
    var o := TryOk(c, b, e.kind.errTag);
    var c5 := o.SetInsert(l + 1);
    var c6 := PopFree(c5, c.next);
    StraightFacts(c5, c6, 0, 0);
    var g := LowerFallback(e.fallback, c6);
    StraightFacts(g.c, d, 0, 0);
    UnwrapShape(c, l, b.c, o, c6, g.c, d);
    var at := Merge(d, k + 2, xs);
    StraightFacts(d.SetInsert(k + 2), at, 1, 0);
    UnwrapResult(e, c, h, b, o, c6, g, d, xs, at);
    UnwrapPlaced(p, c, h, b, o, c6, g, d, xs, at);
  }

  /** The operand of a plain `try` yielded a value. */
  lemma PlainJoins(p: Program, e: Expr, c: Code, m: Machine, n0: nat, t: Machine, f: Frame, r: Res,
                   h: Lowered, b: Lowered, d: Code, xs: seq<(Operand, nat)>)
    returns (n: nat, w: Machine)
    requires e.Try? && e.kind.Plain? && c.Valid() && Inv(m) && Within(LowerExpr(e, c).c, p)
    requires h == TryCaught(e, c) && b == LowerExpr(e.e, h.c.SetInsert(|c.blocks|))
    requires Grows(c, b.c) && (d, xs) == TryEnd(e, c, h, b)
    requires r.o.Normal? && Reaches(p, m, n0, t) && Ready(b.c, t) && t.Val(b.v) == r.o.v && Same(t, r.s)
    requires Holding(c.next, m, t, f, true, r.leaked) && c.next < b.c.next
    ensures Sim(p, c.next, m, r, LowerExpr(e, c).c, LowerExpr(e, c).v, n, w)
  {
    hide PopFree, Operation, TryCaught, Merge, Incoming, Within, Emit, LowerExpr, Straight, Inv, Live, Run,
      Step, Holding;
    PlainPlaced(p, e, c, h, b, d, xs);
    var u := PopFree(b.c, c.next);
    StraightFacts(b.c, u, 0, 0);
    var x := PopFreeRuns(p, b.c, m, t, f, c.next, r.leaked);
    ReachTrans(p, m, n0, t, 2, x);
    assert x.Val(b.v) == t.Val(b.v);
    w := MergeRuns(p, u, d, |c.blocks| + 2, xs, b.v, x);
    KeptTrans(c.next, m, x, r.leaked, u.next, w, 0);
    ReachTrans(p, m, n0 + 2, x, 2, w);
    n := n0 + 4;
  }

  /** The operand yielded the error variant: run the fallback. */
  lemma ErrJoins(p: Program, e: Expr, c: Code, m: Machine, n0: nat, y: Machine, f: Frame, r: Res,
                 h: Lowered, b: Lowered, d: Code, xs: seq<(Operand, nat)>)
    returns (n: nat, w: Machine)
    requires e.Try? && e.kind.Unwrap? && c.Valid() && Inv(m) && Within(LowerExpr(e, c).c, p)
    requires h == TryCaught(e, c) && b == LowerExpr(e.e, h.c.SetInsert(|c.blocks|))
    requires Grows(c, b.c) && (d, xs) == TryEnd(e, c, h, b)
    requires Reaches(p, m, n0, y) && y.block == |b.c.blocks| + 1 && y.pc == 0 && Same(y, r.s)
    requires Holding(c.next, m, y, f, true, r.leaked) && c.next < b.c.next
    ensures Sim(p, c.next, m, Then(r, EvalFallback(e.fallback, r.s)),
                LowerExpr(e, c).c, LowerExpr(e, c).v, n, w)
    decreases e, 0
  {
    hide PopFree, Operation, TryCaught, TryOk, Merge, Incoming, Within, Emit, LowerExpr, LowerFallback, Straight,
      Inv, Live, Run, Step, Holding, EvalFallback;
    var l := |b.c.blocks|;
    var o := TryOk(c, b, e.kind.errTag);
    var c5 := o.SetInsert(l + 1);
    var c6 := PopFree(c5, c.next);
    ErrPlaced(p, e, c, h, b, d, xs);
    StraightFacts(c5, c6, 0, 0);
    StartReady(o, l + 1, y);
    var x := PopFreeRuns(p, c5, m, y, f, c.next, r.leaked);
    ReachTrans(p, m, n0, y, 2, x);
    n, w := FallbackJoins(p, e.fallback, c6, x, r.s, d, |c.blocks| + 2, xs);
    Chain(p, c.next, m, n0 + 2, x, r.leaked, c6.next, EvalFallback(e.fallback, r.s),
          Merge(d, |c.blocks| + 2, xs), Reg(d.next), n, w);
    n := n0 + 2 + n;
  }

  /** The operand yielded the success variant: take its payload. */
  lemma OkJoins(p: Program, e: Expr, c: Code, m: Machine, n0: nat, y: Machine, f: Frame, r: Res,
                h: Lowered, b: Lowered, d: Code, xs: seq<(Operand, nat)>)
    returns (n: nat, w: Machine)
    requires e.Try? && e.kind.Unwrap? && c.Valid() && Inv(m) && Within(LowerExpr(e, c).c, p)
    requires h == TryCaught(e, c) && b == LowerExpr(e.e, h.c.SetInsert(|c.blocks|))
    requires Grows(c, b.c) && (d, xs) == TryEnd(e, c, h, b)
    requires Reaches(p, m, n0, y) && y.block == |b.c.blocks| && y.pc == 0 && Same(y, r.s)
    requires r.o.Normal? && y.Val(b.v) == r.o.v
    requires Holding(c.next, m, y, f, true, r.leaked) && c.next < b.c.next
    ensures Sim(p, c.next, m, r.(o := Normal(PayloadOf(r.o.v))), LowerExpr(e, c).c, LowerExpr(e, c).v, n, w)
  {
    hide PopFree, Operation, BranchOnTag, TryCaught, TryOk, Merge, Incoming, Within, Emit, LowerExpr, LowerFallback,
      Straight, Inv, Live, Run, Step, Holding, Grows;
    TryStart(e, c, h, b);
    GrowsFacts(c, b.c);
    var l := |b.c.blocks|;
    var o := TryOk(c, b, e.kind.errTag);
    var c6 := PopFree(o.SetInsert(l + 1), c.next);
    StraightFacts(o.SetInsert(l + 1), c6, 0, 0);
    ErrPlaced(p, e, c, h, b, d, xs);
    TryOkPlaced(p, c, b, e.kind.errTag);
    var c3 := BranchOnTag(b.c, b.v, e.kind.errTag, 2);
    BranchBlocks(b.c, b.v, e.kind.errTag, 2);
    var c4 := PopFree(c3.SetInsert(l), c.next);
    StraightFacts(c3.SetInsert(l), c4, 0, 0);
    StartReady(c3, l, y);
    var x := PopFreeRuns(p, c3.SetInsert(l), m, y, f, c.next, r.leaked);
    ReachTrans(p, m, n0, y, 2, x);
    assert x.Val(b.v) == y.Val(b.v);
    var c5 := Operation(c4, GetPayload, b.v, NONE);
    StraightFacts(c4, c5, 1, 0);
    var z := OperationRuns(p, c4, GetPayload, b.v, NONE, x);
    ReachTrans(p, m, n0 + 2, x, 1, z);
    KeptTrans(c.next, m, x, r.leaked, c4.next, z, 0);
    w := MergeRuns(p, c5, d, |c.blocks| + 2, xs, Reg(b.c.next + 2), z);
    KeptTrans(c.next, m, z, r.leaked, c5.next, w, 0);
    ReachTrans(p, m, n0 + 3, z, 2, w);
    n := n0 + 5;
  }

  lemma BranchBlocks(c: Code, a: Operand, tag: int, k: nat)
    requires c.Valid()
    ensures var r := BranchOnTag(c, a, tag, k);
      && r.Valid() && Grows(c, r) && r.next == c.next + 2 && |r.blocks| == |c.blocks| + k && r.cur == c.cur
      && forall b | |c.blocks| <= b < |r.blocks| :: r.blocks[b] == []
  {
    hide BranchOnTag;
  }

  lemma TryOkPlaced(p: Program, c: Code, b: Lowered, tag: int)
    requires b.c.Valid() && |c.blocks| <= |b.c.blocks| && Within(TryOk(c, b, tag), p)
    ensures var c3 := BranchOnTag(b.c, b.v, tag, 2);
      var c4 := PopFree(c3.SetInsert(|b.c.blocks|), c.next);
      var c5 := Operation(c4, GetPayload, b.v, NONE);
      Within(c3, p) && Within(c4, p) && Within(c5, p) && Within(Emit(c5, Br(|c.blocks| + 2)), p)
  {
    hide PopFree, Operation, BranchOnTag, Grows, Within, Emit;
    var l := |b.c.blocks|;
    var c3 := BranchOnTag(b.c, b.v, tag, 2);
    var c4 := PopFree(c3.SetInsert(l), c.next);
    var c5 := Operation(c4, GetPayload, b.v, NONE);
    GrowsWithin(c5, Emit(c5, Br(|c.blocks| + 2)), p);
    GrowsWithin(c4, c5, p);
    GrowsWithin(c3.SetInsert(l), c4, p);
    WithinMoved(c3, l, p);
  }

  // ---------------------------------------------------------------- e catch { ... }

  /** The code of `e catch { ... }` after its operand `a`. */
  ghost predicate UnwrapCode(e: Expr, c: Code, a: Lowered, c3: Code, c4: Code, c5: Code)
    requires e.CatchUnwrap? && c.Valid()
  {
    && a == LowerExpr(e.e, c)
    && c3 == UnwrapOk(a.c, a.v, e.errTag, |a.c.blocks| + 2)
    && c4 == BindPayload(c3.SetInsert(|a.c.blocks| + 1), e.it, a.v)
    && c5 == LowerStmt(e.block, c4)
  }

  /** The code after the merge block is entered. */
  ghost function UnwrapEnd(n: nat, v: nat, c5: Code): Lowered
    requires c5.Valid() && n + 2 < |c5.blocks|
  {
    if c5.Closed() then Lowered(c5.SetInsert(n + 2), Reg(v))
    else
      var c6 := Emit(c5, Br(n + 2));
      Lowered(Merge(c6, n + 2, [(Reg(v), n), (Const(NULL), c5.cur)]), Reg(c6.next))
  }

  lemma UnwrapUnfolds(e: Expr, c: Code, a: Lowered, c3: Code, c4: Code, c5: Code)
    requires e.CatchUnwrap? && c.Valid() && UnwrapCode(e, c, a, c3, c4, c5)
    ensures Grows(c, a.c) && Grows(a.c, c3) && Straight(c3.SetInsert(|a.c.blocks| + 1), c4, if e.it.Some? then 1 else 0, 0)
    ensures Grows(c4, c5) && |a.c.blocks| + 3 <= |c5.blocks|
    ensures LowerExpr(e, c) == UnwrapEnd(|a.c.blocks|, a.c.next + 2, c5)
  {
    hide UnwrapOk, BindPayload, Emit, Merge, LowerStmt, Grows;
    assert LowerExpr(e, c) == LowerCatchUnwrap(e, c);
    GrowsFacts(c4, c5);
  }

  lemma UnwrapBlocks(p: Program, a: Code, c3: Code, c4: Code, c5: Code, v: nat, it: nat)
    requires a.Valid() && Grows(a, c3) && |c3.blocks| == |a.blocks| + 3 && c3.cur == |a.blocks|
    requires c3.blocks[|a.blocks| + 2] == [] && c3.next == v + 1
    requires Straight(c3.SetInsert(|a.blocks| + 1), c4, it, 0) && Grows(c4, c5)
    requires Within(UnwrapEnd(|a.blocks|, v, c5).c, p)
    ensures Within(c5, p) && Within(c4, p) && Within(c3, p) && Within(a, p)
    ensures c5.blocks[|a.blocks| + 2] == [] && c5.cur != |a.blocks| && c5.cur != |a.blocks| + 2
    ensures a.next <= c3.next <= c4.next <= c5.next
    ensures !c5.Closed() ==>
      var c6 := Emit(c5, Br(|a.blocks| + 2));
      && Within(c6, p) && c6.blocks[|a.blocks| + 2] == [] && c6.next == c5.next
  {
    hide Merge, Emit, Within, Grows, Straight;
    var n := |a.blocks|;
    GrowsFacts(a, c3);
    StraightFacts(c3.SetInsert(n + 1), c4, it, 0);
    GrowsTrans(c3.SetInsert(n + 1), c4, c5);
    GrowsFacts(c4, c5);
    GrowsFacts(c3.SetInsert(n + 1), c5);
    GrowsBlock(c3.SetInsert(n + 1), c5, n + 2);
    if c5.Closed() {
      WithinMoved(c5, n + 2, p);
    } else {
      var c6 := Emit(c5, Br(n + 2));
      StraightFacts(c5, c6, 0, 0);
      GrowsBlock(c5, c6, n + 2);
      var at := Merge(c6, n + 2, [(Reg(v), n), (Const(NULL), c5.cur)]);
      StraightFacts(c6.SetInsert(n + 2), at, 1, 0);
      GrowsWithin(c6.SetInsert(n + 2), at, p);
      WithinMoved(c6, n + 2, p);
      GrowsWithin(c5, c6, p);
    }
    GrowsWithin(c3.SetInsert(n + 1), c5, p);
    WithinMoved(c3, n + 1, p);
    GrowsWithin(c4, c5, p);
    GrowsWithin(a, c3, p);
  }

  lemma UnwrapOkPlaced(p: Program, c: Code, v: Operand, tag: int, to: nat)
    requires c.Valid() && Within(UnwrapOk(c, v, tag, to), p)
    ensures var b := BranchOnTag(c, v, tag, 3);
      var d := Operation(b.SetInsert(|c.blocks|), GetPayload, v, NONE);
      Within(b, p) && Within(d, p) && Within(Emit(d, Br(to)), p)
  {
    hide Operation, BranchOnTag, Grows, Within, Emit;
    var b := BranchOnTag(c, v, tag, 3);
    var d := Operation(b.SetInsert(|c.blocks|), GetPayload, v, NONE);
    GrowsWithin(d, Emit(d, Br(to)), p);
    GrowsWithin(b.SetInsert(|c.blocks|), d, p);
    WithinMoved(b, |c.blocks|, p);
  }

  /** The success path: take the payload, go to the merge block. */
  lemma UnwrapOkRuns(p: Program, c: Code, a: Operand, tag: int, m: Machine, c5: Code)
    returns (w: Machine)
    requires Inv(m) && c.Valid() && m.block == |c.blocks| && m.pc == 0
    requires Within(UnwrapOk(c, a, tag, |c.blocks| + 2), p)
    requires c5.Valid() && |c.blocks| + 2 < |c5.blocks| && c5.blocks[|c.blocks| + 2] == []
    requires c5.cur != |c.blocks| && c5.cur != |c.blocks| + 2 && c.next + 3 <= c5.next
    requires Within(UnwrapEnd(|c.blocks|, c.next + 2, c5).c, p)
    requires !c5.Closed() ==>
      var c6 := Emit(c5, Br(|c.blocks| + 2)); c6.blocks[|c.blocks| + 2] == [] && c6.next == c5.next
    ensures var l := UnwrapEnd(|c.blocks|, c.next + 2, c5);
      exists k :: Reaches(p, m, k, w) && Ready(l.c, w) && w.Val(l.v) == PayloadOf(m.Val(a))
        && Kept(c.next, m, w, 0) && w.mem == m.mem && w.out == m.out
  {
    hide Operation, BranchOnTag, Within, UnwrapOk, Emit, Merge, Incoming, Run, Step, Inv, Grows;
    var n := |c.blocks|;
    UnwrapOkPlaced(p, c, a, tag, n + 2);
    BranchBlocks(c, a, tag, 3);
    var b := BranchOnTag(c, a, tag, 3);
    StartReady(b, n, m);
    var d := Operation(b.SetInsert(n), GetPayload, a, NONE);
    var z := OperationRuns(p, b.SetInsert(n), GetPayload, a, NONE, m);
    KeptFacts(b.next, m, z, 0);
    if c5.Closed() {
      w := JumpRuns(p, d, n + 2, z);
      ReachTrans(p, m, 1, z, 1, w);
      MovedKept(d.next, z, w);
      KeptTrans(c.next, m, z, 0, d.next, w, 0);
      StartReady(c5, n + 2, w);
    } else {
      var c6 := Emit(c5, Br(n + 2));
      var xs := [(Reg(c.next + 2), n), (Const(NULL), c5.cur)];
      Incoming2(xs[0], xs[1]);
      w := MergeRuns(p, d, c6, n + 2, xs, Reg(c.next + 2), z);
      ReachTrans(p, m, 1, z, 2, w);
      KeptTrans(c.next, m, z, 0, d.next, w, 0);
    }
  }

  lemma NoSteps(p: Program, m: Machine)
    ensures Run(p, m, 0) == Running(m)
  {
  }

  lemma BindPlaced(p: Program, c: Code, it: Option<nat>, a: Operand)
    requires c.Valid() && it.Some? && Within(BindPayload(c, it, a), p)
    ensures var c1 := c.Emit(Pure(c.next, GetPayload, a, NONE));
      var c2 := Emit(c1, Store(it.value, Reg(c.next)));
      && BindPayload(c, it, a) == c2.Fresh() && Within(c1, p) && Within(c2, p)
  {
    var c1 := c.Emit(Pure(c.next, GetPayload, a, NONE));
    var c2 := Emit(c1, Store(it.value, Reg(c.next)));
    GrowsWithin(c1, c2, p);
  }

  lemma BindRuns(p: Program, c: Code, it: Option<nat>, a: Operand, m: Machine, s: State)
    returns (n: nat, w: Machine)
    requires Ready(c, m) && Inv(m) && Within(BindPayload(c, it, a), p) && Same(m, s)
    ensures Reaches(p, m, n, w) && Ready(BindPayload(c, it, a), w) && Kept(c.next, m, w, 0)
    ensures Same(w, if it.Some? then s.Put(it.value, PayloadOf(m.Val(a))) else s)
  {
    hide Run, Step, Inv, Kept, Within;
    n, w := 0, m;
    if it.None? {
      MovedKept(c.next, m, m);
      assert Run(p, m, 0) == Running(m) by { NoSteps(p, m); }
    } else {
      var c1 := c.Emit(Pure(c.next, GetPayload, a, NONE));
      var c2 := Emit(c1, Store(it.value, Reg(c.next)));
      BindPlaced(p, c, it, a);
      var y := OperationRuns(p, c, GetPayload, a, NONE, m);
      KeptFacts(c.next, m, y, 0);
      assert Ready(c1, y);
      w := EffectRuns(p, c1, Store(it.value, Reg(c.next)), y);
      ReachTrans(p, m, 1, y, 1, w);
      KeptTrans(c.next, m, y, 0, c1.next, w, 0);
      n := 2;
    }
  }

  lemma CatchUnwrapRuns(p: Program, e: Expr, c: Code, m: Machine, s: State)
    returns (n: nat, w: Machine)
    requires e.CatchUnwrap?
    requires Ready(c, m) && Inv(m) && Same(m, s) && Within(LowerExpr(e, c).c, p)
    ensures Sim(p, c.next, m, EvalExpr(e, s), LowerExpr(e, c).c, LowerExpr(e, c).v, n, w)
    decreases e, 1
  {
    hide BranchOnTag, Operation, UnwrapOk, BindPayload, Emit, Merge, LowerExpr, LowerStmt, Within, Grows, Straight,
      Kept, Inv, Run, Step, UnwrapEnd, EvalStmt;
    var a := LowerExpr(e.e, c);
    GrowsFacts(c, a.c);
    var l := |a.c.blocks|;
    var c3 := UnwrapOk(a.c, a.v, e.errTag, l + 2);
    var c4 := BindPayload(c3.SetInsert(l + 1), e.it, a.v);
    StraightFacts(c3.SetInsert(l + 1), c4, if e.it.Some? then 1 else 0, 0);
    var c5 := LowerStmt(e.block, c4);
    UnwrapUnfolds(e, c, a, c3, c4, c5);
    UnwrapBlocks(p, a.c, c3, c4, c5, a.c.next + 2, if e.it.Some? then 1 else 0);
    UnwrapOkPlaced(p, a.c, a.v, e.errTag, l + 2);
    n, w := ExprRuns(p, e.e, c, m, s);
    var r := EvalExpr(e.e, s);
    if r.o.Normal? {
      KeptFacts(c.next, m, w, r.leaked);
      var n1, w1 := n, w;
      var y := BranchRuns(p, a.c, a.v, e.errTag, 3, w1);
      ReachTrans(p, m, n1, w1, 3, y);
      KeptTrans(c.next, m, w1, r.leaked, a.c.next, y, 0);
      KeptFacts(a.c.next, w1, y, 0);
      ValKept(a.v, a.c, w1, y, 0);
      if TagOf(r.o.v) != e.errTag {
        GrowsFacts(c4, c5);
        w := UnwrapOkRuns(p, a.c, a.v, e.errTag, y, c5);
        n :| Reaches(p, y, n, w);
        ReachTrans(p, m, n1 + 3, y, n, w);
        KeptTrans(c.next, m, y, r.leaked, a.c.next, w, 0);
        n := n1 + 3 + n;
      } else {
        n, w := UnwrapErrRuns(p, e, m, n1 + 3, y, r, a, c.next, c3, c4, c5);
      }
    }
  }

  lemma UnwrapErrRuns(p: Program, e: Expr, m: Machine, n0: nat, y: Machine, r: Res,
                      a: Lowered, k: nat, c3: Code, c4: Code, c5: Code)
    returns (n: nat, w: Machine)
    requires e.CatchUnwrap? && a.c.Valid() && k <= a.c.next
    requires c3.Valid() && |c3.blocks| == |a.c.blocks| + 3 && c3.blocks[|a.c.blocks| + 1] == []
    requires a.c.next <= c3.next <= c4.next
    requires c4 == BindPayload(c3.SetInsert(|a.c.blocks| + 1), e.it, a.v) && c5 == LowerStmt(e.block, c4)
    requires Within(c4, p) && Within(c5, p) && Within(UnwrapEnd(|a.c.blocks|, a.c.next + 2, c5).c, p)
    requires |a.c.blocks| + 2 < |c5.blocks| && c5.cur != |a.c.blocks| && c5.cur != |a.c.blocks| + 2
    requires !c5.Closed() ==>
      var c6 := Emit(c5, Br(|a.c.blocks| + 2));
      && Within(c6, p) && c6.blocks[|a.c.blocks| + 2] == [] && c6.next == c5.next
    requires Reaches(p, m, n0, y) && Kept(k, m, y, r.leaked) && Inv(y) && Same(y, r.s)
    requires y.block == |a.c.blocks| + 1 && y.pc == 0 && r.o.Normal? && y.Val(a.v) == r.o.v
    ensures
      var b := EvalStmt(e.block, if e.it.Some? then r.s.Put(e.it.value, PayloadOf(r.o.v)) else r.s);
      var l := UnwrapEnd(|a.c.blocks|, a.c.next + 2, c5);
      Sim(p, k, m, if b.o.Normal? then Then(r, b.(o := Normal(NULL))) else Then(r, b), l.c, l.v, n, w)
    decreases e, 0
  {
    hide BindPayload, Emit, Merge, LowerStmt, Within, Kept, Inv, Run, Step, EvalStmt, Incoming;
    var l := |a.c.blocks|;
    StartReady(c3, l + 1, y);
    var s := if e.it.Some? then r.s.Put(e.it.value, PayloadOf(r.o.v)) else r.s;
    var i, x := BindRuns(p, c3.SetInsert(l + 1), e.it, a.v, y, r.s);
    ReachTrans(p, m, n0, y, i, x);
    KeptTrans(k, m, y, r.leaked, c3.next, x, 0);
    KeptFacts(k, m, x, r.leaked);
    n, w := StmtRuns(p, e.block, c4, x, s);
    var b := EvalStmt(e.block, s);
    Chain(p, k, m, n0 + i, x, r.leaked, c4.next, b, c5, NONE, n, w);
    n := n0 + i + n;
    if b.o.Normal? {
      KeptFacts(k, m, w, r.leaked + b.leaked);
      var c6 := Emit(c5, Br(l + 2));
      var xs := [(Reg(a.c.next + 2), l), (Const(NULL), c5.cur)];
      Incoming2(xs[0], xs[1]);
      var z := MergeRuns(p, c5, c6, l + 2, xs, Const(NULL), w);
      ReachTrans(p, m, n, w, 2, z);
      GrowsFacts(c4, c5);
      KeptTrans(k, m, w, r.leaked + b.leaked, c5.next, z, 0);
      n, w := n + 2, z;
    }
  }

  // ---------------------------------------------------------------- e?

  /** The code of `e?` after its operand `a`: the error path `c2`, its return `c3`,
      the success path `c4` and the jump `c5` to the merge block. */
  ghost predicate PropagateCode(e: Expr, c: Code, a: Lowered, c1: Code, c2: Code, c3: Code, c4: Code, c5: Code)
    requires e.Propagate? && c.Valid()
  {
    && a == LowerExpr(e.e, c)
    && c1 == BranchOnTag(a.c, a.v, e.errTag, 3)
    && c2 == LowerStmt(e.context, c1.SetInsert(|a.c.blocks| + 1))
    && c3 == ReturnTagged(c2, a.v, e.carry, e.retTag)
    && |a.c.blocks| < |c3.blocks|
    && c4 == Operation(c3.SetInsert(|a.c.blocks|), GetPayload, a.v, NONE)
    && c5 == Emit(c4, Br(|a.c.blocks| + 2))
  }

  lemma PropagateUnfolds(e: Expr, c: Code) returns (a: Lowered, c1: Code, c2: Code, c3: Code, c4: Code, c5: Code)
    requires e.Propagate? && c.Valid()
    ensures PropagateCode(e, c, a, c1, c2, c3, c4, c5)
    ensures Grows(c, a.c) && Known(a.v, a.c) && Straight(a.c, c1, 2, 3) && Grows(c1.SetInsert(|a.c.blocks| + 1), c2)
    ensures Straight(c2, c3, 2, 0) && Straight(c3.SetInsert(|a.c.blocks|), c4, 1, 0) && Straight(c4, c5, 0, 0)
    ensures |a.c.blocks| + 3 <= |c5.blocks|
    ensures LowerExpr(e, c) ==
      Lowered(Merge(c5, |a.c.blocks| + 2, [(Reg(c3.next), |a.c.blocks|)]), Reg(c5.next))
  {
    hide BranchOnTag, ReturnTagged, Operation, Emit, Merge, LowerStmt;
    assert LowerExpr(e, c) == LowerPropagate(e, c);
    a := LowerExpr(e.e, c);
    var n := |a.c.blocks|;
    c1 := BranchOnTag(a.c, a.v, e.errTag, 3);
    c2 := LowerStmt(e.context, c1.SetInsert(n + 1));
    c3 := ReturnTagged(c2, a.v, e.carry, e.retTag);
    c4 := Operation(c3.SetInsert(n), GetPayload, a.v, NONE);
    c5 := Emit(c4, Br(n + 2));
  }

  lemma PropagateBlocks(p: Program, a: Code, c1: Code, c2: Code, c3: Code, c4: Code, c5: Code, at: Code)
    requires a.Valid() && Straight(a, c1, 2, 3) && Grows(c1.SetInsert(|a.blocks| + 1), c2)
    requires Straight(c2, c3, 2, 0) && Straight(c3.SetInsert(|a.blocks|), c4, 1, 0) && Straight(c4, c5, 0, 0)
    requires |a.blocks| + 3 <= |c5.blocks|
    requires Grows(c5.SetInsert(|a.blocks| + 2), at) && Within(at, p)
    ensures Within(a, p) && Within(c1, p) && Within(c2, p) && Within(c3, p) && Within(c4, p) && Within(c5, p)
    ensures c3.blocks[|a.blocks|] == [] && c5.blocks[|a.blocks| + 2] == []
    ensures c1.blocks[|a.blocks|] == [] && c1.blocks[|a.blocks| + 1] == []
    ensures c4.cur == |a.blocks| && a.next + 2 == c1.next <= c2.next < c3.next < c4.next == c5.next
  {
    hide Within, Grows;
    var n := |a.blocks|;
    var b1 := c1.SetInsert(n + 1);
    GrowsFacts(b1, c2);
    GrowsBlock(b1, c2, n);
    GrowsBlock(b1, c2, n + 2);
    GrowsBlock(c2, c3, n);
    GrowsBlock(c2, c3, n + 2);
    GrowsBlock(c3.SetInsert(n), c4, n + 2);
    GrowsBlock(c4, c5, n + 2);
    GrowsWithin(c5.SetInsert(n + 2), at, p);
    WithinMoved(c5, n + 2, p);
    GrowsWithin(c4, c5, p);
    GrowsWithin(c3.SetInsert(n), c4, p);
    WithinMoved(c3, n, p);
    GrowsWithin(c2, c3, p);
    GrowsWithin(b1, c2, p);
    WithinMoved(c1, n + 1, p);
    GrowsWithin(a, c1, p);
  }

  /** The error path rebuilds the error in the return type and returns it. */
  lemma ReturnIs(c: Code, a: Operand, carry: Carry, tag: int)
    requires c.Valid()
    ensures ReturnTagged(c, a, carry, tag) ==
        Emit(Operation(Operation(c, GetPayload, a, NONE), BuildTagged(carry), Const(Int(tag)), Reg(c.next)), Ret(Reg(c.next + 1)))
  {
  }

  lemma ReturnRuns(p: Program, c: Code, a: Operand, carry: Carry, tag: int, m: Machine)
    returns (w: Machine)
    requires Ready(c, m) && Inv(m) && Within(ReturnTagged(c, a, carry, tag), p)
    ensures Reaches(p, m, 2, w) && w.eh == m.eh && w.used == m.used && w.heap == m.heap
    ensures w.mem == m.mem && w.out == m.out
    ensures Step(p, w) == Done(Tagged(tag, Carried(carry, PayloadOf(m.Val(a)))), w)
  {
    hide Within, Run, Inv, Grows, Step, ReturnTagged, Operation, Emit, Straight;
    ReturnIs(c, a, carry, tag);
    var c1 := Operation(c, GetPayload, a, NONE);
    StraightFacts(c, c1, 1, 0);
    var c2 := Operation(c1, BuildTagged(carry), Const(Int(tag)), Reg(c.next));
    StraightFacts(c1, c2, 1, 0);
    var c3 := Emit(c2, Ret(Reg(c.next + 1)));
    StraightFacts(c2, c3, 0, 0);
    GrowsWithin(c2, c3, p);
    GrowsWithin(c1, c2, p);
    var y := OperationRuns(p, c, GetPayload, a, NONE, m);
    KeptFacts(c.next, m, y, 0);
    w := OperationRuns(p, c1, BuildTagged(carry), Const(Int(tag)), Reg(c.next), y);
    ReachTrans(p, m, 1, y, 1, w);
    StepIs(p, c2, Ret(Reg(c.next + 1)), w);
  }

  lemma PropagateRuns(p: Program, e: Expr, c: Code, m: Machine, s: State)
    returns (n: nat, w: Machine)
    requires e.Propagate?
    requires Ready(c, m) && Inv(m) && Same(m, s) && Within(LowerExpr(e, c).c, p)
    ensures Sim(p, c.next, m, EvalExpr(e, s), LowerExpr(e, c).c, LowerExpr(e, c).v, n, w)
    decreases e, 0
  {
    hide BranchOnTag, ReturnTagged, Operation, Emit, Merge, LowerExpr, LowerStmt, Within, Grows, Straight,
      Kept, Inv, Run, Step, EvalStmt, Incoming;
    var a, c1, c2, c3, c4, c5 := PropagateUnfolds(e, c);
    GrowsFacts(c, a.c);
    var l := |a.c.blocks|;
    var xs := [(Reg(c3.next), l)];
    var at := Merge(c5, l + 2, xs);
    StraightFacts(c5.SetInsert(l + 2), at, 1, 0);
    StraightFacts(a.c, c1, 2, 3);
    PropagateBlocks(p, a.c, c1, c2, c3, c4, c5, at);
    n, w := ExprRuns(p, e.e, c, m, s);
    var r := EvalExpr(e.e, s);
    if r.o.Normal? {
      KeptFacts(c.next, m, w, r.leaked);
      var n1, w1 := n, w;
      var y := BranchRuns(p, a.c, a.v, e.errTag, 3, w1);
      ReachTrans(p, m, n1, w1, 3, y);
      KeptTrans(c.next, m, w1, r.leaked, a.c.next, y, 0);
      KeptFacts(a.c.next, w1, y, 0);
      ValKept(a.v, a.c, w1, y, 0);
      if TagOf(r.o.v) != e.errTag {
        StartReady(c3, l, y);
        var z := OperationRuns(p, c3.SetInsert(l), GetPayload, a.v, NONE, y);
        KeptTrans(c.next, m, y, r.leaked, c3.next, z, 0);
        KeptFacts(c.next, m, z, r.leaked);
        ReachTrans(p, m, n1 + 3, y, 1, z);
        Incoming1(xs[0]);
        w := MergeRuns(p, c4, c5, l + 2, xs, Reg(c3.next), z);
        KeptTrans(c.next, m, z, r.leaked, c4.next, w, 0);
        ReachTrans(p, m, n1 + 4, z, 2, w);
        n := n1 + 6;
      } else {
        StartReady(c1, l + 1, y);
        WithinMoved(c1, l + 1, p);
        n, w := StmtRuns(p, e.context, c1.SetInsert(l + 1), y, r.s);
        var b := EvalStmt(e.context, r.s);
        Chain(p, c.next, m, n1 + 3, y, r.leaked, c1.next, b, c2, NONE, n, w);
        if b.o.Normal? {
          KeptFacts(c1.next, y, w, b.leaked);
          ValStill(a.v, c1, y, w, b.leaked);
          var z := ReturnRuns(p, c2, a.v, e.carry, e.retTag, w);
          ReachTrans(p, m, n1 + 3 + n, w, 2, z);
          KeptEnds(c.next, m, w, r.leaked + b.leaked);
          n, w := n1 + 5 + n, z;
        } else {
          n := n1 + 3 + n;
        }
      }
    }
  }

  /** In a function that returns nothing: the error path `c2` and its return `c3`. */
  lemma VoidPlaced(p: Program, e: Expr, c: Code)
    requires e.PropagateVoid? && c.Valid() && Within(LowerExpr(e, c).c, p)
    ensures var a := LowerExpr(e.e, c);
      var l := |a.c.blocks|;
      var c1 := BranchOnTag(a.c, a.v, e.errTag, 2);
      var c2 := LowerStmt(e.context, c1.SetInsert(l + 1));
      var c3 := Emit(c2, Ret(NONE));
      && Within(a.c, p) && Within(c1, p) && Within(c2, p) && Within(c3, p)
      && LowerExpr(e, c) == Lowered(c3.SetInsert(l), NONE) && l < |c3.blocks| && c3.blocks[l] == []
      && |c1.blocks| == l + 2 && c1.blocks[l + 1] == [] && c.next <= a.c.next <= c1.next
  {
    hide BranchOnTag, LowerStmt, Within, Grows, Emit;
    assert LowerExpr(e, c) == LowerPropagateVoid(e, c);
    var a := LowerExpr(e.e, c);
    GrowsFacts(c, a.c);
    var l := |a.c.blocks|;
    var c1 := BranchOnTag(a.c, a.v, e.errTag, 2);
    StraightFacts(a.c, c1, 2, 2);
    var c2 := LowerStmt(e.context, c1.SetInsert(l + 1));
    GrowsFacts(c1.SetInsert(l + 1), c2);
    var c3 := Emit(c2, Ret(NONE));
    GrowsBlock(c1.SetInsert(l + 1), c2, l);
    GrowsBlock(c2, c3, l);
    WithinMoved(c3, l, p);
    GrowsWithin(c2, c3, p);
    GrowsWithin(c1.SetInsert(l + 1), c2, p);
    WithinMoved(c1, l + 1, p);
    GrowsWithin(a.c, c1, p);
  }

  lemma PropagateVoidRuns(p: Program, e: Expr, c: Code, m: Machine, s: State)
    returns (n: nat, w: Machine)
    requires e.PropagateVoid?
    requires Ready(c, m) && Inv(m) && Same(m, s) && Within(LowerExpr(e, c).c, p)
    ensures Sim(p, c.next, m, EvalExpr(e, s), LowerExpr(e, c).c, LowerExpr(e, c).v, n, w)
    decreases e, 0
  {
    hide BranchOnTag, Emit, LowerExpr, LowerStmt, Within, Grows, Straight, Kept, Inv, Run, Step, EvalStmt;
    VoidPlaced(p, e, c);
    var a := LowerExpr(e.e, c);
    GrowsFacts(c, a.c);
    var l := |a.c.blocks|;
    var c1 := BranchOnTag(a.c, a.v, e.errTag, 2);
    StraightFacts(a.c, c1, 2, 2);
    var c2 := LowerStmt(e.context, c1.SetInsert(l + 1));
    GrowsFacts(c1.SetInsert(l + 1), c2);
    var c3 := Emit(c2, Ret(NONE));
    n, w := ExprRuns(p, e.e, c, m, s);
    var r := EvalExpr(e.e, s);
    if r.o.Normal? {
      KeptFacts(c.next, m, w, r.leaked);
      var n1, w1 := n, w;
      var y := BranchRuns(p, a.c, a.v, e.errTag, 2, w1);
      ReachTrans(p, m, n1, w1, 3, y);
      KeptTrans(c.next, m, w1, r.leaked, a.c.next, y, 0);
      KeptFacts(a.c.next, w1, y, 0);
      if TagOf(r.o.v) != e.errTag {
        StartReady(c3, l, y);
        n, w := n1 + 3, y;
      } else {
        StartReady(c1, l + 1, y);
        WithinMoved(c1, l + 1, p);
        n, w := StmtRuns(p, e.context, c1.SetInsert(l + 1), y, r.s);
        var b := EvalStmt(e.context, r.s);
        Chain(p, c.next, m, n1 + 3, y, r.leaked, c1.next, b, c2, NONE, n, w);
        n := n1 + 3 + n;
        if b.o.Normal? {
          KeptEnds(c.next, m, w, r.leaked + b.leaked);
          StepIs(p, c2, Ret(NONE), w);
          RetStep(w);
        }
      }
    }
  }

  lemma RetStep(m: Machine)
    ensures Exec(Ret(NONE), m) == Done(Undef, m)
  {
  }

  lemma ValStill(o: Operand, c: Code, m: Machine, w: Machine, leak: nat)
    requires (o.Reg? ==> o.r < c.next) && Kept(c.next, m, w, leak)
    ensures w.Val(o) == m.Val(o)
  {
  }

  lemma KeptEnds(k: nat, m: Machine, w: Machine, leak: nat)
    requires Kept(k, m, w, leak)
    ensures w.eh == m.eh && w.used + |w.heap| == m.used + |m.heap| + leak
  {
  }

  // ---------------------------------------------------------------- match

  lemma GuardRuns(p: Program, k: Kind, a: Arm, c: Code, v: Operand, yes: nat, no: nat, m: Machine, s: State)
    returns (n: nat, w: Machine)
    requires a.guard.Some? && Ready(c, m) && Inv(m) && Same(m, s) && Known(v, c)
    requires Within(LowerGuard(k, a, c, v, yes, no), p)
    ensures var g := EvalExpr(a.guard.value, Bound(k, a, m.Val(v), s));
      if g.o.Normal? then
        && Reaches(p, m, n, w) && Kept(c.next, m, w, g.leaked) && Same(w, g.s)
        && w.pc == 0 && w.block == (if Truth(g.o.v) then yes else no)
      else Sim(p, c.next, m, g, EMPTY, NONE, n, w)
    decreases a, 0
  {
    hide BindPayload, LowerExpr, BranchIf, EvalExpr, BindOf, Within, Inv, Kept, Grows, Run, Step;
    var b := BindPayload(c, BindOf(k, a.patterns), v);
    var l := LowerExpr(a.guard.value, b);
    GrowsFacts(c, b);
    GrowsFacts(b, l.c);
    var d := BranchIf(l.c, l.v, yes, no);
    assert Grows(l.c, d) by { StraightFacts(l.c, d, 1, 0); }
    GrowsWithin(l.c, d, p);
    GrowsWithin(b, l.c, p);
    var n1, w1 := BindRuns(p, c, BindOf(k, a.patterns), v, m, s);
    KeptFacts(c.next, m, w1, 0);
    var s1 := Bound(k, a, m.Val(v), s);
    n, w := ExprRuns(p, a.guard.value, b, w1, s1);
    var g := EvalExpr(a.guard.value, s1);
    Chain(p, c.next, m, n1, w1, 0, b.next, g, l.c, l.v, n, w);
    n := n1 + n;
    if g.o.Normal? {
      var y := w;
      KeptFacts(c.next, m, y, g.leaked);
      w := BranchIfRuns(p, l.c, l.v, yes, no, y);
      ReachTrans(p, m, n, y, 2, w);
      KeptTrans(c.next, m, y, g.leaked, l.c.next, w, 0);
      n := n + 2;
    } else {
      Elsewhere(p, c.next, m, g, l.c, l.v, n, w, EMPTY, NONE);
    }
  }

  /** Statements after a value leave it alone. */
  lemma PostRuns(p: Program, st: Stmt, c: Code, v: Operand, m: Machine, s: State)
    returns (n: nat, w: Machine)
    requires Ready(c, m) && Inv(m) && Same(m, s) && Known(v, c) && Within(LowerStmt(st, c), p)
    ensures Sim(p, c.next, m, KeepValue(EvalStmt(st, s), m.Val(v)), LowerStmt(st, c), v, n, w)
    decreases st, 3
  {
    hide LowerStmt, EvalStmt, Within, Inv, Run, Step;
    n, w := StmtRuns(p, st, c, m, s);
    if EvalStmt(st, s).o.Normal? { ValKept(v, c, m, w, EvalStmt(st, s).leaked); }
  }

  lemma ValueRuns(p: Program, b: Body, c: Code, m: Machine, s: State)
    returns (n: nat, w: Machine)
    requires b.value.Some? && Ready(c, m) && Inv(m) && Same(m, s) && Within(LowerRest(b, c).c, p)
    ensures Sim(p, c.next, m, EvalRest(b, s), LowerRest(b, c).c, ValueOf(LowerRest(b, c).v), n, w)
    decreases b, 0
  {
    hide LowerExpr, LowerStmt, EvalExpr, EvalStmt, Within, Kept, Inv, Grows, Run, Step, Sim, Reaches, Same;
    var a := LowerExpr(b.value.value, c);
    GrowsFacts(c, a.c);
    var d := LowerStmt(b.post, a.c);
    GrowsWithin(a.c, d, p);
    n, w := ExprRuns(p, b.value.value, c, m, s);
    var v := EvalExpr(b.value.value, s);
    if v.o.Normal? {
      var n1, w1 := n, w;
      SimNormal(p, c.next, m, v, a.c, a.v, n1, w1);
      n, w := PostRuns(p, b.post, a.c, a.v, w1, v.s);
      var t := KeepValue(EvalStmt(b.post, v.s), v.o.v);
      Chain(p, c.next, m, n1, w1, v.leaked, a.c.next, t, d, a.v, n, w);
      n := n1 + n;
    } else {
      Elsewhere(p, c.next, m, v, a.c, a.v, n, w, d, a.v);
    }
  }

  lemma BodyRuns(p: Program, b: Body, c: Code, m: Machine, s: State)
    returns (n: nat, w: Machine)
    requires Ready(c, m) && Inv(m) && Same(m, s) && Within(LowerBody(b, c).c, p)
    ensures Sim(p, c.next, m, EvalBody(b, s), LowerBody(b, c).c, ValueOf(LowerBody(b, c).v), n, w)
    decreases b, 2
  {
    hide LowerExpr, LowerStmt, EvalExpr, EvalStmt, Within, Kept, Inv, Grows, Run, Step, Sim, Reaches, Same,
      EvalRest, LowerRest;
    var c1 := LowerStmt(b.pre, c);
    GrowsFacts(c, c1);
    var d := LowerRest(b, c1);
    GrowsWithin(c1, d.c, p);
    n, w := StmtRuns(p, b.pre, c, m, s);
    var r := EvalStmt(b.pre, s);
    if r.o.Normal? {
      var n1, w1 := n, w;
      SimNormal(p, c.next, m, r, c1, NONE, n1, w1);
      n, w := RestRuns(p, b, c1, w1, r.s);
      Chain(p, c.next, m, n1, w1, r.leaked, c1.next, EvalRest(b, r.s), d.c, ValueOf(d.v), n, w);
      n := n1 + n;
    } else {
      Elsewhere(p, c.next, m, r, c1, NONE, n, w, d.c, ValueOf(d.v));
    }
  }

  lemma RestRuns(p: Program, b: Body, c: Code, m: Machine, s: State)
    returns (n: nat, w: Machine)
    requires Ready(c, m) && Inv(m) && Same(m, s) && Within(LowerRest(b, c).c, p)
    ensures Sim(p, c.next, m, EvalRest(b, s), LowerRest(b, c).c, ValueOf(LowerRest(b, c).v), n, w)
    decreases b, 1
  {
    hide LowerStmt, EvalStmt, Within, Kept, Inv, Grows, Run, Step, Sim, Reaches, Same;
    if b.value.Some? {
      n, w := ValueRuns(p, b, c, m, s);
    } else {
      n, w := PostRuns(p, b.post, c, NONE, m, s);
    }
  }

  lemma ArmBodyRuns(p: Program, k: Kind, a: Arm, c: Code, b: nat, v: Operand, merge: nat, m: Machine, s: State)
    returns (n: nat, w: Machine)
    requires b < |c.blocks| && c.blocks[b] == [] && m.block == b && m.pc == 0
    requires Inv(m) && Same(m, s) && Known(v, c)
    requires Within(LowerArmBody(k, a, c, b, v, merge).c, p)
    ensures AtMerge(p, c.next, m, EvalBody(a.body, Bound(k, a, m.Val(v), s)), merge,
                    LowerArmBody(k, a, c, b, v, merge).incoming, n, w)
    decreases a, 0
  {
    hide BindPayload, LowerBody, EvalBody, BindOf, Within, Inv, Kept, Grows, Run, Step, Emit;
    var d := BindPayload(c.SetInsert(b), BindOf(k, a.patterns), v);
    var e := LowerBody(a.body, d);
    GrowsFacts(d, e.c);
    var f := EmitUnlessClosed(e.c, Br(merge));
    GrowsWithin(e.c, f, p);
    GrowsWithin(d, e.c, p);
    StartReady(c, b, m);
    var n1, w1 := BindRuns(p, c.SetInsert(b), BindOf(k, a.patterns), v, m, s);
    KeptFacts(c.next, m, w1, 0);
    var s1 := Bound(k, a, m.Val(v), s);
    var r := EvalBody(a.body, s1);
    n, w := BodyRuns(p, a.body, d, w1, s1);
    Chain(p, c.next, m, n1, w1, 0, d.next, r, e.c, ValueOf(e.v), n, w);
    n := n1 + n;
    if r.o.Normal? {
      UnlessOpen(e.c, Br(merge));
      var y := w;
      w := JumpRuns(p, e.c, merge, y);
      ReachTrans(p, m, n, y, 1, w);
      KeptFacts(c.next, m, y, r.leaked);
      MovedKept(c.next, y, w);
      KeptTrans(c.next, m, y, r.leaked, c.next, w, 0);
      n := n + 1;
      assert w.Val(ValueOf(e.v)) == y.Val(ValueOf(e.v));
      var xs := LowerArmBody(k, a, c, b, v, merge).incoming;
      assert xs[0] == (ValueOf(e.v), e.c.cur);
    } else {
      Elsewhere(p, c.next, m, r, e.c, ValueOf(e.v), n, w, EMPTY, NONE);
    }
  }

  lemma ArmRuns(p: Program, k: Kind, a: Arm, last: bool, c: Code, v: Operand, merge: nat, m: Machine, s: State)
    returns (n: nat, w: Machine)
    requires Ready(c, m) && Inv(m) && Same(m, s) && Known(v, c) 
    requires merge < |c.blocks| && merge != c.cur && Within(LowerArm(k, a, last, c, v, merge).c, p)
    ensures match TryArm(k, a, m.Val(v), s)
      case Taken(r) => AtMerge(p, c.next, m, r, merge, LowerArm(k, a, last, c, v, merge).incoming, n, w)
      case Missed(g) =>
        && MovesOn(p, c.next, m, g, if last then merge else |c.blocks| + 1, n, w)
        && (!ArmMatches(k, a, m.Val(v)) ==> w.prev == c.cur)
    decreases a, 2
  {
    hide LowerTest, LowerEntry, LowerGuard, LowerArmBody, ArmMatches, EvalBody, BindOf, Bound, Kept, Inv,
      Grows, Within, Run, Step,
      AtMerge;
    var x := m.Val(v);
    var l := |c.blocks|;
    ArmPlaced(p, k, a, last, c, v, merge);
    var t := LowerTest(k, a, last, c, v, merge);
    var g := LowerEntry(k, a, last, c, v, merge);
    var n1, y := TestJumps(p, k, a, last, c, v, merge, m);
    KeptFacts(c.next, m, y, 0);
    ValKept(v, c, m, y, 0);
    if !ArmMatches(k, a, x) {
      n, w := n1, y;
    } else if a.guard.None? {
      n, w := ArmBodyRuns(p, k, a, g, l, v, merge, y, s);
      MergeChain(p, c.next, m, n1, y, 0, g.next, EvalBody(a.body, Bound(k, a, x, s)), merge,
                 LowerArmBody(k, a, g, l, v, merge).incoming, LowerArm(k, a, last, c, v, merge).incoming, n, w);
      n := n1 + n;
    } else {
      n, w := GuardedArmRuns(p, k, a, last, c, v, merge, m, s, n1, y);
    }
  }

  /** The guard, and if it holds the body. */
  lemma GuardedArmRuns(p: Program, k: Kind, a: Arm, last: bool, c: Code, v: Operand, merge: nat, m: Machine, s: State,
                       n1: nat, y: Machine)
    returns (n: nat, w: Machine)
    requires a.guard.Some? && c.Valid() && Same(m, s) && Known(v, c)
    requires merge < |c.blocks| && merge != c.cur && Within(LowerArm(k, a, last, c, v, merge).c, p)
    requires ArmMatches(k, a, m.Val(v))
    requires JumpedTo(p, c, m, n1, y, |LowerTest(k, a, last, c, v, merge).blocks| - 1) && Inv(y) && y.Val(v) == m.Val(v)
    ensures match TryArm(k, a, m.Val(v), s)
      case Taken(r) => AtMerge(p, c.next, m, r, merge, LowerArm(k, a, last, c, v, merge).incoming, n, w)
      case Missed(g) => MovesOn(p, c.next, m, g, if last then merge else |c.blocks| + 1, n, w)
    decreases a, 1
  {
    hide LowerTest, LowerEntry, LowerGuard, LowerArmBody, ArmMatches, EvalBody, EvalExpr, BindOf, Bound,
      Kept, Inv, Grows, Within,
      Run, Step;
    var x := m.Val(v);
    var l := |c.blocks|;
    ArmPlaced(p, k, a, last, c, v, merge);
    var t := LowerTest(k, a, last, c, v, merge);
    var at := t.SetInsert(|t.blocks| - 1);
    var g := LowerEntry(k, a, last, c, v, merge);
    StartReady(t, |t.blocks| - 1, y);
    var no := if last then merge else l + 1;
    var n2, z := GuardRuns(p, k, a, at, v, l, no, y, s);
    var e := EvalExpr(a.guard.value, Bound(k, a, x, s));
    if e.o.Normal? {
      ReachTrans(p, m, n1, y, n2, z);
      KeptTrans(c.next, m, y, 0, at.next, z, e.leaked);
      KeptFacts(c.next, m, z, e.leaked);
      ValKept(v, at, y, z, e.leaked);
      n, w := n1 + n2, z;
      if Truth(e.o.v) {
        n, w := ArmBodyRuns(p, k, a, g, l, v, merge, z, e.s);
        MergeChain(p, c.next, m, n1 + n2, z, e.leaked, g.next, EvalBody(a.body, Bound(k, a, x, e.s)), merge,
                   LowerArmBody(k, a, g, l, v, merge).incoming, LowerArm(k, a, last, c, v, merge).incoming, n, w);
        n := n1 + n2 + n;
      }
    } else {
      Chain(p, c.next, m, n1, y, 0, at.next, e, EMPTY, NONE, n2, z);
      n, w := n1 + n2, z;
    }
  }

  lemma {:induction false} ArmsRun(p: Program, k: Kind, arms: seq<Arm>, c: Code, v: Operand, merge: nat, m: Machine,
                                   s: State)
    returns (n: nat, w: Machine)
    requires Ready(c, m) && Inv(m) && Same(m, s) && Known(v, c)
    requires merge < |c.blocks| && merge != c.cur && Within(LowerArms(k, arms, c, v, merge).c, p)
    ensures AtMerge(p, c.next, m, EvalArms(k, arms, m.Val(v), s), merge,
                    LowerArms(k, arms, c, v, merge).incoming, n, w)
    decreases arms, 1
  {
    hide LowerArm, TryArm, ArmMatches, Kept, Inv, Grows, Within, Run, Step, AtMerge, Same;
    if arms == [] {
      n, w := 0, m;
      NothingClaimed(p, c.next, m, EvalArms(k, arms, m.Val(v), s), merge, [], n, w);
    } else {
      var last := |arms| == 1;
      var x := m.Val(v);
      var l := LowerArms(k, arms, c, v, merge);
      if !last { RestPlaced(p, k, arms, c, v, merge); }
      n, w := ArmRuns(p, k, arms[0], last, c, v, merge, m, s);
      match TryArm(k, arms[0], x, s)
      case Taken(r) =>
        TakenWider(p, c.next, m, r, merge, LowerArm(k, arms[0], last, c, v, merge).incoming, l.incoming, n, w);
      case Missed(g) =>
        if last {
          LastMissed(p, k, arms[0], c, v, merge, m, g, n, w, EvalArms(k, arms, x, s), s);
        } else {
          n, w := LaterArmsRun(p, k, arms, c, v, merge, m, s, g, n, w);
        }
    }
  }

  /** The arms after one that was passed over. */
  lemma {:induction false} LaterArmsRun(p: Program, k: Kind, arms: seq<Arm>, c: Code, v: Operand, merge: nat,
                                        m: Machine, s: State,
                                        g: Res, n1: nat, y: Machine)
    returns (n: nat, w: Machine)
    requires |arms| > 1 && TryArm(k, arms[0], m.Val(v), s) == Missed(g)
    requires Ready(c, m) && Known(v, c) && merge < |c.blocks| && merge != c.cur
    requires Within(LowerArms(k, arms, c, v, merge).c, p) && MovesOn(p, c.next, m, g, |c.blocks| + 1, n1, y)
    ensures AtMerge(p, c.next, m, EvalArms(k, arms, m.Val(v), s), merge,
                    LowerArms(k, arms, c, v, merge).incoming, n, w)
    decreases arms, 0
  {
    hide LowerArm, LowerArms, TryArm, ArmMatches, Kept, Inv, Grows, Within, Run, Step, AtMerge;
    var a := LowerArm(k, arms[0], false, c, v, merge);
    var d := a.c.SetInsert(|c.blocks| + 1);
    var r := EvalArms(k, arms[1..], m.Val(v), g.s);
    RestPlaced(p, k, arms, c, v, merge);
    GrowsFacts(c, a.c);
    StartReady(a.c, |c.blocks| + 1, y);
    ValKept(v, c, m, y, g.leaked);
    n, w := ArmsRun(p, k, arms[1..], d, v, merge, y, g.s);
    MergeChain(p, c.next, m, n1, y, g.leaked, a.c.next, r, merge,
               LowerArms(k, arms[1..], d, v, merge).incoming, LowerArms(k, arms, c, v, merge).incoming, n, w);
    n := n1 + n;
  }

  /** The compiled `match` does what the source means. */
  lemma MatchRuns(p: Program, e: Expr, c: Code, m: Machine, s: State)
    returns (n: nat, w: Machine)
    requires e.MatchOn?
    requires Ready(c, m) && Inv(m) && Same(m, s) && Within(LowerExpr(e, c).c, p)
    ensures Sim(p, c.next, m, EvalExpr(e, s), LowerExpr(e, c).c, LowerExpr(e, c).v, n, w)
    decreases e, 0
  {
    hide LowerArms, EvalArms, Merge, Kept, Inv, Grows, Within, Run, Step, AtMerge;
    var a := LowerExpr(e.e, c);
    GrowsFacts(c, a.c);
    var l := |a.c.blocks|;
    var d := a.c.NewBlocks(1);
    var b := LowerArms(e.on, e.arms, d, a.v, l);
    var f := LowerExpr(e, c);
    GrowsFacts(d, b.c);
    MatchPlaced(p, c, a.c, d, b.c, l, b.incoming);
    n, w := ExprRuns(p, e.e, c, m, s);
    var r := EvalExpr(e.e, s);
    if r.o.Normal? {
      SimNormal(p, c.next, m, r, a.c, a.v, n, w);
      var n1, y := n, w;
      n, w := ArmsRun(p, e.on, e.arms, d, a.v, l, y, r.s);
      ArmsFrom(e.on, e.arms, d, a.v, l);
      var t := EvalArms(e.on, e.arms, r.o.v, r.s);
      n, w := PhiJoins(p, d, b, l, y, t, f, n, w);
      Chain(p, c.next, m, n1, y, r.leaked, d.next, t, f.c, f.v, n, w);
      n := n1 + n;
    } else {
      Elsewhere(p, c.next, m, r, a.c, a.v, n, w, f.c, f.v);
    }
  }

  // ---------------------------------------------------------------- statements

  lemma StmtRuns(p: Program, st: Stmt, c: Code, m: Machine, s: State)
    returns (n: nat, w: Machine)
    requires Ready(c, m) && Inv(m) && Same(m, s) && Within(LowerStmt(st, c), p)
    ensures Sim(p, c.next, m, EvalStmt(st, s), LowerStmt(st, c), NONE, n, w)
    decreases st, 2
  {
    match st
    case Skip => n, w := 0, m;
    case Seq(_, _) => n, w := SeqRuns(p, st, c, m, s);
    case Do(e) => n, w := ExprRuns(p, e, c, m, s);
    case Assign(_, _) => n, w := EffectStmtRuns(p, st, c, m, s);
    case Print(_) => n, w := EffectStmtRuns(p, st, c, m, s);
    case If(_, _, _) => n, w := IfRuns(p, st, c, m, s);
    case ThrowStmt(_, _, _, _, _, _) => n, w := ThrowRuns(p, st, c, m, s);
    case TryCatch(_, _, _) => n, w := TryCatchRuns(p, st, c, m, s);
    case Return(_) => n, w := ReturnStmtRuns(p, st, c, m, s);
  }

  lemma SeqRuns(p: Program, st: Stmt, c: Code, m: Machine, s: State)
    returns (n: nat, w: Machine)
    requires st.Seq?
    requires Ready(c, m) && Inv(m) && Same(m, s) && Within(LowerStmt(st, c), p)
    ensures Sim(p, c.next, m, EvalStmt(st, s), LowerStmt(st, c), NONE, n, w)
    decreases st, 0
  {
    hide Within, Grows, Inv, Run, Step;
    var c1 := LowerStmt(st.first, c);
    GrowsFacts(c, c1);
    var c2 := LowerStmt(st.rest, c1);
    GrowsWithin(c1, c2, p);
    n, w := StmtRuns(p, st.first, c, m, s);
    var r := EvalStmt(st.first, s);
    if r.o.Normal? {
      var n1, w1 := n, w;
      n, w := StmtRuns(p, st.rest, c1, w1, r.s);
      Chain(p, c.next, m, n1, w1, r.leaked, c1.next, EvalStmt(st.rest, r.s), c2, NONE, n, w);
      n := n1 + n;
    }
  }

  lemma EffectStmtRuns(p: Program, st: Stmt, c: Code, m: Machine, s: State)
    returns (n: nat, w: Machine)
    requires st.Assign? || st.Print?
    requires Ready(c, m) && Inv(m) && Same(m, s) && Within(LowerStmt(st, c), p)
    ensures Sim(p, c.next, m, EvalStmt(st, s), LowerStmt(st, c), NONE, n, w)
    decreases st, 0
  {
    hide Within, Grows, Inv, Run, Step, LowerExpr, Kept;
    var a := LowerExpr(st.e, c);
    GrowsFacts(c, a.c);
    var i := if st.Assign? then Store(st.slot, a.v) else Out(a.v);
    GrowsWithin(a.c, Emit(a.c, i), p);
    n, w := ExprRuns(p, st.e, c, m, s);
    var r := EvalExpr(st.e, s);
    if r.o.Normal? {
      KeptFacts(c.next, m, w, r.leaked);
      var x := EffectRuns(p, a.c, i, w);
      ReachTrans(p, m, n, w, 1, x);
      KeptTrans(c.next, m, w, r.leaked, a.c.next, x, 0);
      n, w := n + 1, x;
    }
  }

  lemma ReturnStmtRuns(p: Program, st: Stmt, c: Code, m: Machine, s: State)
    returns (n: nat, w: Machine)
    requires st.Return?
    requires Ready(c, m) && Inv(m) && Same(m, s) && Within(LowerStmt(st, c), p)
    ensures Sim(p, c.next, m, EvalStmt(st, s), LowerStmt(st, c), NONE, n, w)
    decreases st, 0
  {
    hide Within, Grows, Inv, Run, Step, LowerExpr, Kept;
    var a := LowerExpr(st.e, c);
    GrowsFacts(c, a.c);
    GrowsWithin(a.c, Emit(a.c, Ret(a.v)), p);
    n, w := ExprRuns(p, st.e, c, m, s);
    var r := EvalExpr(st.e, s);
    if r.o.Normal? {
      StepIs(p, a.c, Ret(a.v), w);
      KeptEnds(c.next, m, w, r.leaked);
    }
  }

  lemma ThrowRuns(p: Program, st: Stmt, c: Code, m: Machine, s: State)
    returns (n: nat, w: Machine)
    requires st.ThrowStmt?
    requires Ready(c, m) && Inv(m) && Same(m, s) && Within(LowerStmt(st, c), p)
    ensures Sim(p, c.next, m, EvalStmt(st, s), LowerStmt(st, c), NONE, n, w)
    // The machine throws the very error that was thrown, stamped.
    ensures match EvalExpr(st.e, s).o
      case Normal(Err(e0)) => Reaches(p, m, n, w) && exists e :: ThrownAs(e, e0, st) && Step(p, w) == Throw(w, e)
      case _ => true
    decreases st, 0
  {
    hide Within, Grows, Inv, Run, Step, LowerExpr, Kept, RaiseStamped, Fnv, Throw;
    var a := LowerExpr(st.e, c);
    GrowsFacts(c, a.c);
    var d := RaiseStamped(a.c, a.v, ThrowSite(st));
    WithinMoved(d, |a.c.blocks|, p);
    StraightFacts(a.c, d, 1, 1);
    GrowsWithin(a.c, d, p);
    n, w := ExprRuns(p, st.e, c, m, s);
    var r := EvalExpr(st.e, s);
    if r.o.Normal? {
      KeptFacts(c.next, m, w, r.leaked);
      var x := RaiseRuns(p, a.c, a.v, ThrowSite(st), w);
      ReachTrans(p, m, n, w, 1, x);
      KeptTrans(c.next, m, w, r.leaked, a.c.next, x, 0);
      n, w := n + 1, x;
      assert r.o.v.Err? ==> ThrownAs(Stamped(r.o.v.error, ThrowSite(st)), r.o.v.error, st);
    }
  }

  /** Stamp the error; the next step throws it. */
  lemma RaiseRuns(p: Program, c: Code, a: Operand, site: Site, m: Machine) returns (w: Machine)
    requires Ready(c, m) && Inv(m) && Within(RaiseStamped(c, a, site), p)
    ensures Reaches(p, m, 1, w) && Kept(c.next, m, w, 0) && w.mem == m.mem && w.out == m.out
    ensures Step(p, w) == Throw(w, Stamped(ErrorOf(m.Val(a)), site))
  {
    hide Within, Grows, Inv, Run, Step, Kept, RaiseStamped, Operation;
    RaisePlaced(p, c, a, site);
    var c1 := Operation(c, Stamp(site), a, NONE);
    StraightFacts(c, c1, 1, 0);
    StraightFacts(c1, Emit(c1, EhThrow(Reg(c.next))), 0, 0);
    GrowsWithin(c1, Emit(c1, EhThrow(Reg(c.next))), p);
    w := OperationRuns(p, c, Stamp(site), a, NONE, m);
    StepIs(p, c1, EhThrow(Reg(c.next)), w);
  }

  lemma RaisePlaced(p: Program, c: Code, a: Operand, site: Site)
    requires c.Valid() && Within(RaiseStamped(c, a, site), p)
    ensures Within(Emit(Operation(c, Stamp(site), a, NONE), EhThrow(Reg(c.next))), p)
  {
    var c1 := Operation(c, Stamp(site), a, NONE);
    var c2 := Emit(c1, EhThrow(Reg(c.next)));
    var d := RaiseStamped(c, a, site);
    assert d.blocks[c.cur] == c2.blocks[c.cur] + [Unreachable];
    assert c2.blocks[c.cur] <= d.blocks[c.cur];
    assert Grows(c2, d);
    GrowsWithin(c2, d, p);
  }

  lemma IfIs(st: Stmt, c: Code)
    requires st.If? && c.Valid()
    ensures LowerStmt(st, c) == LowerIf(st, c)
  {
  }

  lemma IfUnfolds(st: Stmt, c: Code) returns (a: Lowered, c1: Code, c2: Code, c3: Code, c4: Code, c5: Code)
    requires st.If? && c.Valid()
    ensures a == LowerExpr(st.cond, c.NewBlocks(3)) && Grows(c.NewBlocks(3), a.c) && Known(a.v, a.c)
    ensures |c.blocks| + 3 <= |a.c.blocks| && c1 == BranchIf(a.c, a.v, |c.blocks| + 1, |c.blocks| + 2)
    ensures Straight(a.c, c1, 1, 0)
    ensures c2 == LowerStmt(st.thn, c1.SetInsert(|c.blocks| + 1)) && Grows(c1.SetInsert(|c.blocks| + 1), c2)
    ensures c3 == EmitUnlessClosed(c2, Br(|c.blocks|)) && Straight(c2, c3, 0, 0) && |c.blocks| + 2 < |c3.blocks|
    ensures c4 == LowerStmt(st.els, c3.SetInsert(|c.blocks| + 2)) && Grows(c3.SetInsert(|c.blocks| + 2), c4)
    ensures c5 == EmitUnlessClosed(c4, Br(|c.blocks|)) && Straight(c4, c5, 0, 0)
    ensures LowerStmt(st, c) == c5.SetInsert(|c.blocks|)
  {
    hide LowerExpr, LowerStmt, LowerBranch, BranchIf, EmitUnlessClosed, Grows, Straight;
    var n := |c.blocks|;
    assert LowerStmt(st, c) == LowerIf(st, c) by { IfIs(st, c); }
    a := LowerExpr(st.cond, c.NewBlocks(3));
    GrowsFacts(c.NewBlocks(3), a.c);
    c1 := BranchIf(a.c, a.v, n + 1, n + 2);
    StraightFacts(a.c, c1, 1, 0);
    c2 := LowerStmt(st.thn, c1.SetInsert(n + 1));
    GrowsFacts(c1.SetInsert(n + 1), c2);
    c3 := EmitUnlessClosed(c2, Br(n));
    StraightFacts(c2, c3, 0, 0);
    BranchUnfolds(st.thn, c1.SetInsert(n + 1), n);
    c4 := LowerStmt(st.els, c3.SetInsert(n + 2));
    GrowsFacts(c3.SetInsert(n + 2), c4);
    c5 := EmitUnlessClosed(c4, Br(n));
    StraightFacts(c4, c5, 0, 0);
    BranchUnfolds(st.els, c3.SetInsert(n + 2), n);
  }

  lemma IfBlocks(p: Program, c: Code, a: Code, c1: Code, c2: Code, c3: Code, c4: Code, c5: Code)
    requires c.Valid() && Grows(c.NewBlocks(3), a) && Straight(a, c1, 1, 0)
    requires Grows(c1.SetInsert(|c.blocks| + 1), c2) && Straight(c2, c3, 0, 0) && |c.blocks| + 2 < |c3.blocks|
    requires Grows(c3.SetInsert(|c.blocks| + 2), c4) && Straight(c4, c5, 0, 0)
    requires Within(c5, p)
    ensures Within(a, p) && Within(c1, p) && Within(c2, p) && Within(c3, p) && Within(c4, p)
    ensures |c.blocks| < |c5.blocks| && c5.blocks[|c.blocks|] == []
    ensures c1.blocks[|c.blocks| + 1] == [] && c3.blocks[|c.blocks| + 2] == []
    ensures c.next <= a.next < c1.next <= c2.next == c3.next <= c4.next
  {
    hide Within, Grows;
    var n := |c.blocks|;
    GrowsFacts(c.NewBlocks(3), a);
    GrowsBlock(c.NewBlocks(3), a, n);
    GrowsBlock(c.NewBlocks(3), a, n + 1);
    GrowsBlock(c.NewBlocks(3), a, n + 2);
    GrowsBlock(a, c1, n);
    GrowsBlock(a, c1, n + 1);
    GrowsBlock(a, c1, n + 2);
    GrowsFacts(c1.SetInsert(n + 1), c2);
    GrowsBlock(c1.SetInsert(n + 1), c2, n);
    GrowsBlock(c1.SetInsert(n + 1), c2, n + 2);
    GrowsBlock(c2, c3, n);
    GrowsBlock(c2, c3, n + 2);
    GrowsFacts(c3.SetInsert(n + 2), c4);
    GrowsBlock(c3.SetInsert(n + 2), c4, n);
    GrowsBlock(c4, c5, n);
    GrowsWithin(c4, c5, p);
    GrowsWithin(c3.SetInsert(n + 2), c4, p);
    WithinMoved(c3, n + 2, p);
    GrowsWithin(c2, c3, p);
    GrowsWithin(c1.SetInsert(n + 1), c2, p);
    WithinMoved(c1, n + 1, p);
    GrowsWithin(a, c1, p);
  }

  lemma BranchIfRuns(p: Program, c: Code, v: Operand, yes: nat, no: nat, m: Machine) returns (w: Machine)
    requires Ready(c, m) && Inv(m) && Within(BranchIf(c, v, yes, no), p)
    ensures Reaches(p, m, 2, w) && Kept(c.next, m, w, 0) && w.mem == m.mem && w.out == m.out
    ensures w.pc == 0 && w.block == (if Truth(m.Val(v)) then yes else no)
  {
    var c1 := Operation(c, IsNonZero, v, NONE);
    var c2 := Emit(c1, CondBr(Reg(c.next), yes, no));
    assert BranchIf(c, v, yes, no) == c2;
    GrowsWithin(c1, c2, p);
    var y := OperationRuns(p, c, IsNonZero, v, NONE, m);
    StepIs(p, c1, CondBr(Reg(c.next), yes, no), y);
    w := y.Goto(if Truth(m.Val(v)) then yes else no);
    ReachTrans(p, m, 1, y, 1, w);
  }

  lemma IfRuns(p: Program, st: Stmt, c: Code, m: Machine, s: State)
    returns (n: nat, w: Machine)
    requires st.If?
    requires Ready(c, m) && Inv(m) && Same(m, s) && Within(LowerStmt(st, c), p)
    ensures Sim(p, c.next, m, EvalStmt(st, s), LowerStmt(st, c), NONE, n, w)
    decreases st, 0
  {
    hide BranchIf, Emit, LowerExpr, LowerStmt, Within, Grows, Kept, Inv, Run, Step, Straight;
    var a, c1, c2, c3, c4, c5 := IfUnfolds(st, c);
    var l := |c.blocks|;
    WithinMoved(c5, l, p);
    IfBlocks(p, c, a.c, c1, c2, c3, c4, c5);
    StraightFacts(a.c, c1, 1, 0);
    assert Ready(c.NewBlocks(3), m);
    n, w := ExprRuns(p, st.cond, c.NewBlocks(3), m, s);
    var r := EvalExpr(st.cond, s);
    if r.o.Normal? {
      KeptFacts(c.next, m, w, r.leaked);
      var n1, w1 := n, w;
      var y := BranchIfRuns(p, a.c, a.v, l + 1, l + 2, w1);
      ReachTrans(p, m, n1, w1, 2, y);
      KeptTrans(c.next, m, w1, r.leaked, a.c.next, y, 0);
      KeptFacts(a.c.next, w1, y, 0);
      if Truth(r.o.v) {
        StartReady(c1, l + 1, y);
        WithinMoved(c1, l + 1, p);
        n, w := BranchRunsTo(p, st.thn, c1.SetInsert(l + 1), y, r.s, c.next, m, n1 + 2, r, c5, l);
      } else {
        StartReady(c3, l + 2, y);
        WithinMoved(c3, l + 2, p);
        n, w := BranchRunsTo(p, st.els, c3.SetInsert(l + 2), y, r.s, c.next, m, n1 + 2, r, c5, l);
      }
    }
  }

  /** One branch, and the jump to the block after the `if`. */
  lemma BranchRunsTo(p: Program, st: Stmt, c: Code, y: Machine, s: State,
                     k: nat, m: Machine, n0: nat, r: Res, d: Code, at: nat)
    returns (n: nat, w: Machine)
    requires Ready(c, y) && Inv(y) && Same(y, s) && Within(LowerStmt(st, c), p)
    requires Within(EmitUnlessClosed(LowerStmt(st, c), Br(at)), p)
    requires Reaches(p, m, n0, y) && Kept(k, m, y, r.leaked) && k <= c.next
    requires at < |d.blocks| && d.blocks[at] == []
    ensures Sim(p, k, m, Then(r, EvalStmt(st, s)), d.SetInsert(at), NONE, n, w)
    decreases st, 3
  {
    hide Emit, LowerStmt, Within, Grows, Kept, Inv, Run, Step, Straight, EvalStmt;
    var e := LowerStmt(st, c);
    GrowsFacts(c, e);
    n, w := StmtRuns(p, st, c, y, s);
    var b := EvalStmt(st, s);
    Chain(p, k, m, n0, y, r.leaked, c.next, b, e, NONE, n, w);
    n := n0 + n;
    if b.o.Normal? {
      KeptFacts(k, m, w, r.leaked + b.leaked);
      UnlessOpen(e, Br(at));
      var z := JumpRuns(p, e, at, w);
      ReachTrans(p, m, n, w, 1, z);
      MovedKept(k, w, z);
      KeptTrans(k, m, w, r.leaked + b.leaked, k, z, 0);
      StartReady(d, at, z);
      n, w := n + 1, z;
    }
  }

  lemma UnlessOpen(c: Code, i: Instr)
    requires c.Valid() && !c.Closed()
    ensures EmitUnlessClosed(c, i) == Emit(c, i)
  {
  }

  // ---------------------------------------------------------------- catch clauses

  /** The caught error and its type ids are in registers `e`, `e + 1`, `e + 2`. */
  ghost predicate Loaded(m: Machine, e: nat, err: Error) {
    && m.RegVal(e) == Err(err)
    && m.RegVal(e + 1) == Int(err.typeId)
    && m.RegVal(e + 2) == Int(err.parentId)
  }

  lemma DispatchRuns(p: Program, c: Code, k: nat, m: Machine, y: Machine, f: Frame, err: Error, leak: nat)
    returns (w: Machine)
    requires Ready(c, y) && Within(Dispatch(c, k), p) && k < c.next
    requires Holding(k, m, y, f, true, leak) && y.Data(f).error == err
    ensures Reaches(p, y, 4, w) && Ready(Dispatch(c, k), w) && Holding(k, m, w, f, false, leak)
    ensures Loaded(w, c.next, err) && w.mem == y.mem && w.out == y.out && w.Data(f) == y.Data(f)
  {
    hide Dispatch, Operation, Within, Holding, Run, Step, Emit, Grows, Kept;
    var c1 := Emit(c, EhPop);
    StraightFacts(c, c1, 0, 0);
    var c2 := Emit(c1, EhGetError(c.next, Reg(k))).Fresh();
    var c3 := Operation(c2, GetTypeId, Reg(c.next), NONE);
    var c4 := Operation(c3, GetParentId, Reg(c.next), NONE);
    DispatchPlaced(p, c, k, c1, c2, c3, c4);
    var y1 := PopRuns(p, c, m, y, f, k, leak);
    var y2 := GetErrorRuns(p, c1, k, m, y1, f, err, leak);
    HoldingCounts(k, m, y2, f, leak);
    var y3 := OperationRuns(p, c2, GetTypeId, Reg(c.next), NONE, y2);
    assert Inv(y3);
    w := OperationRuns(p, c3, GetParentId, Reg(c.next), NONE, y3);
    ReachTrans(p, y, 1, y1, 1, y2);
    ReachTrans(p, y, 2, y2, 1, y3);
    ReachTrans(p, y, 3, y3, 1, w);
    HoldingMoved(k, m, y2, f, false, leak, w);
  }

  lemma GetErrorRuns(p: Program, c: Code, k: nat, m: Machine, y: Machine, f: Frame, err: Error, leak: nat)
    returns (w: Machine)
    requires Ready(c, y) && Within(Emit(c, EhGetError(c.next, Reg(k))), p) && k < c.next
    requires Holding(k, m, y, f, false, leak) && y.Data(f).error == err
    ensures w == y.Set(c.next, Err(err)) && Reaches(p, y, 1, w)
    ensures Ready(Emit(c, EhGetError(c.next, Reg(k))).Fresh(), w) && Holding(k, m, w, f, false, leak)
  {
    var i := EhGetError(c.next, Reg(k));
    StepIs(p, c, i, y);
    w := y.Set(c.next, Err(err));
    assert Exec(i, y) == Running(w);
    NextReady(c, i, y, w);
    HoldingMoved(k, m, y, f, false, leak, w);
  }

  lemma DispatchPlaced(p: Program, c: Code, k: nat, c1: Code, c2: Code, c3: Code, c4: Code)
    requires c.Valid() && Within(Dispatch(c, k), p)
    requires c1 == Emit(c, EhPop) && c2 == Emit(c1, EhGetError(c.next, Reg(k))).Fresh()
    requires c3 == Operation(c2, GetTypeId, Reg(c.next), NONE)
    requires c4 == Operation(c3, GetParentId, Reg(c.next), NONE)
    ensures c4 == Dispatch(c, k)
    ensures Within(c1, p) && Within(Emit(c1, EhGetError(c.next, Reg(k))), p) && Within(c2, p)
    ensures Within(c3, p) && Within(c4, p)
  {
    GrowsWithin(c3, c4, p);
    GrowsWithin(c2, c3, p);
    GrowsWithin(c1, Emit(c1, EhGetError(c.next, Reg(k))), p);
  }

  lemma TestRuns(p: Program, c: Code, e: nat, name: string, y: Machine, err: Error) returns (w: Machine)
    requires Ready(c, y) && Within(TestClause(c, e, name), p) && Loaded(y, e, err) && e + 2 < c.next
    ensures Reaches(p, y, 4, w) && w.pc == 0
    ensures w.block == (if Matches(name, err) then |c.blocks| else |c.blocks| + 1)
    ensures w == y.(regs := w.regs, prev := w.prev, block := w.block, pc := w.pc)
    ensures forall r | 0 <= r < c.next :: w.RegVal(r) == y.RegVal(r)
  {
    hide Fnv, TestClause, Within, Run, CodeAt, Step, Exec;
    TestPlaced(p, c, e, name);
    var m2 := CompareSteps(p, c, e, name, y, err);
    w := ChooseSteps(p, c, e, name, m2, y.pc, err);
    ReachTrans(p, y, 2, m2, 2, w);
  }

  lemma CompareSteps(p: Program, c: Code, e: nat, name: string, y: Machine, err: Error) returns (w: Machine)
    requires CodeAt(p, y.block, y.pc, TestCode(c, e, name)) && Loaded(y, e, err) && e + 2 < c.next
    ensures Reaches(p, y, 2, w)
    ensures w == y.(regs := y.regs[c.next := Bool(err.typeId == Fnv(name))]
                                  [c.next + 1 := Bool(err.parentId == Fnv(name))], pc := y.pc + 2)
  {
    hide Fnv;
    var code := TestCode(c, e, name);
    StepAt(p, y, y.pc, code, 0);
    var m1 := y.Set(c.next, Bool(err.typeId == Fnv(name)));
    assert Exec(code[0], y) == Running(m1);
    StepAt(p, m1, y.pc, code, 1);
    w := m1.Set(c.next + 1, Bool(err.parentId == Fnv(name)));
    assert Exec(code[1], m1) == Running(w);
    assert Run(p, m1, 1) == Run(p, w, 0);
    assert Run(p, y, 2) == Run(p, m1, 1);
  }

  lemma ChooseSteps(p: Program, c: Code, e: nat, name: string, y: Machine, pc: nat, err: Error) returns (w: Machine)
    requires CodeAt(p, y.block, pc, TestCode(c, e, name)) && y.pc == pc + 2
    requires y.RegVal(c.next) == Bool(err.typeId == Fnv(name))
    requires y.RegVal(c.next + 1) == Bool(err.parentId == Fnv(name))
    ensures Reaches(p, y, 2, w)
    ensures w == y.(regs := y.regs[c.next + 2 := Bool(Matches(name, err))], prev := y.block, pc := 0,
                    block := if Matches(name, err) then |c.blocks| else |c.blocks| + 1)
  {
    hide Fnv;
    var code := TestCode(c, e, name);
    StepAt(p, y, pc, code, 2);
    var m3 := y.Set(c.next + 2, Bool(Matches(name, err)));
    assert Exec(code[2], y) == Running(m3);
    StepAt(p, m3, pc, code, 3);
    assert m3.RegVal(c.next + 2) == Bool(Matches(name, err));
    w := m3.Goto(if Matches(name, err) then |c.blocks| else |c.blocks| + 1);
    assert Exec(code[3], m3) == Running(w);
    assert Run(p, m3, 1) == Run(p, w, 0);
    assert Run(p, y, 2) == Run(p, m3, 1);
  }

  function TestCode(c: Code, e: nat, name: string): seq<Instr> {
    [Pure(c.next, IsEqual, Reg(e + 1), Const(Int(Fnv(name)))),
     Pure(c.next + 1, IsEqual, Reg(e + 2), Const(Int(Fnv(name)))),
     Pure(c.next + 2, Or, Reg(c.next), Reg(c.next + 1)),
     CondBr(Reg(c.next + 2), |c.blocks|, |c.blocks| + 1)]
  }

  lemma TestPlaced(p: Program, c: Code, e: nat, name: string)
    requires c.Valid() && Within(TestClause(c, e, name), p)
    ensures CodeAt(p, c.cur, |c.blocks[c.cur]|, TestCode(c, e, name))
  {
    hide Fnv;
    var r := TestClause(c, e, name);
    assert r.blocks[c.cur] == c.blocks[c.cur] + TestCode(c, e, name);
    assert r.blocks[c.cur] <= p[c.cur];
  }

  /** Re-raising pushes the frame it was caught in and throws into it again. */
  lemma RethrowRuns(p: Program, c: Code, k: nat, e: nat, m: Machine, y: Machine, f: Frame, err: Error, leak: nat)
    returns (w: Machine)
    requires Ready(c, y) && Within(Rethrow(c, k, e), p) && k < c.next && e < c.next
    requires Holding(k, m, y, f, false, leak) && y.RegVal(e) == Err(err)
    ensures Reaches(p, y, 3, w) && Step(p, w) == Throw(w, err) && Holding(k, m, w, f, true, leak)
    ensures w.Data(f).resume == y.Data(f).resume && w.mem == y.mem && w.out == y.out
  {
    hide Inv, Throw;
    var code := RethrowCode(c, k, e);
    RethrowPlaced(p, c, k, e);
    var r := y.Data(f).resume;
    StepAt(p, y, y.pc, code, 0);
    var m1 := y.(eh := y.eh + [f], frames := y.frames[f := FrameData(r, NO_ERROR)]).Next();
    assert Exec(code[0], y) == Running(m1);
    StepAt(p, m1, y.pc, code, 1);
    assert m1.Data(f) == FrameData(r, NO_ERROR);
    var m2 := m1.(frames := m1.frames[f := FrameData(r, err)]).Next();
    assert Exec(code[1], m1) == Running(m2);
    StepAt(p, m2, y.pc, code, 2);
    assert m2.Data(f) == FrameData(r, err);
    w := m2.Set(c.next, Err(err));
    assert Exec(code[2], m2) == Running(w);
    StepAt(p, w, y.pc, code, 3);
    assert w.RegVal(c.next) == Err(err);
    assert Run(p, m2, 1) == Run(p, w, 0);
    assert Run(p, m1, 2) == Run(p, m2, 1);
    assert Run(p, y, 3) == Run(p, m1, 2);
    RethrownHolds(k, m, y, w, f, leak);
  }

  /** The frame is pushed again; everything else about it is as it was. */
  lemma RethrownHolds(k: nat, m: Machine, y: Machine, w: Machine, f: Frame, leak: nat)
    requires Holding(k, m, y, f, false, leak)
    requires w.eh == y.eh + [f] && w.used == y.used && w.heap == y.heap && w.heapNext == y.heapNext
    requires forall g | g != f :: w.Data(g) == y.Data(g)
    requires forall r | 0 <= r <= k :: w.RegVal(r) == y.RegVal(r)
    ensures Holding(k, m, w, f, true, leak)
  {
    forall g | g in m.eh ensures w.Data(g).resume == m.Data(g).resume {
      assert g != f;
    }
    forall g | g in w.eh ensures Live(w, g) {
      if g != f { assert g in y.eh && Live(y, g); }
    }
  }

  function RethrowCode(c: Code, k: nat, e: nat): seq<Instr> {
    [EhPush(Reg(k)), EhSetError(Reg(k), Reg(e)), EhGetError(c.next, Reg(k)), EhThrow(Reg(c.next)), Unreachable]
  }

  lemma RethrowPlaced(p: Program, c: Code, k: nat, e: nat)
    requires c.Valid() && Within(Rethrow(c, k, e), p)
    ensures CodeAt(p, c.cur, |c.blocks[c.cur]|, RethrowCode(c, k, e))
  {
    var r := Rethrow(c, k, e);
    assert r.blocks[c.cur] == c.blocks[c.cur] + RethrowCode(c, k, e);
    assert r.blocks[c.cur] <= p[c.cur];
  }

  lemma ClauseUnfolds(cs: Catches, c: Code, k: nat, e: nat, final: nat, first: bool)
    returns (c1: Code, c2: Code, c3: Code, c4: Code)
    requires cs.Catch? && c.Valid()
    ensures c1 == TestClause(c, e, cs.typeName) && Straight(c, c1, 3, 2)
    ensures c2 == Emit(c1.SetInsert(|c.blocks|), Store(cs.slot, Reg(e)))
    ensures Straight(c1.SetInsert(|c.blocks|), c2, 0, 0)
    ensures c3 == LowerStmt(cs.body, c2) && Grows(c2, c3)
    ensures c4 == EmitUnlessClosed(c3, Br(final)) && Straight(c3, c4, 0, 0) && |c.blocks| + 1 < |c4.blocks|
    ensures LowerCatches(cs, c, k, e, final, first) == LowerCatches(cs.rest, c4.SetInsert(|c.blocks| + 1), k, e, final, false)
    ensures Grows(c4.SetInsert(|c.blocks| + 1), LowerCatches(cs, c, k, e, final, first))
  {
    hide TestClause, Emit, LowerStmt, EmitUnlessClosed;
    c1 := TestClause(c, e, cs.typeName);
    c2 := Emit(c1.SetInsert(|c.blocks|), Store(cs.slot, Reg(e)));
    c3 := LowerStmt(cs.body, c2);
    c4 := EmitUnlessClosed(c3, Br(final));
  }

  lemma ClauseBlocks(p: Program, c: Code, c1: Code, c2: Code, c3: Code, c4: Code, c5: Code)
    requires Straight(c, c1, 3, 2) && Straight(c1.SetInsert(|c.blocks|), c2, 0, 0) && Grows(c2, c3)
    requires Straight(c3, c4, 0, 0) && |c.blocks| + 1 < |c4.blocks|
    requires Grows(c4.SetInsert(|c.blocks| + 1), c5) && Within(c5, p)
    ensures Within(c1, p) && Within(c2, p) && Within(c3, p) && Within(c4, p)
    ensures |c1.blocks| == |c.blocks| + 2 && c1.blocks[|c.blocks|] == []
    ensures c4.blocks[|c.blocks| + 1] == []
    ensures c.next + 3 == c1.next == c2.next <= c3.next == c4.next
  {
    hide Within, Grows;
    var n := |c.blocks|;
    var b := c1.SetInsert(n);
    GrowsBlock(b, c2, n + 1);
    GrowsFacts(c2, c3);
    GrowsBlock(c2, c3, n + 1);
    GrowsBlock(c3, c4, n + 1);
    GrowsWithin(c4.SetInsert(n + 1), c5, p);
    WithinMoved(c4, n + 1, p);
    GrowsWithin(c3, c4, p);
    GrowsWithin(c2, c3, p);
    GrowsWithin(b, c2, p);
    WithinMoved(c1, n, p);
  }

  /** No clause matches: the chain ends in the re-raise, about to throw into the
      very frame the error was caught in. */
  lemma NoMatchRuns(p: Program, cs: Catches, c: Code, k: nat, e: nat, final: nat, first: bool,
                    m: Machine, y: Machine, f: Frame, err: Error, s: State, leak: nat)
    returns (n: nat, w: Machine)
    requires Ready(c, y) && Holding(k, m, y, f, false, leak) && Loaded(y, e, err) && k < e && e + 2 < c.next
    requires Within(LowerCatches(cs, c, k, e, final, first), p)
    requires EvalCatches(cs, err, s).None? && (cs.Catch? || !first)
    ensures Reaches(p, y, n, w) && Step(p, w) == Throw(w, err) && Holding(k, m, w, f, true, leak)
    ensures w.Data(f).resume == y.Data(f).resume && w.mem == y.mem && w.out == y.out
    decreases cs, 1
  {
    hide Rethrow, Within, Holding, Run, Step, Throw, EvalCatches;
    if cs.NoMore? {
      n := 3;
      w := RethrowRuns(p, c, k, e, m, y, f, err, leak);
    } else {
      n, w := NoMatchClause(p, cs, c, k, e, final, first, m, y, f, err, s, leak);
    }
  }

  lemma NoMatchClause(p: Program, cs: Catches, c: Code, k: nat, e: nat, final: nat, first: bool,
                      m: Machine, y: Machine, f: Frame, err: Error, s: State, leak: nat)
    returns (n: nat, w: Machine)
    requires Ready(c, y) && Holding(k, m, y, f, false, leak) && Loaded(y, e, err) && k < e && e + 2 < c.next
    requires Within(LowerCatches(cs, c, k, e, final, first), p)
    requires EvalCatches(cs, err, s).None? && cs.Catch?
    ensures Reaches(p, y, n, w) && Step(p, w) == Throw(w, err) && Holding(k, m, w, f, true, leak)
    ensures w.Data(f).resume == y.Data(f).resume && w.mem == y.mem && w.out == y.out
    decreases cs, 0
  {
    hide TestClause, Emit, LowerStmt, EmitUnlessClosed, Within, Grows, Straight, Holding, Run, Step, Fnv, EvalStmt,
      LowerCatches, Throw;
    var c1, c2, c3, c4 := ClauseUnfolds(cs, c, k, e, final, first);
    ClauseBlocks(p, c, c1, c2, c3, c4, LowerCatches(cs, c, k, e, final, first));
    var z := TestRuns(p, c, e, cs.typeName, y, err);
    HoldingMoved(k, m, y, f, false, leak, z);
    StartReady(c4, |c.blocks| + 1, z);
    n, w := NoMatchRuns(p, cs.rest, c4.SetInsert(|c.blocks| + 1), k, e, final, false, m, z, f, err, s, leak);
    ReachTrans(p, y, 4, z, n, w);
    n := 4 + n;
  }

  /** About to throw `err` into the frame `f` of a `try` entered at `c` from `m`. */
  ghost predicate AtThrow(p: Program, c: Code, m: Machine, t: Machine, f: Frame, err: Error, leak: nat) {
    Holding(c.next, m, t, f, true, leak) && Armed(c, t, f) && Step(p, t) == Throw(t, err)
  }

  /** Landing in the catch block and loading the error. */
  lemma CaughtRuns(p: Program, c: Code, d: Code, m: Machine, t: Machine, f: Frame, err: Error, leak: nat)
    returns (w: Machine)
    requires c.Valid() && Within(Enter(c, 4, |c.blocks| + 1, |c.blocks|), p) && AtThrow(p, c, m, t, f, err, leak)
    requires |c.blocks| + 1 < |d.blocks| && d.blocks[|c.blocks| + 1] == [] && c.next < d.next
    requires Within(Dispatch(d.SetInsert(|c.blocks| + 1), c.next), p)
    ensures Reaches(p, t, 7, w) && Ready(Dispatch(d.SetInsert(|c.blocks| + 1), c.next), w)
    ensures Holding(c.next, m, w, f, false, leak) && Loaded(w, d.next, err) && Armed(c, w, f)
    ensures w.mem == t.mem && w.out == t.out
  {
    hide Enter, Dispatch, Within, Holding, Throw, Run, Step;
    var n := |c.blocks|;
    var y := LandRuns(p, c, 4, n + 1, n, m, t, f, err, leak);
    StartReady(d, n + 1, y);
    w := DispatchRuns(p, d.SetInsert(n + 1), c.next, m, y, f, err, leak);
    ReachTrans(p, t, 3, y, 4, w);
  }

  /** An unmatched error is thrown into its own frame over and over. */
  lemma {:induction false} HungRuns(p: Program, c: Code, d: Code, m: Machine, t: Machine, f: Frame, err: Error, s: State,
                 leak: nat, cs: Catches, j: nat)
    requires c.Valid() && Within(Enter(c, 4, |c.blocks| + 1, |c.blocks|), p) && AtThrow(p, c, m, t, f, err, leak)
    requires |c.blocks| + 1 < |d.blocks| && d.blocks[|c.blocks| + 1] == [] && c.next < d.next
    requires Within(Dispatch(d.SetInsert(|c.blocks| + 1), c.next), p)
    requires Within(LowerCatches(cs, Dispatch(d.SetInsert(|c.blocks| + 1), c.next), c.next, d.next, |c.blocks| + 2, true), p)
    requires cs.Catch? && EvalCatches(cs, err, s).None?
    ensures Run(p, t, j).Running?
    decreases j
  {
    hide Enter, Dispatch, Within, Holding, Throw, Run, Step, LowerCatches, Straight, EvalCatches;
    var e := Dispatch(d.SetInsert(|c.blocks| + 1), c.next);
    StraightFacts(d.SetInsert(|c.blocks| + 1), e, 3, 0);
    var y := CaughtRuns(p, c, d, m, t, f, err, leak);
    var n, z := NoMatchRuns(p, cs, e, c.next, d.next, |c.blocks| + 2, true, m, y, f, err, s, leak);
    ReachTrans(p, t, 7, y, n, z);
    if j <= 7 + n {
      RunsUpTo(p, t, 7 + n, z, j);
    } else {
      HungRuns(p, c, d, m, z, f, err, s, leak, cs, j - (7 + n));
      RunSplit(p, t, 7 + n, z, j - (7 + n));
    }
  }

  /** How a clause that ran leaves the `try`: through `finally`, or abruptly. */
  ghost predicate Handled(p: Program, k: nat, m: Machine, f: Frame, final: nat, leak: nat, b: Res, n: nat, w: Machine) {
    if b.o.Normal? then
      && Reaches(p, m, n, w) && w.block == final && w.pc == 0
      && Holding(k, m, w, f, false, leak + b.leaked) && Same(w, b.s)
    else
      Sim(p, k, m, LeaveHandler(b).(leaked := leak + LeaveHandler(b).leaked), Code([], 0, 0), NONE, n, w)
  }

  /** A held frame that is no longer on the stack is one more leaked frame. */
  lemma Abandon(k: nat, m: Machine, w: Machine, f: Frame, leak: nat)
    requires Holding(k, m, w, f, false, leak)
    ensures Kept(k, m, w, leak + 1)
  {
  }

  /** Code run while holding the popped frame. */
  lemma HoldingSim(p: Program, k: nat, m: Machine, n0: nat, y: Machine, f: Frame, leak: nat,
                   k1: nat, r: Res, c: Code, n: nat, w: Machine)
    requires Reaches(p, m, n0, y) && Holding(k, m, y, f, false, leak) && k < k1
    requires Sim(p, k1, y, r, c, NONE, n, w) && !r.o.Normal?
    ensures Sim(p, k, m, LeaveHandler(r).(leaked := leak + LeaveHandler(r).leaked), c, NONE, n0 + n, w)
  {
    hide Holding, Kept, Run, Step;
    if r.o.Hung? {
      ForeverAfter(p, m, n0, y);
    } else if r.o.Thrown? {
      ReachTrans(p, m, n0, y, n, w);
      HoldingKept(k, m, y, f, false, leak, k1, w, r.leaked);
      Abandon(k, m, w, f, leak + r.leaked);
    } else if r.o.Returned? {
      ReachTrans(p, m, n0, y, n, w);
      HoldingCounts(k, m, y, f, leak);
    }
  }

  lemma HoldingCounts(k: nat, m: Machine, w: Machine, f: Frame, leak: nat)
    requires Holding(k, m, w, f, false, leak)
    ensures w.eh == m.eh && w.used + |w.heap| == m.used + |m.heap| + 1 + leak && Inv(w)
  {
  }

  lemma CatchesRuns(p: Program, cs: Catches, c: Code, k: nat, e: nat, final: nat, first: bool,
                    m: Machine, n0: nat, y: Machine, f: Frame, err: Error, s: State, leak: nat)
    returns (n: nat, w: Machine)
    requires Ready(c, y) && Holding(k, m, y, f, false, leak) && Loaded(y, e, err) && k < e && e + 2 < c.next
    requires Reaches(p, m, n0, y) && Same(y, s)
    requires Within(LowerCatches(cs, c, k, e, final, first), p)
    requires EvalCatches(cs, err, s).Some?
    ensures Handled(p, k, m, f, final, leak, EvalCatches(cs, err, s).value, n, w)
    decreases cs, 0
  {
    hide TestClause, Emit, LowerStmt, EmitUnlessClosed, Within, Grows, Straight, Holding, Kept, Run, Step, EvalStmt,
      Sim, Inv, Fnv, LowerCatches;
    var l := |c.blocks|;
    var c1, c2, c3, c4 := ClauseUnfolds(cs, c, k, e, final, first);
    ClauseBlocks(p, c, c1, c2, c3, c4, LowerCatches(cs, c, k, e, final, first));
    GrowsFacts(c2, c3);
    var z := TestRuns(p, c, e, cs.typeName, y, err);
    HoldingMoved(k, m, y, f, false, leak, z);
    ReachTrans(p, m, n0, y, 4, z);
    if Matches(cs.typeName, err) {
      StartReady(c1, l, z);
      HoldingCounts(k, m, z, f, leak);
      var i := Store(cs.slot, Reg(e));
      var x := EffectRuns(p, c1.SetInsert(l), i, z);
      ReachTrans(p, m, n0 + 4, z, 1, x);
      HoldingKept(k, m, z, f, false, leak, c1.next, x, 0);
      KeptFacts(c1.next, z, x, 0);
      n, w := StmtRuns(p, cs.body, c2, x, s.Put(cs.slot, Err(err)));
      var b := EvalStmt(cs.body, s.Put(cs.slot, Err(err)));
      if b.o.Normal? {
        n, w := ToFinally(p, c3, final, k, m, n0 + 5, x, f, leak, c2.next, b, n, w);
      } else {
        HoldingSim(p, k, m, n0 + 5, x, f, leak, c2.next, b, c3, n, w);
        SimElsewhere(p, k, m, LeaveHandler(b).(leaked := leak + LeaveHandler(b).leaked), c3, n0 + 5 + n, w);
        n := n0 + 5 + n;
      }
    } else {
      StartReady(c4, l + 1, z);
      n, w := CatchesRuns(p, cs.rest, c4.SetInsert(l + 1), k, e, final, false, m, n0 + 4, z, f, err, s, leak);
    }
  }

  lemma SimElsewhere(p: Program, k: nat, m: Machine, r: Res, c: Code, n: nat, w: Machine)
    requires Sim(p, k, m, r, c, NONE, n, w) && !r.o.Normal?
    ensures Sim(p, k, m, r, Code([], 0, 0), NONE, n, w)
  {
  }

  /** A clause body that ends normally jumps to the finally block. */
  lemma ToFinally(p: Program, c: Code, final: nat, k: nat, m: Machine, n0: nat, x: Machine, f: Frame, leak: nat,
                  k1: nat, b: Res, n1: nat, w1: Machine)
    returns (n: nat, w: Machine)
    requires Reaches(p, m, n0, x) && Holding(k, m, x, f, false, leak) && k < k1 && b.o.Normal?
    requires Sim(p, k1, x, b, c, NONE, n1, w1) && c.Valid() && Within(EmitUnlessClosed(c, Br(final)), p)
    ensures Handled(p, k, m, f, final, leak, b, n, w)
  {
    hide Emit, Within, Holding, Kept, Run, Step;
    ReachTrans(p, m, n0, x, n1, w1);
    HoldingKept(k, m, x, f, false, leak, k1, w1, b.leaked);
    UnlessOpen(c, Br(final));
    w := JumpRuns(p, c, final, w1);
    ReachTrans(p, m, n0 + n1, w1, 1, w);
    HoldingMoved(k, m, w1, f, false, leak + b.leaked, w);
    n := n0 + n1 + 1;
  }

  // ---------------------------------------------------------------- try/catch/finally

  lemma TryCatchUnfolds(st: Stmt, c: Code)
    returns (t: Code, c1: Code, c2: Code, c3: Code, c4: Code, c5: Code, c6: Code)
    requires st.TryCatch? && c.Valid()
    ensures t == Enter(c, 4, |c.blocks| + 1, |c.blocks|) && Straight(c, t, 3, 4)
    ensures c1 == LowerStmt(st.body, t.SetInsert(|c.blocks|)) && Grows(t.SetInsert(|c.blocks|), c1)
    ensures c2 == LeaveBody(c1, |c.blocks| + 2) && Straight(c1, c2, 0, 0) && |c.blocks| + 3 < |c2.blocks|
    ensures c3 == Dispatch(c2.SetInsert(|c.blocks| + 1), c.next) && Straight(c2.SetInsert(|c.blocks| + 1), c3, 3, 0)
    ensures c4 == LowerCatches(st.catches, c3, c.next, c2.next, |c.blocks| + 2, true) && Grows(c3, c4)
    ensures |c.blocks| + 3 < |c4.blocks|
    ensures c5 == LowerStmt(st.final, c4.SetInsert(|c.blocks| + 2)) && Grows(c4.SetInsert(|c.blocks| + 2), c5)
    ensures c6 == LeaveFinal(c5, c.next, |c.blocks| + 3) && Straight(c5, c6, 0, 0)
    ensures LowerStmt(st, c) == c6.SetInsert(|c.blocks| + 3)
  {
    hide Enter, LeaveBody, Dispatch, LowerCatches, LeaveFinal, LowerTryBody, LowerHandlers, Grows, Straight;
    var n := |c.blocks|;
    assert LowerStmt(st, c) == LowerTryCatch(st, c);
    t, c1, c2 := TryBodyUnfolds(st, c);
    c3, c4 := HandlersUnfold(st, c, c2);
    c5 := LowerStmt(st.final, c4.SetInsert(n + 2));
    GrowsFacts(c4.SetInsert(n + 2), c5);
    c6 := LeaveFinal(c5, c.next, n + 3);
    assert LowerTryCatch(st, c) == c6.SetInsert(n + 3);
  }

  lemma TryBodyUnfolds(st: Stmt, c: Code) returns (t: Code, c1: Code, c2: Code)
    requires st.TryCatch? && c.Valid()
    ensures t == Enter(c, 4, |c.blocks| + 1, |c.blocks|) && Straight(c, t, 3, 4) && |c.blocks| < |t.blocks|
    ensures c1 == LowerStmt(st.body, t.SetInsert(|c.blocks|)) && Grows(t.SetInsert(|c.blocks|), c1) && c1.Valid()
    ensures c2 == LeaveBody(c1, |c.blocks| + 2) == LowerTryBody(st, c) && Straight(c1, c2, 0, 0)
    ensures |c.blocks| + 3 < |c2.blocks|
  {
    hide Enter, LeaveBody, LowerStmt;
    var n := |c.blocks|;
    t := Enter(c, 4, n + 1, n);
    c1 := LowerStmt(st.body, t.SetInsert(n));
    c2 := LeaveBody(c1, n + 2);
    assert c2 == LowerTryBody(st, c);
  }

  lemma HandlersUnfold(st: Stmt, c: Code, c2: Code) returns (c3: Code, c4: Code)
    requires st.TryCatch? && |c.blocks| + 4 <= |c2.blocks|
    ensures c3 == Dispatch(c2.SetInsert(|c.blocks| + 1), c.next) && Straight(c2.SetInsert(|c.blocks| + 1), c3, 3, 0)
    ensures c3.Valid() && c4 == LowerCatches(st.catches, c3, c.next, c2.next, |c.blocks| + 2, true)
    ensures c4 == LowerHandlers(st, c, c2) && Grows(c3, c4) && |c2.blocks| <= |c4.blocks|
  {
    hide Dispatch, LowerCatches;
    c3 := Dispatch(c2.SetInsert(|c.blocks| + 1), c.next);
    c4 := LowerCatches(st.catches, c3, c.next, c2.next, |c.blocks| + 2, true);
    assert c4 == LowerHandlers(st, c, c2);
  }

  lemma TryCatchBlocks(p: Program, c: Code, t: Code, c1: Code, c2: Code, c3: Code, c4: Code, c5: Code, c6: Code)
    requires Straight(c, t, 3, 4) && Grows(t.SetInsert(|c.blocks|), c1) && Straight(c1, c2, 0, 0)
    requires |c.blocks| + 3 < |c2.blocks| && Straight(c2.SetInsert(|c.blocks| + 1), c3, 3, 0)
    requires Grows(c3, c4) && |c.blocks| + 3 < |c4.blocks|
    requires Grows(c4.SetInsert(|c.blocks| + 2), c5) && Straight(c5, c6, 0, 0) && Within(c6, p)
    ensures Within(t, p) && Within(c1, p) && Within(c2, p) && Within(c3, p) && Within(c4, p) && Within(c5, p)
    ensures |t.blocks| == |c.blocks| + 4 && t.blocks[|c.blocks|] == []
    ensures c2.blocks[|c.blocks| + 1] == [] && c4.blocks[|c.blocks| + 2] == []
    ensures |c.blocks| + 3 < |c6.blocks| && c6.blocks[|c.blocks| + 3] == []
    ensures c.next + 3 == t.next <= c1.next == c2.next && c2.next + 3 == c3.next <= c4.next <= c5.next
    ensures c3.Valid() && c5.Valid()
  {
    hide Within, Grows;
    var n := |c.blocks|;
    var b := t.SetInsert(n);
    GrowsFacts(b, c1);
    GrowsBlock(b, c1, n + 1); GrowsBlock(b, c1, n + 2); GrowsBlock(b, c1, n + 3);
    GrowsBlock(c1, c2, n + 1); GrowsBlock(c1, c2, n + 2); GrowsBlock(c1, c2, n + 3);
    GrowsBlock(c2.SetInsert(n + 1), c3, n + 2); GrowsBlock(c2.SetInsert(n + 1), c3, n + 3);
    GrowsFacts(c3, c4);
    GrowsBlock(c3, c4, n + 2); GrowsBlock(c3, c4, n + 3);
    GrowsFacts(c4.SetInsert(n + 2), c5);
    GrowsBlock(c4.SetInsert(n + 2), c5, n + 3);
    GrowsBlock(c5, c6, n + 3);
    GrowsWithin(c5, c6, p);
    GrowsWithin(c4.SetInsert(n + 2), c5, p);
    WithinMoved(c4, n + 2, p);
    GrowsWithin(c3, c4, p);
    GrowsWithin(c2.SetInsert(n + 1), c3, p);
    WithinMoved(c2, n + 1, p);
    GrowsWithin(c1, c2, p);
    GrowsWithin(b, c1, p);
    WithinMoved(t, n, p);
  }

  /** The finally block, the release of the frame and the jump past the statement. */
  lemma FinallyRuns(p: Program, st: Stmt, c: Code, k: nat, m: Machine, n0: nat, y: Machine, f: Frame, leak: nat,
                    s: State, d: Code, at: nat)
    returns (n: nat, w: Machine)
    requires Inv(m) && Reaches(p, m, n0, y) && Holding(k, m, y, f, false, leak) && Same(y, s)
    requires Ready(c, y) && k < c.next && Within(LowerStmt(st, c), p)
    requires Within(LeaveFinal(LowerStmt(st, c), k, at), p) && at < |d.blocks| && d.blocks[at] == []
    ensures var b := LeaveHandler(EvalStmt(st, s));
      Sim(p, k, m, b.(leaked := leak + b.leaked), d.SetInsert(at), NONE, n, w)
    decreases st, 3
  {
    hide Emit, LowerStmt, LeaveFinal, Within, Grows, Holding, Kept, Run, Step, Straight, EvalStmt;
    var e := LowerStmt(st, c);
    GrowsFacts(c, e);
    HoldingCounts(k, m, y, f, leak);
    n, w := StmtRuns(p, st, c, y, s);
    var b := EvalStmt(st, s);
    if b.o.Normal? {
      ReachTrans(p, m, n0, y, n, w);
      HoldingKept(k, m, y, f, false, leak, c.next, w, b.leaked);
      LeaveFinalPlaced(p, e, k, at);
      var x := FreeRuns(p, e, m, w, f, k, leak + b.leaked);
      ReachTrans(p, m, n0 + n, w, 1, x);
      var z := JumpRuns(p, Emit(e, EhFree(Reg(k))), at, x);
      ReachTrans(p, m, n0 + n + 1, x, 1, z);
      KeptFacts(k, m, x, leak + b.leaked);
      MovedKept(k, x, z);
      KeptTrans(k, m, x, leak + b.leaked, k, z, 0);
      StartReady(d, at, z);
      n, w := n0 + n + 2, z;
    } else {
      HoldingSim(p, k, m, n0, y, f, leak, c.next, b, e, n, w);
      n := n0 + n;
    }
  }

  lemma LeaveFinalPlaced(p: Program, c: Code, k: nat, at: nat)
    requires c.Valid() && !c.Closed() && Within(LeaveFinal(c, k, at), p)
    ensures Within(Emit(c, EhFree(Reg(k))), p) && Within(Emit(Emit(c, EhFree(Reg(k))), Br(at)), p)
  {
    var c1 := Emit(c, EhFree(Reg(k)));
    assert LeaveFinal(c, k, at) == Emit(c1, Br(at));
    GrowsWithin(c1, Emit(c1, Br(at)), p);
  }

  /** A try body that ends normally pops its frame and jumps to the finally block. */
  lemma LeaveBodyRuns(p: Program, c: Code, at: nat, k: nat, m: Machine, y: Machine, f: Frame, leak: nat)
    returns (w: Machine)
    requires Ready(c, y) && Within(LeaveBody(c, at), p) && Holding(k, m, y, f, true, leak)
    ensures Reaches(p, y, 2, w) && w.block == at && w.pc == 0 && Holding(k, m, w, f, false, leak)
    ensures w.mem == y.mem && w.out == y.out
  {
    hide Holding, Emit, Run, Step, Within, Grows;
    var c1 := Emit(c, EhPop);
    LeaveBodyPlaced(p, c, at);
    var x := PopRuns(p, c, m, y, f, k, leak);
    w := JumpRuns(p, c1, at, x);
    ReachTrans(p, y, 1, x, 1, w);
    HoldingMoved(k, m, x, f, false, leak, w);
  }

  lemma LeaveBodyPlaced(p: Program, c: Code, at: nat)
    requires c.Valid() && !c.Closed() && Within(LeaveBody(c, at), p)
    ensures Within(Emit(c, EhPop), p) && Within(Emit(Emit(c, EhPop), Br(at)), p)
  {
    var c1 := Emit(c, EhPop);
    assert LeaveBody(c, at) == Emit(c1, Br(at));
    GrowsWithin(c1, Emit(c1, Br(at)), p);
  }

  /** From the throw in the body to the end of the statement. */
  lemma HandlerRuns(p: Program, st: Stmt, c: Code, m: Machine, n0: nat, y: Machine, f: Frame, r: Res,
                    c2: Code, c3: Code, c4: Code, c5: Code, c6: Code)
    returns (n: nat, w: Machine)
    requires st.TryCatch? && c.Valid() && Inv(m) && Within(Enter(c, 4, |c.blocks| + 1, |c.blocks|), p)
    requires |c.blocks| + 3 < |c2.blocks| && c2.blocks[|c.blocks| + 1] == [] && c.next < c2.next
    requires c3 == Dispatch(c2.SetInsert(|c.blocks| + 1), c.next) && c3.Valid() && c3.next == c2.next + 3
    requires c4 == LowerCatches(st.catches, c3, c.next, c2.next, |c.blocks| + 2, true) && c3.next <= c4.next
    requires |c.blocks| + 3 < |c4.blocks| && c4.blocks[|c.blocks| + 2] == []
    requires c5 == LowerStmt(st.final, c4.SetInsert(|c.blocks| + 2)) && c5.Valid()
    requires c6 == LeaveFinal(c5, c.next, |c.blocks| + 3) && |c.blocks| + 3 < |c6.blocks| && c6.blocks[|c.blocks| + 3] == []
    requires Within(c3, p) && Within(c4, p) && Within(c5, p) && Within(c6, p)
    requires r.o.Thrown? && Reaches(p, m, n0, y) && AtThrow(p, c, m, y, f, r.o.e, r.leaked) && Same(y, r.s)
    ensures
      var h := EvalCatches(st.catches, r.o.e, r.s);
      var result :=
        if h.None? then r.(o := if st.catches.NoMore? then Broken else Hung)
        else if h.value.o.Normal? then Then(r, Then(h.value, LeaveHandler(EvalStmt(st.final, h.value.s))))
        else Then(r, LeaveHandler(h.value));
      Sim(p, c.next, m, result, c6.SetInsert(|c.blocks| + 3), NONE, n, w)
    decreases st, 0
  {
    hide Enter, Dispatch, LowerCatches, LowerStmt, LeaveFinal, Within, Holding, Throw, Run, Step, EvalStmt,
      EvalCatches,
      Kept, Inv;
    n, w := n0, y;
    var l := |c.blocks|;
    var h := EvalCatches(st.catches, r.o.e, r.s);
    if h.None? {
      if st.catches.Catch? {
        forall j: nat ensures Run(p, y, j).Running? {
          HungRuns(p, c, c2, m, y, f, r.o.e, r.s, r.leaked, st.catches, j);
        }
        ForeverAfter(p, m, n0, y);
      }
    } else {
      var z := CaughtRuns(p, c, c2, m, y, f, r.o.e, r.leaked);
      ReachTrans(p, m, n0, y, 7, z);
      n, w := CatchesRuns(p, st.catches, c3, c.next, c2.next, l + 2, true, m, n0 + 7, z, f, r.o.e, r.s, r.leaked);
      var b := h.value;
      if b.o.Normal? {
        StartReady(c4, l + 2, w);
        WithinMoved(c4, l + 2, p);
        n, w := FinallyRuns(p, st.final, c4.SetInsert(l + 2), c.next, m, n, w, f, r.leaked + b.leaked, b.s, c6, l + 3);
      }
    }
  }

  lemma TryCatchRuns(p: Program, st: Stmt, c: Code, m: Machine, s: State)
    returns (n: nat, w: Machine)
    requires st.TryCatch?
    requires Ready(c, m) && Inv(m) && Same(m, s) && Within(LowerStmt(st, c), p)
    ensures Sim(p, c.next, m, EvalStmt(st, s), LowerStmt(st, c), NONE, n, w)
    decreases st, 1
  {
    hide Enter, LeaveBody, Dispatch, LowerCatches, LowerStmt, LeaveFinal, Within, Grows, Throw, Run, Step,
      EvalCatches, Kept, Inv;
    var l := |c.blocks|;
    var t, c1, c2, c3, c4, c5, c6 := TryCatchUnfolds(st, c);
    WithinMoved(c6, l + 3, p);
    TryCatchBlocks(p, c, t, c1, c2, c3, c4, c5, c6);
    var m1, f := EnterRuns(p, c, 4, l + 1, l, m);
    HoldingInv(c.next, m, m1, f, true, 0);
    StartReady(t, l, m1);
    WithinMoved(t, l, p);
    n, w := StmtRuns(p, st.body, t.SetInsert(l), m1, s);
    var r := EvalStmt(st.body, s);
    var n1, w1 := n, w;
    n := 5 + n1;
    match r.o
    case Normal(_) =>
      ReachTrans(p, m, 5, m1, n1, w1);
      HoldingKept(c.next, m, m1, f, true, 0, t.next, w1, r.leaked);
      var y := LeaveBodyRuns(p, c1, l + 2, c.next, m, w1, f, r.leaked);
      ReachTrans(p, m, n, w1, 2, y);
      StartReady(c4, l + 2, y);
      WithinMoved(c4, l + 2, p);
      n, w := FinallyRuns(p, st.final, c4.SetInsert(l + 2), c.next, m, n + 2, y, f, r.leaked, r.s, c6, l + 3);
    case Thrown(err) =>
      ReachTrans(p, m, 5, m1, n1, w1);
      HoldingKept(c.next, m, m1, f, true, 0, t.next, w1, r.leaked);
      n, w := HandlerRuns(p, st, c, m, n, w1, f, r, c2, c3, c4, c5, c6);
    case Returned(_) => ReachTrans(p, m, 5, m1, n1, w1);
    case Hung => ForeverAfter(p, m, 5, m1);
    case Broken =>
  }

  lemma HoldingInv(k: nat, m: Machine, w: Machine, f: Frame, pushed: bool, leak: nat)
    requires Holding(k, m, w, f, pushed, leak)
    ensures Inv(w)
  {
  }
}
