/** The code generator itself: an object that appends to its insert block, creates
    blocks and moves its insert point. Every visitor is proved to build exactly the
    code of module Lowering. */
module IrGen {
  import opened Hashes
  import opened Ir
  import opened Source
  import opened Wrappers
  import opened Lowering

  class IRGen {
    var blocks: seq<seq<Instr>>
    var cur: nat
    var next: nat

    ghost predicate Valid() reads this { cur < |blocks| }

    ghost function State(): Code reads this { Code(blocks, cur, next) }

    constructor ()
      ensures Valid() && State() == EMPTY
    {
      blocks, cur, next := [[]], 0, 0;
    }

    // -------------------------------------------------------------- IRBuilder

    method Append(i: Instr)
      requires Valid()
      modifies this
      ensures Valid() && State() == Emit(old(State()), i)
    {
      blocks := blocks[cur := blocks[cur] + [i]];
    }

    method CreateBlock() returns (b: nat)
      requires Valid()
      modifies this
      ensures Valid() && State() == old(State()).NewBlocks(1) && b == |old(blocks)|
    {
      b := |blocks|;
      blocks := blocks + [[]];
      assert blocks == old(blocks) + seq(1, _ => []);
    }

    method CreateBlocks(k: nat)
      requires Valid()
      modifies this
      ensures Valid() && State() == old(State()).NewBlocks(k)
    {
      var i := 0;
      while i < k
        invariant 0 <= i <= k && Valid()
        invariant blocks == old(blocks) + seq(i, _ => []) && cur == old(cur) && next == old(next)
      {
        var _ := CreateBlock();
        i := i + 1;
      }
    }

    method SetInsertPoint(b: nat)
      requires b < |blocks|
      modifies this
      ensures Valid() && State() == old(State()).SetInsert(b)
    {
      cur := b;
    }

    method NewRegister() returns (r: nat)
      requires Valid()
      modifies this
      ensures Valid() && State() == old(State()).Fresh() && r == old(next)
    {
      r := next;
      next := next + 1;
    }

    method Define(op: PureOp, a: Operand, b: Operand) returns (v: Operand)
      requires Valid()
      modifies this
      ensures Valid() && State() == Operation(old(State()), op, a, b) && v == Reg(old(next))
    {
      var r := NewRegister();
      Append(Pure(r, op, a, b));
      v := Reg(r);
    }

    method HasTerminator() returns (t: bool)
      requires Valid()
      ensures t == State().Closed()
    {
      var b := blocks[cur];
      t := |b| > 0 && IsTerminator(b[|b| - 1]);
    }

    method BranchUnlessTerminated(to: nat)
      requires Valid()
      modifies this
      ensures Valid() && State() == EmitUnlessClosed(old(State()), Br(to))
    {
      var t := HasTerminator();
      if !t { Append(Br(to)); }
    }

    // -------------------------------------------------------------- pieces

    /** lucis_eh_alloc, lucis_eh_push, setjmp and the test of its result. */
    method EmitEnter(k: nat, caught: nat, normal: nat) returns (frame: nat)
      requires Valid()
      modifies this
      ensures Valid() && State() == Enter(old(State()), k, caught, normal) && frame == old(next)
    {
      frame := NewRegister();
      Append(EhAlloc(frame));
      Append(EhPush(Reg(frame)));
      var j := NewRegister();
      Append(SetJmp(j, Reg(frame)));
      var isCaught := Define(IsNonZero, Reg(j), NONE);
      CreateBlocks(k);
      Append(CondBr(isCaught, caught, normal));
    }

    method PopFreeHere(frame: nat)
      requires Valid()
      modifies this
      ensures Valid() && State() == PopFree(old(State()), frame)
    {
      Append(EhPop);
      Append(EhFree(Reg(frame)));
    }

    method EmitBranchOnTag(v: Operand, tag: int, k: nat)
      requires Valid()
      modifies this
      ensures Valid() && State() == BranchOnTag(old(State()), v, tag, k)
    {
      var n := |blocks|;
      var t := Define(GetTag, v, NONE);
      var q := Define(IsEqual, t, Const(Int(tag)));
      CreateBlocks(k);
      Append(CondBr(q, n + 1, n));
    }

    method EmitPhi(at: nat, incoming: seq<(Operand, nat)>) returns (v: Operand)
      requires Valid() && at < |blocks|
      modifies this
      ensures Valid() && State() == Merge(old(State()), at, incoming) && v == Reg(old(next))
    {
      SetInsertPoint(at);
      var r := NewRegister();
      Append(Phi(r, incoming));
      v := Reg(r);
    }

    // -------------------------------------------------------------- expressions

    method VisitExpr(e: Expr) returns (v: Operand)
      requires Valid()
      modifies this
      ensures Valid() && Lowered(State(), v) == LowerExpr(e, old(State()))
      decreases e, 2
    {
      match e
      case Lit(x) => v := Const(x);
      case Var(x) =>
        var r := NewRegister();
        Append(Load(r, x));
        v := Reg(r);
      case Add(l, r) =>
        var a := VisitExpr(l);
        var b := VisitExpr(r);
        v := Define(Add32, a, b);
      case Try(_, _, _) => v := VisitTryExpr(e);
      case TryUntyped(operand, fb) =>
        v := VisitExpr(operand);
        if fb.Some? { v := VisitExpr(fb.value); }
      case CatchUnwrap(_, _, _, _) => v := VisitCatchUnwrapExpr(e);
      case Propagate(_, _, _, _, _) => v := VisitPropagateExpr(e);
      case PropagateVoid(_, _, _) => v := VisitPropagateVoid(e);
      case Build(tag, payload, carry) =>
        v := NONE;
        if payload.Some? { v := VisitExpr(payload.value); }
        v := Define(BuildTagged(carry), Const(Int(tag)), v);
      case MatchOn(_, _, _) => v := VisitMatchExpr(e);
    }

    method VisitFallback(fb: Option<Expr>) returns (v: Operand)
      requires Valid()
      modifies this
      ensures Valid() && Lowered(State(), v) == LowerFallback(fb, old(State()))
      decreases fb, 2
    {
      match fb
      case None => v := Const(NULL);
      case Some(e) => v := VisitExpr(e);
    }

    method VisitTryExpr(e: Expr) returns (v: Operand)
      requires Valid() && e.Try?
      modifies this
      ensures Valid() && Lowered(State(), v) == LowerExpr(e, old(State()))
      decreases e, 1
    {
      hide TryCaught, LowerExpr, PopFree, Emit, Merge, LowerFallback, Grows, Straight, TryOk, TryPlain, TryUnwrap;
      ghost var c := State();
      var n := |blocks|;
      var frame, fallback, caughtEnd := VisitTryCaught(e);
      ghost var h := Lowered(State(), fallback);
      GrowsFacts(c, h.c);
      SetInsertPoint(n);
      var source := VisitExpr(e.e);
      ghost var b := Lowered(State(), source);
      GrowsFacts(h.c.SetInsert(n), b.c);
      GrowsIn(c, h.c, n, b.c);
      match e.kind
      case Plain =>
        v := EmitTryPlain(c, h, source, fallback, frame, caughtEnd, n + 2);
        PlainUnfold(e, c, h, b);
      case Unwrap(errTag) =>
        var k := |blocks|;
        var payload := EmitTryOk(c, source, frame, errTag, n + 2);
        ghost var o := State();
        GrowsFacts(b.c, o);
        SetInsertPoint(k + 1);
        PopFreeHere(frame);
        ghost var c6 := State();
        StraightFacts(o.SetInsert(k + 1), c6, 0, 0);
        var again := VisitFallback(e.fallback);
        ghost var g := Lowered(State(), again);
        GrowsFacts(c6, g.c);
        GrowsTrans(c, b.c, o);
        GrowsTrans(o.SetInsert(k + 1), c6, g.c);
        GrowsIn(c, o, k + 1, g.c);
        v := EmitTryUnwrap(c, h, b, k, payload, again, fallback, caughtEnd, n + 2);
        UnwrapUnfold(e, c, h, b, o, c6, g);
    }

    /** Enter the handler, and emit the caught path. */
    method VisitTryCaught(e: Expr) returns (frame: nat, fallback: Operand, caughtEnd: nat)
      requires Valid() && e.Try?
      modifies this
      ensures Valid() && Lowered(State(), fallback) == TryCaught(e, old(State()))
      ensures frame == old(next) && caughtEnd == cur
      decreases e, 0
    {
      hide Enter, PopFree, Emit, LowerFallback, Grows, Straight;
      ghost var c := State();
      var n := |blocks|;
      frame := EmitEnter(3, n + 1, n);
      StraightFacts(c, State(), 3, 3);
      SetInsertPoint(n + 1);
      ghost var c1 := State();
      PopFreeHere(frame);
      StraightFacts(c1, State(), 0, 0);
      fallback := VisitFallback(e.fallback);
      caughtEnd := cur;
      ghost var h := State();
      Append(Br(n + 2));
      GrowsFacts(c1, h) by { GrowsTrans(c1, PopFree(c1, frame), h); }
      StraightFacts(h, State(), 0, 0);
    }

    method EmitTryPlain(ghost c: Code, ghost h: Lowered, source: Operand, fallback: Operand, frame: nat,
                        caughtEnd: nat, merge: nat)
      returns (v: Operand)
      requires Valid() && frame == c.next && caughtEnd == h.c.cur && fallback == h.v
      requires merge == |c.blocks| + 2 < |blocks| && Grows(c, h.c) && Grows(c, State())
      modifies this
      ensures Valid() && Lowered(State(), v) == TryPlain(c, h, Lowered(old(State()), source))
    {
      hide PopFree, Emit, Merge, Grows, Straight;
      ghost var b := State();
      PopFreeHere(frame);
      ghost var u := State();
      StraightFacts(b, u, 0, 0);
      var exprEnd := cur;
      Append(Br(merge));
      StraightFacts(u, State(), 0, 0);
      v := EmitPhi(merge, [(source, exprEnd), (fallback, caughtEnd)]);
    }

    /** Test the tag; in the ok block release the frame and take the payload. */
    method EmitTryOk(ghost c: Code, source: Operand, frame: nat, tag: int, merge: nat) returns (payload: Operand)
      requires Valid() && frame == c.next && merge == |c.blocks| + 2 && |c.blocks| <= |blocks|
      modifies this
      ensures Valid() && State() == TryOk(c, Lowered(old(State()), source), tag) && payload == Reg(old(next) + 2)
    {
      hide PopFree, Emit, Operation, BranchOnTag, Grows, Straight;
      ghost var b := State();
      var k := |blocks|;
      EmitBranchOnTag(source, tag, 2);
      StraightFacts(b, State(), 2, 2);
      SetInsertPoint(k);
      ghost var c3 := State();
      PopFreeHere(frame);
      ghost var c4 := State();
      StraightFacts(c3, c4, 0, 0);
      payload := Define(GetPayload, source, NONE);
      StraightFacts(c4, State(), 1, 0);
      Append(Br(merge));
    }

    method EmitTryUnwrap(ghost c: Code, ghost h: Lowered, ghost b: Lowered, okEnd: nat, payload: Operand,
                         again: Operand, fallback: Operand, caughtEnd: nat, merge: nat)
      returns (v: Operand)
      requires Valid() && okEnd == |b.c.blocks| && payload == Reg(b.c.next + 2)
      requires caughtEnd == h.c.cur && fallback == h.v
      requires merge == |c.blocks| + 2 < |blocks| && Grows(c, State())
      modifies this
      ensures Valid() && Lowered(State(), v) == TryUnwrap(c, h, b, Lowered(old(State()), again))
    {
      hide Emit, Merge, Grows, Straight;
      ghost var g := State();
      var errEnd := cur;
      Append(Br(merge));
      StraightFacts(g, State(), 0, 0);
      v := EmitPhi(merge, [(payload, okEnd), (again, errEnd), (fallback, caughtEnd)]);
    }

    /** The tag test, and in the ok block the payload and the jump to the merge. */
    method EmitUnwrapOk(source: Operand, errTag: int, merge: nat) returns (payload: Operand)
      requires Valid()
      modifies this
      ensures Valid() && State() == UnwrapOk(old(State()), source, errTag, merge) && payload == Reg(old(next) + 2)
    {
      hide Emit, BranchOnTag, Operation, Grows, Straight;
      ghost var a := State();
      var n := |blocks|;
      EmitBranchOnTag(source, errTag, 3);
      ghost var c1 := State();
      StraightFacts(a, c1, 2, 3);
      SetInsertPoint(n);
      payload := Define(GetPayload, source, NONE);
      ghost var c2 := State();
      StraightFacts(c1.SetInsert(n), c2, 1, 0);
      Append(Br(merge));
    }

    method VisitCatchUnwrapExpr(e: Expr) returns (v: Operand)
      requires Valid() && e.CatchUnwrap?
      modifies this
      ensures Valid() && Lowered(State(), v) == LowerExpr(e, old(State()))
      decreases e, 0
    {
      hide Emit, Merge, UnwrapOk, LowerStmt, Grows, Straight, BindPayload;
      ghost var c := State();
      var source := VisitExpr(e.e);
      ghost var a := State();
      var n := |blocks|;
      var payload := EmitUnwrapOk(source, e.errTag, n + 2);
      ghost var c3 := State();
      SetInsertPoint(n + 1);
      Bind(e.it, source);
      ghost var c4 := State();
      StraightFacts(c3.SetInsert(n + 1), c4, if e.it.Some? then 1 else 0, 0);
      VisitStmt(e.block);
      ghost var c5 := State();
      GrowsFacts(c4, c5);
      var terminated := HasTerminator();
      if terminated {
        SetInsertPoint(n + 2);
        v := payload;
      } else {
        var errEnd := cur;
        Append(Br(n + 2));
        StraightFacts(c5, State(), 0, 0);
        v := EmitPhi(n + 2, [(payload, n), (Const(NULL), errEnd)]);
      }
      assert LowerExpr(e, c) == LowerCatchUnwrap(e, c);
    }

    method Bind(it: Option<nat>, source: Operand)
      requires Valid()
      modifies this
      ensures Valid() && State() == BindPayload(old(State()), it, source)
    {
      if it.Some? {
        var payload := Define(GetPayload, source, NONE);
        Append(Store(it.value, payload));
      }
    }

    method VisitPropagateExpr(e: Expr) returns (v: Operand)
      requires Valid() && e.Propagate?
      modifies this
      ensures Valid() && Lowered(State(), v) == LowerExpr(e, old(State()))
      decreases e, 0
    {
      hide BranchOnTag, LowerStmt, Grows, Straight, ReturnTagged, PropagateOk;
      ghost var c := State();
      var source := VisitExpr(e.e);
      ghost var a := State();
      GrowsFacts(c, a);
      var n := |blocks|;
      EmitBranchOnTag(source, e.errTag, 3);
      ghost var c1 := State();
      StraightFacts(a, c1, 2, 3);
      SetInsertPoint(n + 1);
      VisitStmt(e.context);
      ghost var c2 := State();
      GrowsFacts(c1.SetInsert(n + 1), c2);
      EmitReturnTagged(source, e.carry, e.retTag);
      ghost var c3 := State();
      StraightFacts(c2, c3, 2, 0);
      GrowsTrans(c, a, c1);
      GrowsIn(c, c1, n + 1, c2);
      GrowsTrans(c, c2, c3);
      v := EmitPropagateOk(c, source, n);
      assert LowerExpr(e, c) == LowerPropagate(e, c);
    }

    /** `e?` in a function that returns nothing: no value, and no merge block. */
    method VisitPropagateVoid(e: Expr) returns (v: Operand)
      requires Valid() && e.PropagateVoid?
      modifies this
      ensures Valid() && Lowered(State(), v) == LowerExpr(e, old(State()))
      decreases e, 0
    {
      hide BranchOnTag, LowerStmt, Grows, Straight, Emit;
      ghost var c := State();
      var source := VisitExpr(e.e);
      ghost var a := State();
      GrowsFacts(c, a);
      var n := |blocks|;
      EmitBranchOnTag(source, e.errTag, 2);
      ghost var c1 := State();
      StraightFacts(a, c1, 2, 2);
      SetInsertPoint(n + 1);
      VisitStmt(e.context);
      ghost var c2 := State();
      GrowsFacts(c1.SetInsert(n + 1), c2);
      Append(Ret(NONE));
      StraightFacts(c2, State(), 0, 0);
      SetInsertPoint(n);
      v := NONE;
      assert LowerExpr(e, c) == LowerPropagateVoid(e, c);
    }

    /** The success path, and the merge block it alone leads to. */
    method EmitPropagateOk(ghost c: Code, source: Operand, n: nat) returns (v: Operand)
      requires Valid() && Grows(c, State()) && |c.blocks| <= n && n + 2 < |blocks|
      modifies this
      ensures Valid() && Lowered(State(), v) == PropagateOk(c, old(State()), source, n)
    {
      hide Emit, Merge, Operation, Grows, Straight;
      SetInsertPoint(n);
      ghost var c3 := State();
      var payload := Define(GetPayload, source, NONE);
      ghost var c4 := State();
      StraightFacts(c3, c4, 1, 0);
      Append(Br(n + 2));
      StraightFacts(c4, State(), 0, 0);
      v := EmitPhi(n + 2, [(payload, n)]);
    }

    method EmitReturnTagged(source: Operand, carry: Carry, tag: int)
      requires Valid()
      modifies this
      ensures Valid() && State() == ReturnTagged(old(State()), source, carry, tag)
    {
      var payload := Define(GetPayload, source, NONE);
      var built := Define(BuildTagged(carry), Const(Int(tag)), payload);
      Append(Ret(built));
    }

    // -------------------------------------------------------------- match

    /** One test against the operand. */
    method EmitPattern(k: Kind, p: Pattern, v: Operand) returns (r: Operand)
      requires Valid() && !Wild(p)
      modifies this
      ensures Valid() && Lowered(State(), r) == EmitTest(k, p, old(State()), v)
    {
      match p
      case Literal(x) => r := Define(IsEqual, v, Const(x));
      case Variant(name, _) =>
        if k.unit {
          r := Define(IsEqual, v, Const(Int(Disc(k, name))));
        } else {
          var tag := Define(GetTag, v, NONE);
          r := Define(IsEqual, tag, Const(Int(Disc(k, name))));
        }
    }

    /** The or-pattern of an arm: tests up to the first wildcard. */
    method EmitPatterns(k: Kind, ps: seq<Pattern>, v: Operand)
      returns (armMatches: Option<Operand>, hasWildcard: bool)
      requires Valid()
      modifies this
      ensures Valid() && Tests(State(), armMatches) == EmitTests(k, ps, old(State()), v, None)
      ensures hasWildcard == HasWildcard(ps)
    {
      hide EmitTest, OrElse, Inline;
      ghost var c := State();
      armMatches, hasWildcard := None, false;
      var i := 0;
      while i < |ps|
        invariant Valid() && 0 <= i <= |ps| && !HasWildcard(ps[..i])
        invariant armMatches.Some? ==> Known(armMatches.value, State())
        invariant EmitTests(k, ps, c, v, None) == EmitTests(k, ps[i..], State(), v, armMatches)
      {
        assert ps[i..][0] == ps[i] && ps[i..][1..] == ps[i + 1..];
        if Wild(ps[i]) {
          return armMatches, true;
        }
        ghost var here := State();
        var t := EmitPattern(k, ps[i], v);
        ghost var there := State();
        if armMatches.Some? {
          t := JoinTests(armMatches.value, t);
        }
        assert Lowered(State(), t) == OrElse(there, armMatches, EmitTest(k, ps[i], here, v).v) by {
          OrElseIs(there, armMatches, EmitTest(k, ps[i], here, v).v);
        }
        armMatches := Some(t);
        i := i + 1;
      }
      assert ps[..|ps|] == ps;
    }

    method JoinTests(a: Operand, b: Operand) returns (r: Operand)
      requires Valid()
      modifies this
      ensures Valid() && Lowered(State(), r) == Lowered(Operation(old(State()), Or, a, b), Reg(old(State()).next))
    {
      r := Define(Or, a, b);
    }

    /** The tests, the new blocks and the branch of an arm. */
    method EmitArmTest(k: Kind, a: Arm, isLast: bool, v: Operand, merge: nat)
      returns (armBB: nat, nextBB: nat, guardBB: nat, hasWildcard: bool)
      requires Valid() && merge < |blocks| && merge != cur
      modifies this
      ensures Valid() && State() == LowerTest(k, a, isLast, old(State()), v, merge)
      ensures armBB == |old(blocks)| && nextBB == (if isLast then merge else armBB + 1)
      ensures guardBB == (if a.guard.Some? then |blocks| - 1 else armBB)
      ensures hasWildcard == HasWildcard(a.patterns)
    {
      hide EmitTests, Grows, HasWildcard;
      ghost var c := State();
      var armMatches;
      armMatches, hasWildcard := EmitPatterns(k, a.patterns, v);
      ghost var t := State();
      armBB := CreateBlock();
      nextBB := merge;
      if !isLast { nextBB := CreateBlock(); }
      guardBB := armBB;
      if a.guard.Some? { guardBB := CreateBlock(); }
      assert State() == t.NewBlocks(NewIn(a, isLast));
      if hasWildcard || armMatches.None? {
        Append(Br(guardBB));
      } else {
        Append(CondBr(armMatches.value, guardBB, nextBB));
      }
    }

    method EmitGuard(k: Kind, a: Arm, v: Operand, armBB: nat, nextBB: nat)
      requires Valid() && a.guard.Some?
      modifies this
      ensures Valid() && State() == LowerGuard(k, a, old(State()), v, armBB, nextBB)
      decreases a, 1
    {
      hide BindPayload, LowerExpr, BranchIf, BindOf, Grows, Straight;
      Bind(BindOf(k, a.patterns), v);
      var guardVal := VisitExpr(a.guard.value);
      EmitBranchIf(guardVal, armBB, nextBB);
    }

    /** The statements of a body; the value is that of its last expression. */
    method VisitBody(b: Body) returns (value: Option<Operand>)
      requires Valid()
      modifies this
      ensures Valid() && BodyCode(State(), value) == LowerBody(b, old(State()))
      decreases b, 1
    {
      hide LowerExpr, LowerStmt, Grows;
      VisitStmt(b.pre);
      value := None;
      if b.value.Some? {
        var v := VisitExpr(b.value.value);
        value := Some(v);
      }
      VisitStmt(b.post);
    }

    method VisitArm(k: Kind, a: Arm, isLast: bool, v: Operand, merge: nat)
      returns (incoming: seq<(Operand, nat)>, nextBB: nat)
      requires Valid() && merge < |blocks| && merge != cur
      modifies this
      ensures Valid() && ArmsCode(State(), incoming) == LowerArm(k, a, isLast, old(State()), v, merge)
      ensures !isLast ==> nextBB == |old(blocks)| + 1
      decreases a, 2
    {
      hide LowerTest, LowerGuard, LowerBody, BindPayload, BindOf, EmitUnlessClosed, HasWildcard, Grows, Straight;
      ghost var c := State();
      var cmpBB := cur;
      var armBB, guardBB, hasWildcard;
      armBB, nextBB, guardBB, hasWildcard := EmitArmTest(k, a, isLast, v, merge);
      ghost var t := State();
      if a.guard.Some? {
        SetInsertPoint(guardBB);
        EmitGuard(k, a, v, armBB, nextBB);
      }
      ghost var e := State();
      assert e == LowerEntry(k, a, isLast, c, v, merge);
      SetInsertPoint(armBB);
      Bind(BindOf(k, a.patterns), v);
      var bodyVal := VisitBody(a.body);
      var armEndBB := cur;
      var terminated := HasTerminator();
      ghost var b := State();
      BranchUnlessTerminated(merge);
      if !terminated && bodyVal.None? { bodyVal := Some(NONE); }
      incoming := if bodyVal.Some? then [(bodyVal.value, armEndBB)] else [];
      assert ArmsCode(State(), incoming) == LowerArmBody(k, a, e, armBB, v, merge);
      if isLast && !hasWildcard { incoming := incoming + [(NONE, cmpBB)]; }
    }

    method VisitMatchExpr(e: Expr) returns (v: Operand)
      requires Valid() && e.MatchOn?
      modifies this
      ensures Valid() && Lowered(State(), v) == LowerExpr(e, old(State()))
      decreases e, 0
    {
      hide LowerExpr, LowerArms, LowerArm, Merge, Grows, Straight;
      ghost var c := State();
      var k, arms := e.on, e.arms;
      var source := VisitExpr(e.e);
      ghost var a := State();
      var mergeBB := CreateBlock();
      ghost var d := State();
      var phiIncoming := [];
      var i := 0;
      while i < |arms|
        invariant Valid() && 0 <= i <= |arms|
        invariant mergeBB < |blocks| && (i < |arms| ==> mergeBB != cur)
        invariant d.Valid() && mergeBB < |d.blocks| && mergeBB != d.cur
        invariant Rest(k, arms, i, d, State(), source, mergeBB, phiIncoming)
      {
        ghost var here := State();
        var isLast := i + 1 == |arms|;
        var incoming, nextBB := VisitArm(k, arms[i], isLast, source, mergeBB);
        assert ArmsCode(State(), incoming) == LowerArm(k, arms[i], isLast, here, source, mergeBB);
        if !isLast { SetInsertPoint(nextBB); }
        RestStep(k, arms, i, d, here, State(), source, mergeBB, phiIncoming, incoming);
        phiIncoming := phiIncoming + incoming;
        i := i + 1;
      }
      RestDone(k, arms, d, State(), source, mergeBB, phiIncoming);
      MatchUnfolds(e, c, Lowered(a, source), d, ArmsCode(State(), phiIncoming));
      if phiIncoming == [] {
        SetInsertPoint(mergeBB);
        v := NONE;
      } else {
        v := EmitPhi(mergeBB, phiIncoming);
      }
    }

    // -------------------------------------------------------------- statements

    method VisitStmt(s: Stmt)
      requires Valid()
      modifies this
      ensures Valid() && State() == LowerStmt(s, old(State()))
      decreases s, 3
    {
      match s
      case Skip =>
      case Seq(a, b) => VisitStmt(a); VisitStmt(b);
      case Do(e) => var _ := VisitExpr(e);
      case Assign(x, e) => var v := VisitExpr(e); Append(Store(x, v));
      case Print(e) => var v := VisitExpr(e); Append(Out(v));
      case If(_, _, _) => VisitIfStmt(s);
      case ThrowStmt(_, _, _, _, _, _) => VisitThrowStmt(s);
      case TryCatch(_, _, _) => VisitTryCatchStmt(s);
      case Return(e) => var v := VisitExpr(e); Append(Ret(v));
    }

    method VisitIfStmt(s: Stmt)
      requires Valid() && s.If?
      modifies this
      ensures Valid() && State() == LowerStmt(s, old(State()))
      decreases s, 0
    {
      hide LowerExpr, LowerBranch, BranchIf, Grows, Straight;
      ghost var c := State();
      var n := |blocks|;
      CreateBlocks(3);
      var cond := VisitExpr(s.cond);
      ghost var a := State();
      GrowsFacts(c.NewBlocks(3), a);
      EmitBranchIf(cond, n + 1, n + 2);
      StraightFacts(a, State(), 1, 0);
      VisitBranch(s.thn, n + 1, n);
      VisitBranch(s.els, n + 2, n);
      SetInsertPoint(n);
      assert LowerStmt(s, c) == LowerIf(s, c);
    }

    /** One branch, in block `at`, and its jump to the block after the `if`. */
    method VisitBranch(s: Stmt, at: nat, to: nat)
      requires Valid() && at < |blocks|
      modifies this
      ensures Valid() && State() == LowerBranch(s, old(State()).SetInsert(at), to)
      ensures |old(blocks)| <= |blocks|
      decreases s, 4
    {
      hide LowerStmt, LowerBranch, EmitUnlessClosed, Grows, Straight;
      SetInsertPoint(at);
      ghost var c := State();
      BranchUnfolds(s, c, to);
      VisitStmt(s);
      ghost var d := State();
      GrowsFacts(c, d);
      BranchUnlessTerminated(to);
      StraightFacts(d, State(), 0, 0);
    }

    method EmitBranchIf(cond: Operand, yes: nat, no: nat)
      requires Valid()
      modifies this
      ensures Valid() && State() == BranchIf(old(State()), cond, yes, no)
    {
      var b := Define(IsNonZero, cond, NONE);
      Append(CondBr(b, yes, no));
    }

    method VisitThrowStmt(s: Stmt)
      requires Valid() && s.ThrowStmt?
      modifies this
      ensures Valid() && State() == LowerStmt(s, old(State()))
      decreases s, 0
    {
      var v := VisitExpr(s.e);
      ghost var a := State();
      var stamped := Define(Stamp(ThrowSite(s)), v, NONE);
      Append(EhThrow(stamped));
      Append(Unreachable);
      var dead := CreateBlock();
      assert State() == RaiseStamped(a, v, ThrowSite(s));
      SetInsertPoint(dead);
    }

    method VisitTryCatchStmt(s: Stmt)
      requires Valid() && s.TryCatch?
      modifies this
      ensures Valid() && State() == LowerStmt(s, old(State()))
      decreases s, 2
    {
      hide LowerTryBody, LowerHandlers, LeaveFinal, Grows, Straight;
      ghost var c := State();
      var n := |blocks|;
      var frame := VisitTryBody(s);
      ghost var c2 := State();
      VisitHandlers(s, c, frame, n);
      ghost var c4 := State();
      GrowsFacts(c2.SetInsert(n + 1), c4);
      SetInsertPoint(n + 2);
      VisitStmt(s.final);
      ghost var c5 := State();
      GrowsFacts(c4.SetInsert(n + 2), c5);
      EmitLeaveFinal(frame, n + 3);
      StraightFacts(c5, State(), 0, 0);
      SetInsertPoint(n + 3);
      assert LowerStmt(s, c) == LowerTryCatch(s, c);
    }

    /** Enter the handler; the body, and its normal end. */
    method VisitTryBody(s: Stmt) returns (frame: nat)
      requires Valid() && s.TryCatch?
      modifies this
      ensures Valid() && State() == LowerTryBody(s, old(State())) && frame == old(next)
      decreases s, 1
    {
      hide Enter, LeaveBody, LowerStmt, Grows, Straight;
      ghost var c := State();
      var n := |blocks|;
      frame := EmitEnter(4, n + 1, n);
      ghost var t := State();
      StraightFacts(c, t, 3, 4);
      SetInsertPoint(n);
      VisitStmt(s.body);
      ghost var c1 := State();
      GrowsFacts(t.SetInsert(n), c1);
      EmitLeaveBody(n + 2);
      StraightFacts(c1, State(), 0, 0);
    }

    /** The catch block, from the popped handler to the last clause. */
    method VisitHandlers(s: Stmt, ghost c: Code, frame: nat, n: nat)
      requires Valid() && s.TryCatch? && frame == c.next && n == |c.blocks| && n + 4 <= |blocks|
      modifies this
      ensures Valid() && State() == LowerHandlers(s, c, old(State()))
      decreases s, 1
    {
      hide Dispatch, LowerCatches, Grows, Straight;
      ghost var c2 := State();
      SetInsertPoint(n + 1);
      var error := EmitDispatch(frame);
      ghost var c3 := State();
      StraightFacts(c2.SetInsert(n + 1), c3, 3, 0);
      VisitCatches(s.catches, frame, error, n + 2, true);
      GrowsFacts(c3, State());
    }

    method EmitLeaveBody(to: nat)
      requires Valid()
      modifies this
      ensures Valid() && State() == LeaveBody(old(State()), to)
    {
      var t := HasTerminator();
      if !t { Append(EhPop); Append(Br(to)); }
    }

    method EmitLeaveFinal(frame: nat, to: nat)
      requires Valid()
      modifies this
      ensures Valid() && State() == LeaveFinal(old(State()), frame, to)
    {
      var t := HasTerminator();
      if !t { Append(EhFree(Reg(frame))); Append(Br(to)); }
    }

    /** Pop the handler, load the error and its type ids. */
    method EmitDispatch(frame: nat) returns (error: nat)
      requires Valid()
      modifies this
      ensures Valid() && State() == Dispatch(old(State()), frame) && error == old(next)
    {
      Append(EhPop);
      error := NewRegister();
      Append(EhGetError(error, Reg(frame)));
      var _ := Define(GetTypeId, Reg(error), NONE);
      var _ := Define(GetParentId, Reg(error), NONE);
    }

    method EmitCatchCheck(error: nat, name: string)
      requires Valid()
      modifies this
      ensures Valid() && State() == TestClause(old(State()), error, name)
    {
      hide Fnv;
      var n := |blocks|;
      var exact := Define(IsEqual, Reg(error + 1), Const(Int(Fnv(name))));
      var child := Define(IsEqual, Reg(error + 2), Const(Int(Fnv(name))));
      var matches := Define(Or, exact, child);
      CreateBlocks(2);
      Append(CondBr(matches, n, n + 1));
    }

    /** The loop over the catch clauses: each check falls through to the next one's,
        the last one's to the re-raise. */
    method VisitCatches(cs: Catches, frame: nat, error: nat, final: nat, first: bool)
      requires Valid()
      modifies this
      ensures Valid() && State() == LowerCatches(cs, old(State()), frame, error, final, first)
      decreases cs, 0
    {
      match cs
      case NoMore =>
        if !first {
          Append(EhPush(Reg(frame)));
          Append(EhSetError(Reg(frame), Reg(error)));
          var r := NewRegister();
          Append(EhGetError(r, Reg(frame)));
          Append(EhThrow(Reg(r)));
          Append(Unreachable);
        }
      case Catch(name, x, body, rest) =>
        hide TestClause, Emit, EmitUnlessClosed, LowerStmt, Grows, Straight, Fnv;
        ghost var c := State();
        var n := |blocks|;
        EmitCatchCheck(error, name);
        ghost var c1 := State();
        StraightFacts(c, c1, 3, 2);
        SetInsertPoint(n);
        Append(Store(x, Reg(error)));
        ghost var c2 := State();
        StraightFacts(c1.SetInsert(n), c2, 0, 0);
        VisitStmt(body);
        ghost var c3 := State();
        GrowsFacts(c2, c3);
        BranchUnlessTerminated(final);
        StraightFacts(c3, State(), 0, 0);
        SetInsertPoint(n + 1);
        VisitCatches(rest, frame, error, final, false);
    }

    /** A whole function body. */
    method EmitFunction(body: Stmt) returns (p: Program)
      requires Valid() && State() == EMPTY
      modifies this
      ensures p == LowerFunction(body)
    {
      VisitStmt(body);
      var t := HasTerminator();
      if !t { Append(Ret(NONE)); }
      p := blocks;
    }
  }

  lemma OrElseIs(c: Code, acc: Option<Operand>, v: Operand)
    requires c.Valid() && Known(v, c)
    ensures OrElse(c, acc, v) ==
      if acc.None? then Lowered(c, v) else Lowered(Operation(c, Or, acc.value, v), Reg(c.next))
  {
  }

  /** After `i` arms: what has been built and what the rest will build. */
  ghost predicate Rest(k: Kind, arms: seq<Arm>, i: nat, d: Code, c: Code, v: Operand, merge: nat, xs: seq<(Operand, nat)>)
    requires d.Valid() && merge < |d.blocks| && merge != d.cur
  {
    var whole := LowerArms(k, arms, d, v, merge);
    if i == |arms| && i > 0 then whole == ArmsCode(c, xs)
    else
      && i <= |arms| && c.Valid() && merge < |c.blocks| && merge != c.cur
      && var rest := LowerArms(k, arms[i..], c, v, merge);
      whole == ArmsCode(rest.c, xs + rest.incoming)
  }

  lemma RestStep(k: Kind, arms: seq<Arm>, i: nat, d: Code, c: Code, n: Code, v: Operand, merge: nat,
                 xs: seq<(Operand, nat)>, ys: seq<(Operand, nat)>)
    requires d.Valid() && merge < |d.blocks| && merge != d.cur
    requires i < |arms| && Rest(k, arms, i, d, c, v, merge, xs)
    requires c.Valid() && merge < |c.blocks| && merge != c.cur
    requires var last := i + 1 == |arms|;
      var a := LowerArm(k, arms[i], last, c, v, merge);
      ys == a.incoming && n == if last then a.c else a.c.SetInsert(|c.blocks| + 1)
    ensures Rest(k, arms, i + 1, d, n, v, merge, xs + ys)
  {
    hide LowerArm, Grows;
    assert arms[i..][0] == arms[i] && arms[i..][1..] == arms[i + 1..];
    if i + 1 < |arms| {
      var rest := LowerArms(k, arms[i + 1..], n, v, merge);
      assert xs + (ys + rest.incoming) == (xs + ys) + rest.incoming;
    }
  }

  lemma RestDone(k: Kind, arms: seq<Arm>, d: Code, c: Code, v: Operand, merge: nat, xs: seq<(Operand, nat)>)
    requires d.Valid() && merge < |d.blocks| && merge != d.cur
    requires Rest(k, arms, |arms|, d, c, v, merge, xs)
    ensures LowerArms(k, arms, d, v, merge) == ArmsCode(c, xs)
  {
  }

  lemma MatchUnfolds(e: Expr, c: Code, a: Lowered, d: Code, b: ArmsCode)
    requires e.MatchOn? && c.Valid() && a == LowerExpr(e.e, c) && d == a.c.NewBlocks(1)
    requires a.c.Valid() && b == LowerArms(e.on, e.arms, d, a.v, |a.c.blocks|) && |a.c.blocks| < |b.c.blocks|
    ensures LowerExpr(e, c) ==
      if b.incoming == [] then Lowered(b.c.SetInsert(|a.c.blocks|), NONE)
      else Lowered(Merge(b.c, |a.c.blocks|, b.incoming), Reg(b.c.next))
  {
    hide LowerArms, Merge, Grows, Straight;
    assert LowerExpr(e, c) == LowerMatch(e, c);
  }
}
