/** Lowering of structured error control to basic blocks
    (src/IRBuilder/IRGen_flow.cpp), as a function of the builder's state. */
module Lowering {
  import opened Hashes
  import opened Ir
  import opened Source
  import opened Wrappers

  const NONE := Const(Undef)

  datatype Lowered = Lowered(c: Code, v: Operand)

  // ---------------------------------------------------------------- growth

  lemma GrowsTrans(a: Code, b: Code, c: Code)
    requires Grows(a, b) && Grows(b, c)
    ensures Grows(a, c)
  {
    assert a.blocks[a.cur] <= b.blocks[a.cur] <= c.blocks[a.cur] by {
      if b.cur != a.cur { assert c.blocks[a.cur] == b.blocks[a.cur]; }
    }
  }

  /** Continuing in a block created since `a`. */
  lemma GrowsIn(a: Code, b: Code, at: nat, c: Code)
    requires Grows(a, b) && |a.blocks| <= at < |b.blocks|
    requires Grows(b.SetInsert(at), c)
    ensures Grows(a, c)
  {
    GrowsTrans(a, b.SetInsert(at), c);
  }

  /** Register operands exist already. */
  predicate Known(o: Operand, c: Code) { o.Reg? ==> o.r < c.next }

  /** `r` is `c` with instructions added to its insert block and `regs` registers
      and `blocks` empty blocks created. */
  ghost predicate Straight(c: Code, r: Code, regs: nat, blocks: nat) {
    && Grows(c, r) && r.cur == c.cur && r.next == c.next + regs
    && |r.blocks| == |c.blocks| + blocks
    && (forall b | |c.blocks| <= b < |r.blocks| :: r.blocks[b] == [])
  }

  lemma StraightFacts(c: Code, r: Code, regs: nat, blocks: nat)
    requires Straight(c, r, regs, blocks)
    ensures c.Valid() && r.Valid() && Grows(c, r) && r.cur == c.cur
    ensures r.next == c.next + regs && |r.blocks| == |c.blocks| + blocks
  {
  }

  lemma GrowsFacts(a: Code, b: Code)
    requires Grows(a, b)
    ensures a.Valid() && b.Valid() && |a.blocks| <= |b.blocks| && a.next <= b.next
    ensures b.cur == a.cur || |a.blocks| <= b.cur
  {
  }

  /** Blocks other than the insert block are left alone. */
  lemma GrowsBlock(a: Code, b: Code, i: nat)
    requires Grows(a, b) && i < |a.blocks| && i != a.cur
    ensures i < |b.blocks| && b.blocks[i] == a.blocks[i]
  {
  }

  lemma NewBlocksGrow(c: Code, k: nat)
    requires c.Valid()
    ensures Grows(c, c.NewBlocks(k))
  {
  }

  // ---------------------------------------------------------------- pieces

  /** One instruction, which may define the next register. */
  function Emit(c: Code, i: Instr): (r: Code)
    requires c.Valid()
    ensures Straight(c, r, 0, 0)
  {
    c.Emit(i)
  }

  /** Emit an operation into the next register. */
  function Operation(c: Code, op: PureOp, a: Operand, b: Operand): (r: Code)
    requires c.Valid()
    ensures Straight(c, r, 1, 0)
  {
    c.Emit(Pure(c.next, op, a, b)).Fresh()
  }

  /** Allocate and push a frame, setjmp, and branch on its result to one of
      `k` new blocks. The frame is in register `c.next`. */
  function Enter(c: Code, k: nat, caught: nat, normal: nat): (r: Code)
    requires c.Valid()
    ensures Straight(c, r, 3, k)
  {
    var f := Reg(c.next);
    c.Emit(EhAlloc(c.next))
    .Emit(EhPush(f))
    .Emit(SetJmp(c.next + 1, f))
    .Emit(Pure(c.next + 2, IsNonZero, Reg(c.next + 1), NONE))
    .NewBlocks(k)
    .Emit(CondBr(Reg(c.next + 2), caught, normal))
    .(next := c.next + 3)
  }

  function PopFree(c: Code, f: nat): (r: Code)
    requires c.Valid()
    ensures Straight(c, r, 0, 0)
  {
    c.Emit(EhPop).Emit(EhFree(Reg(f)))
  }

  function EmitUnlessClosed(c: Code, i: Instr): (r: Code)
    requires c.Valid()
    ensures Straight(c, r, 0, 0)
  {
    if c.Closed() then c else c.Emit(i)
  }

  /** Branch on `a == tag`: to block `|c.blocks| + 1` if so, else to `|c.blocks|`.
      `k` blocks are created. */
  function BranchOnTag(c: Code, a: Operand, tag: int, k: nat): (r: Code)
    requires c.Valid()
    ensures Straight(c, r, 2, k)
  {
    c.Emit(Pure(c.next, GetTag, a, NONE))
    .Emit(Pure(c.next + 1, IsEqual, Reg(c.next), Const(Int(tag))))
    .NewBlocks(k)
    .Emit(CondBr(Reg(c.next + 1), |c.blocks| + 1, |c.blocks|))
    .(next := c.next + 2)
  }

  /** A phi at the head of block `at`. */
  function Merge(c: Code, at: nat, incoming: seq<(Operand, nat)>): (r: Code)
    requires at < |c.blocks|
    ensures Straight(c.SetInsert(at), r, 1, 0)
  {
    c.SetInsert(at).Emit(Phi(c.next, incoming)).Fresh()
  }

  // ---------------------------------------------------------------- the tests of match

  datatype Tests = Tests(c: Code, acc: Option<Operand>)

  /** Same insert block, no new blocks. */
  ghost predicate Inline(c: Code, r: Code) {
    Grows(c, r) && r.cur == c.cur && |r.blocks| == |c.blocks| && (!c.Closed() ==> !r.Closed())
  }

  lemma InlineTrans(a: Code, b: Code, c: Code)
    requires Inline(a, b) && Inline(b, c)
    ensures Inline(a, c)
  {
    hide Grows;
    GrowsTrans(a, b, c);
    GrowsFacts(a, b);
  }

  function EmitTest(k: Kind, p: Pattern, c: Code, v: Operand): (r: Lowered)
    requires c.Valid() && !Wild(p)
    ensures Inline(c, r.c) && Known(r.v, r.c)
  {
    match p
    case Literal(x) => Lowered(Operation(c, IsEqual, v, Const(x)), Reg(c.next))
    case Variant(name, _) =>
      if k.unit then Lowered(Operation(c, IsEqual, v, Const(Int(Disc(k, name)))), Reg(c.next))
      else
        var d := Operation(c, GetTag, v, NONE);
        var r := Operation(d, IsEqual, Reg(c.next), Const(Int(Disc(k, name))));
        InlineTrans(c, d, r);
        Lowered(r, Reg(c.next + 1))
  }

  function OrElse(c: Code, acc: Option<Operand>, v: Operand): (r: Lowered)
    requires c.Valid() && Known(v, c)
    ensures Inline(c, r.c) && Known(r.v, r.c)
  {
    if acc.None? then Lowered(c, v)
    else Lowered(Operation(c, Or, acc.value, v), Reg(c.next))
  }

  /** The tests up to the first wildcard, joined by `or`. */
  function EmitTests(k: Kind, ps: seq<Pattern>, c: Code, v: Operand, acc: Option<Operand>): (r: Tests)
    requires c.Valid() && (acc.Some? ==> Known(acc.value, c))
    ensures Inline(c, r.c) && (r.acc.Some? ==> Known(r.acc.value, r.c))
    decreases |ps|
  {
    if ps == [] || Wild(ps[0]) then Tests(c, acc)
    else
      var t := EmitTest(k, ps[0], c, v);
      var o := OrElse(t.c, acc, t.v);
      InlineTrans(c, t.c, o.c);
      var r := EmitTests(k, ps[1..], o.c, v, Some(o.v));
      InlineTrans(c, o.c, r.c);
      r
  }

  function Jump(acc: Option<Operand>, wild: bool, yes: nat, no: nat): Instr {
    if wild || acc.None? then Br(yes) else CondBr(acc.value, yes, no)
  }

  function NewIn(a: Arm, last: bool): nat { 1 + (if last then 0 else 1) + (if a.guard.Some? then 1 else 0) }

  /** Blocks from `|c.blocks|`: arm, next (unless last), guard (if there is one). */
  function LowerTest(k: Kind, a: Arm, last: bool, c: Code, v: Operand, merge: nat): (r: Code)
    requires c.Valid() && merge < |c.blocks| && merge != c.cur
    ensures Grows(c, r) && |r.blocks| == |c.blocks| + NewIn(a, last) && r.cur == c.cur
    ensures forall b | |c.blocks| <= b < |r.blocks| :: r.blocks[b] == []
  {
    var n := |c.blocks|;
    var t := EmitTests(k, a.patterns, c, v, None);
    var g := if a.guard.None? then n else n + NewIn(a, last) - 1;
    var d := t.c.NewBlocks(NewIn(a, last));
    GrowsTrans(c, t.c, d);
    var r := Emit(d, Jump(t.acc, HasWildcard(a.patterns), g, if last then merge else n + 1));
    GrowsTrans(c, d, r);
    r
  }

  // ---------------------------------------------------------------- expressions


  function LowerExpr(e: Expr, c: Code): (r: Lowered)
    requires c.Valid()
    ensures Grows(c, r.c) && Known(r.v, r.c)
    decreases e, 2
  {
    match e
    case Lit(v) => Lowered(c, Const(v))
    case Var(x) => Lowered(c.Emit(Load(c.next, x)).Fresh(), Reg(c.next))
    case Add(l, r) =>
      var a := LowerExpr(l, c);
      var b := LowerExpr(r, a.c);
      GrowsTrans(c, a.c, b.c);
      var d := Operation(b.c, Add32, a.v, b.v);
      GrowsTrans(c, b.c, d);
      Lowered(d, Reg(b.c.next))
    case Try(_, _, _) => LowerTry(e, c)
    case TryUntyped(e1, fb) =>   // no handler, and the fallback's value is the result
      var a := LowerExpr(e1, c);
      if fb.None? then a
      else
        var b := LowerExpr(fb.value, a.c);
        GrowsTrans(c, a.c, b.c);
        b
    case CatchUnwrap(_, _, _, _) => LowerCatchUnwrap(e, c)
    case Propagate(_, _, _, _, _) => LowerPropagate(e, c)
    case PropagateVoid(_, _, _) => LowerPropagateVoid(e, c)
    case Build(tag, payload, carry) =>
      var a := if payload.None? then Lowered(c, NONE) else LowerExpr(payload.value, c);
      var d := Operation(a.c, BuildTagged(carry), Const(Int(tag)), a.v);
      GrowsTrans(c, a.c, d);
      Lowered(d, Reg(a.c.next))
    case MatchOn(_, _, _) => LowerMatch(e, c)
  }

  function LowerTry(e: Expr, c: Code): (r: Lowered)
    requires e.Try? && c.Valid()
    ensures Grows(c, r.c) && Known(r.v, r.c)
    decreases e, 1
  {
    var n := |c.blocks|;
    var h := TryCaught(e, c);
    var b := LowerExpr(e.e, h.c.SetInsert(n));
    GrowsIn(c, h.c, n, b.c);
    if e.kind.Plain? then TryPlain(c, h, b)
    else
      var o := TryOk(c, b, e.kind.errTag);
      GrowsTrans(c, b.c, o);
      var g := LowerFallback(e.fallback, PopFree(o.SetInsert(|b.c.blocks| + 1), c.next));
      GrowsTrans(o.SetInsert(|b.c.blocks| + 1), PopFree(o.SetInsert(|b.c.blocks| + 1), c.next), g.c);
      GrowsIn(c, o, |b.c.blocks| + 1, g.c);
      TryUnwrap(c, h, b, g)
  }

  /** `try`, up to the end of the caught path. Blocks from `|c.blocks|`: try.expr,
      try.caught, try.merge. The result is the fallback's value; its insert block
      is where the caught path ended. */
  function TryCaught(e: Expr, c: Code): (r: Lowered)
    requires e.Try? && c.Valid()
    ensures Grows(c, r.c) && Known(r.v, r.c)
    ensures |r.c.blocks| >= |c.blocks| + 3 && r.c.cur != |c.blocks| && r.c.cur != |c.blocks| + 2
    ensures |c.blocks| <= r.c.cur && c.next + 3 <= r.c.next
    ensures r.c.blocks[|c.blocks|] == [] && r.c.blocks[|c.blocks| + 2] == []
    decreases e, 0
  {
    var n := |c.blocks|;
    var t := Enter(c, 3, n + 1, n);
    var c1 := PopFree(t.SetInsert(n + 1), c.next);
    var h := LowerFallback(e.fallback, c1);
    GrowsTrans(t.SetInsert(n + 1), c1, h.c);
    var c2 := Emit(h.c, Br(n + 2));
    GrowsTrans(t.SetInsert(n + 1), h.c, c2);
    GrowsIn(c, t, n + 1, c2);
    Lowered(c2, h.v)
  }

  /** End of a plain `try`: pop and free, and merge the two paths. */
  function TryPlain(c: Code, h: Lowered, b: Lowered): (r: Lowered)
    requires Grows(c, h.c) && Grows(c, b.c) && |c.blocks| + 2 < |b.c.blocks|
    ensures Grows(c, r.c) && Known(r.v, r.c)
  {
    var c3 := Emit(PopFree(b.c, c.next), Br(|c.blocks| + 2));
    GrowsTrans(b.c, PopFree(b.c, c.next), c3);
    GrowsTrans(c, b.c, c3);
    var c4 := Merge(c3, |c.blocks| + 2, [(b.v, b.c.cur), (h.v, h.c.cur)]);
    GrowsIn(c, c3, |c.blocks| + 2, c4);
    Lowered(c4, Reg(c3.next))
  }

  /** The tag test and the ok path; `|b.c.blocks|` is try.ok, then try.err. */
  function TryOk(c: Code, b: Lowered, tag: int): (r: Code)
    requires b.c.Valid() && |c.blocks| <= |b.c.blocks|
    ensures Grows(b.c, r) && |r.blocks| == |b.c.blocks| + 2 && r.blocks[|b.c.blocks| + 1] == []
    ensures r.cur == |b.c.blocks| && r.next == b.c.next + 3
  {
    var k := |b.c.blocks|;
    var c3 := BranchOnTag(b.c, b.v, tag, 2);
    var c4 := Operation(PopFree(c3.SetInsert(k), c.next), GetPayload, b.v, NONE);
    GrowsTrans(c3.SetInsert(k), PopFree(c3.SetInsert(k), c.next), c4);
    var c5 := Emit(c4, Br(|c.blocks| + 2));
    GrowsTrans(c3.SetInsert(k), c4, c5);
    GrowsIn(b.c, c3, k, c5);
    c5
  }

  /** End of an unwrapping `try`: merge the ok, error and caught paths. */
  function TryUnwrap(c: Code, h: Lowered, b: Lowered, g: Lowered): (r: Lowered)
    requires Grows(c, g.c) && |c.blocks| + 2 < |g.c.blocks|
    ensures Grows(c, r.c) && Known(r.v, r.c)
  {
    var c7 := Emit(g.c, Br(|c.blocks| + 2));
    GrowsTrans(c, g.c, c7);
    var c8 := Merge(c7, |c.blocks| + 2,
      [(Reg(b.c.next + 2), |b.c.blocks|), (g.v, g.c.cur), (h.v, h.c.cur)]);
    GrowsIn(c, c7, |c.blocks| + 2, c8);
    Lowered(c8, Reg(c7.next))
  }

  /** Blocks after the operand: unwrap.ok, unwrap.err, unwrap.merge. */
  function LowerCatchUnwrap(e: Expr, c: Code): (r: Lowered)
    requires e.CatchUnwrap? && c.Valid()
    ensures Grows(c, r.c) && Known(r.v, r.c)
    decreases e, 0
  {
    var a := LowerExpr(e.e, c);
    var n := |a.c.blocks|;
    var c3 := UnwrapOk(a.c, a.v, e.errTag, n + 2);
    GrowsTrans(c, a.c, c3);
    var c4 := BindPayload(c3.SetInsert(n + 1), e.it, a.v);
    var c5 := LowerStmt(e.block, c4);
    GrowsTrans(c3.SetInsert(n + 1), c4, c5);
    GrowsIn(c, c3, n + 1, c5);
    if c5.Closed() then
      Lowered(c5.SetInsert(n + 2), Reg(a.c.next + 2))
    else
      var c6 := Emit(c5, Br(n + 2));
      GrowsTrans(c, c5, c6);
      var c7 := Merge(c6, n + 2, [(Reg(a.c.next + 2), n), (Const(NULL), c5.cur)]);
      GrowsIn(c, c6, n + 2, c7);
      Lowered(c7, Reg(c6.next))
  }

  /** Test the tag of `v`, and in the ok block extract the payload. */
  function UnwrapOk(c: Code, v: Operand, tag: int, to: nat): (r: Code)
    requires c.Valid()
    ensures Grows(c, r) && r.cur == |c.blocks| && r.next == c.next + 3
    ensures |r.blocks| == |c.blocks| + 3
    ensures r.blocks[|c.blocks| + 1] == [] && r.blocks[|c.blocks| + 2] == []
  {
    var n := |c.blocks|;
    var c1 := BranchOnTag(c, v, tag, 3);
    var c2 := Operation(c1.SetInsert(n), GetPayload, v, NONE);
    var c3 := Emit(c2, Br(to));
    GrowsTrans(c1.SetInsert(n), c2, c3);
    GrowsIn(c, c1, n, c3);
    c3
  }

  /** Blocks after the operand: prop.ok, prop.err, prop.merge. */
  function LowerPropagate(e: Expr, c: Code): (r: Lowered)
    requires e.Propagate? && c.Valid()
    ensures Grows(c, r.c) && Known(r.v, r.c)
    decreases e, 0
  {
    var a := LowerExpr(e.e, c);
    var n := |a.c.blocks|;
    var c1 := BranchOnTag(a.c, a.v, e.errTag, 3);
    GrowsTrans(c, a.c, c1);
    var c2 := LowerStmt(e.context, c1.SetInsert(n + 1));
    GrowsIn(c, c1, n + 1, c2);
    var c3 := ReturnTagged(c2, a.v, e.carry, e.retTag);
    GrowsTrans(c, c2, c3);
    PropagateOk(c, c3, a.v, n)
  }

  function PropagateOk(c: Code, c3: Code, v: Operand, n: nat): (r: Lowered)
    requires Grows(c, c3) && |c.blocks| <= n && n + 2 < |c3.blocks|
    ensures Grows(c, r.c) && Known(r.v, r.c)
  {
    var c4 := Operation(c3.SetInsert(n), GetPayload, v, NONE);
    GrowsIn(c, c3, n, c4);
    var c5 := Emit(c4, Br(n + 2));
    GrowsTrans(c, c4, c5);
    var c6 := Merge(c5, n + 2, [(Reg(c3.next), n)]);
    GrowsIn(c, c5, n + 2, c6);
    Lowered(c6, Reg(c5.next))
  }

  /** Blocks after the operand: prop.ok, prop.err. There is no value. */
  function LowerPropagateVoid(e: Expr, c: Code): (r: Lowered)
    requires e.PropagateVoid? && c.Valid()
    ensures Grows(c, r.c) && Known(r.v, r.c)
    decreases e, 0
  {
    var a := LowerExpr(e.e, c);
    var n := |a.c.blocks|;
    var c1 := BranchOnTag(a.c, a.v, e.errTag, 2);
    GrowsTrans(c, a.c, c1);
    var c2 := LowerStmt(e.context, c1.SetInsert(n + 1));
    GrowsIn(c, c1, n + 1, c2);
    var c3 := Emit(c2, Ret(NONE));
    GrowsTrans(c, c2, c3);
    Lowered(c3.SetInsert(n), NONE)
  }

  /** Without `or`, the fallback is the null value. */
  function LowerFallback(fb: Option<Expr>, c: Code): (r: Lowered)
    requires c.Valid()
    ensures Grows(c, r.c) && Known(r.v, r.c)
    decreases fb, 2
  {
    match fb case None => Lowered(c, Const(NULL)) case Some(e) => LowerExpr(e, c)
  }

  /** Bind the implicit `it` to the payload, if the error variant has one. */
  function BindPayload(c: Code, it: Option<nat>, a: Operand): (r: Code)
    requires c.Valid()
    ensures Straight(c, r, if it.Some? then 1 else 0, 0)
  {
    if it.None? then c
    else c.Emit(Pure(c.next, GetPayload, a, NONE)).Emit(Store(it.value, Reg(c.next))).Fresh()
  }

  /** Rebuild the error as the return type's error variant and return it. */
  function ReturnTagged(c: Code, a: Operand, carry: Carry, tag: int): (r: Code)
    requires c.Valid()
    ensures Straight(c, r, 2, 0)
  {
    c.Emit(Pure(c.next, GetPayload, a, NONE))
    .Emit(Pure(c.next + 1, BuildTagged(carry), Const(Int(tag)), Reg(c.next)))
    .Emit(Ret(Reg(c.next + 1)))
    .(next := c.next + 2)
  }

  lemma PlainUnfold(e: Expr, c: Code, h: Lowered, b: Lowered)
    requires e.Try? && e.kind.Plain? && c.Valid()
    requires h == TryCaught(e, c) && b == LowerExpr(e.e, h.c.SetInsert(|c.blocks|))
    requires Grows(c, b.c) && |c.blocks| + 2 < |b.c.blocks|
    ensures LowerExpr(e, c) == TryPlain(c, h, b)
  {
    hide TryPlain, TryCaught;
  }

  lemma TryIs(e: Expr, c: Code)
    requires e.Try? && c.Valid()
    ensures LowerExpr(e, c) == LowerTry(e, c)
  {
    hide LowerTry;
  }

  lemma UnwrapUnfold(e: Expr, c: Code, h: Lowered, b: Lowered, o: Code, c6: Code, g: Lowered)
    requires e.Try? && e.kind.Unwrap? && c.Valid()
    requires h == TryCaught(e, c) && b == LowerExpr(e.e, h.c.SetInsert(|c.blocks|))
    requires Grows(c, b.c) && o == TryOk(c, b, e.kind.errTag)
    requires c6 == PopFree(o.SetInsert(|b.c.blocks| + 1), c.next) && g == LowerFallback(e.fallback, c6)
    requires Grows(c, g.c) && |c.blocks| + 2 < |g.c.blocks|
    ensures LowerExpr(e, c) == TryUnwrap(c, h, b, g)
  {
    hide LowerExpr, TryUnwrap, TryCaught, TryOk, PopFree, LowerFallback, Grows, Straight;
    TryIs(e, c);
  }

  // ---------------------------------------------------------------- match

  datatype BodyCode = BodyCode(c: Code, v: Option<Operand>)

  /** The phi's incoming pairs, in the order they were recorded. */
  datatype ArmsCode = ArmsCode(c: Code, incoming: seq<(Operand, nat)>)

  function LowerBody(b: Body, c: Code): (r: BodyCode)
    requires c.Valid()
    ensures Grows(c, r.c) && (r.v.Some? ==> Known(r.v.value, r.c))
    decreases b, 1
  {
    var c1 := LowerStmt(b.pre, c);
    var r := LowerRest(b, c1);
    GrowsTrans(c, c1, r.c);
    r
  }

  /** A body after its first statements. */
  function LowerRest(b: Body, c: Code): (r: BodyCode)
    requires c.Valid()
    ensures Grows(c, r.c) && (r.v.Some? ==> Known(r.v.value, r.c))
    decreases b, 0
  {
    if b.value.None? then BodyCode(LowerStmt(b.post, c), None)
    else
      var a := LowerExpr(b.value.value, c);
      var d := LowerStmt(b.post, a.c);
      GrowsTrans(c, a.c, d);
      BodyCode(d, Some(a.v))
  }

  function LowerGuard(k: Kind, a: Arm, c: Code, v: Operand, yes: nat, no: nat): (r: Code)
    requires c.Valid()
    ensures Grows(c, r)
    decreases a, 0
  {
    var b := BindPayload(c, BindOf(k, a.patterns), v);
    if a.guard.None? then b
    else
      var g := LowerExpr(a.guard.value, b);
      GrowsTrans(c, b, g.c);
      var r := BranchIf(g.c, g.v, yes, no);
      GrowsTrans(c, g.c, r);
      r
  }

  /** The tests and the guard of an arm. */
  function LowerEntry(k: Kind, a: Arm, last: bool, c: Code, v: Operand, merge: nat): (r: Code)
    requires c.Valid() && merge < |c.blocks| && merge != c.cur
    ensures Grows(c, r) && |r.blocks| >= |c.blocks| + NewIn(a, last) && r.cur != |c.blocks|
    ensures r.blocks[|c.blocks|] == [] && (!last ==> r.cur != |c.blocks| + 1 && r.blocks[|c.blocks| + 1] == [])
    decreases a, 1
  {
    var t := LowerTest(k, a, last, c, v, merge);
    if a.guard.None? then t
    else
      var at := |t.blocks| - 1;
      var g := LowerGuard(k, a, t.SetInsert(at), v, |c.blocks|, if last then merge else |c.blocks| + 1);
      GrowsIn(c, t, at, g);
      assert g.blocks[|c.blocks|] == t.blocks[|c.blocks|];
      g
  }

  /** The body of an arm, in block `n`, and its jump to the merge block. */
  function LowerArmBody(k: Kind, a: Arm, c: Code, n: nat, v: Operand, merge: nat): (r: ArmsCode)
    requires n < |c.blocks|
    ensures Grows(c.SetInsert(n), r.c)
    decreases a, 0
  {
    var b := BindPayload(c.SetInsert(n), BindOf(k, a.patterns), v);
    var e := LowerBody(a.body, b);
    GrowsTrans(c.SetInsert(n), b, e.c);
    var r := EmitUnlessClosed(e.c, Br(merge));
    GrowsTrans(c.SetInsert(n), e.c, r);
    ArmsCode(r, if e.v.Some? then [(e.v.value, e.c.cur)] else if e.c.Closed() then [] else [(NONE, e.c.cur)])
  }

  function LowerArm(k: Kind, a: Arm, last: bool, c: Code, v: Operand, merge: nat): (r: ArmsCode)
    requires c.Valid() && merge < |c.blocks| && merge != c.cur
    ensures Grows(c, r.c) && |r.c.blocks| >= |c.blocks| + NewIn(a, last)
    ensures !last ==> r.c.blocks[|c.blocks| + 1] == []
    ensures r.c.blocks[merge] == c.blocks[merge]
    decreases a, 2
  {
    var n := |c.blocks|;
    var g := LowerEntry(k, a, last, c, v, merge);
    var b := LowerArmBody(k, a, g, n, v, merge);
    GrowsIn(c, g, n, b.c);
    ArmsCode(b.c, b.incoming + (if last && !HasWildcard(a.patterns) then [(NONE, c.cur)] else []))
  }

  function LowerArms(k: Kind, arms: seq<Arm>, c: Code, v: Operand, merge: nat): (r: ArmsCode)
    requires c.Valid() && merge < |c.blocks| && merge != c.cur
    ensures Grows(c, r.c) && r.c.blocks[merge] == c.blocks[merge]
    decreases arms
  {
    if arms == [] then ArmsCode(c, [])
    else
      var a := LowerArm(k, arms[0], |arms| == 1, c, v, merge);
      if |arms| == 1 then a
      else
        var r := LowerArms(k, arms[1..], a.c.SetInsert(|c.blocks| + 1), v, merge);
        GrowsIn(c, a.c, |c.blocks| + 1, r.c);
        ArmsCode(r.c, a.incoming + r.incoming)
  }

  function LowerMatch(e: Expr, c: Code): (r: Lowered)
    requires e.MatchOn? && c.Valid()
    ensures Grows(c, r.c) && Known(r.v, r.c)
    decreases e, 0
  {
    var a := LowerExpr(e.e, c);
    var n := |a.c.blocks|;
    var d := a.c.NewBlocks(1);
    GrowsTrans(c, a.c, d);
    var b := LowerArms(e.on, e.arms, d, a.v, n);
    GrowsTrans(c, d, b.c);
    if b.incoming == [] then Lowered(b.c.SetInsert(n), NONE)
    else
      var m := Merge(b.c, n, b.incoming);
      GrowsIn(a.c, b.c, n, m);
      GrowsTrans(c, a.c, m);
      Lowered(m, Reg(b.c.next))
  }

  // ---------------------------------------------------------------- statements

  function LowerStmt(s: Stmt, c: Code): (r: Code)
    requires c.Valid()
    ensures Grows(c, r)
    decreases s, 2
  {
    match s
    case Skip => c
    case Seq(a, b) =>
      var c1 := LowerStmt(a, c);
      var c2 := LowerStmt(b, c1);
      GrowsTrans(c, c1, c2);
      c2
    case Do(e) => LowerExpr(e, c).c
    case Assign(x, e) =>
      var a := LowerExpr(e, c);
      GrowsTrans(c, a.c, Emit(a.c, Store(x, a.v)));
      Emit(a.c, Store(x, a.v))
    case Print(e) =>
      var a := LowerExpr(e, c);
      GrowsTrans(c, a.c, Emit(a.c, Out(a.v)));
      Emit(a.c, Out(a.v))
    case If(_, _, _) => LowerIf(s, c)
    case ThrowStmt(e, _, _, _, _, _) =>
      var a := LowerExpr(e, c);
      var c1 := RaiseStamped(a.c, a.v, ThrowSite(s));
      GrowsTrans(c, a.c, c1);
      c1.SetInsert(|a.c.blocks|)   // throw.dead
    case TryCatch(_, _, _) => LowerTryCatch(s, c)
    case Return(e) =>
      var a := LowerExpr(e, c);
      GrowsTrans(c, a.c, Emit(a.c, Ret(a.v)));
      Emit(a.c, Ret(a.v))
  }

  /** Blocks from `|c.blocks|`: if.end, if.then, if.else. */
  function LowerIf(s: Stmt, c: Code): (r: Code)
    requires s.If? && c.Valid()
    ensures Grows(c, r)
    decreases s, 0
  {
    var n := |c.blocks|;
    var c0 := c.NewBlocks(3);
    var a := LowerExpr(s.cond, c0);
    GrowsTrans(c, c0, a.c);
    var c1 := BranchIf(a.c, a.v, n + 1, n + 2);
    GrowsTrans(c, a.c, c1);
    var c3 := LowerBranch(s.thn, c1.SetInsert(n + 1), n);
    GrowsIn(c, c1, n + 1, c3);
    var c5 := LowerBranch(s.els, c3.SetInsert(n + 2), n);
    GrowsIn(c, c3, n + 2, c5);
    c5.SetInsert(n)
  }

  /** One branch, and a jump to the end unless it ends by itself. */
  function LowerBranch(s: Stmt, c: Code, to: nat): (r: Code)
    requires c.Valid()
    ensures Grows(c, r)
    decreases s, 3
  {
    var d := LowerStmt(s, c);
    GrowsTrans(c, d, EmitUnlessClosed(d, Br(to)));
    EmitUnlessClosed(d, Br(to))
  }

  lemma BranchUnfolds(s: Stmt, c: Code, to: nat)
    requires c.Valid()
    ensures LowerBranch(s, c, to) == EmitUnlessClosed(LowerStmt(s, c), Br(to))
  {
  }

  function BranchIf(c: Code, v: Operand, yes: nat, no: nat): (r: Code)
    requires c.Valid()
    ensures Straight(c, r, 1, 0)
  {
    c.Emit(Pure(c.next, IsNonZero, v, NONE)).Emit(CondBr(Reg(c.next), yes, no)).Fresh()
  }

  /** Blocks from `|c.blocks|`: try, catch, finally, try_end. */
  function LowerTryCatch(s: Stmt, c: Code): (r: Code)
    requires s.TryCatch? && c.Valid()
    ensures Grows(c, r)
    decreases s, 1
  {
    var n := |c.blocks|;
    var c2 := LowerTryBody(s, c);
    var c4 := LowerHandlers(s, c, c2);
    GrowsIn(c, c2, n + 1, c4);
    var c5 := LowerStmt(s.final, c4.SetInsert(n + 2));
    GrowsIn(c, c4, n + 2, c5);
    var c6 := LeaveFinal(c5, c.next, n + 3);
    GrowsTrans(c, c5, c6);
    c6.SetInsert(n + 3)
  }

  function LowerTryBody(s: Stmt, c: Code): (r: Code)
    requires s.TryCatch? && c.Valid()
    ensures Grows(c, r) && |c.blocks| + 4 <= |r.blocks|
    ensures r.cur == |c.blocks| || |c.blocks| + 4 <= r.cur
    ensures forall i | |c.blocks| < i < |c.blocks| + 4 :: r.blocks[i] == []
    decreases s, 0
  {
    var n := |c.blocks|;
    var t := Enter(c, 4, n + 1, n);
    var c1 := LowerStmt(s.body, t.SetInsert(n));
    var c2 := LeaveBody(c1, n + 2);
    GrowsTrans(t.SetInsert(n), c1, c2);
    GrowsIn(c, t, n, c2);
    c2
  }

  /** The catch block and its chain of clauses. */
  function LowerHandlers(s: Stmt, c: Code, c2: Code): (r: Code)
    requires s.TryCatch? && |c.blocks| + 4 <= |c2.blocks|
    ensures Grows(c2.SetInsert(|c.blocks| + 1), r)
    decreases s, 0
  {
    var c3 := Dispatch(c2.SetInsert(|c.blocks| + 1), c.next);
    var c4 := LowerCatches(s.catches, c3, c.next, c2.next, |c.blocks| + 2, true);
    GrowsTrans(c2.SetInsert(|c.blocks| + 1), c3, c4);
    c4
  }

  function LeaveBody(c: Code, to: nat): (r: Code)
    requires c.Valid()
    ensures Straight(c, r, 0, 0)
  {
    if c.Closed() then c else c.Emit(EhPop).Emit(Br(to))
  }

  function LeaveFinal(c: Code, f: nat, to: nat): (r: Code)
    requires c.Valid()
    ensures Straight(c, r, 0, 0)
  {
    if c.Closed() then c else c.Emit(EhFree(Reg(f))).Emit(Br(to))
  }

  function RaiseStamped(c: Code, a: Operand, site: Site): (r: Code)
    requires c.Valid()
    ensures Straight(c, r, 1, 1)
  {
    c.Emit(Pure(c.next, Stamp(site), a, NONE))
    .Emit(EhThrow(Reg(c.next)))
    .Emit(Unreachable)
    .NewBlocks(1)
    .Fresh()
  }

  /** Head of the catch block: pop the handler, load the error into `c.next`, and
      its two type ids into the registers after it. */
  function Dispatch(c: Code, f: nat): (r: Code)
    requires c.Valid()
    ensures Straight(c, r, 3, 0)
  {
    c.Emit(EhPop)
    .Emit(EhGetError(c.next, Reg(f)))
    .Emit(Pure(c.next + 1, GetTypeId, Reg(c.next), NONE))
    .Emit(Pure(c.next + 2, GetParentId, Reg(c.next), NONE))
    .(next := c.next + 3)
  }

  /** The type test of one clause; block `|c.blocks|` is its body, the next one
      the continuation for errors that do not match. */
  function TestClause(c: Code, e: nat, name: string): (r: Code)
    requires c.Valid()
    ensures Straight(c, r, 3, 2)
  {
    c.Emit(Pure(c.next, IsEqual, Reg(e + 1), Const(Int(Fnv(name)))))
    .Emit(Pure(c.next + 1, IsEqual, Reg(e + 2), Const(Int(Fnv(name)))))
    .Emit(Pure(c.next + 2, Or, Reg(c.next), Reg(c.next + 1)))
    .NewBlocks(2)
    .Emit(CondBr(Reg(c.next + 2), |c.blocks|, |c.blocks| + 1))
    .(next := c.next + 3)
  }

  /** No clause matched: push the frame again, put the error back, throw it. */
  function Rethrow(c: Code, f: nat, e: nat): (r: Code)
    requires c.Valid()
    ensures Straight(c, r, 1, 0)
  {
    c.Emit(EhPush(Reg(f)))
    .Emit(EhSetError(Reg(f), Reg(e)))
    .Emit(EhGetError(c.next, Reg(f)))
    .Emit(EhThrow(Reg(c.next)))
    .Emit(Unreachable)
    .Fresh()
  }

  /** The chain of clauses, ending in the re-raise. A `try` without any clause
      emits nothing at all, not even the re-raise. */
  function LowerCatches(cs: Catches, c: Code, f: nat, e: nat, final: nat, first: bool): (r: Code)
    requires c.Valid()
    ensures Grows(c, r)
    decreases cs, 0
  {
    match cs
    case NoMore => if first then c else Rethrow(c, f, e)
    case Catch(name, x, body, rest) =>
      var n := |c.blocks|;   // n: catch.body, n + 1: catch.nomatch
      var c1 := TestClause(c, e, name);
      var c2 := Emit(c1.SetInsert(n), Store(x, Reg(e)));
      GrowsIn(c, c1, n, c2);
      var c3 := LowerStmt(body, c2);
      GrowsTrans(c, c2, c3);
      var c4 := EmitUnlessClosed(c3, Br(final));
      GrowsTrans(c, c3, c4);
      var c5 := LowerCatches(rest, c4.SetInsert(n + 1), f, e, final, false);
      GrowsIn(c, c4, n + 1, c5);
      c5
  }

  const EMPTY := Code([[]], 0, 0)

  /** A function body; falling off its end returns. */
  function LowerFunction(body: Stmt): Program {
    EmitUnlessClosed(LowerStmt(body, EMPTY), Ret(NONE)).blocks
  }
}
