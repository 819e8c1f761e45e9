/** What LLVM's module verification asks of control flow, and which programs give it
    (src/IRBuilder/IRGen_driver.cpp, generate): every block ends in its one
    terminator, and every phi stands first in its block and lists each predecessor
    once and nothing else. A module that fails is not handed on. */
module Verified {
  import opened Hashes
  import opened Ir
  import opened Source
  import opened Wrappers
  import opened Lowering
  import opened Edges
  import opened MatchSimulation
  import opened MatchPhi

  // ---------------------------------------------------------------- what is asked

  /** No terminator before the last instruction. */
  ghost predicate Tail(xs: seq<Instr>) { forall i | 0 <= i < |xs| - 1 :: !IsTerminator(xs[i]) }

  ghost predicate Ended(xs: seq<Instr>) { |xs| > 0 && Tail(xs) && IsTerminator(xs[|xs| - 1]) }

  ghost predicate PhiExact(c: Code, t: nat, xs: seq<(Operand, nat)>) {
    FromDistinct(xs) && forall b: nat :: Edge(c, b, t) <==> FromBlock(xs, b)
  }

  /** The phis of the blocks from `lo` on. */
  ghost predicate Phis(c: Code, lo: nat) {
    forall t: nat, k: nat | lo <= t < |c.blocks| && k < |c.blocks[t]| && c.blocks[t][k].Phi? ::
      k == 0 && PhiExact(c, t, c.blocks[t][k].incoming)
  }

  ghost predicate Accepted(p: Program) {
    Phis(Code(p, 0, 0), 0) && forall b | 0 <= b < |p| :: Ended(p[b])
  }

  // ---------------------------------------------------------------- which programs

  /** Nothing is emitted where the insert block has ended (`closed`), nothing is left
      without an end, and every phi is exact. */
  predicate StmtOk(s: Stmt, closed: bool)
    decreases s
  {
    match s
    case Skip => true
    case Seq(a, b) => StmtOk(a, closed) && StmtOk(b, ClosedAfter(a, closed))
    case Do(e) => ExprOk(e, closed)
    case Assign(_, e) => OpenOk(e, closed)
    case Print(e) => OpenOk(e, closed)
    case If(c, t, f) => OpenOk(c, closed) && StmtOk(t, false) && StmtOk(f, false)
    case ThrowStmt(e, _, _, _, _, _) => OpenOk(e, closed)
    case TryCatch(b, cs, f) => !closed && cs.Catch? && StmtOk(b, false) && CatchesOk(cs) && StmtOk(f, false)
    case Return(e) => OpenOk(e, closed)
  }

  predicate CatchesOk(cs: Catches)
    decreases cs
  {
    cs.Catch? ==> StmtOk(cs.body, false) && CatchesOk(cs.rest)
  }

  predicate ExprOk(e: Expr, closed: bool)
    decreases e, 0
  {
    match e
    case Lit(_) => true
    case Var(_) => !closed
    case Add(l, r) => ExprOk(l, closed) && OpenOk(r, closed && IsLit(l))
    case Try(e1, _, fb) => !closed && ExprOk(e1, false) && (fb.Some? ==> ExprOk(fb.value, false))
    case TryUntyped(e1, fb) => ExprOk(e1, closed) && (fb.Some? ==> ExprOk(fb.value, closed && IsLit(e1)))
    case CatchUnwrap(e1, _, _, b) => OpenOk(e1, closed) && StmtOk(b, false)
    case Propagate(e1, _, _, _, b) => OpenOk(e1, closed) && StmtOk(b, false) && !ClosedAfter(b, false)
    case PropagateVoid(e1, _, b) => OpenOk(e1, closed) && StmtOk(b, false) && !ClosedAfter(b, false)
    case Build(_, p, _) => if p.Some? then OpenOk(p.value, closed) else !closed
    case MatchOn(e1, _, arms) =>
      if arms == [] then ExprOk(e1, closed) && closed && IsLit(e1)
      else OpenOk(e1, closed) && ArmsOk(arms) && (NoPhi(arms) || PhiOk(arms))
  }

  /** The operand's code is fine, and more may follow it. */
  predicate OpenOk(e: Expr, closed: bool)
    decreases e, 1
  {
    ExprOk(e, closed) && !(closed && IsLit(e))
  }

  predicate ArmsOk(arms: seq<Arm>)
    decreases arms
  {
    arms != [] ==> ArmOk(arms[0]) && ArmsOk(arms[1..])
  }

  predicate ArmOk(a: Arm)
    decreases a
  {
    (a.guard.Some? ==> ExprOk(a.guard.value, false)) && BodyOk(a.body)
  }

  predicate BodyOk(b: Body)
    decreases b
  {
    var at := ClosedAfter(b.pre, false);
    && StmtOk(b.pre, false)
    && (b.value.Some? ==> ExprOk(b.value.value, at))
    && StmtOk(b.post, at && (b.value.Some? ==> IsLit(b.value.value)))
  }

  /** The last arm has a pattern and no guard, and no arm is `{ ret e; }`. */
  predicate PhiOk(arms: seq<Arm>)
    requires arms != []
  {
    Unguarded(arms[|arms| - 1]) && forall i | 0 <= i < |arms| :: !BodyClashes(arms[i].body)
  }

  /** No arm falls through to the merge block, so there is no phi. */
  predicate NoPhi(arms: seq<Arm>)
    requires arms != []
  {
    HasWildcard(arms[|arms| - 1].patterns) && forall i | 0 <= i < |arms| :: Diverges(arms[i].body)
  }

  predicate Diverges(b: Body) { b.value.None? && ClosedAfter(b.post, ClosedAfter(b.pre, false)) }

  // ---------------------------------------------------------------- under construction

  /** From `b` the builder got to `c`. The blocks in `pend` were created for later. */
  ghost predicate On(b: Code, c: Code, pend: set<nat>) {
    && Grows(b, c) && Adds(|b.blocks|, b, c) && Lands(c)
    && (forall x | x in pend :: |b.blocks| <= x < |c.blocks| && c.blocks[x] == [] && x != c.cur)
    && (forall k: nat | |b.blocks[b.cur]| <= k < |c.blocks[b.cur]| :: !c.blocks[b.cur][k].Phi?)
  }

  /** What was created and is finished is as it should be. */
  ghost predicate Made(b: Code, c: Code, pend: set<nat>) {
    && b.Valid() && c.Valid() && |b.blocks| <= |c.blocks|
    && (forall i: nat | |b.blocks| <= i < |c.blocks| && i !in pend && i != c.cur :: Ended(c.blocks[i]))
    && (c.cur != b.cur ==> Ended(c.blocks[b.cur]))
    && Tail(c.blocks[c.cur])
    && Phis(c, |b.blocks|)
  }

  lemma OnValid(b: Code, c: Code, pend: set<nat>)
    requires On(b, c, pend)
    ensures b.Valid() && c.Valid() && Lands(c) && Grows(b, c) && |b.blocks| <= |c.blocks|
    ensures Adds(|b.blocks|, b, c)
    ensures forall x | x in pend :: |b.blocks| <= x < |c.blocks| && x != c.cur
  {
  }

  lemma Starts(c: Code)
    requires c.Valid() && Lands(c)
    ensures On(c, c, {}) && (Made(c, c, {}) <==> Tail(c.blocks[c.cur]))
  {
    PieceAdds(|c.blocks|, c, c, []);
  }

  /** `d` is `c` with `xs` in the insert block and `k` new empty blocks. */
  ghost predicate Piece(c: Code, d: Code, xs: seq<Instr>, k: nat) {
    && c.Valid() && d.cur == c.cur && |d.blocks| == |c.blocks| + k && c.next <= d.next
    && d.blocks[c.cur] == c.blocks[c.cur] + xs
    && (forall i | 0 <= i < |c.blocks| && i != c.cur :: d.blocks[i] == c.blocks[i])
    && (forall i | |c.blocks| <= i < |d.blocks| :: d.blocks[i] == [])
  }

  /** No phi, no terminator but at the end, and jumps to pending blocks only. */
  ghost predicate Proper(xs: seq<Instr>, targets: set<nat>) {
    && Tail(xs)
    && (forall i | 0 <= i < |xs| :: !xs[i].Phi?)
    && (forall i, t: nat | 0 <= i < |xs| && JumpsTo(xs[i], t) :: t in targets)
  }

  /** `next` is `pend` with the blocks created from `c` to `d`. */
  ghost predicate Widens(c: Code, d: Code, pend: set<nat>, next: set<nat>) {
    forall x: nat :: x in next <==> x in pend || |c.blocks| <= x < |d.blocks|
  }

  lemma Steps(b: Code, c: Code, pend: set<nat>, d: Code, xs: seq<Instr>, k: nat, next: set<nat>)
    requires On(b, c, pend) && Piece(c, d, xs, k) && Widens(c, d, pend, next) && Proper(xs, next)
    ensures On(b, d, next) && (Made(b, d, next) <==> Made(b, c, pend) && (xs == [] || !c.Closed()))
    ensures d.Closed() <==> if xs == [] then c.Closed() else IsTerminator(xs[|xs| - 1])
  {
    hide Made, Edge;
    StepsOn(b, c, pend, d, xs, k, next);
    StepsMade(b, c, pend, d, xs, k, next);
    if xs != [] { assert d.blocks[c.cur][|d.blocks[c.cur]| - 1] == xs[|xs| - 1]; }
  }

  lemma StepsOn(b: Code, c: Code, pend: set<nat>, d: Code, xs: seq<Instr>, k: nat, next: set<nat>)
    requires On(b, c, pend) && Piece(c, d, xs, k) && Widens(c, d, pend, next) && Proper(xs, next)
    ensures On(b, d, next)
  {
    hide Edge, Tail;
    var lo := |b.blocks|;
    forall j, t: nat | 0 <= j < |xs| && JumpsTo(xs[j], t) ensures lo <= t < |d.blocks| { assert t in next; }
    PieceAdds(lo, c, d, xs);
    AddsTrans(lo, b, c, d);
    StillLands(lo, c, d);
    GrowsTrans(b, c, d);
  }

  lemma StepsMade(b: Code, c: Code, pend: set<nat>, d: Code, xs: seq<Instr>, k: nat, next: set<nat>)
    requires On(b, c, pend) && Piece(c, d, xs, k) && Widens(c, d, pend, next) && Proper(xs, next)
    ensures Made(b, d, next) <==> Made(b, c, pend) && (xs == [] || !c.Closed())
  {
    hide Edge, Phis, Adds, Lands;
    StepsPhis(b, c, pend, d, xs, k, next);
    StepsTail(c.blocks[c.cur], xs);
  }

  lemma StepsTail(ys: seq<Instr>, xs: seq<Instr>)
    requires Tail(xs)
    ensures Tail(ys + xs) <==> Tail(ys) && (xs == [] || ys == [] || !IsTerminator(ys[|ys| - 1]))
  {
    var zs := ys + xs;
    if Tail(zs) {
      forall i | 0 <= i < |ys| - 1 ensures !IsTerminator(ys[i]) { assert zs[i] == ys[i]; }
      if xs != [] && ys != [] { assert zs[|ys| - 1] == ys[|ys| - 1]; }
    }
  }

  /** Jumps to empty blocks do not concern any phi. */
  lemma StepsPhis(b: Code, c: Code, pend: set<nat>, d: Code, xs: seq<Instr>, k: nat, next: set<nat>)
    requires On(b, c, pend) && Piece(c, d, xs, k) && Widens(c, d, pend, next) && Proper(xs, next)
    ensures Phis(d, |b.blocks|) <==> Phis(c, |b.blocks|)
  {
    hide PhiExact, Tail, Grows, Adds, Lands, Edge;
    forall t: nat, j: nat | t < |c.blocks| && j < |c.blocks[t]| && c.blocks[t][j].Phi?
      ensures PhiExact(d, t, c.blocks[t][j].incoming) <==> PhiExact(c, t, c.blocks[t][j].incoming)
    {
      assert t !in next;
      forall x: nat ensures Edge(d, x, t) <==> Edge(c, x, t) { PieceEdges(c, d, xs, k, x, t); }
      SameExact(c, d, t, c.blocks[t][j].incoming);
    }
    assert forall t: nat, j: nat | t < |d.blocks| && j < |d.blocks[t]| && d.blocks[t][j].Phi? ::
      t < |c.blocks| && j < |c.blocks[t]| && d.blocks[t][j] == c.blocks[t][j];
    assert forall t: nat, j: nat | t < |c.blocks| && j < |c.blocks[t]| :: d.blocks[t][j] == c.blocks[t][j];
  }

  lemma PieceEdges(c: Code, d: Code, xs: seq<Instr>, k: nat, x: nat, t: nat)
    requires Piece(c, d, xs, k) && forall i | 0 <= i < |xs| :: !JumpsTo(xs[i], t)
    ensures Edge(d, x, t) <==> Edge(c, x, t)
  {
    forall j | |c.blocks[c.cur]| <= j < |d.blocks[c.cur]| ensures !JumpsTo(d.blocks[c.cur][j], t) {
      assert d.blocks[c.cur][j] == xs[j - |c.blocks[c.cur]|];
    }
    if Edge(c, x, t) {
      var j :| 0 <= j < |c.blocks[x]| && JumpsTo(c.blocks[x][j], t);
      assert d.blocks[x][j] == c.blocks[x][j];
    }
    if Edge(d, x, t) {
      var j :| 0 <= j < |d.blocks[x]| && JumpsTo(d.blocks[x][j], t);
      assert x < |c.blocks| && j < |c.blocks[x]| && d.blocks[x][j] == c.blocks[x][j];
    }
  }

  lemma SameExact(c: Code, d: Code, t: nat, xs: seq<(Operand, nat)>)
    requires forall x: nat :: Edge(d, x, t) <==> Edge(c, x, t)
    ensures PhiExact(d, t, xs) <==> PhiExact(c, t, xs)
  {
    hide Edge, FromBlock, FromDistinct;
  }

  /** Go on in a block created for later. */
  lemma Moves(b: Code, c: Code, pend: set<nat>, x: nat, next: set<nat>)
    requires On(b, c, pend) && x in pend && forall y: nat :: y in next <==> y in pend && y != x
    ensures On(b, c.SetInsert(x), next) && c.Valid() && c.SetInsert(x).Valid() && !c.SetInsert(x).Closed()
    ensures Made(b, c.SetInsert(x), next) <==> Made(b, c, pend) && c.Closed()
  {
    hide Edge, PhiExact, Phis;
    AddsLanded(|b.blocks|, b, c, x);
    LandsMoved(c, x);
    PhisMoved(c, x, |b.blocks|);
    assert Ended(c.blocks[c.cur]) <==> Tail(c.blocks[c.cur]) && c.Closed();
  }

  lemma LandsMoved(c: Code, x: nat)
    requires Lands(c)
    ensures Lands(c.SetInsert(x))
  {
    hide Edge;
    forall y: nat, t: nat ensures Edge(c.SetInsert(x), y, t) <==> Edge(c, y, t) { EdgeMoved(c, x, y, t); }
  }

  lemma PhisMoved(c: Code, x: nat, lo: nat)
    ensures Phis(c.SetInsert(x), lo) <==> Phis(c, lo)
  {
    hide Edge, PhiExact;
    forall t: nat, xs: seq<(Operand, nat)> ensures PhiExact(c.SetInsert(x), t, xs) <==> PhiExact(c, t, xs) {
      forall y: nat ensures Edge(c.SetInsert(x), y, t) <==> Edge(c, y, t) { EdgeMoved(c, x, y, t); }
      SameExact(c, c.SetInsert(x), t, xs);
    }
  }

  /** A construct within a construct. */
  lemma Nests(b: Code, c: Code, pend: set<nat>, d: Code)
    requires On(b, c, pend) && On(c, d, {})
    ensures On(b, d, pend) && (Made(b, d, pend) <==> Made(b, c, pend) && Made(c, d, {}))
  {
    hide Edge, PhiExact, Adds, Lands, Made;
    var lo := |b.blocks|;
    GrowsTrans(b, c, d);
    AddsWeaker(lo, |c.blocks|, c, d);
    AddsTrans(lo, b, c, d);
    NestsMade(b, c, pend, d);
  }

  lemma AddsWeaker(lo: nat, hi: nat, c: Code, d: Code)
    requires Adds(hi, c, d) && lo <= hi
    ensures Adds(lo, c, d)
  {
  }

  lemma NestsMade(b: Code, c: Code, pend: set<nat>, d: Code)
    requires On(b, c, pend) && On(c, d, {})
    ensures Made(b, d, pend) <==> Made(b, c, pend) && Made(c, d, {})
  {
    hide Edge, PhiExact, Adds, Lands, Phis, Tail;
    NestsPhis(b, c, pend, d);
    TailPrefix(c.blocks[c.cur], d.blocks[c.cur]);
  }

  lemma TailPrefix(xs: seq<Instr>, ys: seq<Instr>)
    requires xs <= ys
    ensures Tail(ys) ==> Tail(xs)
  {
    if Tail(ys) {
      forall i | 0 <= i < |xs| - 1 ensures !IsTerminator(xs[i]) { assert ys[i] == xs[i]; }
    }
  }

  lemma NestsPhis(b: Code, c: Code, pend: set<nat>, d: Code)
    requires On(b, c, pend) && On(c, d, {})
    ensures Phis(d, |b.blocks|) <==> Phis(c, |b.blocks|) && Phis(d, |c.blocks|)
  {
    hide Edge, PhiExact, Lands, Adds, Tail;
    forall t: nat, xs: seq<(Operand, nat)> | t < |c.blocks|
      ensures PhiExact(d, t, xs) <==> PhiExact(c, t, xs)
    {
      forall x: nat ensures Edge(d, x, t) <==> Edge(c, x, t) { SameEdges(|c.blocks|, c, d, t, x); }
      SameExact(c, d, t, xs);
    }
    assert forall t: nat, j: nat | t < |c.blocks| && j < |c.blocks[t]| :: d.blocks[t][j] == c.blocks[t][j];
    assert forall t: nat, j: nat | t < |c.blocks| && j < |d.blocks[t]| && d.blocks[t][j].Phi? :: j < |c.blocks[t]|;
  }

  /** The phi where the paths of a construct meet. */
  lemma Meets(b: Code, c: Code, pend: set<nat>, x: nat, xs: seq<(Operand, nat)>, next: set<nat>)
    requires On(b, c, pend) && x in pend && forall y: nat :: y in next <==> y in pend && y != x
    ensures x < |c.blocks| && Merge(c, x, xs).Valid() && On(b, Merge(c, x, xs), next) && !Merge(c, x, xs).Closed()
    ensures Made(b, Merge(c, x, xs), next) <==> Made(b, c, pend) && c.Closed() && PhiExact(c, x, xs)
  {
    hide Edge, PhiExact, Merge, Made, Adds;
    Moves(b, c, pend, x, next);
    MergeOpen(c, x, xs);
    MeetsOn(b, c, pend, x, xs, next);
    MeetsMade(b, c, pend, x, xs, next);
  }

  lemma MergePiece(c: Code, x: nat, xs: seq<(Operand, nat)>)
    requires x < |c.blocks|
    ensures Piece(c.SetInsert(x), Merge(c, x, xs), [Phi(c.next, xs)], 0)
  {
  }

  lemma MeetsOn(b: Code, c: Code, pend: set<nat>, x: nat, xs: seq<(Operand, nat)>, next: set<nat>)
    requires On(b, c, pend) && x in pend && forall y: nat :: y in next <==> y in pend && y != x
    requires On(b, c.SetInsert(x), next)
    ensures On(b, Merge(c, x, xs), next)
  {
    hide Edge, Merge;
    var lo, e, d := |b.blocks|, c.SetInsert(x), Merge(c, x, xs);
    MergePiece(c, x, xs);
    PieceAdds(lo, e, d, [Phi(c.next, xs)]);
    AddsTrans(lo, b, e, d);
    StillLands(lo, e, d);
    GrowsTrans(b, e, d);
  }

  lemma MeetsMade(b: Code, c: Code, pend: set<nat>, x: nat, xs: seq<(Operand, nat)>, next: set<nat>)
    requires On(b, c, pend) && x in pend && forall y: nat :: y in next <==> y in pend && y != x
    requires Made(b, c.SetInsert(x), next) <==> Made(b, c, pend) && c.Closed()
    ensures x < |c.blocks|
    ensures Made(b, Merge(c, x, xs), next) <==> Made(b, c, pend) && c.Closed() && PhiExact(c, x, xs)
  {
    hide Edge, PhiExact, Merge, Adds, Lands, Phis;
    MergePiece(c, x, xs);
    MeetsPhis(c, x, xs, |b.blocks|);
    PhisMoved(c, x, |b.blocks|);
    assert Merge(c, x, xs).blocks[x] == [Phi(c.next, xs)];
  }

  lemma MeetsPhis(c: Code, x: nat, xs: seq<(Operand, nat)>, lo: nat)
    requires lo <= x < |c.blocks| && c.blocks[x] == []
    ensures Phis(Merge(c, x, xs), lo) <==> Phis(c, lo) && PhiExact(c, x, xs)
  {
    hide Edge, PhiExact, Merge;
    var d := Merge(c, x, xs);
    MergePiece(c, x, xs);
    forall t: nat, ys: seq<(Operand, nat)> ensures PhiExact(d, t, ys) <==> PhiExact(c, t, ys) {
      forall y: nat ensures Edge(d, y, t) <==> Edge(c, y, t) {
        PieceEdges(c.SetInsert(x), d, [Phi(c.next, xs)], 0, y, t);
        EdgeMoved(c, x, y, t);
      }
      SameExact(c, d, t, ys);
    }
    assert d.blocks[x] == [Phi(c.next, xs)];
    assert d.blocks[x][0].Phi? && d.blocks[x][0].incoming == xs;
    assert forall t: nat | t < |c.blocks| && t != x :: d.blocks[t] == c.blocks[t];
  }

  // ---------------------------------------------------------------- emissions

  /** `d` is one emission after `c`, which asks for an open insert block. */
  ghost predicate Emits(b: Code, c: Code, pend: set<nat>, d: Code, next: set<nat>) {
    c.Valid() && d.Valid() && On(b, d, next) && (Made(b, d, next) <==> Made(b, c, pend) && !c.Closed())
  }

  lemma EmitStep(b: Code, c: Code, pend: set<nat>, i: Instr)
    requires On(b, c, pend) && !i.Phi? && forall t: nat | JumpsTo(i, t) :: t in pend
    ensures Emits(b, c, pend, Emit(c, i), pend) && (Emit(c, i).Closed() <==> IsTerminator(i))
  {
    Steps(b, c, pend, Emit(c, i), [i], 0, pend);
  }

  lemma OperationStep(b: Code, c: Code, pend: set<nat>, op: PureOp, x: Operand, y: Operand)
    requires On(b, c, pend)
    ensures Emits(b, c, pend, Operation(c, op, x, y), pend) && !Operation(c, op, x, y).Closed()
  {
    Steps(b, c, pend, Operation(c, op, x, y), [Pure(c.next, op, x, y)], 0, pend);
  }

  lemma LoadStep(b: Code, c: Code, pend: set<nat>, x: nat)
    requires On(b, c, pend)
    ensures Emits(b, c, pend, LowerExpr(Var(x), c).c, pend)
  {
    Steps(b, c, pend, LowerExpr(Var(x), c).c, [Load(c.next, x)], 0, pend);
  }

  lemma PopFreeStep(b: Code, c: Code, pend: set<nat>, f: nat)
    requires On(b, c, pend)
    ensures Emits(b, c, pend, PopFree(c, f), pend) && !PopFree(c, f).Closed()
  {
    Steps(b, c, pend, PopFree(c, f), [EhPop, EhFree(Reg(f))], 0, pend);
  }

  lemma DispatchStep(b: Code, c: Code, pend: set<nat>, f: nat)
    requires On(b, c, pend)
    ensures Emits(b, c, pend, Dispatch(c, f), pend) && !Dispatch(c, f).Closed()
  {
    Steps(b, c, pend, Dispatch(c, f), [EhPop, EhGetError(c.next, Reg(f)), Pure(c.next + 1, GetTypeId, Reg(c.next), NONE),
                                       Pure(c.next + 2, GetParentId, Reg(c.next), NONE)], 0, pend);
  }

  lemma RethrowStep(b: Code, c: Code, pend: set<nat>, f: nat, e: nat)
    requires On(b, c, pend)
    ensures Emits(b, c, pend, Rethrow(c, f, e), pend) && Rethrow(c, f, e).Closed()
  {
    Steps(b, c, pend, Rethrow(c, f, e), [EhPush(Reg(f)), EhSetError(Reg(f), Reg(e)), EhGetError(c.next, Reg(f)),
                                         EhThrow(Reg(c.next)), Unreachable], 0, pend);
  }

  lemma ReturnStep(b: Code, c: Code, pend: set<nat>, a: Operand, carry: Carry, tag: int)
    requires On(b, c, pend)
    ensures Emits(b, c, pend, ReturnTagged(c, a, carry, tag), pend) && ReturnTagged(c, a, carry, tag).Closed()
  {
    Steps(b, c, pend, ReturnTagged(c, a, carry, tag),
      [Pure(c.next, GetPayload, a, NONE), Pure(c.next + 1, BuildTagged(carry), Const(Int(tag)), Reg(c.next)),
       Ret(Reg(c.next + 1))], 0, pend);
  }

  lemma BranchIfStep(b: Code, c: Code, pend: set<nat>, v: Operand, yes: nat, no: nat)
    requires On(b, c, pend) && yes in pend && no in pend
    ensures Emits(b, c, pend, BranchIf(c, v, yes, no), pend) && BranchIf(c, v, yes, no).Closed()
  {
    Steps(b, c, pend, BranchIf(c, v, yes, no), [Pure(c.next, IsNonZero, v, NONE), CondBr(Reg(c.next), yes, no)], 0, pend);
  }

  lemma RaiseStep(b: Code, c: Code, pend: set<nat>, a: Operand, site: Site, next: set<nat>)
    requires On(b, c, pend) && Widens(c, RaiseStamped(c, a, site), pend, next)
    ensures Emits(b, c, pend, RaiseStamped(c, a, site), next) && RaiseStamped(c, a, site).Closed()
  {
    Steps(b, c, pend, RaiseStamped(c, a, site),
      [Pure(c.next, Stamp(site), a, NONE), EhThrow(Reg(c.next)), Unreachable], 1, next);
  }

  lemma ClauseStep(b: Code, c: Code, pend: set<nat>, e: nat, name: string, next: set<nat>)
    requires On(b, c, pend) && Widens(c, TestClause(c, e, name), pend, next)
    ensures Emits(b, c, pend, TestClause(c, e, name), next) && TestClause(c, e, name).Closed()
  {
    hide Fnv;
    Steps(b, c, pend, TestClause(c, e, name),
      [Pure(c.next, IsEqual, Reg(e + 1), Const(Int(Fnv(name)))),
       Pure(c.next + 1, IsEqual, Reg(e + 2), Const(Int(Fnv(name)))),
       Pure(c.next + 2, Or, Reg(c.next), Reg(c.next + 1)),
       CondBr(Reg(c.next + 2), |c.blocks|, |c.blocks| + 1)], 2, next);
  }

  lemma BranchOnTagStep(b: Code, c: Code, pend: set<nat>, v: Operand, tag: int, k: nat, next: set<nat>)
    requires On(b, c, pend) && 2 <= k && Widens(c, BranchOnTag(c, v, tag, k), pend, next)
    ensures Emits(b, c, pend, BranchOnTag(c, v, tag, k), next) && BranchOnTag(c, v, tag, k).Closed()
    ensures Into(BranchOnTag(c, v, tag, k), |c.blocks| + 2, {})
  {
    hide Into;
    var xs := [Pure(c.next, GetTag, v, NONE), Pure(c.next + 1, IsEqual, Reg(c.next), Const(Int(tag))),
               CondBr(Reg(c.next + 1), |c.blocks| + 1, |c.blocks|)];
    Steps(b, c, pend, BranchOnTag(c, v, tag, k), xs, k, next);
    IntoNew(c, BranchOnTag(c, v, tag, k), xs, k, |c.blocks| + 2);
  }

  lemma EnterStep(b: Code, c: Code, pend: set<nat>, k: nat, caught: nat, normal: nat, next: set<nat>)
    requires On(b, c, pend) && Widens(c, Enter(c, k, caught, normal), pend, next) && caught in next && normal in next
    ensures Emits(b, c, pend, Enter(c, k, caught, normal), next) && Enter(c, k, caught, normal).Closed()
    ensures caught != |c.blocks| + 2 && normal != |c.blocks| + 2 ==> Into(Enter(c, k, caught, normal), |c.blocks| + 2, {})
  {
    hide Into;
    var xs := [EhAlloc(c.next), EhPush(Reg(c.next)), SetJmp(c.next + 1, Reg(c.next)),
               Pure(c.next + 2, IsNonZero, Reg(c.next + 1), NONE), CondBr(Reg(c.next + 2), caught, normal)];
    Steps(b, c, pend, Enter(c, k, caught, normal), xs, k, next);
    if caught != |c.blocks| + 2 && normal != |c.blocks| + 2 {
      IntoNew(c, Enter(c, k, caught, normal), xs, k, |c.blocks| + 2);
    }
  }

  /** Emissions that leave out what a closed block does not take. */
  ghost predicate Same(b: Code, c: Code, pend: set<nat>, d: Code) {
    d.Valid() && On(b, d, pend) && (Made(b, d, pend) <==> Made(b, c, pend))
  }

  lemma BindSame(b: Code, c: Code, pend: set<nat>, it: Option<nat>, a: Operand)
    requires On(b, c, pend) && c.Valid() && !c.Closed()
    ensures Same(b, c, pend, BindPayload(c, it, a)) && !BindPayload(c, it, a).Closed()
  {
    Steps(b, c, pend, BindPayload(c, it, a),
      if it.None? then [] else [Pure(c.next, GetPayload, a, NONE), Store(it.value, Reg(c.next))], 0, pend);
  }

  lemma LeaveBodySame(b: Code, c: Code, pend: set<nat>, to: nat)
    requires On(b, c, pend) && to in pend
    ensures Same(b, c, pend, LeaveBody(c, to)) && LeaveBody(c, to).Closed()
  {
    Steps(b, c, pend, LeaveBody(c, to), if c.Closed() then [] else [EhPop, Br(to)], 0, pend);
  }

  lemma LeaveFinalSame(b: Code, c: Code, pend: set<nat>, f: nat, to: nat)
    requires On(b, c, pend) && to in pend
    ensures Same(b, c, pend, LeaveFinal(c, f, to)) && LeaveFinal(c, f, to).Closed()
  {
    Steps(b, c, pend, LeaveFinal(c, f, to), if c.Closed() then [] else [EhFree(Reg(f)), Br(to)], 0, pend);
  }

  lemma JumpSame(b: Code, c: Code, pend: set<nat>, to: nat)
    requires On(b, c, pend) && to in pend
    ensures Same(b, c, pend, EmitUnlessClosed(c, Br(to))) && EmitUnlessClosed(c, Br(to)).Closed()
  {
    Steps(b, c, pend, EmitUnlessClosed(c, Br(to)), if c.Closed() then [] else [Br(to)], 0, pend);
  }

  lemma NewBlocksSame(b: Code, c: Code, pend: set<nat>, k: nat, next: set<nat>)
    requires On(b, c, pend) && Widens(c, c.NewBlocks(k), pend, next)
    ensures On(b, c.NewBlocks(k), next) && c.Valid() && (c.NewBlocks(k).Closed() <==> c.Closed())
    ensures Made(b, c.NewBlocks(k), next) <==> Made(b, c, pend)
  {
    Steps(b, c, pend, c.NewBlocks(k), [], k, next);
  }

  // ---------------------------------------------------------------- predecessors

  /** The blocks that jump to `x`. */
  ghost predicate Into(c: Code, x: nat, s: set<nat>) {
    forall y: nat :: Edge(c, y, x) <==> y in s
  }

  lemma IntoNew(c: Code, d: Code, xs: seq<Instr>, k: nat, x: nat)
    requires Piece(c, d, xs, k) && Lands(c) && |c.blocks| <= x && forall i | 0 <= i < |xs| :: !JumpsTo(xs[i], x)
    ensures Into(d, x, {})
  {
    hide Edge;
    forall y: nat ensures !Edge(d, y, x) { PieceEdges(c, d, xs, k, y, x); }
  }

  lemma IntoKept(c: Code, d: Code, x: nat, s: set<nat>)
    requires Into(c, x, s) && Adds(x + 1, c, d)
    ensures Into(d, x, s)
  {
    hide Edge, Adds;
    forall y: nat ensures Edge(d, y, x) <==> y in s { SameEdges(x + 1, c, d, x, y); }
  }

  lemma IntoNested(c: Code, d: Code, x: nat, s: set<nat>)
    requires Into(c, x, s) && On(c, d, {}) && x < |c.blocks|
    ensures Into(d, x, s)
  {
    hide Edge, Adds, Grows, Lands;
    forall y: nat ensures Edge(d, y, x) <==> y in s { SameEdges(|c.blocks|, c, d, x, y); }
  }

  lemma IntoMoved(c: Code, at: nat, x: nat, s: set<nat>)
    requires Into(c, x, s)
    ensures Into(c.SetInsert(at), x, s)
  {
    hide Edge;
    forall y: nat ensures Edge(c.SetInsert(at), y, x) <==> y in s { EdgeMoved(c, at, y, x); }
  }

  lemma IntoJump(c: Code, x: nat, s: set<nat>)
    requires c.Valid() && Into(c, x, s)
    ensures Into(Emit(c, Br(x)), x, s + {c.cur})
  {
    hide Edge, Emit;
    forall y: nat ensures Edge(Emit(c, Br(x)), y, x) <==> y in s + {c.cur} { EmittedEdges(c, Br(x), x, y); }
  }

  lemma ExactOne(c: Code, x: nat, v: Operand, a: nat)
    requires Into(c, x, {a})
    ensures PhiExact(c, x, [(v, a)])
  {
    hide Edge;
    forall y: nat ensures FromBlock([(v, a)], y) <==> y == a { assert [(v, a)][0].1 == a; }
  }

  lemma ExactTwo(c: Code, x: nat, v: Operand, a: nat, w: Operand, b: nat)
    requires Into(c, x, {b} + {a}) && a != b
    ensures PhiExact(c, x, [(v, a), (w, b)])
  {
    hide Edge;
    var xs := [(v, a), (w, b)];
    forall y: nat ensures FromBlock(xs, y) <==> y == a || y == b { assert xs[0].1 == a && xs[1].1 == b; }
  }

  lemma ExactThree(c: Code, x: nat, xs: seq<(Operand, nat)>)
    requires |xs| == 3 && Into(c, x, {xs[2].1} + {xs[0].1} + {xs[1].1})
    requires xs[0].1 != xs[1].1 && xs[0].1 != xs[2].1 && xs[1].1 != xs[2].1
    ensures PhiExact(c, x, xs)
  {
    hide Edge;
    forall y: nat ensures FromBlock(xs, y) <==> y == xs[0].1 || y == xs[1].1 || y == xs[2].1 { }
  }

  // ---------------------------------------------------------------- expressions

  /** The code from `c` to `d` passes exactly when `ok`. */
  ghost predicate Fine(c: Code, d: Code, ok: bool) {
    c.Valid() && d.Valid() && On(c, d, {}) && (Made(c, d, {}) <==> Tail(c.blocks[c.cur]) && ok)
  }

  lemma NestsFine(b: Code, c: Code, pend: set<nat>, d: Code, ok: bool)
    requires On(b, c, pend) && Fine(c, d, ok)
    ensures d.Valid() && On(b, d, pend) && (Made(b, d, pend) <==> Made(b, c, pend) && ok)
  {
    hide On, Phis, Ended, Tail;
    Nests(b, c, pend, d);
  }

  lemma {:induction false} ExprFine(e: Expr, c: Code)
    requires c.Valid() && Lands(c)
    ensures Fine(c, LowerExpr(e, c).c, ExprOk(e, c.Closed()))
    decreases e, 9
  {
    hide On, Made, Tail, Lands, Grows, Straight, Operation, IsLit;
    Starts(c);
    match e
    case Lit(_) =>
    case Var(x) => LoadStep(c, c, {}, x);
    case Add(l, r) =>
      var a := LowerExpr(l, c);
      Nested(l, c, c, {});
      var d := LowerExpr(r, a.c);
      Nested(r, c, a.c, {});
      OperationStep(c, d.c, {}, Add32, a.v, d.v);
    case Try(_, kind, _) => if kind.Plain? { PlainFine(e, c); } else { UnwrapFine(e, c); }
    case TryUntyped(e1, fb) =>
      Nested(e1, c, c, {});
      if fb.Some? { Nested(fb.value, c, LowerExpr(e1, c).c, {}); }
    case CatchUnwrap(_, _, _, _) => CatchUnwrapFine(e, c);
    case Propagate(_, _, _, _, _) => PropagateFine(e, c);
    case PropagateVoid(_, _, _) => PropagateVoidFine(e, c);
    case Build(tag, payload, carry) =>
      var a := if payload.None? then Lowered(c, NONE) else LowerExpr(payload.value, c);
      if payload.Some? { Nested(payload.value, c, c, {}); }
      OperationStep(c, a.c, {}, BuildTagged(carry), Const(Int(tag)), a.v);
    case MatchOn(_, _, _) => MatchFine(e, c);
  }

  /** An operand within a construct. */
  lemma {:induction false} Nested(e: Expr, b: Code, c: Code, pend: set<nat>)
    requires On(b, c, pend)
    ensures c.Valid() && On(b, LowerExpr(e, c).c, pend) && On(c, LowerExpr(e, c).c, {})
    ensures LowerExpr(e, c).c.Valid() && (LowerExpr(e, c).c.Closed() <==> IsLit(e) && c.Closed())
    ensures Made(b, LowerExpr(e, c).c, pend) <==> Made(b, c, pend) && ExprOk(e, c.Closed())
    decreases e, 10
  {
    hide On, Made, Tail, LowerExpr, IsLit, ExprOk;
    OnValid(b, c, pend);
    ExprFine(e, c);
    ExprClosed(e, c);
    NestsFine(b, c, pend, LowerExpr(e, c).c, ExprOk(e, c.Closed()));
  }

  lemma {:induction false} NestedFallback(fb: Option<Expr>, b: Code, c: Code, pend: set<nat>)
    requires On(b, c, pend) && c.Valid() && !c.Closed()
    ensures On(b, LowerFallback(fb, c).c, pend) && On(c, LowerFallback(fb, c).c, {})
    ensures LowerFallback(fb, c).c.Valid() && !LowerFallback(fb, c).c.Closed()
    ensures Made(b, LowerFallback(fb, c).c, pend) <==> Made(b, c, pend) && (fb.Some? ==> ExprOk(fb.value, false))
    decreases fb, 11
  {
    hide On, Made, LowerExpr, IsLit, ExprOk;
    OnValid(b, c, pend);
    if fb.Some? { Nested(fb.value, b, c, pend); } else { Starts(c); }
  }

  lemma {:induction false} NestedStmt(s: Stmt, b: Code, c: Code, pend: set<nat>)
    requires On(b, c, pend)
    ensures c.Valid() && On(b, LowerStmt(s, c), pend) && On(c, LowerStmt(s, c), {})
    ensures LowerStmt(s, c).Valid() && (LowerStmt(s, c).Closed() <==> ClosedAfter(s, c.Closed()))
    ensures Made(b, LowerStmt(s, c), pend) <==> Made(b, c, pend) && StmtOk(s, c.Closed())
    decreases s, 10
  {
    hide On, Made, Tail, LowerStmt, ClosedAfter, StmtOk;
    OnValid(b, c, pend);
    StmtFine(s, c);
    StmtClosed(s, c);
    NestsFine(b, c, pend, LowerStmt(s, c), StmtOk(s, c.Closed()));
  }

  /** The caught path of a `try`. */
  lemma {:induction false} CaughtOn(e: Expr, c: Code)
    requires e.Try? && c.Valid() && Lands(c)
    ensures var h, n := TryCaught(e, c), |c.blocks|;
      && On(c, h.c, {n, n + 2}) && h.c.Valid() && h.c.Closed() && Into(h.c, n + 2, {h.c.cur})
      && (Made(c, h.c, {n, n + 2}) <==>
          Tail(c.blocks[c.cur]) && !c.Closed() && (e.fallback.Some? ==> ExprOk(e.fallback.value, false)))
    decreases e, 1
  {
    hide On, Made, Tail, Lands, Into, Grows, Straight, Adds, Enter, PopFree, Emit, LowerFallback, ExprOk;
    var n := |c.blocks|;
    var t := Enter(c, 3, n + 1, n);
    StraightFacts(c, t, 3, 3);
    Starts(c);
    EnterStep(c, c, {}, 3, n + 1, n, {n, n + 1, n + 2});
    Moves(c, t, {n, n + 1, n + 2}, n + 1, {n, n + 2});
    var at := t.SetInsert(n + 1);
    IntoMoved(t, n + 1, n + 2, {});
    var c1 := PopFree(at, c.next);
    PopFreeStep(c, at, {n, n + 2}, c.next);
    PopFreeAdds(n + 3, at, c.next);
    IntoKept(at, c1, n + 2, {});
    var h := LowerFallback(e.fallback, c1);
    NestedFallback(e.fallback, c, c1, {n, n + 2});
    OnValid(c, c1, {n, n + 2});
    IntoNested(c1, h.c, n + 2, {});
    EmitStep(c, h.c, {n, n + 2}, Br(n + 2));
    IntoJump(h.c, n + 2, {});
    assert {} + {h.c.cur} == {h.c.cur};
    StraightFacts(h.c, Emit(h.c, Br(n + 2)), 0, 0);
    assert TryCaught(e, c) == Lowered(Emit(h.c, Br(n + 2)), h.v);
  }

  lemma {:induction false} PlainFine(e: Expr, c: Code)
    requires e.Try? && e.kind.Plain? && c.Valid() && Lands(c)
    ensures Fine(c, LowerExpr(e, c).c, ExprOk(e, c.Closed()))
    decreases e, 2
  {
    hide On, Made, Tail, Lands, Into, Grows, Straight, Adds, PopFree, Emit, Merge, TryCaught, LowerExpr, PhiExact;
    var n, m := |c.blocks|, |c.blocks| + 2;
    var h := TryCaught(e, c);
    CaughtOn(e, c);
    Moves(c, h.c, {n, m}, n, {m});
    var at := h.c.SetInsert(n);
    IntoMoved(h.c, n, m, {h.c.cur});
    var b := LowerExpr(e.e, at);
    Nested(e.e, c, at, {m});
    OnValid(c, at, {m});
    IntoNested(at, b.c, m, {h.c.cur});
    var c2 := PopFree(b.c, c.next);
    PopFreeStep(c, b.c, {m}, c.next);
    PopFreeAdds(n + 3, b.c, c.next);
    IntoKept(b.c, c2, m, {h.c.cur});
    StraightFacts(b.c, c2, 0, 0);
    var c3 := Emit(c2, Br(m));
    EmitStep(c, c2, {m}, Br(m));
    IntoJump(c2, m, {h.c.cur});
    StraightFacts(c2, c3, 0, 0);
    OnValid(c, b.c, {m});
    OnValid(at, b.c, {});
    GrowsFacts(at, b.c);
    ExactTwo(c3, m, b.v, b.c.cur, h.v, h.c.cur);
    Meets(c, c3, {m}, m, [(b.v, b.c.cur), (h.v, h.c.cur)], {});
    PlainUnfold(e, c, h, b);
  }

  lemma {:induction false} UnwrapFine(e: Expr, c: Code)
    requires e.Try? && e.kind.Unwrap? && c.Valid() && Lands(c)
    ensures Fine(c, LowerExpr(e, c).c, ExprOk(e, c.Closed()))
    decreases e, 2
  {
    hide On, Made, Tail, Lands, Into, Grows, Straight, Adds, PopFree, Emit, Merge, TryCaught, TryOk, LowerExpr,
      LowerFallback, PhiExact;
    var n, m := |c.blocks|, |c.blocks| + 2;
    var h := TryCaught(e, c);
    CaughtOn(e, c);
    Moves(c, h.c, {n, m}, n, {m});
    var at := h.c.SetInsert(n);
    IntoMoved(h.c, n, m, {h.c.cur});
    var b := LowerExpr(e.e, at);
    Nested(e.e, c, at, {m});
    OnValid(c, at, {m});
    IntoNested(at, b.c, m, {h.c.cur});
    OnValid(c, b.c, {m});
    OnValid(at, b.c, {});
    var k := |b.c.blocks|;
    var o := TryOk(c, b, e.kind.errTag);
    OkOn(c, b, e.kind.errTag, {h.c.cur});
    var c6 := PopFree(o.SetInsert(k + 1), c.next);
    StraightFacts(o.SetInsert(k + 1), c6, 0, 0);
    var g := LowerFallback(e.fallback, c6);
    ErrOn(e.fallback, c, o, {h.c.cur} + {k});
    OnValid(c, g.c, {m});
    var c7 := Emit(g.c, Br(m));
    EmitStep(c, g.c, {m}, Br(m));
    IntoJump(g.c, m, {h.c.cur} + {k});
    StraightFacts(g.c, c7, 0, 0);
    var xs := [(Reg(b.c.next + 2), k), (g.v, g.c.cur), (h.v, h.c.cur)];
    GrowsFacts(at, b.c);
    GrowsFacts(c6, g.c);
    ExactThree(c7, m, xs);
    Meets(c, c7, {m}, m, xs, {});
    UnwrapUnfold(e, c, h, b, o, c6, g);
  }

  /** The error path of an unwrapping `try`. */
  lemma {:induction false} ErrOn(fb: Option<Expr>, c: Code, o: Code, s: set<nat>)
    requires c.Valid() && o.Valid() && o.Closed() && |c.blocks| + 2 < o.cur && o.cur + 1 < |o.blocks|
    requires On(c, o, {|c.blocks| + 2, o.cur + 1}) && Into(o, |c.blocks| + 2, s)
    ensures var m, d := |c.blocks| + 2, PopFree(o.SetInsert(o.cur + 1), c.next);
      var g := LowerFallback(fb, d);
      && On(c, g.c, {m}) && g.c.Valid() && !g.c.Closed() && Into(g.c, m, s) && Grows(d, g.c) && d.cur == o.cur + 1
      && |d.blocks| == |o.blocks|
      && (Made(c, g.c, {m}) <==> Made(c, o, {m, o.cur + 1}) && (fb.Some? ==> ExprOk(fb.value, false)))
    decreases fb, 12
  {
    hide On, Made, Into, Grows, Straight, Adds, PopFree, LowerFallback, ExprOk;
    var m, k := |c.blocks| + 2, o.cur;
    var d := o.SetInsert(k + 1);
    Moves(c, o, {m, k + 1}, k + 1, {m});
    IntoMoved(o, k + 1, m, s);
    var c6 := PopFree(d, c.next);
    PopFreeStep(c, d, {m}, c.next);
    PopFreeAdds(m + 1, d, c.next);
    IntoKept(d, c6, m, s);
    StraightFacts(d, c6, 0, 0);
    var g := LowerFallback(fb, c6);
    NestedFallback(fb, c, c6, {m});
    OnValid(c, c6, {m});
    IntoNested(c6, g.c, m, s);
    OnValid(c6, g.c, {});
  }

  /** The tag test and the ok path of an unwrapping `try`. */
  lemma OkOn(c: Code, b: Lowered, tag: int, s: set<nat>)
    requires b.c.Valid() && On(c, b.c, {|c.blocks| + 2}) && !b.c.Closed() && Into(b.c, |c.blocks| + 2, s)
    ensures |c.blocks| <= |b.c.blocks|
    ensures var o, k, m := TryOk(c, b, tag), |b.c.blocks|, |c.blocks| + 2;
      && On(c, o, {m, k + 1}) && o.Valid() && o.Closed() && Into(o, m, s + {k})
      && (Made(c, o, {m, k + 1}) <==> Made(c, b.c, {m}))
  {
    hide On, Made, Tail, Into, Grows, Straight, Adds, PopFree, Emit, Operation, BranchOnTag;
    OnValid(c, b.c, {|c.blocks| + 2});
    var k, m := |b.c.blocks|, |c.blocks| + 2;
    var c3 := BranchOnTag(b.c, b.v, tag, 2);
    StraightFacts(b.c, c3, 2, 2);
    BranchOnTagStep(c, b.c, {m}, b.v, tag, 2, {m, k, k + 1});
    BranchOnTagAdds(m + 1, b.c, b.v, tag, 2);
    IntoKept(b.c, c3, m, s);
    var d := c3.SetInsert(k);
    Moves(c, c3, {m, k, k + 1}, k, {m, k + 1});
    IntoMoved(c3, k, m, s);
    var p := PopFree(d, c.next);
    PopFreeStep(c, d, {m, k + 1}, c.next);
    PopFreeAdds(m + 1, d, c.next);
    IntoKept(d, p, m, s);
    StraightFacts(d, p, 0, 0);
    var c4 := Operation(p, GetPayload, b.v, NONE);
    OperationStep(c, p, {m, k + 1}, GetPayload, b.v, NONE);
    OperationAdds(m + 1, p, GetPayload, b.v, NONE);
    IntoKept(p, c4, m, s);
    StraightFacts(p, c4, 1, 0);
    EmitStep(c, c4, {m, k + 1}, Br(m));
    IntoJump(c4, m, s);
  }

  lemma {:induction false} CatchUnwrapFine(e: Expr, c: Code)
    requires e.CatchUnwrap? && c.Valid() && Lands(c)
    ensures Fine(c, LowerCatchUnwrap(e, c).c, ExprOk(e, c.Closed()))
    decreases e, 2
  {
    hide On, Made, Tail, Lands, Into, Grows, Straight, Adds, UnwrapOk, BindPayload, Emit, Merge, LowerExpr,
      LowerStmt, IsLit, ClosedAfter, PhiExact;
    Starts(c);
    var a := LowerExpr(e.e, c);
    Nested(e.e, c, c, {});
    OnValid(c, a.c, {});
    var n := |a.c.blocks|;
    var m := n + 2;
    var c3 := UnwrapOk(a.c, a.v, e.errTag, m);
    UnwrapOkOn(c, a.c, a.v, e.errTag);
    Moves(c, c3, {n + 1, m}, n + 1, {m});
    var d := c3.SetInsert(n + 1);
    IntoMoved(c3, n + 1, m, {n});
    var c4 := BindPayload(d, e.it, a.v);
    BindSame(c, d, {m}, e.it, a.v);
    BindAdds(m + 1, d, e.it, a.v);
    IntoKept(d, c4, m, {n});
    StraightFacts(d, c4, if e.it.Some? then 1 else 0, 0);
    var c5 := LowerStmt(e.block, c4);
    NestedStmt(e.block, c, c4, {m});
    IntoNested(c4, c5, m, {n});
    OnValid(c4, c5, {});
    GrowsFacts(c4, c5);
    OnValid(c, c5, {m});
    if c5.Closed() {
      Moves(c, c5, {m}, m, {});
    } else {
      var c6 := Emit(c5, Br(m));
      EmitStep(c, c5, {m}, Br(m));
      IntoJump(c5, m, {n});
      StraightFacts(c5, c6, 0, 0);
      var xs := [(Reg(a.c.next + 2), n), (Const(NULL), c5.cur)];
      assert {n} + {c5.cur} == {c5.cur} + {n};
      ExactTwo(c6, m, xs[0].0, n, xs[1].0, c5.cur);
      Meets(c, c6, {m}, m, xs, {});
    }
  }

  lemma UnwrapOkOn(b: Code, c: Code, v: Operand, tag: int)
    requires c.Valid() && On(b, c, {})
    ensures var d, n := UnwrapOk(c, v, tag, |c.blocks| + 2), |c.blocks|;
      && On(b, d, {n + 1, n + 2}) && d.Closed() && Into(d, n + 2, {n})
      && (Made(b, d, {n + 1, n + 2}) <==> Made(b, c, {}) && !c.Closed())
  {
    hide On, Made, Tail, Into, Grows, Straight, Adds, Emit, Operation, BranchOnTag;
    var n, m := |c.blocks|, |c.blocks| + 2;
    var c1 := BranchOnTag(c, v, tag, 3);
    StraightFacts(c, c1, 2, 3);
    BranchOnTagStep(b, c, {}, v, tag, 3, {n, n + 1, m});
    Moves(b, c1, {n, n + 1, m}, n, {n + 1, m});
    IntoMoved(c1, n, m, {});
    PayloadJump(b, c1.SetInsert(n), {n + 1, m}, v, m, {});
    assert {} + {n} == {n};
  }

  /** The ok path: take the payload and go to the merge block. */
  lemma PayloadJump(b: Code, c: Code, pend: set<nat>, v: Operand, m: nat, s: set<nat>)
    requires On(b, c, pend) && c.Valid() && !c.Closed() && m in pend && Into(c, m, s)
    ensures var d := Emit(Operation(c, GetPayload, v, NONE), Br(m));
      && On(b, d, pend) && d.Valid() && d.Closed() && Into(d, m, s + {c.cur}) && (Made(b, d, pend) <==> Made(b, c, pend))
  {
    hide On, Made, Into, Grows, Straight, Adds, Emit, Operation;
    var d := Operation(c, GetPayload, v, NONE);
    OperationStep(b, c, pend, GetPayload, v, NONE);
    OperationAdds(m + 1, c, GetPayload, v, NONE);
    IntoKept(c, d, m, s);
    StraightFacts(c, d, 1, 0);
    EmitStep(b, d, pend, Br(m));
    IntoJump(d, m, s);
    StraightFacts(d, Emit(d, Br(m)), 0, 0);
  }

  lemma {:induction false} PropagateFine(e: Expr, c: Code)
    requires e.Propagate? && c.Valid() && Lands(c)
    ensures Fine(c, LowerPropagate(e, c).c, ExprOk(e, c.Closed()))
    decreases e, 2
  {
    hide On, Made, Tail, Lands, Into, Grows, Straight, Adds, BranchOnTag, ReturnTagged, Operation, Emit, Merge,
      LowerExpr, LowerStmt, IsLit, ClosedAfter, PhiExact;
    Starts(c);
    var a := LowerExpr(e.e, c);
    Nested(e.e, c, c, {});
    var n := |a.c.blocks|;
    var m := n + 2;
    var c1 := BranchOnTag(a.c, a.v, e.errTag, 3);
    StraightFacts(a.c, c1, 2, 3);
    BranchOnTagStep(c, a.c, {}, a.v, e.errTag, 3, {n, n + 1, m});
    Moves(c, c1, {n, n + 1, m}, n + 1, {n, m});
    var d := c1.SetInsert(n + 1);
    IntoMoved(c1, n + 1, m, {});
    var c2 := LowerStmt(e.context, d);
    NestedStmt(e.context, c, d, {n, m});
    IntoNested(d, c2, m, {});
    OnValid(c, c2, {n, m});
    var c3 := ReturnTagged(c2, a.v, e.carry, e.retTag);
    ReturnStep(c, c2, {n, m}, a.v, e.carry, e.retTag);
    ReturnAdds(m + 1, c2, a.v, e.carry, e.retTag);
    IntoKept(c2, c3, m, {});
    StraightFacts(c2, c3, 2, 0);
    Moves(c, c3, {n, m}, n, {m});
    var f := c3.SetInsert(n);
    IntoMoved(c3, n, m, {});
    PayloadJump(c, f, {m}, a.v, m, {});
    StraightFacts(f, Operation(f, GetPayload, a.v, NONE), 1, 0);
    var c5 := Emit(Operation(f, GetPayload, a.v, NONE), Br(m));
    assert {} + {n} == {n};
    ExactOne(c5, m, Reg(c3.next), n);
    Meets(c, c5, {m}, m, [(Reg(c3.next), n)], {});
    assert LowerPropagate(e, c).c == Merge(c5, m, [(Reg(c3.next), n)]);
  }

  lemma {:induction false} PropagateVoidFine(e: Expr, c: Code)
    requires e.PropagateVoid? && c.Valid() && Lands(c)
    ensures Fine(c, LowerPropagateVoid(e, c).c, ExprOk(e, c.Closed()))
    decreases e, 2
  {
    hide On, Made, Tail, Lands, Into, Grows, Straight, Adds, BranchOnTag, Emit, LowerExpr, LowerStmt, IsLit, ClosedAfter;
    Starts(c);
    var a := LowerExpr(e.e, c);
    Nested(e.e, c, c, {});
    var n := |a.c.blocks|;
    var c1 := BranchOnTag(a.c, a.v, e.errTag, 2);
    StraightFacts(a.c, c1, 2, 2);
    BranchOnTagStep(c, a.c, {}, a.v, e.errTag, 2, {n, n + 1});
    Moves(c, c1, {n, n + 1}, n + 1, {n});
    var d := c1.SetInsert(n + 1);
    var c2 := LowerStmt(e.context, d);
    NestedStmt(e.context, c, d, {n});
    var c3 := Emit(c2, Ret(NONE));
    EmitStep(c, c2, {n}, Ret(NONE));
    StraightFacts(c2, c3, 0, 0);
    Moves(c, c3, {n}, n, {});
  }

  // ---------------------------------------------------------------- statements

  lemma {:induction false} StmtFine(s: Stmt, c: Code)
    requires c.Valid() && Lands(c)
    ensures Fine(c, LowerStmt(s, c), StmtOk(s, c.Closed()))
    decreases s, 9
  {
    hide On, Made, Tail, Lands, Grows, Straight, Emit, RaiseStamped, LowerExpr, LowerIf, LowerTryCatch, IsLit,
      ClosedAfter, ExprOk;
    Starts(c);
    match s
    case Skip =>
    case Seq(a, b) =>
      NestedStmt(a, c, c, {});
      NestedStmt(b, c, LowerStmt(a, c), {});
    case Do(e) => Nested(e, c, c, {});
    case Assign(x, e) =>
      Nested(e, c, c, {});
      EmitStep(c, LowerExpr(e, c).c, {}, Store(x, LowerExpr(e, c).v));
    case Print(e) =>
      Nested(e, c, c, {});
      EmitStep(c, LowerExpr(e, c).c, {}, Out(LowerExpr(e, c).v));
    case If(_, _, _) => IfFine(s, c);
    case ThrowStmt(e, _, _, _, _, _) =>
      var a := LowerExpr(e, c);
      Nested(e, c, c, {});
      var d := RaiseStamped(a.c, a.v, ThrowSite(s));
      StraightFacts(a.c, d, 1, 1);
      RaiseStep(c, a.c, {}, a.v, ThrowSite(s), {|a.c.blocks|});
      Moves(c, d, {|a.c.blocks|}, |a.c.blocks|, {});
    case TryCatch(_, _, _) => TryCatchFine(s, c);
    case Return(e) =>
      Nested(e, c, c, {});
      EmitStep(c, LowerExpr(e, c).c, {}, Ret(LowerExpr(e, c).v));
  }

  lemma {:induction false} IfFine(s: Stmt, c: Code)
    requires s.If? && c.Valid() && Lands(c)
    ensures Fine(c, LowerIf(s, c), StmtOk(s, c.Closed()))
    decreases s, 2
  {
    hide On, Made, Tail, Lands, Grows, Straight, BranchIf, EmitUnlessClosed, LowerExpr, LowerStmt, IsLit,
      ClosedAfter, ExprOk;
    Starts(c);
    var n := |c.blocks|;
    var c0 := c.NewBlocks(3);
    NewBlocksSame(c, c, {}, 3, {n, n + 1, n + 2});
    var a := LowerExpr(s.cond, c0);
    Nested(s.cond, c, c0, {n, n + 1, n + 2});
    var c1 := BranchIf(a.c, a.v, n + 1, n + 2);
    BranchIfStep(c, a.c, {n, n + 1, n + 2}, a.v, n + 1, n + 2);
    Moves(c, c1, {n, n + 1, n + 2}, n + 1, {n, n + 2});
    var c3 := BranchFine(s.thn, c, c1.SetInsert(n + 1), {n, n + 2}, n);
    Moves(c, c3, {n, n + 2}, n + 2, {n});
    var c5 := BranchFine(s.els, c, c3.SetInsert(n + 2), {n}, n);
    Moves(c, c5, {n}, n, {});
  }

  /** Statements and a jump to the end. */
  lemma {:induction false} BranchFine(s: Stmt, b: Code, c: Code, pend: set<nat>, to: nat) returns (r: Code)
    requires On(b, c, pend) && c.Valid() && !c.Closed() && to in pend
    ensures r == EmitUnlessClosed(LowerStmt(s, c), Br(to)) && r.Valid() && r.Closed()
    ensures On(b, r, pend) && (Made(b, r, pend) <==> Made(b, c, pend) && StmtOk(s, false))
    decreases s, 11
  {
    hide On, Made, EmitUnlessClosed, LowerStmt, ClosedAfter, StmtOk;
    NestedStmt(s, b, c, pend);
    JumpSame(b, LowerStmt(s, c), pend, to);
    r := EmitUnlessClosed(LowerStmt(s, c), Br(to));
  }

  lemma {:induction false} TryCatchFine(s: Stmt, c: Code)
    requires s.TryCatch? && c.Valid() && Lands(c)
    ensures Fine(c, LowerTryCatch(s, c), StmtOk(s, c.Closed()))
    decreases s, 3
  {
    hide On, Made, Tail, Lands, Grows, Straight, LowerTryBody, LowerHandlers, LowerStmt, LeaveFinal, ClosedAfter;
    var n := |c.blocks|;
    var c2 := LowerTryBody(s, c);
    TryBodyOn(s, c);
    Moves(c, c2, {n + 1, n + 2, n + 3}, n + 1, {n + 2, n + 3});
    var c4 := LowerHandlers(s, c, c2);
    HandlersOn(s, c, c2);
    Moves(c, c4, {n + 2, n + 3}, n + 2, {n + 3});
    var d := c4.SetInsert(n + 2);
    var c5 := LowerStmt(s.final, d);
    NestedStmt(s.final, c, d, {n + 3});
    var c6 := LeaveFinal(c5, c.next, n + 3);
    LeaveFinalSame(c, c5, {n + 3}, c.next, n + 3);
    Moves(c, c6, {n + 3}, n + 3, {});
  }

  lemma {:induction false} TryBodyOn(s: Stmt, c: Code)
    requires s.TryCatch? && c.Valid() && Lands(c)
    ensures var d, pend := LowerTryBody(s, c), {|c.blocks| + 1, |c.blocks| + 2, |c.blocks| + 3};
      && On(c, d, pend) && d.Valid() && d.Closed()
      && (Made(c, d, pend) <==> Tail(c.blocks[c.cur]) && !c.Closed() && StmtOk(s.body, false))
    decreases s, 1
  {
    hide On, Made, Tail, Lands, Grows, Straight, Enter, LeaveBody, LowerStmt, ClosedAfter, StmtOk;
    var n := |c.blocks|;
    Starts(c);
    var t := Enter(c, 4, n + 1, n);
    StraightFacts(c, t, 3, 4);
    EnterStep(c, c, {}, 4, n + 1, n, {n, n + 1, n + 2, n + 3});
    Moves(c, t, {n, n + 1, n + 2, n + 3}, n, {n + 1, n + 2, n + 3});
    var d := t.SetInsert(n);
    var c1 := LowerStmt(s.body, d);
    NestedStmt(s.body, c, d, {n + 1, n + 2, n + 3});
    LeaveBodySame(c, c1, {n + 1, n + 2, n + 3}, n + 2);
  }

  lemma {:induction false} HandlersOn(s: Stmt, c: Code, c2: Code)
    requires s.TryCatch? && |c.blocks| + 4 <= |c2.blocks|
    requires On(c, c2.SetInsert(|c.blocks| + 1), {|c.blocks| + 2, |c.blocks| + 3})
    requires !c2.SetInsert(|c.blocks| + 1).Closed()
    ensures var at, d, pend := c2.SetInsert(|c.blocks| + 1), LowerHandlers(s, c, c2), {|c.blocks| + 2, |c.blocks| + 3};
      && On(c, d, pend) && d.Valid()
      && (Made(c, d, pend) && d.Closed() <==> Made(c, at, pend) && s.catches.Catch? && CatchesOk(s.catches))
    decreases s, 1
  {
    hide On, Made, Tail, Lands, Grows, Straight, Dispatch, LowerCatches, CatchesOk;
    var pend := {|c.blocks| + 2, |c.blocks| + 3};
    var at := c2.SetInsert(|c.blocks| + 1);
    var c3 := Dispatch(at, c.next);
    DispatchStep(c, at, pend, c.next);
    CatchesFine(s.catches, c, c3, pend, c.next, c2.next, |c.blocks| + 2, true);
  }

  lemma {:induction false} CatchesFine(cs: Catches, b: Code, c: Code, pend: set<nat>, f: nat, e: nat, final: nat,
                                       first: bool)
    requires On(b, c, pend) && c.Valid() && !c.Closed() && final in pend
    ensures var d := LowerCatches(cs, c, f, e, final, first);
      && On(b, d, pend) && d.Valid() && (d.Closed() <==> cs.Catch? || !first)
      && (Made(b, d, pend) <==> Made(b, c, pend) && CatchesOk(cs))
    decreases cs, 12
  {
    hide On, Made, Tail, Lands, Grows, Straight, TestClause, Emit, EmitUnlessClosed, LowerStmt, Rethrow, StmtOk;
    match cs
    case NoMore => if !first { RethrowStep(b, c, pend, f, e); }
    case Catch(name, x, body, rest) =>
      OnValid(b, c, pend);
      var n := |c.blocks|;
      var c1 := TestClause(c, e, name);
      StraightFacts(c, c1, 3, 2);
      ClauseStep(b, c, pend, e, name, pend + {n, n + 1});
      Moves(b, c1, pend + {n, n + 1}, n, pend + {n + 1});
      var at := c1.SetInsert(n);
      var c2 := Emit(at, Store(x, Reg(e)));
      EmitStep(b, at, pend + {n + 1}, Store(x, Reg(e)));
      var c4 := BranchFine(body, b, c2, pend + {n + 1}, final);
      Moves(b, c4, pend + {n + 1}, n + 1, pend);
      CatchesFine(rest, b, c4.SetInsert(n + 1), pend, f, e, final, false);
  }

  // ---------------------------------------------------------------- match

  lemma {:induction false} MatchFine(e: Expr, c: Code)
    requires e.MatchOn? && c.Valid() && Lands(c)
    ensures Fine(c, LowerMatch(e, c).c, ExprOk(e, c.Closed()))
    decreases e, 2
  {
    hide On, Made, Tail, Lands, Grows, Straight, PhiExact, LowerExpr, LowerArms, Merge, IsLit, ArmsOk, NoPhi, PhiOk;
    Starts(c);
    var a := LowerExpr(e.e, c);
    Nested(e.e, c, c, {});
    var n := |a.c.blocks|;
    var d := a.c.NewBlocks(1);
    NewBlocksSame(c, a.c, {}, 1, {n});
    var r := LowerArms(e.on, e.arms, d, a.v, n);
    if e.arms == [] {
      NoArms(e.on, d, a.v, n);
      Moves(c, d, {n}, n, {});
    } else {
      ArmsFine(e.on, e.arms, c, d, {n}, a.v, n);
      NoPhiIs(e.on, e.arms, d, a.v, n);
      if r.incoming == [] {
        Moves(c, r.c, {n}, n, {});
      } else {
        PhiOkIs(e, c);
        Meets(c, r.c, {n}, n, r.incoming, {});
      }
    }
  }

  lemma NoArms(k: Kind, c: Code, v: Operand, merge: nat)
    requires c.Valid() && merge < |c.blocks| && merge != c.cur
    ensures LowerArms(k, [], c, v, merge) == ArmsCode(c, [])
  {
  }

  lemma PhiOkIs(e: Expr, c: Code)
    requires e.MatchOn? && e.arms != [] && c.Valid() && Lands(c)
    ensures var a := LowerExpr(e.e, c);
      var r := LowerArms(e.on, e.arms, a.c.NewBlocks(1), a.v, |a.c.blocks|);
      PhiExact(r.c, |a.c.blocks|, r.incoming) <==> PhiOk(e.arms)
  {
    hide Edge, FromDistinct, FromBlock, LowerArms, BodyClashes;
    PhiExactIff(e, c);
  }

  lemma BodyDiverges(b: Body, c: Code)
    requires c.Valid() && !c.Closed()
    ensures LowerBody(b, c).c.Valid()
    ensures LowerBody(b, c).v.None? && LowerBody(b, c).c.Closed() <==> Diverges(b)
  {
    hide Grows, LowerStmt, LowerExpr;
    var c1 := LowerStmt(b.pre, c);
    GrowsFacts(c, c1);
    StmtClosed(b.pre, c);
    GrowsFacts(c, LowerBody(b, c).c);
    if b.value.None? { StmtClosed(b.post, c1); }
  }

  lemma ArmDiverges(k: Kind, a: Arm, last: bool, c: Code, v: Operand, merge: nat)
    requires c.Valid() && merge < |c.blocks| && merge != c.cur
    ensures LowerArm(k, a, last, c, v, merge).incoming == [] <==> Diverges(a.body) && (last ==> HasWildcard(a.patterns))
  {
    hide LowerEntry, LowerBody, BindPayload, BindOf, Diverges, Grows, Straight, EmitUnlessClosed, HasWildcard;
    var g := LowerEntry(k, a, last, c, v, merge);
    var p := BindPayload(g.SetInsert(|c.blocks|), BindOf(k, a.patterns), v);
    StraightFacts(g.SetInsert(|c.blocks|), p, if BindOf(k, a.patterns).Some? then 1 else 0, 0);
    BindOpen(g.SetInsert(|c.blocks|), BindOf(k, a.patterns), v);
    BodyDiverges(a.body, p);
    var e := LowerBody(a.body, p);
    assert LowerArmBody(k, a, g, |c.blocks|, v, merge).incoming ==
      if e.v.Some? then [(e.v.value, e.c.cur)] else if e.c.Closed() then [] else [(NONE, e.c.cur)];
  }

  lemma {:induction false} NoPhiIs(k: Kind, arms: seq<Arm>, c: Code, v: Operand, merge: nat)
    requires c.Valid() && merge < |c.blocks| && merge != c.cur && arms != []
    ensures LowerArms(k, arms, c, v, merge).incoming == [] <==> NoPhi(arms)
    decreases |arms|
  {
    hide LowerArm, Grows, Diverges, HasWildcard;
    ArmDiverges(k, arms[0], |arms| == 1, c, v, merge);
    if |arms| > 1 {
      var a := LowerArm(k, arms[0], false, c, v, merge);
      NoPhiIs(k, arms[1..], a.c.SetInsert(|c.blocks| + 1), v, merge);
      assert arms == [arms[0]] + arms[1..];
    }
  }

  lemma TestStep(k: Kind, p: Pattern, b: Code, c: Code, v: Operand, pend: set<nat>)
    requires On(b, c, pend) && !Wild(p)
    ensures Emits(b, c, pend, EmitTest(k, p, c, v).c, pend) && !EmitTest(k, p, c, v).c.Closed()
  {
    hide On, Made, Operation, Grows, Straight;
    match p
    case Literal(x) => OperationStep(b, c, pend, IsEqual, v, Const(x));
    case Variant(name, _) =>
      if k.unit {
        OperationStep(b, c, pend, IsEqual, v, Const(Int(Disc(k, name))));
      } else {
        OperationStep(b, c, pend, GetTag, v, NONE);
        OperationStep(b, Operation(c, GetTag, v, NONE), pend, IsEqual, Reg(c.next), Const(Int(Disc(k, name))));
      }
  }

  lemma {:induction false} TestsStep(k: Kind, ps: seq<Pattern>, b: Code, c: Code, v: Operand, acc: Option<Operand>,
                                     pend: set<nat>)
    requires On(b, c, pend) && (acc.Some? ==> Known(acc.value, c))
    ensures c.Valid()
    ensures var d := EmitTests(k, ps, c, v, acc).c;
      if ps == [] || Wild(ps[0]) then d == c else Emits(b, c, pend, d, pend) && !d.Closed()
    decreases |ps|
  {
    hide On, Made, Operation, Grows, Straight, EmitTest;
    OnValid(b, c, pend);
    if ps != [] && !Wild(ps[0]) {
      var t := EmitTest(k, ps[0], c, v);
      TestStep(k, ps[0], b, c, v, pend);
      var o := OrElse(t.c, acc, t.v);
      if acc.Some? { OperationStep(b, t.c, pend, Or, acc.value, t.v); }
      TestsStep(k, ps[1..], b, o.c, v, Some(o.v), pend);
    }
  }

  /** The tests of an arm and the branch on them. */
  lemma ArmTestStep(k: Kind, a: Arm, last: bool, b: Code, c: Code, pend: set<nat>, v: Operand, merge: nat, next: set<nat>)
    requires On(b, c, pend) && c.Valid() && merge in pend && merge < |c.blocks| && merge != c.cur
    requires forall x: nat :: x in next <==> x in pend || |c.blocks| <= x < |c.blocks| + NewIn(a, last)
    ensures Emits(b, c, pend, LowerTest(k, a, last, c, v, merge), next) && LowerTest(k, a, last, c, v, merge).Closed()
  {
    hide On, Made, Grows, Straight, EmitTests, Emit, HasWildcard;
    var n := |c.blocks|;
    var t := EmitTests(k, a.patterns, c, v, None);
    TestsStep(k, a.patterns, b, c, v, None, pend);
    var d := t.c.NewBlocks(NewIn(a, last));
    NewBlocksSame(b, t.c, pend, NewIn(a, last), next);
    var g := if a.guard.None? then n else n + NewIn(a, last) - 1;
    EmitStep(b, d, next, Jump(t.acc, HasWildcard(a.patterns), g, if last then merge else n + 1));
  }

  /** The tests and the guard of an arm. */
  lemma {:induction false} EntryStep(k: Kind, a: Arm, last: bool, b: Code, c: Code, pend: set<nat>, v: Operand,
                                     merge: nat, next: set<nat>)
    requires On(b, c, pend) && c.Valid() && merge in pend && merge < |c.blocks| && merge != c.cur
    requires forall x: nat :: x in next <==> x in pend || x == |c.blocks| || (!last && x == |c.blocks| + 1)
    ensures var g := LowerEntry(k, a, last, c, v, merge);
      && On(b, g, next) && g.Valid() && g.Closed()
      && (Made(b, g, next) <==> Made(b, c, pend) && !c.Closed() && (a.guard.Some? ==> ExprOk(a.guard.value, false)))
    decreases a, 10
  {
    hide On, Made, Grows, Straight, LowerTest, BindPayload, BindOf, BranchIf, LowerExpr, ExprOk, IsLit;
    var n := |c.blocks|;
    OnValid(b, c, pend);
    var t := LowerTest(k, a, last, c, v, merge);
    if a.guard.None? {
      ArmTestStep(k, a, last, b, c, pend, v, merge, next);
    } else {
      var x := n + NewIn(a, last) - 1;
      ArmTestStep(k, a, last, b, c, pend, v, merge, next + {x});
      var at := t.SetInsert(x);
      Moves(b, t, next + {x}, x, next);
      var p := BindPayload(at, BindOf(k, a.patterns), v);
      BindSame(b, at, next, BindOf(k, a.patterns), v);
      var g := LowerExpr(a.guard.value, p);
      Nested(a.guard.value, b, p, next);
      BranchIfStep(b, g.c, next, g.v, n, if last then merge else n + 1);
    }
  }

  lemma {:induction false} ArmFine(k: Kind, a: Arm, last: bool, b: Code, c: Code, pend: set<nat>, v: Operand,
                                   merge: nat, next: set<nat>)
    requires On(b, c, pend) && c.Valid() && merge in pend && merge < |c.blocks| && merge != c.cur
    requires forall x: nat :: x in next <==> x in pend || (!last && x == |c.blocks| + 1)
    ensures var d := LowerArm(k, a, last, c, v, merge).c;
      && On(b, d, next) && d.Valid() && d.Closed()
      && (Made(b, d, next) <==> Made(b, c, pend) && !c.Closed() && ArmOk(a))
    decreases a, 11
  {
    hide On, Made, Grows, Straight, LowerEntry, BindPayload, BindOf, LowerBody, EmitUnlessClosed, ExprOk, BodyOk;
    var n := |c.blocks|;
    OnValid(b, c, pend);
    var g := LowerEntry(k, a, last, c, v, merge);
    EntryStep(k, a, last, b, c, pend, v, merge, next + {n});
    Moves(b, g, next + {n}, n, next);
    var at := g.SetInsert(n);
    var p := BindPayload(at, BindOf(k, a.patterns), v);
    BindSame(b, at, next, BindOf(k, a.patterns), v);
    BodyFine(a.body, b, p, next);
    JumpSame(b, LowerBody(a.body, p).c, next, merge);
  }

  lemma {:induction false} BodyFine(y: Body, b: Code, c: Code, pend: set<nat>)
    requires On(b, c, pend) && c.Valid() && !c.Closed()
    ensures var d := LowerBody(y, c).c;
      On(b, d, pend) && d.Valid() && (Made(b, d, pend) <==> Made(b, c, pend) && BodyOk(y))
    decreases y
  {
    hide On, Made, Grows, LowerStmt, LowerExpr, ExprOk, StmtOk, ClosedAfter, IsLit;
    var c1 := LowerStmt(y.pre, c);
    NestedStmt(y.pre, b, c, pend);
    if y.value.None? {
      NestedStmt(y.post, b, c1, pend);
    } else {
      Nested(y.value.value, b, c1, pend);
      NestedStmt(y.post, b, LowerExpr(y.value.value, c1).c, pend);
    }
  }

  lemma {:induction false} ArmsFine(k: Kind, arms: seq<Arm>, b: Code, c: Code, pend: set<nat>, v: Operand, merge: nat)
    requires On(b, c, pend) && c.Valid() && merge in pend && merge < |c.blocks| && merge != c.cur && arms != []
    ensures var d := LowerArms(k, arms, c, v, merge).c;
      && On(b, d, pend) && d.Valid() && d.Closed()
      && (Made(b, d, pend) <==> Made(b, c, pend) && !c.Closed() && ArmsOk(arms))
    decreases arms
  {
    hide On, Made, Grows, LowerArm, ArmOk;
    var n := |c.blocks|;
    if |arms| == 1 {
      ArmFine(k, arms[0], true, b, c, pend, v, merge, pend);
      assert arms[1..] == [];
    } else {
      OnValid(b, c, pend);
      var a := LowerArm(k, arms[0], false, c, v, merge);
      ArmFine(k, arms[0], false, b, c, pend, v, merge, pend + {n + 1});
      Moves(b, a.c, pend + {n + 1}, n + 1, pend);
      ArmsFine(k, arms[1..], b, a.c.SetInsert(n + 1), pend, v, merge);
    }
  }

  // ---------------------------------------------------------------- functions

  /** A function passes exactly when its body keeps the rules above. */
  lemma AcceptedIff(body: Stmt)
    ensures Accepted(LowerFunction(body)) <==> StmtOk(body, false)
  {
    hide On, Made, Grows, Straight, LowerStmt, Lands, ClosedAfter, StmtOk;
    NothingLands();
    Starts(EMPTY);
    var c := LowerStmt(body, EMPTY);
    NestedStmt(body, EMPTY, EMPTY, {});
    var d := EmitUnlessClosed(c, Ret(NONE));
    if !c.Closed() { EmitStep(EMPTY, c, {}, Ret(NONE)); }
    AcceptedIs(d);
  }

  lemma NothingLands()
    ensures Lands(EMPTY)
  {
  }

  lemma AcceptedIs(d: Code)
    requires On(EMPTY, d, {}) && d.Valid() && d.Closed()
    ensures Accepted(d.blocks) <==> Made(EMPTY, d, {})
  {
  }

  /** Whatever the rest of the function is, a match with an arm `{ init; ret e; }` is
      refused. */
  lemma ReturnArmRefused(e: Expr, i: nat, init: Stmt, x: Expr, closed: bool)
    requires e.MatchOn? && i < |e.arms| && e.arms[i].body == Returns(init, x)
    ensures !ExprOk(e, closed)
  {
    hide OpenOk, ArmsOk;
    ArmForms(init, x);
    assert BodyClashes(e.arms[i].body) && !Diverges(e.arms[i].body);
  }
}
