/** What follows for whole functions. */
module Theorems {
  import opened Hashes
  import opened Ir
  import opened Source
  import opened Wrappers
  import opened EnumValues
  import opened Lowering
  import opened Simulation
  import opened Correct
  import opened Discipline
  import opened Documented

  ghost predicate AtEntry(m: Machine, s: State) {
    m.block == 0 && m.pc == 0 && Inv(m) && Same(m, s)
  }

  /** Handlers as on entry but for `dangling` more on top, and `leaked` more frames
      in use than on entry. */
  ghost predicate Balance(m: Machine, w: Machine, leaked: nat, dangling: nat) {
    && m.eh <= w.eh && |w.eh| == |m.eh| + dangling
    && w.used + |w.heap| == m.used + |m.heap| + leaked
  }

  lemma FunctionWithin(body: Stmt)
    ensures var c := LowerStmt(body, EMPTY);
      && Within(c, LowerFunction(body))
      && (!c.Closed() ==> Within(Emit(c, Ret(NONE)), LowerFunction(body)))
  {
    hide LowerStmt;
    var c := LowerStmt(body, EMPTY);
    var d := EmitUnlessClosed(c, Ret(NONE));
    assert Within(d, d.blocks);
    GrowsWithin(c, d, d.blocks);
  }

  /** The compiled function does what the source means: it returns, throws with the
      handler stack it was called with, or never stops; its effects on memory and
      output are the source's, and every frame it allocated is accounted for. */
  lemma FunctionCorrect(body: Stmt, m: Machine, s: State) returns (n: nat, w: Machine)
    requires AtEntry(m, s)
    ensures var p := LowerFunction(body);
      var r := EvalStmt(body, s);
      match r.o
      case Normal(_) => Run(p, m, n) == Done(Undef, w) && Same(w, r.s) && Balance(m, w, r.leaked, 0)
      case Returned(v) => Run(p, m, n) == Done(v, w) && Same(w, r.s) && Balance(m, w, r.leaked, r.dangling)
      case Thrown(e) => Run(p, m, n) == Throw(w, e) && Same(w, r.s) && Balance(m, w, r.leaked, 0)
      case Hung => forall j: nat :: Run(p, m, j).Running?
      case Broken => true
  {
    hide LowerStmt, EvalStmt, Exec, Throw, Within;
    var p := LowerFunction(body);
    FunctionWithin(body);
    n, w := StmtRuns(p, body, EMPTY, m, s);
    var r := EvalStmt(body, s);
    match r.o
    case Normal(_) =>
      StepIs(p, LowerStmt(body, EMPTY), Ret(NONE), w);
      LastStep(p, m, n, w);
      n := n + 1;
      assert Step(p, w) == Done(Undef, w) by { RetStep(w); }
    case Returned(_) => LastStep(p, m, n, w); n := n + 1;
    case Thrown(_) => LastStep(p, m, n, w); n := n + 1;
    case Hung =>
    case Broken =>
  }

  lemma LastStep(p: Program, m: Machine, n: nat, w: Machine)
    requires Reaches(p, m, n, w)
    ensures Run(p, m, n + 1) == Step(p, w)
  {
    RunSplit(p, m, n, w, 1);
    match Step(p, w)
    case Running(x) => assert Run(p, x, 0) == Running(x);
    case Done(_, _) =>
    case Aborted(_) =>
    case Stuck =>
  }

  // ---------------------------------------------------------------- programs that keep the rules

  /** A function whose text keeps the rules Caught and Faithful ends as documented, with
      the documented memory and output. */
  lemma RunsAsDocumented(body: Stmt, m: Machine, s: State) returns (n: nat, w: Machine)
    requires AtEntry(m, s) && Keeps(Caught, body) && Keeps(Faithful, body)
    ensures var p := LowerFunction(body);
      var d := DocStmt(body, s);
      && Same(w, d.s)
      && match d.o
         case Goes(_) => Run(p, m, n) == Done(Undef, w)
         case Leaves(v) => Run(p, m, n) == Done(v, w)
         case Raises(e) => Run(p, m, n) == Throw(w, e)
  {
    hide LowerFunction, EvalStmt, DocStmt, Run, Throw, Keeps;
    StmtAgrees(body, s);
    n, w := FunctionCorrect(body, m, s);
  }

  /** A function whose text keeps the rules Caught and Balanced leaves the handler stack
      as it was on entry, and exactly the frames in use that were, however it ends. */
  lemma HandlersRestored(body: Stmt, m: Machine, s: State) returns (n: nat, w: Machine)
    requires AtEntry(m, s) && Keeps(Caught, body) && Keeps(Balanced, body)
    ensures var p := LowerFunction(body);
      && Reaches(p, m, n, w) && w.eh == m.eh && w.used + |w.heap| == m.used + |m.heap|
      && match EvalStmt(body, s).o
         case Thrown(e) => Step(p, w) == Throw(w, e)
         case Returned(v) => Step(p, w) == Done(v, w)
         case Normal(_) => Step(p, w) == Done(Undef, w)
         case _ => false
  {
    hide LowerStmt, EvalStmt, Exec, Throw, Within, Keeps;
    var p := LowerFunction(body);
    FunctionWithin(body);
    StmtClean(body, s);
    n, w := StmtRuns(p, body, EMPTY, m, s);
    if EvalStmt(body, s).o.Normal? {
      StepIs(p, LowerStmt(body, EMPTY), Ret(NONE), w);
      RetStep(w);
    }
  }

  // ---------------------------------------------------------------- programs that do not

  /** A `return` inside a try body leaves the handler pushed and its frame in use,
      whatever the clauses and the finally block are. */
  lemma ReturnInTry(v: Value, cs: Catches, final: Stmt, s: State)
    ensures EvalStmt(TryCatch(Return(Lit(v)), cs, final), s) == Res(Returned(v), s, 1, 1)
  {
    assert EvalStmt(Return(Lit(v)), s) == Res(Returned(v), s, 0, 0);
  }

  function Printed(s: State, x: Value): State { s.(out := s.out + [x]) }

  lemma PrintDoes(x: Value, s: State)
    ensures EvalStmt(Print(Lit(x)), s) == Res(Normal(Undef), Printed(s, x), 0, 0)
    ensures DocStmt(Print(Lit(x)), s) == Meaning(Goes(Undef), Printed(s, x))
  {
    assert EvalExpr(Lit(x), s) == Res(Normal(x), s, 0, 0);
    assert DocExpr(Lit(x), s) == Meaning(Goes(x), s);
  }

  /** What a throw of a value raises. */
  function Raised(t: Stmt): Error
    requires t.ThrowStmt? && t.e.Lit?
  {
    Stamped(ErrorOf(t.e.v), ThrowSite(t))
  }

  lemma ThrowDoes(t: Stmt, s: State)
    requires t.ThrowStmt? && t.e.Lit?
    ensures EvalStmt(t, s) == Res(Thrown(Raised(t)), s, 0, 0) && DocStmt(t, s) == Meaning(Raises(Raised(t)), s)
  {
    hide Fnv;
    assert EvalExpr(t.e, s) == Res(Normal(t.e.v), s, 0, 0);
    assert DocExpr(t.e, s) == Meaning(Goes(t.e.v), s);
  }

  /** try { ret v } finally { print x } prints nothing. */
  lemma ReturnSkipsFinally(v: Value, x: Value, cs: Catches, s: State)
    ensures var st := TryCatch(Return(Lit(v)), cs, Print(Lit(x)));
      EvalStmt(st, s) == Res(Returned(v), s, 1, 1) && DocStmt(st, s) == Meaning(Leaves(v), Printed(s, x))
  {
    ReturnInTry(v, cs, Print(Lit(x)), s);
    PrintDoes(x, s);
    assert DocExpr(Lit(v), s) == Meaning(Goes(v), s);
    assert DocStmt(Return(Lit(v)), s) == Meaning(Leaves(v), s);
  }

  /** try { throw t } catch (T e) { h } finally { print x } with an abrupt h. */
  lemma AbruptClause(t: Stmt, slot: nat, h: Stmt, x: Value, s: State)
    requires t.ThrowStmt? && t.e.Lit?
    ensures var st := TryCatch(t, Catch(t.typeName, slot, h, NoMore), Print(Lit(x)));
      var u := s.Put(slot, Err(Raised(t)));
      && (!EvalStmt(h, u).o.Normal? ==> EvalStmt(st, s) == LeaveHandler(EvalStmt(h, u)))
      && (!DocStmt(h, u).o.Goes? ==>
            DocStmt(st, s) == Meaning(DocStmt(h, u).o, Printed(DocStmt(h, u).s, x)))
  {
    hide Fnv;
    ThrowDoes(t, s);
    var cs := Catch(t.typeName, slot, h, NoMore);
    var u := s.Put(slot, Err(Raised(t)));
    assert Matches(t.typeName, Raised(t));
    assert EvalCatches(cs, Raised(t), s) == Some(EvalStmt(h, u));
    assert DocCatches(cs, Raised(t), s) == Some(DocStmt(h, u));
    PrintDoes(x, DocStmt(h, u).s);
  }

  /** An error thrown by a catch clause skips `finally` and leaks the frame. */
  lemma ThrowInCatchSkipsFinally(t: Stmt, slot: nat, again: Stmt, x: Value, s: State)
    requires t.ThrowStmt? && t.e.Lit? && again.ThrowStmt? && again.e.Lit?
    ensures var st := TryCatch(t, Catch(t.typeName, slot, again, NoMore), Print(Lit(x)));
      var u := s.Put(slot, Err(Raised(t)));
      && EvalStmt(st, s) == Res(Thrown(Raised(again)), u, 1, 0)
      && DocStmt(st, s) == Meaning(Raises(Raised(again)), Printed(u, x))
  {
    AbruptClause(t, slot, again, x, s);
    ThrowDoes(again, s.Put(slot, Err(Raised(t))));
  }

  /** So does a return from one. */
  lemma ReturnInCatchSkipsFinally(t: Stmt, slot: nat, v: Value, x: Value, s: State)
    requires t.ThrowStmt? && t.e.Lit?
    ensures var st := TryCatch(t, Catch(t.typeName, slot, Return(Lit(v)), NoMore), Print(Lit(x)));
      var u := s.Put(slot, Err(Raised(t)));
      && EvalStmt(st, s) == Res(Returned(v), u, 1, 0)
      && DocStmt(st, s) == Meaning(Leaves(v), Printed(u, x))
  {
    AbruptClause(t, slot, Return(Lit(v)), x, s);
    var u := s.Put(slot, Err(Raised(t)));
    assert EvalExpr(Lit(v), u) == Res(Normal(v), u, 0, 0);
    assert DocExpr(Lit(v), u) == Meaning(Goes(v), u);
  }

  /** An error thrown by a finally block is the documented one, but leaks the frame. */
  lemma ThrowInFinallyLeaks(cs: Catches, t: Stmt, s: State)
    requires t.ThrowStmt? && t.e.Lit?
    ensures var st := TryCatch(Skip, cs, t);
      EvalStmt(st, s) == Res(Thrown(Raised(t)), s, 1, 0) && DocStmt(st, s) == Meaning(Raises(Raised(t)), s)
  {
    ThrowDoes(t, s);
    assert EvalStmt(Skip, s) == Res(Normal(Undef), s, 0, 0);
  }

  /** An error no clause is for never leaves its statement, or meets a block without
      terminator when there are no clauses at all. */
  lemma UnmatchedIsLost(t: Stmt, cs: Catches, x: Value, s: State)
    requires t.ThrowStmt? && t.e.Lit? && NoCollisions(cs, (t.typeName, t.parent))
    requires FirstClause(cs, (t.typeName, t.parent)).None?
    ensures var st := TryCatch(t, cs, Print(Lit(x)));
      && EvalStmt(st, s).o == (if cs.Catch? then Hung else Broken)
      && DocStmt(st, s) == Meaning(Raises(Raised(t)), Printed(s, x))
  {
    hide Fnv;
    ThrowDoes(t, s);
    PrintDoes(x, s);
    DispatchByName(cs, Raised(t), (t.typeName, t.parent), s);
    SameClauses(cs, Raised(t), s);
  }

  lemma {:induction false} SameClauses(cs: Catches, e: Error, s: State)
    ensures DocCatches(cs, e, s).Some? <==> EvalCatches(cs, e, s).Some?
  {
    hide Fnv, EvalStmt, DocStmt;
    if cs.Catch? { SameClauses(cs.rest, e, s); }
  }

  // ---------------------------------------------------------------- dispatch

  /** The type names involved hash to different values, none of them to 0. */
  ghost predicate NoCollision(a: string, t: ThrownType) {
    && (Fnv(a) == Fnv(t.0) ==> a == t.0)
    && (t.1.Some? && Fnv(a) == Fnv(t.1.value) ==> a == t.1.value)
    && Fnv(a) != 0
  }

  ghost predicate NoCollisions(cs: Catches, t: ThrownType) {
    cs.Catch? ==> NoCollision(cs.typeName, t) && NoCollisions(cs.rest, t)
  }

  /** Names that differ in one byte do not collide. */
  lemma OneByteNames(pre: string, c: char, d: char, rest: string)
    requires c as int % 256 != d as int % 256 && Fnv(pre + [c] + rest) != 0
    ensures NoCollision(pre + [c] + rest, (pre + [d] + rest, None))
  {
    hide Fnv;
    OneByteApart(pre, c, d, rest);
  }

  /** Comparing hashes selects the clause that comparing type names would. */
  lemma {:induction false} DispatchByName(cs: Catches, e: Error, t: ThrownType, s: State)
    requires Carries(e, t) && NoCollisions(cs, t)
    ensures EvalCatches(cs, e, s) ==
      match FirstClause(cs, t)
      case None => None
      case Some((x, body)) => Some(EvalStmt(body, s.Put(x, Err(e))))
  {
    hide Fnv, EvalStmt;
    if cs.Catch? {
      DispatchByName(cs.rest, e, t, s);
      assert Matches(cs.typeName, e) <==> cs.typeName == t.0 || t.1 == Some(cs.typeName);
    }
  }

  /** Whatever throws in a body, it is an error of one of the body's throws, and the
      first clause by name for that type runs, then the finally block, once; without
      such a clause the statement never ends. */
  lemma ThrowIsCaught(body: Stmt, cs: Catches, final: Stmt, s: State) returns (t: ThrownType)
    requires EvalStmt(body, s).o.Thrown? && cs.Catch?
    requires forall u | u in Throws(body) :: NoCollisions(cs, u)
    ensures t in Throws(body) && Carries(EvalStmt(body, s).o.e, t)
    ensures var r := EvalStmt(body, s);
      EvalStmt(TryCatch(body, cs, final), s) == Then(r,
        match FirstClause(cs, t)
        case None => Res(Hung, r.s, 0, r.dangling)
        case Some((x, clause)) =>
          var b := EvalStmt(clause, r.s.Put(x, Err(r.o.e)));
          if b.o.Normal? then Then(b, LeaveHandler(EvalStmt(final, b.s))) else LeaveHandler(b))
  {
    hide Fnv, Carries, FirstClause;
    StmtClean(body, s);
    var r := EvalStmt(body, s);
    t :| t in Throws(body) && Carries(r.o.e, t);
    DispatchByName(cs, r.o.e, t, r.s);
  }

  /** The catch block is closed by a terminator exactly when there is a clause. */
  lemma CatchBlockClosed(st: Stmt, c: Code)
    requires st.TryCatch? && c.Valid()
    ensures |c.blocks| + 1 < |LowerStmt(st, c).blocks|
    ensures var b := LowerStmt(st, c).blocks[|c.blocks| + 1];   // the catch block
      |b| > 0 && (IsTerminator(b[|b| - 1]) <==> st.catches.Catch?)
  {
    hide Enter, LeaveBody, Dispatch, LeaveFinal, Grows, LowerCatches, LowerStmt;
    var n := |c.blocks|;
    var t, c1, c2, c3, c4, c5, c6 := TryCatchUnfolds(st, c);
    assert Within(c6, c6.blocks);
    TryCatchBlocks(c6.blocks, c, t, c1, c2, c3, c4, c5, c6);
    DispatchEnds(c2.SetInsert(n + 1), c.next);
    ChainEnds(st.catches, c3, c.next, c2.next, n + 2);
    GrowsFacts(c3, c4);
    GrowsFacts(c4.SetInsert(n + 2), c5);
    GrowsBlock(c4.SetInsert(n + 2), c5, n + 1);
    GrowsBlock(c5, c6, n + 1);
  }

  lemma DispatchEnds(c: Code, k: nat)
    requires c.Valid() && c.blocks[c.cur] == []
    ensures var b := Dispatch(c, k).blocks[c.cur]; |b| > 0 && !IsTerminator(b[|b| - 1])
  {
  }

  lemma ChainEnds(cs: Catches, c: Code, k: nat, e: nat, final: nat)
    requires c.Valid() && |c.blocks[c.cur]| > 0 && !IsTerminator(c.blocks[c.cur][|c.blocks[c.cur]| - 1])
    ensures c.cur < |LowerCatches(cs, c, k, e, final, true).blocks|
    ensures var b := LowerCatches(cs, c, k, e, final, true).blocks[c.cur];
      |b| > 0 && (IsTerminator(b[|b| - 1]) <==> cs.Catch?)
  {
    hide TestClause, Grows, LowerStmt, Emit, Fnv;
    if cs.Catch? {
      var n := |c.blocks|;
      var c1, c2, c3, c4 := ClauseUnfolds(cs, c, k, e, final, true);
      var d := LowerCatches(cs, c, k, e, final, true);
      TestEnds(c, e, cs.typeName);
      GrowsBlock(c1.SetInsert(n), c2, c.cur);
      GrowsFacts(c2, c3);
      GrowsBlock(c2, c3, c.cur);
      GrowsBlock(c3, c4, c.cur);
      GrowsBlock(c4.SetInsert(n + 1), d, c.cur);
    }
  }

  lemma TestEnds(c: Code, e: nat, name: string)
    requires c.Valid()
    ensures var b := TestClause(c, e, name).blocks[c.cur]; |b| > 0 && IsTerminator(b[|b| - 1])
  {
    hide Fnv;
  }

  // ---------------------------------------------------------------- operands without a type

  /** The second evaluation leaves things as the first one did. */
  ghost predicate Echoes(f: Res, a: Res) {
    f.o == a.o && f.s == a.s && f.leaked == 0 && f.dangling == a.dangling
  }

  /** Where the type of e is not known, both e and f are evaluated, f's value is the
      result, and nothing is caught. That is what `try e or f` is elsewhere exactly when
      e has a value and f, evaluated after it, has the same and no effect; or e throws
      and so does f, likewise; or e never comes back. */
  lemma UntypedIff(e: Expr, fb: Option<Expr>, s: State)
    ensures EvalExpr(TryUntyped(e, fb), s) == EvalExpr(Try(e, Plain, fb), s)
      <==> UntypedHarmless(EvalExpr(e, s), fb)
  {
    var a := EvalExpr(e, s);
    if fb.Some? { assert EvalFallback(fb, a.s) == EvalExpr(fb.value, a.s); }
  }

  ghost predicate UntypedHarmless(a: Res, fb: Option<Expr>) {
    match a.o
    case Normal(_) => fb.None? || Echoes(EvalExpr(fb.value, a.s), a)
    case Thrown(_) => fb.Some? && Echoes(EvalExpr(fb.value, a.s), a)
    case Returned(_) => false
    case _ => true
  }

  /** So it is harmless where e's text neither throws nor returns and there is no f. */
  lemma UntypedAsTyped(e: Expr, s: State)
    requires ThrowsExpr(e) == {} && !MayReturnExpr(e)
    ensures EvalExpr(TryUntyped(e, None), s) == EvalExpr(Try(e, Plain, None), s)
  {
    ExprClean(e, s);
  }

  /** With a literal f it is harmless exactly where e yields that very literal, or never
      comes back. */
  lemma UntypedLiteral(e: Expr, v: Value, s: State)
    ensures EvalExpr(TryUntyped(e, Some(Lit(v))), s) == EvalExpr(Try(e, Plain, Some(Lit(v))), s)
      <==> EvalExpr(e, s).o == Normal(v) || Lost(EvalExpr(e, s))
  {
    var a := EvalExpr(e, s);
    assert EvalExpr(Lit(v), a.s) == Res(Normal(v), a.s, 0, 0);
    ExprClean(e, s);
    UntypedIff(e, Some(Lit(v)), s);
  }

  // ---------------------------------------------------------------- payloads

  /** The payload's place in the enum value holds all of it. */
  predicate Lossless(c: Carry) { c.OwnField? || (c.InStorage? && c.layout.Survives()) }

  /** A value built as one variant and taken apart by `try`, `catch` or `?` as that
      variant is the value put in exactly when its place holds all of it. */
  lemma BuiltIsUnwrapped(tag: int, e: Expr, carry: Carry, errTag: int, retTag: int, fb: Option<Expr>, block: Stmt, s: State)
    requires EvalExpr(e, s).o.Normal? && EvalExpr(e, s).o.v != Undef && tag != errTag
    ensures var v, b := EvalExpr(e, s).o.v, Build(tag, Some(e), carry);
      && (EvalExpr(Try(b, Unwrap(errTag), fb), s).o == Normal(v) <==> Lossless(carry))
      && (EvalExpr(CatchUnwrap(b, errTag, None, block), s).o == Normal(v) <==> Lossless(carry))
      && (EvalExpr(Propagate(b, errTag, carry, retTag, block), s).o == Normal(v) <==> Lossless(carry))
  {
    hide Carried;
    var b := Build(tag, Some(e), carry);
    assert EvalExpr(b, s).o == Normal(Tagged(tag, Carried(carry, EvalExpr(e, s).o.v)));
    CarriedWhole(carry, EvalExpr(e, s).o.v);
  }

  lemma CarriedWhole(carry: Carry, v: Value)
    requires v != Undef
    ensures Carried(carry, v) == v <==> Lossless(carry)
  {
    match carry
    case NoPayload =>
    case OwnField =>
    case InStorage(l) => CarriedIs(l, v);
  }

  /** In bytes: a place in the storage holds all of a payload exactly when storing the
      payload, passing the enum value and loading the payload gives it back. */
  lemma LosslessIsRoundTrip(l: Layout, vals: seq<nat>)
    requires l.Valid() && Fit(l.payload, vals)
    ensures Lossless(InStorage(l)) <==> RoundTrip(l.storage, l.payload, vals) == Some(vals)
  {
    hide RoundTrip;
    SurvivesIff(l, vals);
  }

  // ---------------------------------------------------------------- a chain of e?

  /** `x = e?` for one local and operand. */
  datatype Bind = Bind(slot: nat, e: Expr, errTag: int, carry: Carry)

  /** A body that takes one result after another, and ends in `ret final`. */
  function ChainOf(bs: seq<Bind>, retTag: int, final: Expr): Stmt {
    if bs == [] then Return(final)
    else
      Seq(Assign(bs[0].slot, Propagate(bs[0].e, bs[0].errTag, bs[0].carry, retTag, Skip)),
          ChainOf(bs[1..], retTag, final))
  }

  /** What a step of the chain is, as a result: the state with the local bound to the
      success payload, an error payload, or an operand that did not end normally. */
  datatype Result = Ok(s: State, leaked: nat) | Failed(payload: Value, s: State, leaked: nat) | Stopped(r: Res)

  function StepOf(b: Bind, s: State): Result {
    var r := EvalExpr(b.e, s);
    if !r.o.Normal? then Stopped(r)
    else if TagOf(r.o.v) == b.errTag then Failed(Carried(b.carry, PayloadOf(r.o.v)), r.s, r.leaked)
    else Ok(r.s.Put(b.slot, PayloadOf(r.o.v)), r.leaked)
  }

  /** The bind of results: only success goes on. */
  function After(bs: seq<Bind>, s: State): Result {
    if bs == [] then Ok(s, 0)
    else
      match StepOf(bs[0], s)
      case Ok(t, l) => Leaking(l, After(bs[1..], t))
      case stop => stop
  }

  function Leaking(l: nat, r: Result): Result {
    match r
    case Ok(t, k) => Ok(t, l + k)
    case Failed(p, t, k) => Failed(p, t, l + k)
    case Stopped(x) => Stopped(x.(leaked := l + x.leaked))
  }

  /** How a function ends that returns the first failure in its error variant. */
  function Concluded(r: Result, retTag: int, final: Expr): Res {
    match r
    case Ok(t, l) => Then(Res(Normal(Undef), t, l, 0), EvalStmt(Return(final), t))
    case Failed(p, t, l) => Res(Returned(Tagged(retTag, p)), t, l, 0)
    case Stopped(x) => x
  }

  /** The first error met is returned as the error variant of the return type, with
      what its place there holds of the payload and nothing evaluated after it; the
      first operand that throws or returns ends the function so; without either, the
      rest of the function sees every success payload. */
  lemma {:induction false} ChainIsBind(bs: seq<Bind>, retTag: int, final: Expr, s: State)
    ensures EvalStmt(ChainOf(bs, retTag, final), s) == Concluded(After(bs, s), retTag, final)
    decreases |bs|
  {
    hide StepOf;
    if bs == [] {
      assert EvalStmt(ChainOf(bs, retTag, final), s) == EvalStmt(Return(final), s);
    } else {
      OneBind(bs[0], retTag, s);
      FirstOf(bs, retTag, final, s);
      match StepOf(bs[0], s)
      case Ok(t, l) =>
        ChainIsBind(bs[1..], retTag, final, t);
        LeakingConcluded(Res(Normal(Undef), t, l, EvalExpr(bs[0].e, s).dangling), After(bs[1..], t), retTag, final);
      case _ =>
    }
  }

  lemma FirstOf(bs: seq<Bind>, retTag: int, final: Expr, s: State)
    requires bs != []
    ensures var b := bs[0];
      var r := EvalStmt(Assign(b.slot, Propagate(b.e, b.errTag, b.carry, retTag, Skip)), s);
      EvalStmt(ChainOf(bs, retTag, final), s) ==
        if r.o.Normal? then Then(r, EvalStmt(ChainOf(bs[1..], retTag, final), r.s)) else r
  {
  }

  lemma LeakingConcluded(first: Res, r: Result, retTag: int, final: Expr)
    ensures Concluded(Leaking(first.leaked, r), retTag, final) == Then(first, Concluded(r, retTag, final))
  {
    hide EvalStmt;
  }

  lemma OneBind(b: Bind, retTag: int, s: State)
    ensures EvalStmt(Assign(b.slot, Propagate(b.e, b.errTag, b.carry, retTag, Skip)), s) ==
      match StepOf(b, s)
      case Ok(t, l) => Res(Normal(Undef), t, l, EvalExpr(b.e, s).dangling)
      case Failed(p, t, l) => Res(Returned(Tagged(retTag, p)), t, l, 0)
      case Stopped(r) => r
    ensures StepOf(b, s).Stopped? ==> !StepOf(b, s).r.o.Normal?
  {
    var r := EvalExpr(b.e, s);
    assert EvalStmt(Skip, r.s) == Res(Normal(Undef), r.s, 0, 0);
    var p := EvalExpr(Propagate(b.e, b.errTag, b.carry, retTag, Skip), s);
    assert r.o.Normal? ==> p == if TagOf(r.o.v) == b.errTag
      then Res(Returned(Tagged(retTag, Carried(b.carry, PayloadOf(r.o.v)))), r.s, r.leaked, 0)
      else r.(o := Normal(PayloadOf(r.o.v)));
  }

  /** A failing step hands on its payload exactly when the return type's place for it
      holds all of it. */
  lemma SamePayload(b: Bind, s: State)
    requires StepOf(b, s).Failed? && PayloadOf(EvalExpr(b.e, s).o.v) != Undef
    ensures StepOf(b, s).payload == PayloadOf(EvalExpr(b.e, s).o.v) <==> Lossless(b.carry)
  {
    hide Carried;
    CarriedWhole(b.carry, PayloadOf(EvalExpr(b.e, s).o.v));
  }
}
