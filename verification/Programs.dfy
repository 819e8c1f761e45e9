/** Small programs, compiled and run by the machine, with what comes of them written
    out field by field: the operands are arbitrary, the results are plain values. */
module Programs {
  import opened Hashes
  import opened Ir
  import opened Source
  import opened Wrappers
  import opened Lowering
  import opened Simulation
  import opened Correct
  import opened Discipline
  import opened Match
  import opened Theorems

  /** The compiled function stops after `n` steps and returns `v`. */
  ghost predicate Answers(body: Stmt, m: Machine, n: nat, v: Value, w: Machine) {
    Run(LowerFunction(body), m, n) == Done(v, w)
  }

  lemma ReturnAnswers(body: Stmt, v: Value, m: Machine, s: State) returns (n: nat, w: Machine)
    requires AtEntry(m, s) && EvalStmt(body, s).o == Returned(v)
    ensures Answers(body, m, n, v, w) && w.out == EvalStmt(body, s).s.out
  {
    hide LowerFunction, EvalStmt, Run;
    n, w := FunctionCorrect(body, m, s);
  }

  lemma ValueAnswers(e: Expr, v: Value, m: Machine, s: State) returns (n: nat, w: Machine)
    requires AtEntry(m, s) && EvalExpr(e, s).o == Normal(v)
    ensures Answers(Return(e), m, n, v, w)
  {
    hide EvalExpr;
    assert EvalStmt(Return(e), s).o == Returned(v);
    n, w := ReturnAnswers(Return(e), v, m, s);
  }

  // ---------------------------------------------------------------- arithmetic and branches

  /** `ret a + b`: the sum's low 32 bits, as a signed number. */
  lemma SumAnswers(a: Expr, b: Expr, x: int, y: int, m: Machine, s: State) returns (n: nat, w: Machine, z: int)
    requires AtEntry(m, s) && EvalExpr(a, s).o == Normal(Int(x)) && EvalExpr(b, EvalExpr(a, s).s).o == Normal(Int(y))
    ensures Answers(Return(Add(a, b)), m, n, Int(z), w)
    ensures -0x8000_0000 <= z < 0x8000_0000 && (z - x - y) % 0x1_0000_0000 == 0
  {
    z := Wrap32(x + y);
    assert EvalExpr(Add(a, b), s).o == Normal(Int(z));
    n, w := ValueAnswers(Add(a, b), Int(z), m, s);
  }

  /** `if c { ret a } else { ret b }`: a unless c is zero. */
  lemma IfAnswers(c: Expr, i: int, a: Value, b: Value, m: Machine, s: State) returns (n: nat, w: Machine)
    requires AtEntry(m, s) && EvalExpr(c, s).o == Normal(Int(i))
    ensures Answers(If(c, Return(Lit(a)), Return(Lit(b))), m, n, if i == 0 then b else a, w)
  {
    var t := EvalExpr(c, s).s;
    assert EvalStmt(Return(Lit(a)), t).o == Returned(a);
    assert EvalStmt(Return(Lit(b)), t).o == Returned(b);
    n, w := ReturnAnswers(If(c, Return(Lit(a)), Return(Lit(b))), if i == 0 then b else a, m, s);
  }

  // ---------------------------------------------------------------- try, catch and ?

  /** `try e`: e's value or success payload, and zero when e throws or fails. */
  lemma TryAnswers(e: Expr, kind: TryKind, m: Machine, s: State) returns (n: nat, w: Machine, v: Value)
    requires AtEntry(m, s) && (EvalExpr(e, s).o.Normal? || EvalExpr(e, s).o.Thrown?)
    requires kind.Unwrap? && EvalExpr(e, s).o.Normal? ==> EvalExpr(e, s).o.v.Tagged?
    ensures Answers(Return(Try(e, kind, None)), m, n, v, w)
    ensures EvalExpr(e, s).o.Thrown? ==> v == Int(0)
    ensures kind.Plain? && EvalExpr(e, s).o.Normal? ==> v == EvalExpr(e, s).o.v
    ensures kind.Unwrap? && EvalExpr(e, s).o.Normal? ==>
      v == if EvalExpr(e, s).o.v.tag == kind.errTag then Int(0) else EvalExpr(e, s).o.v.payload
  {
    var r := EvalExpr(e, s);
    v := if r.o.Thrown? then Int(0) else if kind.Plain? then r.o.v
         else if r.o.v.tag == kind.errTag then Int(0) else r.o.v.payload;
    assert EvalExpr(Try(e, kind, None), s).o == Normal(v);
    n, w := ValueAnswers(Try(e, kind, None), v, m, s);
  }

  /** `try e or f`: f's value when e throws or fails. */
  lemma FallbackAnswers(e: Expr, kind: TryKind, f: Expr, v: Value, m: Machine, s: State) returns (n: nat, w: Machine)
    requires AtEntry(m, s) && EvalExpr(f, EvalExpr(e, s).s).o == Normal(v)
    requires match EvalExpr(e, s).o
      case Thrown(_) => true
      case Normal(Tagged(t, _)) => kind == Unwrap(t)
      case _ => false
    ensures Answers(Return(Try(e, kind, Some(f))), m, n, v, w)
  {
    assert EvalFallback(Some(f), EvalExpr(e, s).s) == EvalExpr(f, EvalExpr(e, s).s);
    assert EvalExpr(Try(e, kind, Some(f)), s).o == Normal(v);
    n, w := ValueAnswers(Try(e, kind, Some(f)), v, m, s);
  }

  /** `e catch { }` yields the success payload, or zero when the block falls through. */
  lemma CatchAnswers(e: Expr, errTag: int, t: int, p: Value, it: Option<nat>, m: Machine, s: State)
    returns (n: nat, w: Machine)
    requires AtEntry(m, s) && EvalExpr(e, s).o == Normal(Tagged(t, p))
    ensures Answers(Return(CatchUnwrap(e, errTag, it, Skip)), m, n, if t == errTag then Int(0) else p, w)
  {
    var r := EvalExpr(e, s);
    var u := if it.Some? then r.s.Put(it.value, p) else r.s;
    assert EvalStmt(Skip, u) == Res(Normal(Undef), u, 0, 0);
    var v := if t == errTag then Int(0) else p;
    assert EvalExpr(CatchUnwrap(e, errTag, it, Skip), s).o == Normal(v);
    n, w := ValueAnswers(CatchUnwrap(e, errTag, it, Skip), v, m, s);
  }

  /** `e catch { ret it }` returns the error payload. */
  lemma ItAnswers(e: Expr, errTag: int, p: Value, x: nat, m: Machine, s: State) returns (n: nat, w: Machine)
    requires AtEntry(m, s) && EvalExpr(e, s).o == Normal(Tagged(errTag, p))
    ensures Answers(Do(CatchUnwrap(e, errTag, Some(x), Return(Var(x)))), m, n, p, w)
  {
    var body := CatchUnwrap(e, errTag, Some(x), Return(Var(x)));
    VarReturns(x, p, EvalExpr(e, s).s);
    assert EvalExpr(body, s).o == Returned(p);
    n, w := ReturnAnswers(Do(body), p, m, s);
  }

  lemma VarReturns(x: nat, p: Value, s: State)
    ensures EvalExpr(Var(x), s.Put(x, p)) == Res(Normal(p), s.Put(x, p), 0, 0)
    ensures EvalStmt(Return(Var(x)), s.Put(x, p)) == Res(Returned(p), s.Put(x, p), 0, 0)
  {
  }

  /** `ret e?` with payloads in fields of their own: the success payload, or the error
      payload in the return type's error variant. */
  lemma PropagateAnswers(e: Expr, errTag: int, retTag: int, t: int, p: Value, m: Machine, s: State)
    returns (n: nat, w: Machine)
    requires AtEntry(m, s) && EvalExpr(e, s).o == Normal(Tagged(t, p))
    ensures Answers(Return(Propagate(e, errTag, OwnField, retTag, Skip)), m, n,
                    if t == errTag then Tagged(retTag, p) else p, w)
  {
    var f := Propagate(e, errTag, OwnField, retTag, Skip);
    var r := EvalExpr(e, s);
    assert EvalStmt(Skip, r.s) == Res(Normal(Undef), r.s, 0, 0);
    assert EvalExpr(f, s).o == if t == errTag then Returned(Tagged(retTag, p)) else Normal(p);
    assert EvalStmt(Return(f), s).o == Returned(if t == errTag then Tagged(retTag, p) else p);
    n, w := ReturnAnswers(Return(f), if t == errTag then Tagged(retTag, p) else p, m, s);
  }

  // ---------------------------------------------------------------- throw

  /** Throwing an error raises it with its message. */
  lemma ThrowRaises(t: Stmt, e0: Error, s: State) returns (e: Error)
    requires t.ThrowStmt? && EvalExpr(t.e, s).o == Normal(Err(e0))
    ensures ThrownAs(e, e0, t) && EvalStmt(t, s) == EvalExpr(t.e, s).(o := Thrown(e))
  {
    hide Fnv;
    e := Stamped(e0, ThrowSite(t));
  }

  /** Whatever the first matching clause and the finally block do, they do it with the
      thrown error in the clause's local. */
  lemma ClauseSees(t: Stmt, e0: Error, cs: Catches, x: nat, h: Stmt, final: Stmt, s: State) returns (e: Error)
    requires t.ThrowStmt? && EvalExpr(t.e, s).o == Normal(Err(e0)) && NoCollisions(cs, (t.typeName, t.parent))
    requires FirstClause(cs, (t.typeName, t.parent)) == Some((x, h))
    ensures ThrownAs(e, e0, t)
    ensures var u := EvalExpr(t.e, s).s;
      var b := EvalStmt(h, u.(mem := u.mem[x := Err(e)]));
      var r := EvalStmt(TryCatch(t, cs, final), s);
      if b.o.Normal? then r.o == EvalStmt(final, b.s).o && r.s == EvalStmt(final, b.s).s else r.o == b.o && r.s == b.s
  {
    hide Fnv, FirstClause, NoCollisions;
    e := ThrowRaises(t, e0, s);
    DispatchByName(cs, e, (t.typeName, t.parent), EvalExpr(t.e, s).s);
  }

  /** `try { throw e0 } catch (T x) { ret x } finally { f }`: the caller gets e0's
      message and place, and the hashes of the thrown type. */
  lemma CaughtAnswers(t: Stmt, e0: Error, x: nat, final: Stmt, m: Machine, s: State)
    returns (n: nat, w: Machine, e: Error)
    requires AtEntry(m, s) && t.ThrowStmt? && EvalExpr(t.e, s).o == Normal(Err(e0))
    ensures Answers(TryCatch(t, Catch(t.typeName, x, Return(Var(x)), NoMore), final), m, n, Err(e), w)
    ensures ThrownAs(e, e0, t)
  {
    hide Fnv, EvalStmt, EvalExpr;
    e := ThrowRaises(t, e0, s);
    var body := TryCatch(t, Catch(t.typeName, x, Return(Var(x)), NoMore), final);
    FirstMatches(t, e, x, final, s);
    n, w := ReturnAnswers(body, Err(e), m, s);
  }

  lemma FirstMatches(t: Stmt, e: Error, x: nat, final: Stmt, s: State)
    requires t.ThrowStmt? && EvalStmt(t, s).o == Thrown(e) && e.typeId == Fnv(t.typeName)
    ensures EvalStmt(TryCatch(t, Catch(t.typeName, x, Return(Var(x)), NoMore), final), s).o == Returned(Err(e))
  {
    hide Fnv;
    VarReturns(x, Err(e), EvalStmt(t, s).s);
  }

  /** Body, clause and finally block leave their output in this order; without a throw
      there is no clause in between. */
  lemma PrintsInOrder(t: Stmt, e0: Error, x: nat, a: Value, b: Value, c: Value, m: Machine, s: State)
    returns (n: nat, w: Machine, k: nat, y: Machine)
    requires AtEntry(m, s) && t.ThrowStmt? && t.e == Lit(Err(e0))
    ensures var clauses := Catch(t.typeName, x, Print(Lit(b)), NoMore);
      && Answers(Seq(TryCatch(Seq(Print(Lit(a)), t), clauses, Print(Lit(c))), Return(Lit(Int(0)))), m, n, Int(0), w)
      && Answers(Seq(TryCatch(Print(Lit(a)), clauses, Print(Lit(c))), Return(Lit(Int(0)))), m, k, Int(0), y)
    ensures w.out == m.out + [a, b, c] && y.out == m.out + [a, c]
  {
    hide Fnv, EvalStmt;
    var clauses := Catch(t.typeName, x, Print(Lit(b)), NoMore);
    var thrown := TryCatch(Seq(Print(Lit(a)), t), clauses, Print(Lit(c)));
    var plain := TryCatch(Print(Lit(a)), clauses, Print(Lit(c)));
    var u := ThrownPrints(t, e0, x, a, b, c, s);
    PlainPrints(a, clauses, c, s);
    ThenZero(thrown, u, s);
    ThenZero(plain, Printed(Printed(s, a), c), s);
    n, w := ReturnAnswers(Seq(thrown, Return(Lit(Int(0)))), Int(0), m, s);
    k, y := ReturnAnswers(Seq(plain, Return(Lit(Int(0)))), Int(0), m, s);
  }

  lemma ThenZero(st: Stmt, u: State, s: State)
    requires EvalStmt(st, s).o.Normal? && EvalStmt(st, s).s == u
    ensures var r := EvalStmt(Seq(st, Return(Lit(Int(0)))), s); r.o == Returned(Int(0)) && r.s == u
  {
    assert EvalExpr(Lit(Int(0)), u) == Res(Normal(Int(0)), u, 0, 0);
    assert EvalStmt(Return(Lit(Int(0))), u) == Res(Returned(Int(0)), u, 0, 0);
  }

  lemma PlainPrints(a: Value, cs: Catches, c: Value, s: State)
    ensures var r := EvalStmt(TryCatch(Print(Lit(a)), cs, Print(Lit(c))), s);
      r.o.Normal? && r.s == Printed(Printed(s, a), c)
  {
    PrintDoes(a, s);
    PrintDoes(c, Printed(s, a));
  }

  lemma ThrownPrints(t: Stmt, e0: Error, x: nat, a: Value, b: Value, c: Value, s: State) returns (u: State)
    requires t.ThrowStmt? && t.e == Lit(Err(e0))
    ensures u.out == s.out + [a, b, c]
    ensures var st := TryCatch(Seq(Print(Lit(a)), t), Catch(t.typeName, x, Print(Lit(b)), NoMore), Print(Lit(c)));
      var r := EvalStmt(st, s);
      r.o.Normal? && r.s == u
  {
    hide Fnv;
    PrintDoes(a, s);
    var s1 := Printed(s, a);
    assert EvalExpr(t.e, s1) == Res(Normal(Err(e0)), s1, 0, 0);
    var e := ThrowRaises(t, e0, s1);
    assert EvalStmt(Seq(Print(Lit(a)), t), s).o == Thrown(e) && EvalStmt(Seq(Print(Lit(a)), t), s).s == s1;
    var s2 := s1.Put(x, Err(e));
    PrintDoes(b, s2);
    PrintDoes(c, Printed(s2, b));
    u := Printed(Printed(s2, b), c);
    assert EvalCatches(Catch(t.typeName, x, Print(Lit(b)), NoMore), e, s1) == Some(EvalStmt(Print(Lit(b)), s2));
  }

  // ---------------------------------------------------------------- match

  /** `match e { V(x) -> x, ... }` returns the payload of a value of V. */
  lemma MatchAnswers(e: Expr, k: Kind, rest: seq<Arm>, j: nat, x: nat, p: Value, m: Machine, s: State)
    returns (n: nat, w: Machine)
    requires AtEntry(m, s) && j < |k.variants| && !k.unit && DistinctVariants(k.variants) && k.variants[j].hasPayload
    requires EvalExpr(e, s).o == Normal(Tagged(k.variants[j].disc, p))
    ensures var arm := Arm([Variant(k.variants[j].name, Named(x))], None, Yields(Skip, Var(x)));
      Answers(Return(MatchOn(e, k, [arm] + rest)), m, n, p, w)
  {
    var arm := Arm([Variant(k.variants[j].name, Named(x))], None, Yields(Skip, Var(x)));
    var u := EvalExpr(e, s).s;
    var v := Tagged(k.variants[j].disc, p);
    assert Binds(k, arm.patterns, 0, j, x);
    ArmBinds(k, arm, 0, j, x, k.variants[j].disc, p, u);
    YieldsVar(x, p, u);
    assert ([arm] + rest)[0] == arm;
    assert EvalArms(k, [arm] + rest, v, u) == EvalBody(arm.body, Locals(u, Some(x), p)) by { hide EvalBody, Binds; }
    assert EvalExpr(MatchOn(e, k, [arm] + rest), s).o == Normal(p);
    n, w := ValueAnswers(MatchOn(e, k, [arm] + rest), p, m, s);
  }

  lemma YieldsVar(x: nat, p: Value, s: State)
    ensures EvalBody(Yields(Skip, Var(x)), Locals(s, Some(x), p)).o == Normal(p)
  {
    var u := Locals(s, Some(x), p);
    assert EvalStmt(Skip, u) == Res(Normal(Undef), u, 0, 0);
    VarReturns(x, p, s);
  }

  // ---------------------------------------------------------------- handlers and rules

  /** The first sixteen frames come from the pool, in order, the others from the heap. */
  lemma FrameComesFrom(m: Machine, dst: nat)
    requires Inv(m)
    ensures m.used < 16 ==> NewFrame(m) == Pool(m.used) && Alloc(m, dst).used == m.used + 1
    ensures m.used >= 16 ==> NewFrame(m) == Heap(m.heapNext) && Alloc(m, dst).heap == m.heap + {m.heapNext}
  {
  }

  /** An error no handler is there for ends the program, with its message and place. */
  lemma UncaughtAborts(t: Stmt, e0: Error, m: Machine, s: State) returns (n: nat, e: Error)
    requires AtEntry(m, s) && m.eh == [] && t.ThrowStmt? && EvalExpr(t.e, s).o == Normal(Err(e0))
    ensures Run(LowerFunction(t), m, n) == Aborted(e) && ThrownAs(e, e0, t)
  {
    hide Fnv, EvalStmt, EvalExpr, LowerFunction;
    e := ThrowRaises(t, e0, s);
    var w;
    n, w := FunctionCorrect(t, m, s);
    assert w.eh == [];
  }

  /** A `try` with a clause for what it throws, prints in all its blocks, and a result
      keep every rule. */
  lemma OrdinaryKeeps(rule: Rule, t: Stmt, x: nat, a: Value, c: Value)
    requires t.ThrowStmt? && t.e.Lit?
    ensures var st := TryCatch(Seq(Print(Lit(a)), t), Catch(t.typeName, x, Print(Var(x)), NoMore), Print(Lit(c)));
      Keeps(rule, Seq(st, Return(Add(Var(x), Lit(c)))))
  {
    hide Keeps, KeepsCatches, MayReturn, MayReturnCatches, Throws, ThrowsCatches;
    var body, cs := Seq(Print(Lit(a)), t), Catch(t.typeName, x, Print(Var(x)), NoMore);
    PrintKeeps(rule, Lit(a));
    PrintKeeps(rule, Lit(c));
    PrintKeeps(rule, Var(x));
    ThrowKeeps(rule, t);
    SeqKeeps(rule, Print(Lit(a)), t);
    OneClauseKeeps(rule, t.typeName, x, Print(Var(x)));
    assert TryKeeps(rule, body, cs, Print(Lit(c)));
    TryCatchKeeps(rule, body, cs, Print(Lit(c)));
    SumKeeps(rule, x, c);
    SeqKeeps(rule, TryCatch(body, cs, Print(Lit(c))), Return(Add(Var(x), Lit(c))));
  }

  lemma PrintKeeps(rule: Rule, e: Expr)
    requires e.Lit? || e.Var?
    ensures Keeps(rule, Print(e)) && !MayReturn(Print(e)) && Throws(Print(e)) == {}
  {
  }

  lemma ThrowKeeps(rule: Rule, t: Stmt)
    requires t.ThrowStmt? && t.e.Lit?
    ensures Keeps(rule, t) && !MayReturn(t) && Throws(t) == {(t.typeName, t.parent)}
  {
  }

  lemma SeqKeeps(rule: Rule, a: Stmt, b: Stmt)
    ensures Keeps(rule, Seq(a, b)) <==> Keeps(rule, a) && Keeps(rule, b)
    ensures MayReturn(Seq(a, b)) <==> MayReturn(a) || MayReturn(b)
    ensures Throws(Seq(a, b)) == Throws(a) + Throws(b)
  {
  }

  lemma OneClauseKeeps(rule: Rule, name: string, x: nat, h: Stmt)
    ensures var cs := Catch(name, x, h, NoMore);
      && (KeepsCatches(rule, cs) <==> Keeps(rule, h)) && (MayReturnCatches(cs) <==> MayReturn(h))
      && ThrowsCatches(cs) == Throws(h)
  {
    assert KeepsCatches(rule, NoMore) && !MayReturnCatches(NoMore) && ThrowsCatches(NoMore) == {};
  }

  lemma TryCatchKeeps(rule: Rule, b: Stmt, cs: Catches, f: Stmt)
    ensures Keeps(rule, TryCatch(b, cs, f)) <==>
      TryKeeps(rule, b, cs, f) && Keeps(rule, b) && KeepsCatches(rule, cs) && Keeps(rule, f)
  {
  }

  lemma SumKeeps(rule: Rule, x: nat, c: Value)
    ensures Keeps(rule, Return(Add(Var(x), Lit(c))))
  {
    assert KeepsExpr(rule, Var(x)) && KeepsExpr(rule, Lit(c));
    assert KeepsExpr(rule, Add(Var(x), Lit(c)));
  }
}
