/** What can be said of a program before it runs: how its statements may end, which
    errors it may throw, and what follows for every run. */
module Discipline {
  import opened Hashes
  import opened Ir
  import opened Source
  import opened Wrappers
  import opened Match

  // ---------------------------------------------------------------- returns

  predicate MayReturn(st: Stmt) {
    match st
    case Skip => false
    case Seq(a, b) => MayReturn(a) || MayReturn(b)
    case Do(e) => MayReturnExpr(e)
    case Assign(_, e) => MayReturnExpr(e)
    case Print(e) => MayReturnExpr(e)
    case If(c, t, f) => MayReturnExpr(c) || MayReturn(t) || MayReturn(f)
    case ThrowStmt(e, _, _, _, _, _) => MayReturnExpr(e)
    case Return(_) => true
    case TryCatch(b, cs, f) => MayReturn(b) || MayReturnCatches(cs) || MayReturn(f)
  }

  predicate MayReturnCatches(cs: Catches) {
    cs.Catch? && (MayReturn(cs.body) || MayReturnCatches(cs.rest))
  }

  predicate MayReturnExpr(e: Expr) {
    match e
    case Lit(_) => false
    case Var(_) => false
    case Add(l, r) => MayReturnExpr(l) || MayReturnExpr(r)
    case Try(e1, _, fb) => MayReturnExpr(e1) || (fb.Some? && MayReturnExpr(fb.value))
    case TryUntyped(e1, fb) => MayReturnExpr(e1) || (fb.Some? && MayReturnExpr(fb.value))
    case CatchUnwrap(e1, _, _, b) => MayReturnExpr(e1) || MayReturn(b)
    case Propagate(_, _, _, _, _) => true
    case PropagateVoid(_, _, _) => true
    case Build(_, p, _) => p.Some? && MayReturnExpr(p.value)
    case MatchOn(e1, _, arms) => MayReturnExpr(e1) || MayReturnArms(arms)
  }

  predicate MayReturnArms(arms: seq<Arm>)
    decreases arms
  {
    arms != [] && (MayReturnArm(arms[0]) || MayReturnArms(arms[1..]))
  }

  predicate MayReturnArm(a: Arm)
    decreases a
  {
    (a.guard.Some? && MayReturnExpr(a.guard.value)) || MayReturnBody(a.body)
  }

  predicate MayReturnBody(b: Body) {
    MayReturn(b.pre) || (b.value.Some? && MayReturnExpr(b.value.value)) || MayReturn(b.post)
  }

  // ---------------------------------------------------------------- throws

  /** The static type of a throw's operand, and its parent. */
  type ThrownType = (string, Option<string>)

  /** The types whose errors may leave a statement; a try body's errors do not. */
  function Throws(st: Stmt): set<ThrownType> {
    match st
    case Skip => {}
    case Seq(a, b) => Throws(a) + Throws(b)
    case Do(e) => ThrowsExpr(e)
    case Assign(_, e) => ThrowsExpr(e)
    case Print(e) => ThrowsExpr(e)
    case If(c, t, f) => ThrowsExpr(c) + Throws(t) + Throws(f)
    case ThrowStmt(e, name, parent, _, _, _) => ThrowsExpr(e) + {(name, parent)}
    case Return(e) => ThrowsExpr(e)
    case TryCatch(_, cs, f) => ThrowsCatches(cs) + Throws(f)
  }

  function ThrowsCatches(cs: Catches): set<ThrownType> {
    if cs.NoMore? then {} else Throws(cs.body) + ThrowsCatches(cs.rest)
  }

  function ThrowsExpr(e: Expr): set<ThrownType> {
    match e
    case Lit(_) => {}
    case Var(_) => {}
    case Add(l, r) => ThrowsExpr(l) + ThrowsExpr(r)
    case Try(_, _, fb) => if fb.Some? then ThrowsExpr(fb.value) else {}
    case TryUntyped(e1, fb) => ThrowsExpr(e1) + if fb.Some? then ThrowsExpr(fb.value) else {}
    case CatchUnwrap(e1, _, _, b) => ThrowsExpr(e1) + Throws(b)
    case Propagate(e1, _, _, _, b) => ThrowsExpr(e1) + Throws(b)
    case PropagateVoid(e1, _, b) => ThrowsExpr(e1) + Throws(b)
    case Build(_, p, _) => if p.Some? then ThrowsExpr(p.value) else {}
    case MatchOn(e1, _, arms) => ThrowsExpr(e1) + ThrowsArms(arms)
  }

  function ThrowsArms(arms: seq<Arm>): set<ThrownType>
    decreases arms
  {
    if arms == [] then {} else ThrowsArm(arms[0]) + ThrowsArms(arms[1..])
  }

  function ThrowsArm(a: Arm): set<ThrownType>
    decreases a
  {
    (if a.guard.Some? then ThrowsExpr(a.guard.value) else {}) + ThrowsBody(a.body)
  }

  function ThrowsBody(b: Body): set<ThrownType> {
    Throws(b.pre) + (if b.value.Some? then ThrowsExpr(b.value.value) else {}) + Throws(b.post)
  }

  /** The error carries the hashes of this type and its parent. */
  predicate Carries(e: Error, t: ThrownType) { e.typeId == Fnv(t.0) && e.parentId == ParentHash(t.1) }

  ghost predicate OneOf(e: Error, ts: set<ThrownType>) { exists t :: t in ts && Carries(e, t) }

  // ---------------------------------------------------------------- rules

  /** The clause comparing type names would select: the thrown one or its parent. */
  function FirstClause(cs: Catches, t: ThrownType): Option<(nat, Stmt)> {
    if cs.NoMore? then None
    else if cs.typeName == t.0 || t.1 == Some(cs.typeName) then Some((cs.slot, cs.body))
    else FirstClause(cs.rest, t)
  }

  /** Three rules a program may keep, each checked at every node of its text.
      Caught: a try has clauses, and one for every type its body may throw; a match
      has arms, and the last one no guard.
      Balanced: no `return` or `?` leaves a protected operand or body, and neither
      they nor a `throw` leave a catch or finally block.
      Faithful: nothing leaves a try body or its clauses past a `finally`; no pattern
      is `V(_)`; an arm's returned operand is effectless; operands have types. */
  datatype Rule = Caught | Balanced | Faithful

  predicate TryKeeps(rule: Rule, body: Stmt, cs: Catches, final: Stmt) {
    match rule
    case Caught => cs.Catch? && forall t | t in Throws(body) :: FirstClause(cs, t).Some?
    case Balanced =>
      !MayReturn(body) && !MayReturnCatches(cs) && ThrowsCatches(cs) == {} && !MayReturn(final) && Throws(final) == {}
    case Faithful => final.Skip? || (!MayReturn(body) && !MayReturnCatches(cs) && ThrowsCatches(cs) == {})
  }

  predicate BodyKeeps(rule: Rule, b: Body) {
    rule.Faithful? && b.value.Some? && b.post == Return(b.value.value) ==> Effectless(b.value.value)
  }

  predicate Keeps(rule: Rule, st: Stmt) {
    match st
    case Skip => true
    case Seq(a, b) => Keeps(rule, a) && Keeps(rule, b)
    case Do(e) => KeepsExpr(rule, e)
    case Assign(_, e) => KeepsExpr(rule, e)
    case Print(e) => KeepsExpr(rule, e)
    case If(c, t, f) => KeepsExpr(rule, c) && Keeps(rule, t) && Keeps(rule, f)
    case ThrowStmt(e, _, _, _, _, _) => KeepsExpr(rule, e)
    case Return(e) => KeepsExpr(rule, e)
    case TryCatch(b, cs, f) => TryKeeps(rule, b, cs, f) && Keeps(rule, b) && KeepsCatches(rule, cs) && Keeps(rule, f)
  }

  predicate KeepsCatches(rule: Rule, cs: Catches) {
    cs.Catch? ==> Keeps(rule, cs.body) && KeepsCatches(rule, cs.rest)
  }

  predicate KeepsExpr(rule: Rule, e: Expr) {
    match e
    case Lit(_) => true
    case Var(_) => true
    case Add(l, r) => KeepsExpr(rule, l) && KeepsExpr(rule, r)
    case Try(e1, _, fb) =>
      && KeepsExpr(rule, e1) && (fb.Some? ==> KeepsExpr(rule, fb.value))
      && (rule.Balanced? ==> !MayReturnExpr(e1))
    case TryUntyped(e1, fb) =>
      && KeepsExpr(rule, e1) && (fb.Some? ==> KeepsExpr(rule, fb.value))
      && (rule.Faithful? ==> fb.None? && ThrowsExpr(e1) == {})
    case CatchUnwrap(e1, _, _, b) => KeepsExpr(rule, e1) && Keeps(rule, b)
    case Propagate(e1, _, _, _, b) => KeepsExpr(rule, e1) && Keeps(rule, b)
    case PropagateVoid(e1, _, b) => KeepsExpr(rule, e1) && Keeps(rule, b)
    case Build(_, p, _) => p.Some? ==> KeepsExpr(rule, p.value)
    case MatchOn(e1, _, arms) =>
      && KeepsExpr(rule, e1) && KeepsArms(rule, arms)
      && (rule.Caught? ==> arms != [] && arms[|arms| - 1].guard.None?)
  }

  predicate KeepsArms(rule: Rule, arms: seq<Arm>)
    decreases rule, arms
  {
    arms != [] ==> KeepsArm(rule, arms[0]) && KeepsArms(rule, arms[1..])
  }

  predicate KeepsArm(rule: Rule, a: Arm)
    decreases rule, a
  {
    && (rule.Faithful? ==> !HasIgnored(a.patterns))
    && (a.guard.Some? ==> KeepsExpr(rule, a.guard.value)) && KeepsBody(rule, a.body)
  }

  predicate KeepsBody(rule: Rule, b: Body) {
    BodyKeeps(rule, b) && Keeps(rule, b.pre) && (b.value.Some? ==> KeepsExpr(rule, b.value.value)) && Keeps(rule, b.post)
  }

  // ---------------------------------------------------------------- every run

  ghost predicate Lost(r: Res) { r.o.Hung? || r.o.Broken? }

  ghost predicate Restored(r: Res) { r.leaked == 0 && r.dangling == 0 }

  ghost predicate Clean(r: Res, mayReturn: bool, throws: set<ThrownType>, caught: bool, balanced: bool) {
    && (r.o.Returned? ==> mayReturn)
    && (r.o.Thrown? ==> OneOf(r.o.e, throws))
    && (!r.o.Returned? ==> r.dangling == 0)
    && (caught ==> !Lost(r))
    && (balanced ==> Restored(r))
  }

  ghost predicate CleanStmt(st: Stmt, r: Res) {
    Clean(r, MayReturn(st), Throws(st), Keeps(Caught, st), Keeps(Balanced, st))
  }

  ghost predicate CleanExpr(e: Expr, r: Res) {
    Clean(r, MayReturnExpr(e), ThrowsExpr(e), KeepsExpr(Caught, e), KeepsExpr(Balanced, e))
  }

  ghost predicate CleanCatches(cs: Catches, r: Res) {
    Clean(r, MayReturnCatches(cs), ThrowsCatches(cs), KeepsCatches(Caught, cs), KeepsCatches(Balanced, cs))
  }

  /** Only what is declared may leave a statement; where every error has a clause the
      run is never lost; where no frame is left behind in the text, none is in any run. */
  lemma {:induction false} StmtClean(st: Stmt, s: State)
    ensures CleanStmt(st, EvalStmt(st, s))
    decreases st, 1
  {
    hide Fnv, ThrowSite, Stamped, Carries;
    match st
    case Skip =>
    case Seq(a, b) => StmtClean(a, s); StmtClean(b, EvalStmt(a, s).s);
    case Do(e) => ExprClean(e, s);
    case Assign(_, e) => ExprClean(e, s);
    case Print(e) => ExprClean(e, s);
    case If(c, t, f) =>
      ExprClean(c, s);
      StmtClean(t, EvalExpr(c, s).s);
      StmtClean(f, EvalExpr(c, s).s);
    case ThrowStmt(e, _, _, _, _, _) =>
      ExprClean(e, s);
      ThrowClean(st, s);
    case Return(e) => ExprClean(e, s);
    case TryCatch(_, _, _) => TryCatchClean(st, s);
  }

  lemma ThrowClean(st: Stmt, s: State)
    requires st.ThrowStmt? && CleanExpr(st.e, EvalExpr(st.e, s))
    ensures CleanStmt(st, EvalStmt(st, s))
  {
    hide Fnv;
    assert (st.typeName, st.parent) in Throws(st);
  }

  lemma {:induction false} TryCatchClean(st: Stmt, s: State)
    requires st.TryCatch?
    ensures CleanStmt(st, EvalStmt(st, s))
    decreases st, 0
  {
    hide Fnv, FirstClause, Carries;
    var r := EvalStmt(st.body, s);
    StmtClean(st.body, s);
    if r.o.Normal? {
      StmtClean(st.final, r.s);
    } else if r.o.Thrown? {
      CatchesClean(st.catches, r.o.e, r.s);
      if TryKeeps(Caught, st.body, st.catches, st.final) { SomeClause(st.body, st.catches, r.o.e, r.s); }
      var h := EvalCatches(st.catches, r.o.e, r.s);
      if h.Some? { StmtClean(st.final, h.value.s); }
    }
  }

  lemma {:induction false} CatchesClean(cs: Catches, e: Error, s: State)
    ensures var h := EvalCatches(cs, e, s); h.Some? ==> CleanCatches(cs, h.value)
    decreases cs
  {
    if cs.Catch? {
      StmtClean(cs.body, s.Put(cs.slot, Err(e)));
      CatchesClean(cs.rest, e, s);
    }
  }

  /** A clause found by name is found by hash, or one before it is. */
  lemma {:induction false} ClauseMatches(cs: Catches, e: Error, t: ThrownType, s: State)
    requires FirstClause(cs, t).Some? && Carries(e, t)
    ensures EvalCatches(cs, e, s).Some?
  {
    hide Fnv, EvalStmt;
    if cs.typeName != t.0 && t.1 != Some(cs.typeName) { ClauseMatches(cs.rest, e, t, s); }
  }

  lemma SomeClause(body: Stmt, cs: Catches, e: Error, s: State)
    requires OneOf(e, Throws(body)) && forall t | t in Throws(body) :: FirstClause(cs, t).Some?
    ensures EvalCatches(cs, e, s).Some?
  {
    hide Carries, FirstClause, EvalCatches;
    var t :| t in Throws(body) && Carries(e, t);
    ClauseMatches(cs, e, t, s);
  }

  lemma {:induction false} ExprClean(e: Expr, s: State)
    ensures CleanExpr(e, EvalExpr(e, s))
    decreases e, 1
  {
    match e
    case Lit(_) =>
    case Var(_) =>
    case Add(l, r) => ExprClean(l, s); ExprClean(r, EvalExpr(l, s).s);
    case Try(_, _, _) => TryClean(e, s);
    case TryUntyped(e1, fb) =>
      ExprClean(e1, s);
      if fb.Some? { ExprClean(fb.value, EvalExpr(e1, s).s); }
    case CatchUnwrap(_, _, _, _) => BlockClean(e, s);
    case Propagate(_, _, _, _, _) => BlockClean(e, s);
    case PropagateVoid(_, _, _) => BlockClean(e, s);
    case Build(_, p, _) => if p.Some? { ExprClean(p.value, s); }
    case MatchOn(e1, k, arms) =>
      ExprClean(e1, s);
      var a := EvalExpr(e1, s);
      if a.o.Normal? { ArmsClean(k, arms, a.o.v, a.s); }
  }

  /** Expressions with a block for the error variant. */
  lemma {:induction false} BlockClean(e: Expr, s: State)
    requires e.CatchUnwrap? || e.Propagate? || e.PropagateVoid?
    ensures CleanExpr(e, EvalExpr(e, s))
    decreases e, 0
  {
    ExprClean(e.e, s);
    var a := EvalExpr(e.e, s);
    if a.o.Normal? {
      match e
      case CatchUnwrap(_, _, it, block) =>
        StmtClean(block, if it.Some? then a.s.Put(it.value, PayloadOf(a.o.v)) else a.s);
      case Propagate(_, _, _, _, context) => StmtClean(context, a.s);
      case PropagateVoid(_, _, context) => StmtClean(context, a.s);
    }
  }

  lemma {:induction false} TryClean(e: Expr, s: State)
    requires e.Try?
    ensures CleanExpr(e, EvalExpr(e, s))
    decreases e, 0
  {
    ExprClean(e.e, s);
    var a := EvalExpr(e.e, s);
    var f := EvalFallback(e.fallback, a.s);
    if e.fallback.Some? { ExprClean(e.fallback.value, a.s); }
    assert EvalExpr(e, s) in
      {a, a.(o := Normal(if a.o.Normal? then PayloadOf(a.o.v) else Undef)), Then(a, f), LeaveTry(a)};
  }

  lemma {:induction false} ArmsClean(k: Kind, arms: seq<Arm>, x: Value, s: State)
    ensures Clean(EvalArms(k, arms, x, s), MayReturnArms(arms), ThrowsArms(arms),
                  KeepsArms(Caught, arms) && arms != [] && arms[|arms| - 1].guard.None?, KeepsArms(Balanced, arms))
    decreases arms
  {
    hide TryArm, ArmMatches;
    if arms != [] {
      ArmClean(k, arms[0], x, s);
      match TryArm(k, arms[0], x, s)
      case Taken(_) =>
      case Missed(g) =>
        if |arms| > 1 { ArmsClean(k, arms[1..], x, g.s); }
    }
  }

  lemma {:induction false} ArmClean(k: Kind, a: Arm, x: Value, s: State)
    ensures match TryArm(k, a, x, s)
      case Taken(r) => Clean(r, MayReturnArm(a), ThrowsArm(a), KeepsArm(Caught, a), KeepsArm(Balanced, a))
      case Missed(g) =>
        g.o.Normal? && g.dangling == 0 && (KeepsArm(Balanced, a) ==> Restored(g)) && (a.guard.None? ==> !ArmMatches(k, a, x))
    decreases a
  {
    hide ArmMatches, BindOf, EvalBody;
    var b := Bound(k, a, x, s);
    if a.guard.Some? {
      ExprClean(a.guard.value, b);
      BodyClean(a.body, Bound(k, a, x, EvalExpr(a.guard.value, b).s));
    } else {
      BodyClean(a.body, b);
    }
  }

  lemma {:induction false} BodyClean(b: Body, s: State)
    ensures Clean(EvalBody(b, s), MayReturnBody(b), ThrowsBody(b), KeepsBody(Caught, b), KeepsBody(Balanced, b))
    decreases b
  {
    StmtClean(b.pre, s);
    var r := EvalStmt(b.pre, s);
    if b.value.None? {
      StmtClean(b.post, r.s);
    } else {
      ExprClean(b.value.value, r.s);
      StmtClean(b.post, EvalExpr(b.value.value, r.s).s);
    }
    assert Clean(EvalRest(b, r.s), MayReturnBody(b), ThrowsBody(b), KeepsBody(Caught, b), KeepsBody(Balanced, b));
  }
}
