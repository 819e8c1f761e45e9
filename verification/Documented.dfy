/** What the documentation says a program does (docs/language/error-handling.md,
    control-flow.md), and when the compiled program does that: a `finally` block runs
    on every way out of its statement, and an error goes on to the next handler when
    no clause matches it. A pattern `V(_)` is for the variant V (grammar rule
    `pattern`), the operand of a `ret` is evaluated once, and `try e or f` yields e's
    value or, if e fails, f's. */
module Documented {
  import opened Hashes
  import opened Ir
  import opened Source
  import opened Wrappers
  import opened Match
  import opened Discipline

  /** How a statement or expression ends. */
  datatype Ending = Goes(v: Value) | Raises(e: Error) | Leaves(v: Value)

  datatype Meaning = Meaning(o: Ending, s: State)

  function DocExpr(e: Expr, s: State): Meaning {
    match e
    case Lit(v) => Meaning(Goes(v), s)
    case Var(x) => Meaning(Goes(s.Slot(x)), s)
    case Add(l, r) =>
      var a := DocExpr(l, s);
      if !a.o.Goes? then a else
      var b := DocExpr(r, a.s);
      if b.o.Goes? then b.(o := Goes(Apply(Add32, a.o.v, b.o.v))) else b
    case Try(e1, kind, fb) =>
      var a := DocExpr(e1, s);
      if a.o.Raises? then DocFallback(fb, a.s)
      else if !a.o.Goes? || kind.Plain? then a
      else if TagOf(a.o.v) == kind.errTag then DocFallback(fb, a.s)
      else a.(o := Goes(PayloadOf(a.o.v)))
    case TryUntyped(e1, fb) =>
      var a := DocExpr(e1, s);
      if a.o.Raises? then DocFallback(fb, a.s) else a
    case CatchUnwrap(e1, tag, it, block) =>
      var a := DocExpr(e1, s);
      if !a.o.Goes? then a
      else if TagOf(a.o.v) != tag then a.(o := Goes(PayloadOf(a.o.v)))
      else
        var b := DocStmt(block, if it.Some? then a.s.Put(it.value, PayloadOf(a.o.v)) else a.s);
        if b.o.Goes? then b.(o := Goes(NULL)) else b
    case Propagate(e1, tag, carry, retTag, context) =>
      var a := DocExpr(e1, s);
      if !a.o.Goes? then a
      else if TagOf(a.o.v) != tag then a.(o := Goes(PayloadOf(a.o.v)))
      else
        var b := DocStmt(context, a.s);
        if b.o.Goes? then b.(o := Leaves(Tagged(retTag, Carried(carry, PayloadOf(a.o.v))))) else b
    case PropagateVoid(e1, tag, context) =>
      var a := DocExpr(e1, s);
      if !a.o.Goes? then a
      else if TagOf(a.o.v) != tag then a.(o := Goes(Undef))
      else
        var b := DocStmt(context, a.s);
        if b.o.Goes? then b.(o := Leaves(Undef)) else b
    case Build(tag, None, carry) => Meaning(Goes(Tagged(tag, Carried(carry, Undef))), s)
    case Build(tag, Some(e1), carry) =>
      var a := DocExpr(e1, s);
      if a.o.Goes? then a.(o := Goes(Tagged(tag, Carried(carry, a.o.v)))) else a
    case MatchOn(e1, k, arms) =>
      var a := DocExpr(e1, s);
      if a.o.Goes? then DocArms(k, arms, a.o.v, a.s) else a
  }

  function DocFallback(fb: Option<Expr>, s: State): Meaning {
    match fb case None => Meaning(Goes(NULL), s) case Some(e) => DocExpr(e, s)
  }

  function DocStmt(st: Stmt, s: State): Meaning
    decreases st, 0
  {
    match st
    case Skip => Meaning(Goes(Undef), s)
    case Seq(a, b) =>
      var r := DocStmt(a, s);
      if r.o.Goes? then DocStmt(b, r.s) else r
    case Do(e) =>
      var r := DocExpr(e, s);
      if r.o.Goes? then r.(o := Goes(Undef)) else r
    case Assign(x, e) =>
      var r := DocExpr(e, s);
      if r.o.Goes? then Meaning(Goes(Undef), r.s.Put(x, r.o.v)) else r
    case Print(e) =>
      var r := DocExpr(e, s);
      if r.o.Goes? then Meaning(Goes(Undef), r.s.(out := r.s.out + [r.o.v])) else r
    case If(c, t, f) =>
      var r := DocExpr(c, s);
      if !r.o.Goes? then r else if Truth(r.o.v) then DocStmt(t, r.s) else DocStmt(f, r.s)
    case ThrowStmt(e, _, _, _, _, _) =>
      var r := DocExpr(e, s);
      if r.o.Goes? then r.(o := Raises(Stamped(ErrorOf(r.o.v), ThrowSite(st)))) else r
    case TryCatch(body, catches, final) =>
      var b := DocStmt(body, s);
      var h := if b.o.Raises? then DocCatches(catches, b.o.e, b.s) else None;
      Finally(if h.Some? then h.value else b, final)
    case Return(e) =>
      var r := DocExpr(e, s);
      if r.o.Goes? then r.(o := Leaves(r.o.v)) else r
  }

  /** The block runs however the statement was left, and what was going on goes on,
      unless the block ends abruptly itself. */
  function Finally(h: Meaning, final: Stmt): Meaning
    decreases final, 1
  {
    var f := DocStmt(final, h.s);
    if f.o.Goes? && !h.o.Goes? then Meaning(h.o, f.s) else f
  }

  function DocCatches(cs: Catches, e: Error, s: State): Option<Meaning> {
    match cs
    case NoMore => None
    case Catch(name, x, body, rest) =>
      if Matches(name, e) then Some(DocStmt(body, s.Put(x, Err(e)))) else DocCatches(rest, e, s)
  }

  datatype DocTried = Missed(s: State) | Taken(d: Meaning)

  function DocArm(k: Kind, a: Arm, x: Value, s: State): DocTried
    decreases a
  {
    var w := a.(patterns := AsWritten(a.patterns));
    if !ArmMatches(k, w, x) then DocTried.Missed(s)
    else if a.guard.None? then DocTried.Taken(DocBody(a.body, Bound(k, w, x, s)))
    else
      var g := DocExpr(a.guard.value, Bound(k, w, x, s));
      if !g.o.Goes? then DocTried.Taken(g)
      else if Truth(g.o.v) then DocTried.Taken(DocBody(a.body, Bound(k, w, x, g.s)))
      else DocTried.Missed(g.s)
  }

  /** No documentation says what the value is when no arm is taken. */
  function DocArms(k: Kind, arms: seq<Arm>, x: Value, s: State): Meaning
    decreases arms
  {
    if arms == [] then Meaning(Goes(Undef), s)
    else
      match DocArm(k, arms[0], x, s)
      case Taken(d) => d
      case Missed(t) => DocArms(k, arms[1..], x, t)
  }

  function DocBody(b: Body, s: State): Meaning
    decreases b, 1
  {
    var r := DocStmt(b.pre, s);
    if r.o.Goes? then DocRest(b, r.s) else r
  }

  function DocRest(b: Body, s: State): Meaning
    decreases b, 0
  {
    if b.value.None? then DocKeep(DocStmt(b.post, s), Undef)
    else if b.post == Return(b.value.value) then DocStmt(b.post, s)
    else
      var v := DocExpr(b.value.value, s);
      if v.o.Goes? then DocKeep(DocStmt(b.post, v.s), v.o.v) else v
  }

  function DocKeep(d: Meaning, v: Value): Meaning { if d.o.Goes? then d.(o := Goes(v)) else d }

  // ---------------------------------------------------------------- agreement

  /** The same ending, memory and output. */
  ghost predicate Agree(r: Res, d: Meaning) {
    && r.s == d.s
    && r.o == match d.o case Goes(v) => Normal(v) case Raises(e) => Thrown(e) case Leaves(v) => Returned(v)
  }

  ghost predicate AgreeOn(cs: Catches, e: Error, s: State) {
    var h, d := EvalCatches(cs, e, s), DocCatches(cs, e, s);
    (h.Some? <==> d.Some?) && (h.Some? ==> Agree(h.value, d.value))
  }

  /** The compiled program does what is documented if its text keeps the rules Caught
      and Faithful, in every run. */
  lemma {:induction false} StmtAgrees(st: Stmt, s: State)
    requires Keeps(Caught, st) && Keeps(Faithful, st)
    ensures Agree(EvalStmt(st, s), DocStmt(st, s))
    decreases st, 1
  {
    match st
    case Skip =>
    case Seq(a, b) => StmtAgrees(a, s); StmtAgrees(b, EvalStmt(a, s).s);
    case Do(e) => ExprAgrees(e, s);
    case Assign(_, e) => ExprAgrees(e, s);
    case Print(e) => ExprAgrees(e, s);
    case If(c, t, f) =>
      ExprAgrees(c, s);
      StmtAgrees(t, EvalExpr(c, s).s);
      StmtAgrees(f, EvalExpr(c, s).s);
    case ThrowStmt(e, _, _, _, _, _) => ExprAgrees(e, s);
    case Return(e) => ExprAgrees(e, s);
    case TryCatch(_, _, _) => TryCatchAgrees(st, s);
  }

  lemma {:induction false} TryCatchAgrees(st: Stmt, s: State)
    requires st.TryCatch? && Keeps(Caught, st) && Keeps(Faithful, st)
    ensures Agree(EvalStmt(st, s), DocStmt(st, s))
    decreases st, 0
  {
    hide Fnv, FirstClause, Carries;
    var r := EvalStmt(st.body, s);
    StmtAgrees(st.body, s);
    StmtClean(st.body, s);
    StmtAgrees(st.final, r.s);
    if r.o.Thrown? {
      SomeClause(st.body, st.catches, r.o.e, r.s);
      CatchesAgree(st.catches, r.o.e, r.s);
      CatchesClean(st.catches, r.o.e, r.s);
      StmtAgrees(st.final, EvalCatches(st.catches, r.o.e, r.s).value.s);
    }
  }

  lemma {:induction false} CatchesAgree(cs: Catches, e: Error, s: State)
    requires KeepsCatches(Caught, cs) && KeepsCatches(Faithful, cs)
    ensures AgreeOn(cs, e, s)
    decreases cs
  {
    if cs.Catch? {
      StmtAgrees(cs.body, s.Put(cs.slot, Err(e)));
      CatchesAgree(cs.rest, e, s);
    }
  }

  lemma {:induction false} ExprAgrees(e: Expr, s: State)
    requires KeepsExpr(Caught, e) && KeepsExpr(Faithful, e)
    ensures Agree(EvalExpr(e, s), DocExpr(e, s))
    decreases e
  {
    match e
    case Lit(_) =>
    case Var(_) =>
    case Add(l, r) => ExprAgrees(l, s); ExprAgrees(r, EvalExpr(l, s).s);
    case Try(e1, _, fb) =>
      ExprAgrees(e1, s);
      if fb.Some? { ExprAgrees(fb.value, EvalExpr(e1, s).s); }
    case TryUntyped(e1, _) => ExprAgrees(e1, s); ExprClean(e1, s);
    case CatchUnwrap(e1, _, it, block) =>
      ExprAgrees(e1, s);
      var a := EvalExpr(e1, s);
      if a.o.Normal? { StmtAgrees(block, if it.Some? then a.s.Put(it.value, PayloadOf(a.o.v)) else a.s); }
    case Propagate(e1, _, _, _, context) => ExprAgrees(e1, s); StmtAgrees(context, EvalExpr(e1, s).s);
    case PropagateVoid(e1, _, context) => ExprAgrees(e1, s); StmtAgrees(context, EvalExpr(e1, s).s);
    case Build(_, p, _) => if p.Some? { ExprAgrees(p.value, s); }
    case MatchOn(e1, k, arms) =>
      ExprAgrees(e1, s);
      var a := EvalExpr(e1, s);
      if a.o.Normal? { ArmsAgree(k, arms, a.o.v, a.s); }
  }

  lemma {:induction false} ArmsAgree(k: Kind, arms: seq<Arm>, x: Value, s: State)
    requires KeepsArms(Caught, arms) && KeepsArms(Faithful, arms) && arms != [] && arms[|arms| - 1].guard.None?
    ensures Agree(EvalArms(k, arms, x, s), DocArms(k, arms, x, s))
    decreases arms
  {
    hide TryArm, DocArm, ArmMatches;
    ArmAgrees(k, arms[0], x, s);
    ArmClean(k, arms[0], x, s);
    match TryArm(k, arms[0], x, s)
    case Taken(_) =>
    case Missed(g) =>
      if |arms| > 1 { ArmsAgree(k, arms[1..], x, g.s); }
  }

  lemma {:induction false} ArmAgrees(k: Kind, a: Arm, x: Value, s: State)
    requires KeepsArm(Caught, a) && KeepsArm(Faithful, a)
    ensures match TryArm(k, a, x, s)
      case Taken(r) => DocArm(k, a, x, s).Taken? && Agree(r, DocArm(k, a, x, s).d)
      case Missed(g) =>
        && DocArm(k, a, x, s) == DocTried.Missed(g.s)
        && (!ArmMatches(k, a, x) ==> g.o == Normal(Undef))
    decreases a
  {
    hide ArmMatches, BindOf, EvalBody, DocBody;
    NothingIgnored(a.patterns);
    var b := Bound(k, a, x, s);
    if a.guard.Some? {
      ExprAgrees(a.guard.value, b);
      BodyAgrees(a.body, Bound(k, a, x, EvalExpr(a.guard.value, b).s));
    } else {
      BodyAgrees(a.body, b);
    }
  }

  lemma {:induction false} BodyAgrees(b: Body, s: State)
    requires KeepsBody(Caught, b) && KeepsBody(Faithful, b)
    ensures Agree(EvalBody(b, s), DocBody(b, s))
    decreases b
  {
    StmtAgrees(b.pre, s);
    var r := EvalStmt(b.pre, s);
    if r.o.Normal? {
      if b.value.None? {
        StmtAgrees(b.post, r.s);
        assert Agree(EvalRest(b, r.s), DocRest(b, r.s));
      } else if b.post == Return(b.value.value) {
        EffectlessReturns(b.pre, b.value.value, s);
        assert b == Returns(b.pre, b.value.value);
        StmtAgrees(b.post, r.s);
        assert EvalBody(b, s) == Then(r, EvalStmt(b.post, r.s));
      } else {
        ExprAgrees(b.value.value, r.s);
        StmtAgrees(b.post, EvalExpr(b.value.value, r.s).s);
        assert Agree(EvalRest(b, r.s), DocRest(b, r.s));
      }
    }
  }

  // ---------------------------------------------------------------- exactly when

  /** Skipping the block makes no difference here. */
  ghost predicate Idle(final: Stmt, o: Outcome, s: State) {
    var f := EvalStmt(final, s);
    f.s == s && (f.o.Normal? || f.o == o)
  }

  /** Given how the body ended: no `finally` block that mattered was passed by. */
  ghost predicate NothingMissed(r: Res, cs: Catches, final: Stmt) {
    match r.o
    case Normal(_) => true
    case Thrown(err) =>
      var h := EvalCatches(cs, err, r.s);
      h.Some? && (h.value.o.Normal? || Idle(final, h.value.o, h.value.s))
    case _ => Idle(final, r.o, r.s)
  }

  /** A statement whose parts do what is documented does so itself exactly when its
      body ends normally, or returns and the `finally` block would have been idle, or
      throws to a clause that ends normally or before an idle `finally`. */
  lemma TryCatchIff(body: Stmt, cs: Catches, final: Stmt, s: State)
    requires Agree(EvalStmt(body, s), DocStmt(body, s))
    requires forall t :: Agree(EvalStmt(final, t), DocStmt(final, t))
    requires forall e, t :: AgreeOn(cs, e, t)
    ensures Agree(EvalStmt(TryCatch(body, cs, final), s), DocStmt(TryCatch(body, cs, final), s))
      <==> NothingMissed(EvalStmt(body, s), cs, final)
  {
    hide EvalCatches, DocCatches;
    var r := EvalStmt(body, s);
    var st := TryCatch(body, cs, final);
    if r.o.Thrown? {
      var h := EvalCatches(cs, r.o.e, r.s);
      assert AgreeOn(cs, r.o.e, r.s);
      if h.Some? {
        assert EvalStmt(st, s).o == (if h.value.o.Normal? then EvalStmt(final, h.value.s).o else h.value.o);
        assert DocStmt(st, s) == Finally(DocCatches(cs, r.o.e, r.s).value, final);
        assert Agree(EvalStmt(final, h.value.s), DocStmt(final, h.value.s));
      }
    } else {
      assert DocStmt(st, s) == Finally(DocStmt(body, s), final);
      assert Agree(EvalStmt(final, r.s), DocStmt(final, r.s));
    }
  }

  /** A run that is lost is never what is documented. */
  lemma LostDiffers(st: Stmt, s: State)
    requires Lost(EvalStmt(st, s))
    ensures !Agree(EvalStmt(st, s), DocStmt(st, s))
  {
  }
}
